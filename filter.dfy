/**
 * The four drop rules the visitor applies to each heading, in the order the
 * source checks them, and the indices of the headings that survive them.
 */
module Filter {
  import opened Wrappers
  import opened TocTypes

  /** The rule that dropped a heading. */
  datatype DropRule = MaxDepthRule | SkipLevelsRule | SkipParentsRule | ExcludeRule

  /** The exclusion pattern, if any, matches the whole text. */
  predicate Excluded(s: Settings, text: string) {
    s.exclude.Some? && s.exclude.value(text)
  }

  /** The first rule that drops `h`, checked in the source's order, or `None`. */
  function DropReason(s: Settings, h: HeadingRec): Option<DropRule> {
    if h.depth > s.maxDepth then Some(MaxDepthRule)
    else if h.depth in s.skipLevels then Some(SkipLevelsRule)
    else if h.parent != Root && h.parent in s.skipParents then Some(SkipParentsRule)
    else if Excluded(s, h.text) then Some(ExcludeRule)
    else None
  }

  /** A rule is reported exactly when it applies and no earlier rule does. */
  lemma DropReasonIsFirstRule(s: Settings, h: HeadingRec)
    ensures DropReason(s, h) == Some(MaxDepthRule) <==> h.depth > s.maxDepth
    ensures DropReason(s, h) == Some(SkipLevelsRule) <==> h.depth <= s.maxDepth && h.depth in s.skipLevels
    ensures DropReason(s, h) == Some(SkipParentsRule) <==>
              h.depth <= s.maxDepth && h.depth !in s.skipLevels && h.parent != Root && h.parent in s.skipParents
    ensures DropReason(s, h) == Some(ExcludeRule) <==>
              h.depth <= s.maxDepth && h.depth !in s.skipLevels &&
              (h.parent == Root || h.parent !in s.skipParents) && Excluded(s, h.text)
  {
  }

  predicate Kept(s: Settings, h: HeadingRec) {
    DropReason(s, h).None?
  }

  /**
   * A heading survives exactly when all four conditions hold; the order of
   * the checks only decides which rule is reported.
   */
  lemma KeptIff(s: Settings, h: HeadingRec)
    ensures Kept(s, h) <==>
              h.depth <= s.maxDepth &&
              h.depth !in s.skipLevels &&
              (h.parent == Root || h.parent !in s.skipParents) &&
              !Excluded(s, h.text)
  {
  }

  /** A heading whose parent is the document is never dropped for its parent. */
  lemma RootIsNeverSkipped(s: Settings, h: HeadingRec)
    requires h.parent == Root
    ensures DropReason(s, h) != Some(SkipParentsRule)
    ensures Kept(s, h) <==>
              h.depth <= s.maxDepth && h.depth !in s.skipLevels && !Excluded(s, h.text)
  {
  }

  /**
   * The positions in `hs` of the headings that are kept, in increasing
   * order: kept headings keep their document order, and every kept
   * position is listed.
   */
  function KeptIndices(s: Settings, hs: seq<HeadingRec>): (r: seq<nat>)
    ensures |r| <= |hs|
    ensures forall k :: 0 <= k < |r| ==> r[k] < |hs| && Kept(s, hs[r[k]])
    ensures forall k1, k2 :: 0 <= k1 < k2 < |r| ==> r[k1] < r[k2]
    ensures forall j :: 0 <= j < |hs| && Kept(s, hs[j]) ==> j in r
    decreases |hs|
  {
    if hs == [] then []
    else
      var last := |hs| - 1;
      KeptIndices(s, hs[..last]) + (if Kept(s, hs[last]) then [last] else [])
  }

  /** The kept headings themselves, in document order. */
  function KeptHeadings(s: Settings, hs: seq<HeadingRec>): seq<HeadingRec>
    decreases |hs|
  {
    if hs == [] then []
    else
      var last := |hs| - 1;
      KeptHeadings(s, hs[..last]) + (if Kept(s, hs[last]) then [hs[last]] else [])
  }

  /** The k-th kept heading is the heading at the k-th kept position. */
  lemma {:induction false} KeptHeadingsAt(s: Settings, hs: seq<HeadingRec>)
    ensures |KeptHeadings(s, hs)| == |KeptIndices(s, hs)|
    ensures forall k :: 0 <= k < |KeptHeadings(s, hs)| ==>
              KeptHeadings(s, hs)[k] == hs[KeptIndices(s, hs)[k]]
    decreases |hs|
  {
    if hs != [] {
      var last := |hs| - 1;
      var prefix := hs[..last];
      KeptHeadingsAt(s, prefix);
      var kh, ki := KeptHeadings(s, prefix), KeptIndices(s, prefix);
      forall k | 0 <= k < |kh|
        ensures KeptHeadings(s, hs)[k] == hs[KeptIndices(s, hs)[k]]
      {
        assert kh[k] == prefix[ki[k]];
      }
    }
  }

  /**
   * Filtering commutes with concatenation: the headings kept from a
   * document are those kept from its first part followed by those kept from
   * the rest. In particular a dropped heading leaves no trace.
   */
  lemma {:induction false} KeptHeadingsAppend(s: Settings, a: seq<HeadingRec>, b: seq<HeadingRec>)
    ensures KeptHeadings(s, a + b) == KeptHeadings(s, a) + KeptHeadings(s, b)
    decreases |b|
  {
    if b != [] {
      var last := |b| - 1;
      assert (a + b)[..|a + b| - 1] == a + b[..last];
      KeptHeadingsAppend(s, a, b[..last]);
    } else {
      assert a + b == a;
    }
  }

  /** When no rule drops any heading, every heading is kept, in order. */
  lemma {:induction false} AllKept(s: Settings, hs: seq<HeadingRec>)
    requires forall j :: 0 <= j < |hs| ==> Kept(s, hs[j])
    ensures KeptHeadings(s, hs) == hs
    decreases |hs|
  {
    if hs != [] {
      var last := |hs| - 1;
      AllKept(s, hs[..last]);
      assert hs[..last] + [hs[last]] == hs;
    }
  }

  /** A heading that a rule drops contributes nothing, wherever it stands. */
  lemma DroppedHeadingLeavesNoTrace(s: Settings, a: seq<HeadingRec>, h: HeadingRec, b: seq<HeadingRec>)
    requires !Kept(s, h)
    ensures KeptHeadings(s, a + [h] + b) == KeptHeadings(s, a + b)
  {
    KeptHeadingsAppend(s, a + [h], b);
    KeptHeadingsAppend(s, a, [h]);
    KeptHeadingsAppend(s, a, b);
    assert KeptHeadings(s, [h]) == KeptHeadings(s, []) + [];
  }
}
