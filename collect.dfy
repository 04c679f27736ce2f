/**
 * The visitor that runs once per heading of the tree, in document order: it
 * renders the text, asks the slugger for a slug (whether or not the heading
 * is then dropped), applies the drop rules and appends an item for a heading
 * that survives them.
 */
module Collect {
  import opened Wrappers
  import opened TocTypes
  import opened Filter
  import opened Slugs

  /** The texts of the visited headings, in the order the slugger sees them. */
  function Texts(hs: seq<HeadingRec>): (r: seq<string>)
    ensures |r| == |hs|
  {
    seq(|hs|, j requires 0 <= j < |hs| => hs[j].text)
  }

  /** The anchor of a heading: `#`, the prefix (empty by default), the slug. */
  function Href(s: Settings, slug: string): (r: string)
    ensures |r| == 1 + |s.prefix.GetOr("")| + |slug|
    ensures r[0] == '#' && r[1..1 + |s.prefix.GetOr("")|] == s.prefix.GetOr("")
    ensures r[1 + |s.prefix.GetOr("")|..] == slug
  {
    var prefix := s.prefix.GetOr("");
    var r := "#" + prefix + slug;
    assert r[1..1 + |prefix|] == prefix && r[1 + |prefix|..] == slug;
    r
  }

  /** Under one prefix, different slugs give different anchors. */
  lemma HrefInjective(s: Settings, slug1: string, slug2: string)
    requires Href(s, slug1) == Href(s, slug2)
    ensures slug1 == slug2
  {
  }

  /**
   * The item pushed for a kept heading: its text, anchor, depth and parent,
   * an empty numbering, and a copy of its `hProperties` when it has them
   * (an empty mapping included).
   */
  function MakeItem(h: HeadingRec, href: string): (item: TocItem)
    ensures Source(item) == h
    ensures item.href == href && item.numbering == []
  {
    TocItem(h.text, href, h.depth, [], h.parent, h.props)
  }

  /** The heading an item was made from: every field but the anchor and the numbering. */
  function Source(item: TocItem): HeadingRec {
    HeadingRec(item.depth, item.value, item.parent, item.data)
  }

  function Sources(items: seq<TocItem>): (r: seq<HeadingRec>)
    ensures |r| == |items|
  {
    seq(|items|, k requires 0 <= k < |items| => Source(items[k]))
  }

  /**
   * The list the visitor has built after visiting the headings `hs`: the
   * `j`-th heading's slug is taken from the run's slugger whether or not the
   * heading is kept.
   */
  function Collected(s: Settings, normalize: string -> string, hs: seq<HeadingRec>): (r: seq<TocItem>)
    ensures |r| == |KeptIndices(s, hs)| <= |hs|
    ensures forall k :: 0 <= k < |r| ==> r[k].numbering == []
    decreases |hs|
  {
    if hs == [] then []
    else
      var last := |hs| - 1;
      Collected(s, normalize, hs[..last]) +
      (if Kept(s, hs[last]) then [MakeItem(hs[last], Href(s, SlugAt(normalize, Texts(hs), last)))]
       else [])
  }

  /**
   * Visiting one more heading: its slug is its base slug suffixed with the
   * count of that base so far, and an item is appended only when it is kept.
   */
  lemma CollectedSnoc(s: Settings, normalize: string -> string, hs: seq<HeadingRec>, h: HeadingRec)
    ensures var base := normalize(h.text);
            var n := Count(Occurrences(normalize, Texts(hs)), base);
            Texts(hs + [h]) == Texts(hs) + [h.text] &&
            Collected(s, normalize, hs + [h]) == Collected(s, normalize, hs) +
              (if Kept(s, h) then [MakeItem(h, Href(s, Suffixed(base, n)))] else [])
  {
    assert (hs + [h])[..|hs|] == hs;
    assert Texts(hs + [h]) == Texts(hs) + [h.text];
    assert (Texts(hs) + [h.text])[..|hs|] == Texts(hs);
  }

  /** A slug depends only on the texts slugged before and at its own position. */
  lemma SlugAtPrefix(normalize: string -> string, hs: seq<HeadingRec>, n: nat, j: nat)
    requires j < n <= |hs|
    ensures SlugAt(normalize, Texts(hs[..n]), j) == SlugAt(normalize, Texts(hs), j)
  {
    assert Texts(hs[..n])[..j] == Texts(hs)[..j];
  }

  /**
   * The list holds one item per kept heading, in document order; the item
   * for the heading at position `j` carries that heading's text, depth,
   * parent and properties, no numbering yet, and the anchor built from the
   * `j`-th slug of the run.
   */
  lemma {:induction false} CollectedAt(s: Settings, normalize: string -> string, hs: seq<HeadingRec>)
    ensures |Collected(s, normalize, hs)| == |KeptIndices(s, hs)|
    ensures forall k :: 0 <= k < |KeptIndices(s, hs)| ==>
              var j := KeptIndices(s, hs)[k];
              Collected(s, normalize, hs)[k] ==
                MakeItem(hs[j], Href(s, SlugAt(normalize, Texts(hs), j)))
    decreases |hs|
  {
    if hs != [] {
      var last := |hs| - 1;
      CollectedAt(s, normalize, hs[..last]);
      forall j | 0 <= j < last {
        SlugAtPrefix(normalize, hs, last, j);
      }
    }
  }

  lemma SourcesAppend(a: seq<TocItem>, b: seq<TocItem>)
    ensures Sources(a + b) == Sources(a) + Sources(b)
  {
    assert forall k :: 0 <= k < |a + b| ==> Sources(a + b)[k] == (Sources(a) + Sources(b))[k];
  }

  /** The items are exactly the kept headings, in order. */
  lemma {:induction false} CollectedFromKeptHeadings(s: Settings, normalize: string -> string, hs: seq<HeadingRec>)
    ensures Sources(Collected(s, normalize, hs)) == KeptHeadings(s, hs)
    decreases |hs|
  {
    if hs != [] {
      var last := |hs| - 1;
      var h := hs[last];
      CollectedFromKeptHeadings(s, normalize, hs[..last]);
      var prev := Collected(s, normalize, hs[..last]);
      var tail := if Kept(s, h) then [MakeItem(h, Href(s, SlugAt(normalize, Texts(hs), last)))] else [];
      var keptTail := if Kept(s, h) then [h] else [];
      assert Collected(s, normalize, hs) == prev + tail;
      assert KeptHeadings(s, hs) == KeptHeadings(s, hs[..last]) + keptTail;
      assert Sources(tail) == keptTail;
      SourcesAppend(prev, tail);
    }
  }

  /**
   * Two kept headings whose texts share a base slug get different anchors,
   * in particular two headings with the same text.
   */
  lemma SameBaseDistinctHrefs(s: Settings, normalize: string -> string, hs: seq<HeadingRec>, k1: nat, k2: nat)
    requires k1 < k2 < |Collected(s, normalize, hs)|
    requires normalize(Collected(s, normalize, hs)[k1].value) == normalize(Collected(s, normalize, hs)[k2].value)
    ensures Collected(s, normalize, hs)[k1].href != Collected(s, normalize, hs)[k2].href
  {
    CollectedAt(s, normalize, hs);
    var idx := KeptIndices(s, hs);
    SameBaseDistinctSlugs(normalize, Texts(hs), idx[k1], idx[k2]);
  }

  /**
   * A dropped heading still takes its slug: a kept heading with the same
   * text after it gets the `-1` anchor.
   */
  lemma DroppedHeadingConsumesSlug(s: Settings, normalize: string -> string, dropped: HeadingRec, kept: HeadingRec)
    requires !Kept(s, dropped) && Kept(s, kept) && dropped.text == kept.text
    ensures Collected(s, normalize, [dropped, kept]) ==
              [MakeItem(kept, "#" + s.prefix.GetOr("") + normalize(kept.text) + "-1")]
  {
    var base := normalize(kept.text);
    assert [] + [dropped] == [dropped] && [dropped] + [kept] == [dropped, kept];
    CollectedSnoc(s, normalize, [], dropped);
    CollectedSnoc(s, normalize, [dropped], kept);
    assert Collected(s, normalize, [dropped]) == [];
    OccurrencesSnoc(normalize, [], dropped.text);
    assert Texts([dropped]) == [] + [dropped.text];
    assert Count(Occurrences(normalize, Texts([dropped])), base) == 1;
    assert Decimal(1) == "1";
    assert Href(s, Suffixed(base, 1)) == "#" + s.prefix.GetOr("") + base + "-1";
  }

  /**
   * The visitor body for one heading: slug first, then the drop rules,
   * then the push.
   */
  method VisitHeading(s: Settings, slugger: Slugger, tocItems: TocList, h: HeadingRec)
    modifies slugger, tocItems
    ensures var base := slugger.normalize(h.text);
            var n := Count(old(slugger.occurrences), base);
            slugger.occurrences == old(slugger.occurrences)[base := n + 1] &&
            tocItems.items == old(tocItems.items) +
              (if Kept(s, h) then [MakeItem(h, Href(s, Suffixed(base, n)))] else [])
  {
    var value := h.text;
    var slug := slugger.Slug(value);
    var href := "#" + s.prefix.GetOr("") + slug;
    if h.depth > s.maxDepth {
      return;
    }
    if h.depth in s.skipLevels {
      return;
    }
    if h.parent != Root && h.parent in s.skipParents {
      return;
    }
    if s.exclude.Some? && s.exclude.value(value) {
      return;
    }
    tocItems.Push(TocItem(value, href, h.depth, [], h.parent, h.props));
  }
}
