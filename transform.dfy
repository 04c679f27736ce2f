/**
 * One run of the plugin's transformer over one document: collect the items
 * with a fresh slugger, number them, hand them to the callback, then publish
 * the list into `file.data` and, when the caller gave a `tocRef`, into that
 * list after clearing it.
 */
module Transform {
  import opened Wrappers
  import opened TocTypes
  import opened Numbering
  import opened Filter
  import opened Slugs
  import opened Collect

  /** The processed file; only its `data` record is modelled. */
  class VFile {
    var data: map<string, seq<TocItem>>

    constructor (data: map<string, seq<TocItem>>)
      ensures this.data == data
    {
      this.data := data;
    }
  }

  /** The list as the callback leaves it, or unchanged when there is no callback. */
  function AfterCallback(s: Settings, items: seq<TocItem>): seq<TocItem> {
    if s.callback.Some? then s.callback.value(items) else items
  }

  /**
   * The table of contents a run publishes for the headings `tree`: the
   * collected items, numbered, then passed through the callback. Without a
   * callback it holds one item per kept heading, made from that heading.
   */
  function Toc(s: Settings, normalize: string -> string, tree: seq<HeadingRec>): (r: seq<TocItem>)
    ensures s.callback.None? ==> |r| == |KeptIndices(s, tree)| && Sources(r) == KeptHeadings(s, tree)
  {
    var items := Collected(s, normalize, tree);
    CollectedFromKeptHeadings(s, normalize, tree);
    assert Sources(Numbered(items)) == Sources(items);
    AfterCallback(s, Numbered(items))
  }

  /**
   * The heading visit of one run: a fresh slugger and a fresh list, and one
   * visit per heading in document order.
   */
  method CollectItems(s: Settings, normalize: string -> string, tree: seq<HeadingRec>)
    returns (tocItems: TocList)
    ensures fresh(tocItems)
    ensures tocItems.items == Collected(s, normalize, tree)
  {
    var slugger := new Slugger(normalize);
    tocItems := new TocList();

    var i := 0;
    while i < |tree|
      invariant 0 <= i <= |tree|
      invariant slugger.normalize == normalize
      invariant slugger.occurrences == Occurrences(normalize, Texts(tree[..i]))
      invariant tocItems.items == Collected(s, normalize, tree[..i])
      modifies slugger, tocItems
    {
      VisitHeading(s, slugger, tocItems, tree[i]);
      VisitedOneMore(s, normalize, tree, i);
      i := i + 1;
    }
    assert tree[..i] == tree;
  }

  /** The state after visiting the headings up to and including position `i`. */
  lemma VisitedOneMore(s: Settings, normalize: string -> string, tree: seq<HeadingRec>, i: nat)
    requires i < |tree|
    ensures var occ := Occurrences(normalize, Texts(tree[..i]));
            var base := normalize(tree[i].text);
            Occurrences(normalize, Texts(tree[..i + 1])) == occ[base := Count(occ, base) + 1] &&
            Collected(s, normalize, tree[..i + 1]) == Collected(s, normalize, tree[..i]) +
              (if Kept(s, tree[i]) then [MakeItem(tree[i], Href(s, Suffixed(base, Count(occ, base))))] else [])
  {
    assert tree[..i + 1] == tree[..i] + [tree[i]];
    CollectedSnoc(s, normalize, tree[..i], tree[i]);
    OccurrencesSnoc(normalize, Texts(tree[..i]), tree[i].text);
  }

  /**
   * Publication of the final list: a copy into the file's slot, then, when
   * the caller gave a `tocRef`, that list is cleared and refilled item by
   * item. The file's other data entries are left as they were.
   */
  method Publish(s: Settings, tocItems: TocList, file: VFile)
    requires tocItems !in RefFrame(s)
    modifies file, RefFrame(s)
    ensures file.data == old(file.data)[s.tocName := tocItems.items]
    ensures s.tocRef.Some? ==> s.tocRef.value.items == tocItems.items
  {
    file.data := file.data[s.tocName := tocItems.items];

    if s.tocRef.Some? {
      var tocRef := s.tocRef.value;
      tocRef.Truncate();
      var j := 0;
      while j < |tocItems.items|
        invariant 0 <= j <= |tocItems.items|
        invariant tocRef.items == tocItems.items[..j]
        modifies tocRef
      {
        tocRef.Push(tocItems.items[j]);
        j := j + 1;
      }
      assert tocItems.items[..j] == tocItems.items;
    }
  }

  /**
   * The transformer: collect, number, the callback, then both sinks. A
   * `tocRef` ends up holding exactly the published list, whatever it held
   * before, and the file's slot holds the same list.
   */
  method Transform(s: Settings, normalize: string -> string, tree: seq<HeadingRec>, file: VFile)
    modifies file, RefFrame(s)
    ensures file.data == old(file.data)[s.tocName := Toc(s, normalize, tree)]
    ensures s.tocRef.Some? ==> s.tocRef.value.items == Toc(s, normalize, tree)
  {
    var tocItems := CollectItems(s, normalize, tree);

    AddNumbering(tocItems);

    // The callback may change the list in any way it likes.
    if s.callback.Some? {
      tocItems.items := s.callback.value(tocItems.items);
    }

    Publish(s, tocItems, file);
  }

  /**
   * Running the plugin twice against the same caller-owned list leaves one
   * copy of the second run's table of contents in it, not two lists one
   * after the other, and the file's slot holds the same list.
   */
  method TransformTwice(s: Settings, normalize: string -> string, first: seq<HeadingRec>, second: seq<HeadingRec>,
                        file1: VFile, file2: VFile)
    requires s.tocRef.Some?
    modifies file1, file2, s.tocRef.value
    ensures s.tocRef.value.items == Toc(s, normalize, second)
    ensures s.tocName in file2.data && file2.data[s.tocName] == s.tocRef.value.items
  {
    Transform(s, normalize, first, file1);
    Transform(s, normalize, second, file2);
  }

  /** A callback that empties the list leaves both sinks empty. */
  method TransformWithEmptyingCallback(s: Settings, normalize: string -> string, tree: seq<HeadingRec>, file: VFile)
    requires s.callback.Some? && forall items :: s.callback.value(items) == []
    modifies file, RefFrame(s)
    ensures s.tocName in file.data && file.data[s.tocName] == []
    ensures s.tocRef.Some? ==> s.tocRef.value.items == []
  {
    Transform(s, normalize, tree, file);
  }

  // ---------------------------------------------------------------------
  // What a run publishes when no callback intervenes.

  /** The depths of the kept headings, the only input of the numbering. */
  function KeptDepths(s: Settings, tree: seq<HeadingRec>): seq<HeadingDepth> {
    var kept := KeptHeadings(s, tree);
    seq(|kept|, k requires 0 <= k < |kept| => kept[k].depth)
  }

  lemma CollectedDepths(s: Settings, normalize: string -> string, tree: seq<HeadingRec>)
    ensures Depths(Collected(s, normalize, tree)) == KeptDepths(s, tree)
  {
    CollectedFromKeptHeadings(s, normalize, tree);
    var items := Collected(s, normalize, tree);
    assert forall k :: 0 <= k < |items| ==> Sources(items)[k].depth == items[k].depth;
  }

  /**
   * Without a callback, the `k`-th published item is the `k`-th kept
   * heading, at position `j` of the document: its text, depth, parent and
   * properties, the anchor from the `j`-th slug of the run, and the outline
   * number computed from the depths of the kept headings alone.
   */
  lemma TocItemAt(s: Settings, normalize: string -> string, tree: seq<HeadingRec>, k: nat)
    requires s.callback.None?
    requires k < |KeptIndices(s, tree)|
    ensures |Toc(s, normalize, tree)| == |KeptDepths(s, tree)| == |KeptIndices(s, tree)|
    ensures var j := KeptIndices(s, tree)[k];
            var h := tree[j];
            Toc(s, normalize, tree)[k] ==
              TocItem(h.text, Href(s, SlugAt(normalize, Texts(tree), j)), h.depth,
                      NumberingAt(KeptDepths(s, tree), k), h.parent, h.props)
  {
    CollectedAt(s, normalize, tree);
    CollectedDepths(s, normalize, tree);
    KeptHeadingsAt(s, tree);
  }

  /**
   * A heading dropped by a rule does not change any published outline
   * number: the numbering of the document with it equals the numbering of
   * the document without it.
   */
  lemma DroppedHeadingKeepsNumbering(s: Settings, normalize: string -> string,
                                     a: seq<HeadingRec>, h: HeadingRec, b: seq<HeadingRec>)
    requires !Kept(s, h)
    ensures var with, without := Numbered(Collected(s, normalize, a + [h] + b)),
                                 Numbered(Collected(s, normalize, a + b));
            |with| == |without| &&
            forall k :: 0 <= k < |with| ==> with[k].numbering == without[k].numbering
  {
    DroppedHeadingLeavesNoTrace(s, a, h, b);
    CollectedDepths(s, normalize, a + [h] + b);
    CollectedDepths(s, normalize, a + b);
  }

  /**
   * Without a callback, every published numbering, the first one included,
   * has one element per heading level and none below 1.
   */
  lemma PublishedNumberingAt(s: Settings, normalize: string -> string, tree: seq<HeadingRec>, k: nat)
    requires s.callback.None?
    requires k < |Toc(s, normalize, tree)|
    ensures var toc := Toc(s, normalize, tree);
            |toc[k].numbering| == toc[k].depth && AllPositive(toc[k].numbering)
  {
    var items := Collected(s, normalize, tree);
    assert Toc(s, normalize, tree)[k] == items[k].(numbering := NumberingAt(Depths(items), k));
  }

  /**
   * Without a callback, the published numberings are in strictly
   * increasing outline order.
   */
  lemma PublishedNumberingsIncrease(s: Settings, normalize: string -> string, tree: seq<HeadingRec>, k1: nat, k2: nat)
    requires s.callback.None?
    requires k1 < k2 < |Toc(s, normalize, tree)|
    ensures var toc := Toc(s, normalize, tree);
            OutlineBefore(toc[k1].numbering, toc[k2].numbering)
  {
    var items := Collected(s, normalize, tree);
    NumberingsIncrease(Depths(items), k1, k2);
  }
}
