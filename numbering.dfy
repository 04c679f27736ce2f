/**
 * Outline numbering of the retained TOC items (`addNumbering`).
 *
 * Each item's numbering is computed from the previous item's depth and
 * numbering only. The invariant the source leaves unstated, that a numbering
 * has exactly `depth` elements, is what keeps `numbering[depth - 1]++` inside
 * the array; here it is part of the contract of `NumberingAt`.
 */
module Numbering {
  import opened TocTypes

  /** `depth` ones: the numbering of a first item, and the tail of a deeper one. */
  function Ones(n: nat): (r: seq<int>)
    ensures |r| == n
    ensures forall k :: 0 <= k < n ==> r[k] == 1
  {
    seq(n, _ => 1)
  }

  predicate AllPositive(s: seq<int>) {
    forall k :: 0 <= k < |s| ==> s[k] >= 1
  }

  /**
   * The numbering of an item of depth `depth` that follows an item of depth
   * `prevDepth` numbered `prev`: the same, deeper and shallower cases.
   */
  function Step(prevDepth: HeadingDepth, prev: seq<int>, depth: HeadingDepth): seq<int>
    requires |prev| == prevDepth
  {
    if depth == prevDepth then
      prev[depth - 1 := prev[depth - 1] + 1]
    else if depth > prevDepth then
      prev + Ones(depth - prevDepth)
    else
      prev[..depth][depth - 1 := prev[depth - 1] + 1]
  }

  /**
   * The numbering the loop gives to item `i` of a list whose depths are
   * `depths`. It has one element per heading level and none below 1.
   */
  function NumberingAt(depths: seq<HeadingDepth>, i: nat): (r: seq<int>)
    requires i < |depths|
    ensures |r| == depths[i]
    ensures AllPositive(r)
    decreases i
  {
    if i == 0 then Ones(depths[0])
    else Step(depths[i - 1], NumberingAt(depths, i - 1), depths[i])
  }

  function Depths(items: seq<TocItem>): seq<HeadingDepth> {
    seq(|items|, i requires 0 <= i < |items| => items[i].depth)
  }

  /** The list after `addNumbering`: every item renumbered, nothing else changed. */
  function Numbered(items: seq<TocItem>): seq<TocItem> {
    seq(|items|, i requires 0 <= i < |items| =>
      items[i].(numbering := NumberingAt(Depths(items), i)))
  }

  /**
   * Item `i` of the renumbered list: the original item with the numbering
   * that the previous renumbered item and the two depths give it.
   */
  lemma NumberedAt(items: seq<TocItem>, i: nat)
    requires i < |items|
    ensures |Numbered(items)| == |items|
    ensures i == 0 ==> Numbered(items)[i] == items[i].(numbering := Ones(items[i].depth))
    ensures i > 0 ==>
              |Numbered(items)[i - 1].numbering| == items[i - 1].depth &&
              Numbered(items)[i] == items[i].(numbering := Step(items[i - 1].depth, Numbered(items)[i - 1].numbering,
                                                                items[i].depth))
  {
  }

  /**
   * The body of the loop of `addNumbering` for an item that has a
   * predecessor: copy, extend or cut the previous numbering, then bump the
   * element at the item's own level where the case calls for it. It follows
   * the source's statements branch by branch; `Step` is its specification,
   * and the lemmas below say what each case of `Step` yields.
   */
  method NextNumbering(prevDepth: HeadingDepth, prevNumbering: seq<int>, depth: HeadingDepth)
    returns (numbering: seq<int>)
    requires |prevNumbering| == prevDepth
    ensures numbering == Step(prevDepth, prevNumbering, depth)
  {
    if depth == prevDepth {
      numbering := prevNumbering;
      numbering := numbering[depth - 1 := numbering[depth - 1] + 1];
    } else if depth > prevDepth {
      numbering := prevNumbering + Ones(depth - prevDepth);
    } else {
      numbering := prevNumbering[..depth];
      numbering := numbering[depth - 1 := numbering[depth - 1] + 1];
    }
  }

  /**
   * `addNumbering(arr)`: walks the list once and overwrites each item's
   * numbering, reading the numbering just written for the previous item.
   */
  method AddNumbering(arr: TocList)
    modifies arr
    ensures arr.items == Numbered(old(arr.items))
  {
    ghost var target := Numbered(arr.items);
    var i := 0;
    while i < |arr.items|
      invariant |arr.items| == |target| == |old(arr.items)|
      invariant 0 <= i <= |arr.items|
      invariant forall k :: 0 <= k < i ==> arr.items[k] == target[k]
      invariant forall k :: i <= k < |arr.items| ==> arr.items[k] == old(arr.items)[k]
    {
      var tocItem := arr.items[i];
      NumberedAt(old(arr.items), i);
      var numbering: seq<int>;
      if i == 0 {
        numbering := Ones(tocItem.depth);
      } else {
        var prevItem := arr.items[i - 1];
        numbering := NextNumbering(prevItem.depth, prevItem.numbering, tocItem.depth);
      }
      arr.items := arr.items[i := tocItem.(numbering := numbering)];
      i := i + 1;
    }
  }


  // ---------------------------------------------------------------------
  // What each case of the loop promises.

  /** The first item gets `depth` ones, e.g. `[1, 1, 1]` for a first h3. */
  lemma FirstNumbering(depths: seq<HeadingDepth>)
    requires |depths| > 0
    ensures NumberingAt(depths, 0) == Ones(depths[0])
    ensures forall k :: 0 <= k < |NumberingAt(depths, 0)| ==> NumberingAt(depths, 0)[k] == 1
  {
  }

  /**
   * A successor at the same depth keeps every element of the previous
   * numbering except the last, which goes up by one.
   */
  lemma {:induction false} SameDepthSuccessor(depths: seq<HeadingDepth>, i: nat)
    requires 0 < i < |depths| && depths[i] == depths[i - 1]
    ensures var p, r := NumberingAt(depths, i - 1), NumberingAt(depths, i);
            |r| == |p| && r[..|r| - 1] == p[..|p| - 1] && r[|r| - 1] == p[|p| - 1] + 1
  {
    var p, r := NumberingAt(depths, i - 1), NumberingAt(depths, i);
    assert r == p[depths[i] - 1 := p[depths[i] - 1] + 1];
    assert r[..|r| - 1] == p[..|p| - 1];
  }

  /**
   * A deeper successor extends the previous numbering with one `1` per
   * extra level: the previous numbering is a strict prefix of it.
   */
  lemma {:induction false} DeeperSuccessor(depths: seq<HeadingDepth>, i: nat)
    requires 0 < i < |depths| && depths[i] > depths[i - 1]
    ensures var p, r := NumberingAt(depths, i - 1), NumberingAt(depths, i);
            |p| < |r| && r[..|p|] == p &&
            forall k :: |p| <= k < |r| ==> r[k] == 1
  {
    var p, r := NumberingAt(depths, i - 1), NumberingAt(depths, i);
    assert r == p + Ones(depths[i] - depths[i - 1]);
    assert r[..|p|] == p;
  }

  /**
   * A shallower successor keeps the first `depth - 1` elements of the
   * previous numbering and bumps the element at its own level.
   */
  lemma {:induction false} ShallowerSuccessor(depths: seq<HeadingDepth>, i: nat)
    requires 0 < i < |depths| && depths[i] < depths[i - 1]
    ensures var p, r, d := NumberingAt(depths, i - 1), NumberingAt(depths, i), depths[i];
            |r| == d < |p| && r[..d - 1] == p[..d - 1] && r[d - 1] == p[d - 1] + 1
  {
    var p, r, d := NumberingAt(depths, i - 1), NumberingAt(depths, i), depths[i];
    assert r == p[..d][d - 1 := p[d - 1] + 1];
    assert r[..d - 1] == p[..d - 1];
  }

  /**
   * An item's numbering depends only on the items before it: appending
   * more items to the list does not renumber the earlier ones.
   */
  lemma {:induction false} NumberingIgnoresLaterItems(depths: seq<HeadingDepth>, more: seq<HeadingDepth>, i: nat)
    requires i < |depths|
    ensures NumberingAt(depths + more, i) == NumberingAt(depths, i)
    decreases i
  {
    if i > 0 {
      NumberingIgnoresLaterItems(depths, more, i - 1);
    }
  }

  // ---------------------------------------------------------------------
  // The numberings increase strictly in the outline order.

  /**
   * Outline order: `a` comes before `b` when `a` is a proper prefix of `b`
   * or, at the first place where they differ, `a` holds the smaller number.
   */
  predicate OutlineBefore(a: seq<int>, b: seq<int>)
    decreases |a|
  {
    if a == [] then b != []
    else b != [] && (a[0] < b[0] || (a[0] == b[0] && OutlineBefore(a[1..], b[1..])))
  }

  lemma {:induction false} OutlineBeforeAtPrefix(a: seq<int>, b: seq<int>)
    requires |a| < |b| && b[..|a|] == a
    ensures OutlineBefore(a, b)
    decreases |a|
  {
    if a != [] {
      assert a[1..] == b[1..][..|a| - 1];
      OutlineBeforeAtPrefix(a[1..], b[1..]);
    }
  }

  lemma {:induction false} OutlineBeforeAtDifference(a: seq<int>, b: seq<int>, k: nat)
    requires k < |a| && k < |b| && a[..k] == b[..k] && a[k] < b[k]
    ensures OutlineBefore(a, b)
    decreases k
  {
    if k > 0 {
      assert a[0] == a[..k][0] == b[..k][0] == b[0];
      assert a[1..][..k - 1] == a[..k][1..] == b[..k][1..] == b[1..][..k - 1];
      OutlineBeforeAtDifference(a[1..], b[1..], k - 1);
    }
  }

  lemma {:induction false} OutlineBeforeTransitive(a: seq<int>, b: seq<int>, c: seq<int>)
    requires OutlineBefore(a, b) && OutlineBefore(b, c)
    ensures OutlineBefore(a, c)
    decreases |a|
  {
    if a != [] && a[0] == b[0] && b[0] == c[0] {
      OutlineBeforeTransitive(a[1..], b[1..], c[1..]);
    }
  }

  lemma {:induction false} OutlineBeforeIrreflexive(a: seq<int>)
    ensures !OutlineBefore(a, a)
    decreases |a|
  {
    if a != [] {
      OutlineBeforeIrreflexive(a[1..]);
    }
  }

  /** Each item's numbering comes strictly after its predecessor's. */
  lemma {:induction false} SuccessorComesAfter(depths: seq<HeadingDepth>, i: nat)
    requires 0 < i < |depths|
    ensures OutlineBefore(NumberingAt(depths, i - 1), NumberingAt(depths, i))
  {
    var p, r := NumberingAt(depths, i - 1), NumberingAt(depths, i);
    var d: int := depths[i];
    if d == depths[i - 1] {
      SameDepthSuccessor(depths, i);
      assert p[..d - 1] == p[..|p| - 1] == r[..|r| - 1] == r[..d - 1];
      OutlineBeforeAtDifference(p, r, d - 1);
    } else if d > depths[i - 1] {
      DeeperSuccessor(depths, i);
      OutlineBeforeAtPrefix(p, r);
    } else {
      ShallowerSuccessor(depths, i);
      OutlineBeforeAtDifference(p, r, d - 1);
    }
  }

  /**
   * Numberings strictly increase along the list, so no two items of one
   * table of contents share an outline number.
   */
  lemma {:induction false} NumberingsIncrease(depths: seq<HeadingDepth>, i: nat, j: nat)
    requires i < j < |depths|
    ensures OutlineBefore(NumberingAt(depths, i), NumberingAt(depths, j))
    ensures NumberingAt(depths, i) != NumberingAt(depths, j)
    decreases j
  {
    SuccessorComesAfter(depths, j);
    if i < j - 1 {
      NumberingsIncrease(depths, i, j - 1);
      OutlineBeforeTransitive(NumberingAt(depths, i), NumberingAt(depths, j - 1), NumberingAt(depths, j));
    }
    if NumberingAt(depths, i) == NumberingAt(depths, j) {
      OutlineBeforeIrreflexive(NumberingAt(depths, i));
    }
  }

  // ---------------------------------------------------------------------
  // Siblings: items at one depth with only deeper items between them.

  /**
   * Items deeper than item `i` that follow it keep its numbering as their
   * prefix: the elements up to `i`'s level are not touched below it.
   */
  lemma {:induction false} DeeperItemsKeepPrefix(depths: seq<HeadingDepth>, i: nat, m: nat)
    requires i <= m < |depths|
    requires forall t :: i < t <= m ==> depths[t] > depths[i]
    ensures depths[i] <= |NumberingAt(depths, m)|
    ensures NumberingAt(depths, m)[..depths[i]] == NumberingAt(depths, i)
    decreases m
  {
    if m > i {
      DeeperItemsKeepPrefix(depths, i, m - 1);
      var p, r, d := NumberingAt(depths, m - 1), NumberingAt(depths, m), depths[i];
      assert r == Step(depths[m - 1], p, depths[m]);
      assert r[..d] == p[..d];
    }
  }

  /**
   * The next sibling at the same depth, with only deeper items between the
   * two, differs from the earlier one only in its last element, which is
   * one higher: "Section 2" (1.2.) after "Section 1" (1.1.) and its h3s.
   */
  lemma SiblingsConsecutive(depths: seq<HeadingDepth>, i: nat, j: nat)
    requires i < j < |depths| && depths[i] == depths[j]
    requires forall t :: i < t < j ==> depths[t] > depths[i]
    ensures var n := NumberingAt(depths, i);
            NumberingAt(depths, j) == n[depths[i] - 1 := n[depths[i] - 1] + 1]
  {
    var n, d := NumberingAt(depths, i), depths[j];
    if j == i + 1 {
      assert NumberingAt(depths, j) == Step(d, n, d);
    } else {
      DeeperItemsKeepPrefix(depths, i, j - 1);
      var p := NumberingAt(depths, j - 1);
      BumpAtPrefix(p, n, d);
      assert NumberingAt(depths, j) == Step(depths[j - 1], p, d);
    }
  }

  /** Cutting a numbering back to a level it extends and bumping that level. */
  lemma BumpAtPrefix(p: seq<int>, n: seq<int>, d: nat)
    requires 1 <= d <= |p| && p[..d] == n
    ensures p[..d][d - 1 := p[d - 1] + 1] == n[d - 1 := n[d - 1] + 1]
  {
    assert p[d - 1] == n[d - 1];
  }
}
