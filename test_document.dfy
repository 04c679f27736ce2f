/**
 * The heading outline of the repository's test document, for any rendered
 * texts, the option sets its tests use, and how the filter treats each part
 * of it.
 */
module TestDocument {
  import opened Wrappers
  import opened TocTypes
  import opened Filter

  /** An h2 section with two h3 headings under it. */
  function Section(title: string, sub: string, mub: string): seq<HeadingRec> {
    [HeadingRec(2, title, Root, None), HeadingRec(3, sub, Root, None), HeadingRec(3, mub, Root, None)]
  }

  /**
   * The last h3 of the second section, whose explicit id is not part of this
   * model, followed by two h4 headings in a block quote.
   */
  function CustomAndQuotes(custom: string, quote: string): seq<HeadingRec> {
    [HeadingRec(3, custom, Root, None), HeadingRec(4, quote, Blockquote, None), HeadingRec(4, quote, Blockquote, None)]
  }

  /** Two h5 headings, each in a list item. */
  function ListItems(li: string): seq<HeadingRec> {
    [HeadingRec(5, li, ListItem, None), HeadingRec(5, li, ListItem, None)]
  }

  /**
   * The headings of the test document, in document order, for any rendered
   * texts: an h1, two h2 sections each with two h3s, a third h3 in the
   * second section, two h4s in a quote and two h5s in list items.
   */
  function TestDoc(main: string, s1: string, sub: string, mub: string, s2: string,
                   custom: string, quote: string, li: string): seq<HeadingRec>
  {
    [HeadingRec(1, main, Root, None)] + Section(s1, sub, mub) + Section(s2, sub, mub) +
    CustomAndQuotes(custom, quote) + ListItems(li)
  }

  /** The test document with the texts the tests render. */
  function Doc(): seq<HeadingRec> {
    TestDoc("The Main Heading", "Section 1", "Subheading", "Mubheading", "Section 2",
            "Custom Heading", "QuoteHeading", "ListItem Heading")
  }

  const NoOptions: Options := Options(None, None, None, None, None, None, None, None)

  /** The options of the "with skipLevels" test: `skipLevels: [1, 2], maxDepth: 3`. */
  const SkipH1H2: Options := NoOptions.(skipLevels := Some([1, 2]), maxDepth := Some(3))

  // ---------------------------------------------------------------------
  // The filter part by part.

  /**
   * Filtering a document made of five parts is filtering each part: given
   * what the filter keeps of each part, this is what it keeps of the whole.
   */
  lemma KeptOfParts(s: Settings, p0: seq<HeadingRec>, p1: seq<HeadingRec>, p2: seq<HeadingRec>,
                    p3: seq<HeadingRec>, p4: seq<HeadingRec>,
                    k0: seq<HeadingRec>, k1: seq<HeadingRec>, k2: seq<HeadingRec>,
                    k3: seq<HeadingRec>, k4: seq<HeadingRec>)
    requires KeptHeadings(s, p0) == k0 && KeptHeadings(s, p1) == k1 && KeptHeadings(s, p2) == k2
    requires KeptHeadings(s, p3) == k3 && KeptHeadings(s, p4) == k4
    ensures KeptHeadings(s, p0 + p1 + p2 + p3 + p4) == k0 + k1 + k2 + k3 + k4
  {
    KeptHeadingsAppend(s, p0 + p1 + p2 + p3, p4);
    KeptHeadingsAppend(s, p0 + p1 + p2, p3);
    KeptHeadingsAppend(s, p0 + p1, p2);
    KeptHeadingsAppend(s, p0, p1);
  }

  /** So the test document is filtered part by part. */
  lemma KeptOfTestDoc(s: Settings, main: string, s1: string, sub: string, mub: string, s2: string,
                      custom: string, quote: string, li: string,
                      k0: seq<HeadingRec>, k1: seq<HeadingRec>, k2: seq<HeadingRec>,
                      k3: seq<HeadingRec>, k4: seq<HeadingRec>)
    requires KeptHeadings(s, [HeadingRec(1, main, Root, None)]) == k0
    requires KeptHeadings(s, Section(s1, sub, mub)) == k1 && KeptHeadings(s, Section(s2, sub, mub)) == k2
    requires KeptHeadings(s, CustomAndQuotes(custom, quote)) == k3 && KeptHeadings(s, ListItems(li)) == k4
    ensures KeptHeadings(s, TestDoc(main, s1, sub, mub, s2, custom, quote, li)) == k0 + k1 + k2 + k3 + k4
  {
    KeptOfParts(s, [HeadingRec(1, main, Root, None)], Section(s1, sub, mub), Section(s2, sub, mub),
                CustomAndQuotes(custom, quote), ListItems(li), k0, k1, k2, k3, k4);
  }

  /** What the filter keeps of a list of at most three headings. */
  lemma KeptOfThree(s: Settings, x: HeadingRec, y: HeadingRec, z: HeadingRec)
    ensures KeptHeadings(s, [x]) == (if Kept(s, x) then [x] else [])
    ensures KeptHeadings(s, [x, y]) == KeptHeadings(s, [x]) + (if Kept(s, y) then [y] else [])
    ensures KeptHeadings(s, [x, y, z]) == KeptHeadings(s, [x, y]) + (if Kept(s, z) then [z] else [])
  {
    assert [x][..0] == [];
    assert [x, y][..1] == [x];
    assert [x, y, z][..2] == [x, y];
  }

  /** A skipped level 1 drops the h1. */
  lemma TitleDropped(s: Settings, main: string)
    requires 1 in s.skipLevels
    ensures KeptHeadings(s, [HeadingRec(1, main, Root, None)]) == []
  {
    var h := HeadingRec(1, main, Root, None);
    assert !Kept(s, h);
    KeptOfThree(s, h, h, h);
  }

  /** A section none of whose headings any rule drops is kept whole. */
  lemma SectionKept(s: Settings, title: string, sub: string, mub: string)
    requires s.maxDepth >= 3 && 2 !in s.skipLevels && 3 !in s.skipLevels
    requires !Excluded(s, title) && !Excluded(s, sub) && !Excluded(s, mub)
    ensures KeptHeadings(s, Section(title, sub, mub)) == Section(title, sub, mub)
  {
    var p := Section(title, sub, mub);
    assert Kept(s, p[0]) && Kept(s, p[1]) && Kept(s, p[2]);
    KeptOfThree(s, p[0], p[1], p[2]);
  }

  /** With level 2 skipped, a section loses its h2 and keeps its h3s. */
  lemma SectionWithoutTitle(s: Settings, title: string, sub: string, mub: string)
    requires s.maxDepth >= 3 && 2 in s.skipLevels && 3 !in s.skipLevels
    requires !Excluded(s, sub) && !Excluded(s, mub)
    ensures KeptHeadings(s, Section(title, sub, mub)) ==
              [HeadingRec(3, sub, Root, None), HeadingRec(3, mub, Root, None)]
  {
    var p := Section(title, sub, mub);
    assert !Kept(s, p[0]) && Kept(s, p[1]) && Kept(s, p[2]);
    KeptOfThree(s, p[0], p[1], p[2]);
  }

  /** A section whose last heading alone is excluded loses that heading only. */
  lemma SectionWithoutLast(s: Settings, title: string, sub: string, mub: string)
    requires s.maxDepth >= 3 && 2 !in s.skipLevels && 3 !in s.skipLevels
    requires !Excluded(s, title) && !Excluded(s, sub) && Excluded(s, mub)
    ensures KeptHeadings(s, Section(title, sub, mub)) ==
              [HeadingRec(2, title, Root, None), HeadingRec(3, sub, Root, None)]
  {
    var p := Section(title, sub, mub);
    assert Kept(s, p[0]) && Kept(s, p[1]) && !Kept(s, p[2]);
    KeptOfThree(s, p[0], p[1], p[2]);
  }

  /** The quoted h4s are kept when no rule drops them: a block quote is not skipped by default. */
  lemma CustomAndQuotesKept(s: Settings, custom: string, quote: string)
    requires s.maxDepth >= 4 && 3 !in s.skipLevels && 4 !in s.skipLevels && Blockquote !in s.skipParents
    requires !Excluded(s, custom) && !Excluded(s, quote)
    ensures KeptHeadings(s, CustomAndQuotes(custom, quote)) == CustomAndQuotes(custom, quote)
  {
    var p := CustomAndQuotes(custom, quote);
    assert Kept(s, p[0]) && Kept(s, p[1]) && Kept(s, p[2]);
    KeptOfThree(s, p[0], p[1], p[2]);
  }

  /** With a maximum depth of 3 the h3 is kept and the quoted h4s below it are dropped. */
  lemma CustomKeptQuotesDropped(s: Settings, custom: string, quote: string)
    requires s.maxDepth == 3 && 3 !in s.skipLevels && !Excluded(s, custom)
    ensures KeptHeadings(s, CustomAndQuotes(custom, quote)) == [HeadingRec(3, custom, Root, None)]
  {
    var p := CustomAndQuotes(custom, quote);
    assert Kept(s, p[0]) && !Kept(s, p[1]) && !Kept(s, p[2]);
    KeptOfThree(s, p[0], p[1], p[2]);
  }

  lemma ListItemsKept(s: Settings, li: string)
    requires s.maxDepth >= 5 && 5 !in s.skipLevels && ListItem !in s.skipParents && !Excluded(s, li)
    ensures KeptHeadings(s, ListItems(li)) == ListItems(li)
  {
    var p := ListItems(li);
    assert Kept(s, p[0]) && Kept(s, p[1]);
    KeptOfThree(s, p[0], p[1], p[1]);
  }

  lemma ListItemsDropped(s: Settings, li: string)
    requires s.maxDepth < 5
    ensures KeptHeadings(s, ListItems(li)) == []
  {
    var p := ListItems(li);
    assert !Kept(s, p[0]) && !Kept(s, p[1]);
    KeptOfThree(s, p[0], p[1], p[1]);
  }

  // ---------------------------------------------------------------------
  // The whole document under the options of the tests.

  /** The settings of a run given no options. */
  lemma DefaultSettings()
    ensures Resolve(NoOptions) == Settings("toc", None, 6, [1], [], None, None, None)
  {
  }

  /** The settings of a run given `skipLevels: [1, 2], maxDepth: 3`. */
  lemma SkipH1H2Settings()
    ensures Resolve(SkipH1H2) == Settings("toc", None, 3, [1, 2], [], None, None, None)
  {
  }

  /** The settings of a run given only an exclusion pattern. */
  lemma ExcludeSettings(exclude: string -> bool)
    ensures Resolve(NoOptions.(exclude := Some(exclude))) ==
              Settings("toc", None, 6, [1], [], Some(exclude), None, None)
  {
  }

  /** The default run drops the h1 and keeps every other heading, in order. */
  lemma DefaultKeptHeadings(main: string, s1: string, sub: string, mub: string, s2: string,
                            custom: string, quote: string, li: string)
    ensures KeptHeadings(Resolve(NoOptions), TestDoc(main, s1, sub, mub, s2, custom, quote, li)) ==
              Section(s1, sub, mub) + Section(s2, sub, mub) + CustomAndQuotes(custom, quote) + ListItems(li)
  {
    var a, b, c, d := Section(s1, sub, mub), Section(s2, sub, mub), CustomAndQuotes(custom, quote), ListItems(li);
    assert [] + a + b + c + d == a + b + c + d;
    DefaultSettings();
    var s := Settings("toc", None, 6, [1], [], None, None, None);
    TitleDropped(s, main);
    SectionKept(s, s1, sub, mub);
    SectionKept(s, s2, sub, mub);
    CustomAndQuotesKept(s, custom, quote);
    ListItemsKept(s, li);
    KeptOfTestDoc(s, main, s1, sub, mub, s2, custom, quote, li, [], a, b, c, d);
  }

  /** Only the five h3 headings survive: levels 1 and 2 and everything below 3 are dropped. */
  lemma SkipLevelsKeptHeadings(main: string, s1: string, sub: string, mub: string, s2: string,
                               custom: string, quote: string, li: string)
    ensures KeptHeadings(Resolve(SkipH1H2), TestDoc(main, s1, sub, mub, s2, custom, quote, li)) ==
              [HeadingRec(3, sub, Root, None), HeadingRec(3, mub, Root, None),
               HeadingRec(3, sub, Root, None), HeadingRec(3, mub, Root, None),
               HeadingRec(3, custom, Root, None)]
  {
    var k := [HeadingRec(3, sub, Root, None), HeadingRec(3, mub, Root, None)];
    var c := [HeadingRec(3, custom, Root, None)];
    assert [] + k + k + c + [] == [HeadingRec(3, sub, Root, None), HeadingRec(3, mub, Root, None),
                                  HeadingRec(3, sub, Root, None), HeadingRec(3, mub, Root, None),
                                  HeadingRec(3, custom, Root, None)];
    SkipH1H2Settings();
    var s := Settings("toc", None, 3, [1, 2], [], None, None, None);
    TitleDropped(s, main);
    SectionWithoutTitle(s, s1, sub, mub);
    SectionWithoutTitle(s, s2, sub, mub);
    CustomKeptQuotesDropped(s, custom, quote);
    ListItemsDropped(s, li);
    KeptOfTestDoc(s, main, s1, sub, mub, s2, custom, quote, li, [], k, k, c, []);
  }

  /**
   * The "with exclude" tests: a pattern that matches the text of both h3
   * "Mubheading"s and no other text drops exactly those two, besides the h1.
   */
  lemma ExcludeKeptHeadings(main: string, s1: string, sub: string, mub: string, s2: string,
                            custom: string, quote: string, li: string, exclude: string -> bool)
    requires exclude(mub)
    requires !exclude(s1) && !exclude(sub) && !exclude(s2) && !exclude(custom) && !exclude(quote) && !exclude(li)
    ensures KeptHeadings(Resolve(NoOptions.(exclude := Some(exclude))),
                         TestDoc(main, s1, sub, mub, s2, custom, quote, li)) ==
              [HeadingRec(2, s1, Root, None), HeadingRec(3, sub, Root, None),
               HeadingRec(2, s2, Root, None), HeadingRec(3, sub, Root, None)] +
              CustomAndQuotes(custom, quote) + ListItems(li)
  {
    var k1 := [HeadingRec(2, s1, Root, None), HeadingRec(3, sub, Root, None)];
    var k2 := [HeadingRec(2, s2, Root, None), HeadingRec(3, sub, Root, None)];
    assert [] + k1 + k2 == [HeadingRec(2, s1, Root, None), HeadingRec(3, sub, Root, None),
                            HeadingRec(2, s2, Root, None), HeadingRec(3, sub, Root, None)];
    ExcludeSettings(exclude);
    var s := Settings("toc", None, 6, [1], [], Some(exclude), None, None);
    TitleDropped(s, main);
    SectionWithoutLast(s, s1, sub, mub);
    SectionWithoutLast(s, s2, sub, mub);
    CustomAndQuotesKept(s, custom, quote);
    ListItemsKept(s, li);
    KeptOfTestDoc(s, main, s1, sub, mub, s2, custom, quote, li, [], k1, k2,
                  CustomAndQuotes(custom, quote), ListItems(li));
  }
}
