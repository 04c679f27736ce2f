/**
 * The tables of contents the repository's tests expect from the test
 * document, derived from the model. The slug library's normalisation is
 * taken as known only on the texts that occur.
 */
module Examples {
  import opened Wrappers
  import opened TocTypes
  import opened Numbering
  import opened Filter
  import opened Slugs
  import opened Collect
  import opened Transform
  import opened TestDocument

  /** So the default run numbers these depths. */
  lemma DefaultKeptDepths()
    ensures KeptDepths(Resolve(NoOptions), Doc()) == [2, 3, 3, 2, 3, 3, 3, 4, 4, 5, 5]
  {
    DefaultKeptHeadings("The Main Heading", "Section 1", "Subheading", "Mubheading", "Section 2",
                        "Custom Heading", "QuoteHeading", "ListItem Heading");
  }

  /** The outline numbers of the default run: 1.1., 1.1.1., ..., 1.2.3.2.2. */
  lemma DefaultNumbering()
    ensures var d: seq<HeadingDepth> := [2, 3, 3, 2, 3, 3, 3, 4, 4, 5, 5];
            NumberingAt(d, 0) == [1, 1] &&
            NumberingAt(d, 1) == [1, 1, 1] &&
            NumberingAt(d, 2) == [1, 1, 2] &&
            NumberingAt(d, 3) == [1, 2] &&
            NumberingAt(d, 4) == [1, 2, 1] &&
            NumberingAt(d, 5) == [1, 2, 2] &&
            NumberingAt(d, 6) == [1, 2, 3] &&
            NumberingAt(d, 7) == [1, 2, 3, 1] &&
            NumberingAt(d, 8) == [1, 2, 3, 2] &&
            NumberingAt(d, 9) == [1, 2, 3, 2, 1] &&
            NumberingAt(d, 10) == [1, 2, 3, 2, 2]
  {
    var d: seq<HeadingDepth> := [2, 3, 3, 2, 3, 3, 3, 4, 4, 5, 5];
    var sections: seq<HeadingDepth>, rest: seq<HeadingDepth> := [2, 3, 3, 2, 3, 3], [3, 4, 4, 5, 5];
    assert sections + rest == d;
    DefaultNumberingOfSections();
    forall i | 0 <= i < 6
      ensures NumberingAt(d, i) == NumberingAt(sections, i)
    {
      NumberingIgnoresLaterItems(sections, rest, i);
    }
    assert NumberingAt(d, 6) == [1, 2, 3];
    assert NumberingAt(d, 7) == [1, 2, 3, 1];
    assert NumberingAt(d, 8) == [1, 2, 3, 2];
    assert NumberingAt(d, 9) == [1, 2, 3, 2, 1];
  }

  /** The numbers of the two sections of the default run. */
  lemma DefaultNumberingOfSections()
    ensures var d: seq<HeadingDepth> := [2, 3, 3, 2, 3, 3];
            NumberingAt(d, 0) == [1, 1] && NumberingAt(d, 1) == [1, 1, 1] && NumberingAt(d, 2) == [1, 1, 2] &&
            NumberingAt(d, 3) == [1, 2] && NumberingAt(d, 4) == [1, 2, 1] && NumberingAt(d, 5) == [1, 2, 2]
  {
    var d: seq<HeadingDepth> := [2, 3, 3, 2, 3, 3];
    assert NumberingAt(d, 0) == [1, 1];
    assert NumberingAt(d, 1) == [1, 1, 1];
    assert NumberingAt(d, 2) == [1, 1, 2];
    assert NumberingAt(d, 3) == [1, 2];
    assert NumberingAt(d, 4) == [1, 2, 1];
  }

  /** The run with `skipLevels: [1, 2], maxDepth: 3` numbers five h3 headings. */
  lemma SkipLevelsKeptDepths()
    ensures KeptDepths(Resolve(SkipH1H2), Doc()) == [3, 3, 3, 3, 3]
  {
    SkipLevelsKeptHeadings("The Main Heading", "Section 1", "Subheading", "Mubheading", "Section 2",
                           "Custom Heading", "QuoteHeading", "ListItem Heading");
  }

  /**
   * Skipped levels reserve no digit: the first kept heading, an h3, is
   * numbered 1.1.1., and the next ones 1.1.2. to 1.1.5.
   */
  lemma SkipLevelsNumbering()
    ensures var d: seq<HeadingDepth> := [3, 3, 3, 3, 3];
            NumberingAt(d, 0) == [1, 1, 1] &&
            NumberingAt(d, 1) == [1, 1, 2] &&
            NumberingAt(d, 2) == [1, 1, 3] &&
            NumberingAt(d, 3) == [1, 1, 4] &&
            NumberingAt(d, 4) == [1, 1, 5]
  {
    var d: seq<HeadingDepth> := [3, 3, 3, 3, 3];
    assert NumberingAt(d, 0) == [1, 1, 1];
    assert NumberingAt(d, 1) == [1, 1, 2];
    assert NumberingAt(d, 2) == [1, 1, 3];
    assert NumberingAt(d, 3) == [1, 1, 4];
  }

  /** The run that excludes both "Mubheading"s numbers these depths. */
  lemma ExcludeKeptDepths(exclude: string -> bool)
    requires exclude("Mubheading")
    requires !exclude("Section 1") && !exclude("Subheading") && !exclude("Section 2") && !exclude("Custom Heading")
    requires !exclude("QuoteHeading") && !exclude("ListItem Heading")
    ensures KeptDepths(Resolve(NoOptions.(exclude := Some(exclude))), Doc()) == [2, 3, 2, 3, 3, 4, 4, 5, 5]
  {
    ExcludeKeptHeadings("The Main Heading", "Section 1", "Subheading", "Mubheading", "Section 2",
                        "Custom Heading", "QuoteHeading", "ListItem Heading", exclude);
  }

  /** The kept headings are renumbered around the gaps: 1.1., 1.1.1., 1.2., 1.2.1., 1.2.2., ... */
  lemma ExcludeNumbering()
    ensures var d: seq<HeadingDepth> := [2, 3, 2, 3, 3, 4, 4, 5, 5];
            NumberingAt(d, 0) == [1, 1] &&
            NumberingAt(d, 1) == [1, 1, 1] &&
            NumberingAt(d, 2) == [1, 2] &&
            NumberingAt(d, 3) == [1, 2, 1] &&
            NumberingAt(d, 4) == [1, 2, 2] &&
            NumberingAt(d, 5) == [1, 2, 2, 1] &&
            NumberingAt(d, 6) == [1, 2, 2, 2] &&
            NumberingAt(d, 7) == [1, 2, 2, 2, 1] &&
            NumberingAt(d, 8) == [1, 2, 2, 2, 2]
  {
    var d: seq<HeadingDepth> := [2, 3, 2, 3, 3, 4, 4, 5, 5];
    assert NumberingAt(d, 0) == [1, 1];
    assert NumberingAt(d, 1) == [1, 1, 1];
    assert NumberingAt(d, 2) == [1, 2];
    assert NumberingAt(d, 3) == [1, 2, 1];
    assert NumberingAt(d, 4) == [1, 2, 2];
    assert NumberingAt(d, 5) == [1, 2, 2, 1];
    assert NumberingAt(d, 6) == [1, 2, 2, 2];
    assert NumberingAt(d, 7) == [1, 2, 2, 2, 1];
  }

  /**
   * The second h3 with the text of the first gets the `-1` slug, the first
   * the bare one, whatever the other texts are, as long as their slugs differ.
   */
  lemma RepeatedTextSlugs(normalize: string -> string,
                          main: string, s1: string, sub: string, mub: string, s2: string,
                          custom: string, quote: string, li: string)
    requires normalize(sub) != normalize(main) && normalize(sub) != normalize(s1)
    requires normalize(sub) != normalize(mub) && normalize(sub) != normalize(s2)
    ensures var texts := Texts(TestDoc(main, s1, sub, mub, s2, custom, quote, li));
            SlugAt(normalize, texts, 2) == normalize(sub) &&
            SlugAt(normalize, texts, 5) == normalize(sub) + "-1"
  {
    var doc := TestDoc(main, s1, sub, mub, s2, custom, quote, li);
    var first := doc[..6];
    assert Texts(first) == [main, s1, sub, mub, s2, sub];
    SlugAtPrefix(normalize, doc, 6, 2);
    SlugAtPrefix(normalize, doc, 6, 5);
    FirstSixSlugs(normalize, main, s1, sub, mub, s2);
  }

  /** Slugging one more text bumps the counter of its own base slug by one. */
  lemma CountSnoc(normalize: string -> string, texts: seq<string>, t: string, base: string)
    ensures Count(Occurrences(normalize, texts + [t]), base) ==
              Count(Occurrences(normalize, texts), base) + (if normalize(t) == base then 1 else 0)
  {
    OccurrencesSnoc(normalize, texts, t);
  }

  /** The slugs of the first six headings of the test document. */
  lemma FirstSixSlugs(normalize: string -> string, main: string, s1: string, sub: string, mub: string, s2: string)
    requires normalize(sub) != normalize(main) && normalize(sub) != normalize(s1)
    requires normalize(sub) != normalize(mub) && normalize(sub) != normalize(s2)
    ensures var texts := [main, s1, sub, mub, s2, sub];
            SlugAt(normalize, texts, 2) == normalize(sub) &&
            SlugAt(normalize, texts, 5) == normalize(sub) + "-1"
  {
    var texts := [main, s1, sub, mub, s2, sub];
    var t0: seq<string> := [];
    var t1 := t0 + [main];
    var t2 := t1 + [s1];
    var t3 := t2 + [sub];
    var t4 := t3 + [mub];
    var t5 := t4 + [s2];
    assert texts[..2] == t2 && texts[..5] == t5;
    var b := normalize(sub);
    CountSnoc(normalize, t0, main, b);
    CountSnoc(normalize, t1, s1, b);
    CountSnoc(normalize, t2, sub, b);
    CountSnoc(normalize, t3, mub, b);
    CountSnoc(normalize, t4, s2, b);
    assert Count(Occurrences(normalize, t2), b) == 0;
    assert Count(Occurrences(normalize, t5), b) == 1;
    assert Decimal(1) == "1";
  }

  /**
   * Without the slug library's re-check, a suffixed slug can meet a text
   * whose own base slug looks suffixed: under the identity normalisation
   * the texts "a", "a-1", "a" give the slugs "a", "a-1", "a-1".
   */
  lemma SuffixedSlugCanCollide()
    ensures var texts := ["a", "a-1", "a"];
            SlugAt(t => t, texts, 0) == "a" &&
            SlugAt(t => t, texts, 1) == "a-1" &&
            SlugAt(t => t, texts, 2) == "a-1"
  {
    var id := (t: string) => t;
    var texts := ["a", "a-1", "a"];
    var t0: seq<string> := [];
    var t1 := t0 + ["a"];
    var t2 := t1 + ["a-1"];
    assert texts[..0] == t0 && texts[..1] == t1 && texts[..2] == t2;
    CountSnoc(id, t0, "a", "a");
    CountSnoc(id, t0, "a", "a-1");
    CountSnoc(id, t1, "a-1", "a");
    assert Count(Occurrences(id, t1), "a-1") == 0;
    assert Count(Occurrences(id, t2), "a") == 1;
    assert Decimal(1) == "1";
  }
}
