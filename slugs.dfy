/**
 * The per-run slugger as the plugin uses it. The normalisation of a text to
 * its base slug belongs to the slug library and is a parameter here; what is
 * modelled is the library's per-run state: how many times each base slug has
 * been handed out, the first time unsuffixed, then with `-1`, `-2`, ...
 */
module Slugs {

  /** The decimal digit for `d`. */
  function Digit(d: nat): (c: char)
    requires d < 10
    ensures '0' <= c <= '9'
  {
    (d + '0' as int) as char
  }

  /** The number a decimal digit stands for; 0 for any other character. */
  function DigitValue(c: char): nat {
    if '0' <= c <= '9' then c as int - '0' as int else 0
  }

  /** The number a string of decimal digits reads as, most significant digit first. */
  function DecimalValue(s: string): nat
    decreases |s|
  {
    if s == [] then 0 else 10 * DecimalValue(s[..|s| - 1]) + DigitValue(s[|s| - 1])
  }

  /**
   * `n` written in decimal, as JavaScript turns a counter into a string:
   * digits only, with no leading zero, reading back as `n`.
   */
  function Decimal(n: nat): (r: string)
    ensures 1 <= |r|
    ensures forall k :: 0 <= k < |r| ==> '0' <= r[k] <= '9'
    ensures DecimalValue(r) == n
    ensures n == 0 || r[0] != '0'
    decreases n
  {
    if n < 10 then [Digit(n)]
    else
      var front := Decimal(n / 10);
      var r := front + [Digit(n % 10)];
      assert r[..|r| - 1] == front;
      r
  }

  /** Distinct counters are written differently. */
  lemma DecimalInjective(n: nat, m: nat)
    requires Decimal(n) == Decimal(m)
    ensures n == m
  {
    assert n == DecimalValue(Decimal(n)) == DecimalValue(Decimal(m)) == m;
  }

  /** The slug handed out for the `n`-th earlier use of the same base slug. */
  function Suffixed(base: string, n: nat): string {
    if n == 0 then base else base + "-" + Decimal(n)
  }

  /** Two uses of one base slug that come at different counts get different slugs. */
  lemma SuffixedInjective(base: string, n: nat, m: nat)
    requires Suffixed(base, n) == Suffixed(base, m)
    ensures n == m
  {
    if n != 0 && m != 0 {
      var sn, sm := Suffixed(base, n), Suffixed(base, m);
      assert sn[|base| + 1..] == Decimal(n);
      assert sm[|base| + 1..] == Decimal(m);
      DecimalInjective(n, m);
    }
  }

  /** How many times `base` has been handed out, per the counters `occ`. */
  function Count(occ: map<string, nat>, base: string): nat {
    if base in occ then occ[base] else 0
  }

  /** The slugger's state of counters once every text of `texts` has been slugged. */
  function Occurrences(normalize: string -> string, texts: seq<string>): map<string, nat>
    decreases |texts|
  {
    if texts == [] then map[]
    else
      var last := |texts| - 1;
      var occ := Occurrences(normalize, texts[..last]);
      var base := normalize(texts[last]);
      occ[base := Count(occ, base) + 1]
  }

  /** Slugging one more text bumps the counter of that text's base slug and no other. */
  lemma OccurrencesSnoc(normalize: string -> string, texts: seq<string>, t: string)
    ensures var occ := Occurrences(normalize, texts);
            Occurrences(normalize, texts + [t]) == occ[normalize(t) := Count(occ, normalize(t)) + 1]
  {
    assert (texts + [t])[..|texts|] == texts;
  }

  /** The base slugs of `texts`, in order. */
  function Bases(normalize: string -> string, texts: seq<string>): (r: seq<string>)
    ensures |r| == |texts|
  {
    seq(|texts|, j requires 0 <= j < |texts| => normalize(texts[j]))
  }

  /** The counter of a base slug is the number of earlier texts with that base. */
  lemma {:induction false} OccurrencesCount(normalize: string -> string, texts: seq<string>, base: string)
    ensures Count(Occurrences(normalize, texts), base) == multiset(Bases(normalize, texts))[base]
    decreases |texts|
  {
    if texts != [] {
      var last := |texts| - 1;
      OccurrencesCount(normalize, texts[..last], base);
      assert Bases(normalize, texts) == Bases(normalize, texts[..last]) + [normalize(texts[last])];
    }
  }

  /** The slug the `j`-th slugged text of a run receives. */
  function SlugAt(normalize: string -> string, texts: seq<string>, j: nat): string
    requires j < |texts|
  {
    var base := normalize(texts[j]);
    Suffixed(base, Count(Occurrences(normalize, texts[..j]), base))
  }

  /**
   * The `j`-th text's slug is its base slug, suffixed with the number of
   * earlier texts in the run that have the same base slug, unsuffixed when
   * there are none.
   */
  lemma SlugAtCountsEarlierTexts(normalize: string -> string, texts: seq<string>, j: nat)
    requires j < |texts|
    ensures var base := normalize(texts[j]);
            var n := multiset(Bases(normalize, texts[..j]))[base];
            SlugAt(normalize, texts, j) == Suffixed(base, n) &&
            (n == 0 <==> forall k :: 0 <= k < j ==> normalize(texts[k]) != base)
  {
    var base := normalize(texts[j]);
    OccurrencesCount(normalize, texts[..j], base);
    var b := Bases(normalize, texts[..j]);
    if exists k :: 0 <= k < j && normalize(texts[k]) == base {
      var k :| 0 <= k < j && normalize(texts[k]) == base;
      assert b[k] == base;
    }
  }

  /** A base slug's counter only grows, and it grows at every use of that base. */
  lemma {:induction false} CountGrows(normalize: string -> string, texts: seq<string>, i: nat, j: nat)
    requires i < j <= |texts|
    ensures var base := normalize(texts[i]);
            Count(Occurrences(normalize, texts[..i]), base) < Count(Occurrences(normalize, texts[..j]), base)
    decreases j
  {
    assert texts[..j] == texts[..j - 1] + [texts[j - 1]];
    OccurrencesSnoc(normalize, texts[..j - 1], texts[j - 1]);
    if j > i + 1 {
      CountGrows(normalize, texts, i, j - 1);
    }
  }

  /**
   * Two texts of one run with the same base slug never get the same slug:
   * the later one has counted the earlier one.
   */
  lemma SameBaseDistinctSlugs(normalize: string -> string, texts: seq<string>, i: nat, j: nat)
    requires i < j < |texts| && normalize(texts[i]) == normalize(texts[j])
    ensures SlugAt(normalize, texts, i) != SlugAt(normalize, texts, j)
  {
    var base := normalize(texts[i]);
    CountGrows(normalize, texts, i, j);
    if SlugAt(normalize, texts, i) == SlugAt(normalize, texts, j) {
      SuffixedInjective(base, Count(Occurrences(normalize, texts[..i]), base),
                              Count(Occurrences(normalize, texts[..j]), base));
    }
  }

  /**
   * The slug library's object, created fresh for every run. `occurrences`
   * counts the uses of each base slug so far.
   */
  class Slugger {
    const normalize: string -> string
    var occurrences: map<string, nat>

    constructor (normalize: string -> string)
      ensures this.normalize == normalize && occurrences == map[]
    {
      this.normalize := normalize;
      occurrences := map[];
    }

    /** `slugger.slug(value)` */
    method Slug(value: string) returns (slug: string)
      modifies this
      ensures var base := normalize(value);
              slug == Suffixed(base, Count(old(occurrences), base)) &&
              occurrences == old(occurrences)[base := Count(old(occurrences), base) + 1]
    {
      var base := normalize(value);
      var n := Count(occurrences, base);
      slug := Suffixed(base, n);
      occurrences := occurrences[base := n + 1];
    }
  }
}
