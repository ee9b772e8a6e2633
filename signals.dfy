/** The link record and the individual scoring signals of `score_link_elements_v2`
    (score.py:110-145): six 0/1 cues and the fractional order term. */
module Signals {
  import opened Text

  /** Identity of the DOM node that is a link's `parentNode`; only compared for equality. */
  type NodeId = nat

  /** One anchor element as the scorer reads it through the browser driver:
      `text` is the lower-cased visible text, `href` the absolute destination, `path` and
      `netloc` that destination's URL path and network location, `classes` and `ids` the
      whitespace-split `class` and `id` attributes, `x`/`y` the element's location,
      `surrounding` the lower-cased text of its parent node and `parent` that node. */
  datatype Link = Link(
    text: string,
    href: string,
    path: string,
    netloc: string,
    classes: seq<string>,
    ids: seq<string>,
    x: int,
    y: int,
    surrounding: string,
    parent: NodeId)

  /** One `(href, score)` pair of the scorer's output. */
  datatype ScoredLink = ScoredLink(href: string, score: real)

  const OrdinalWords: seq<string> := ["first", "second", "third", "fourth", "fifth", "last"]

  const RomanNumerals: seq<string> :=
    ["i", "ii", "iii", "iv", "v", "vi", "vii", "viii", "ix", "x",
     "xi", "xii", "xiii", "xiv", "xv", "xvi", "xvii", "xviii", "xix", "xx"]

  const TextKeywords: seq<string> := ["next", "continue", "more"]

  const ClassKeywords: seq<string> := ["next", "pagination-next", "continue"]

  const SurroundingKeywords: seq<string> := ["next", "continue", "upcoming"]

  /** The four numeric parts of the `ordinal_numerals` list as score.py:113-116 builds them:
      every number 1..20 with `st`, 2..20 except 12 with `nd`, 3..20 except 13 with `rd`, and
      4..20 with `th` (so `2st` and `11nd` are listed too, `12nd` and `13rd` are not). */
  const StNumerals: seq<string> :=
    ["1st", "2st", "3st", "4st", "5st", "6st", "7st", "8st", "9st", "10st",
     "11st", "12st", "13st", "14st", "15st", "16st", "17st", "18st", "19st", "20st"]

  const NdNumerals: seq<string> :=
    ["2nd", "3nd", "4nd", "5nd", "6nd", "7nd", "8nd", "9nd", "10nd",
     "11nd", "13nd", "14nd", "15nd", "16nd", "17nd", "18nd", "19nd", "20nd"]

  const RdNumerals: seq<string> :=
    ["3rd", "4rd", "5rd", "6rd", "7rd", "8rd", "9rd", "10rd",
     "11rd", "12rd", "14rd", "15rd", "16rd", "17rd", "18rd", "19rd", "20rd"]

  const ThNumerals: seq<string> :=
    ["4th", "5th", "6th", "7th", "8th", "9th", "10th",
     "11th", "12th", "13th", "14th", "15th", "16th", "17th", "18th", "19th", "20th"]

  const SuffixedNumerals: seq<string> := StNumerals + NdNumerals + RdNumerals + ThNumerals

  /** The `ordinal_numerals` list: the suffixed numbers, then the Roman numerals `i`..`xx`. */
  const OrdinalNumerals: seq<string> := SuffixedNumerals + RomanNumerals

  /** Ordinal cue: the text holds an ordinal word or any listed numeral as a substring. */
  predicate OrdinalCue(text: string)
  {
    ContainsAny(text, OrdinalWords) || ContainsAny(text, OrdinalNumerals)
  }

  /** The Roman-numeral part of the ordinal cue reduces to a letter test: the text holds a
      listed numeral exactly when it holds one of the single letters `i`, `v` or `x`. */
  lemma RomanNumeralsAreLetterTest(t: string)
    ensures ContainsAny(t, RomanNumerals) <==> ContainsAny(t, ["i", "v", "x"])
  {
    if ContainsAny(t, RomanNumerals) {
      var w :| w in RomanNumerals && Contains(t, w);
      ContainsLetterOf(t, w, 0);
      assert [w[0]] in ["i", "v", "x"];
    }
    if ContainsAny(t, ["i", "v", "x"]) {
      var w :| w in ["i", "v", "x"] && Contains(t, w);
      assert w in RomanNumerals;
    }
  }

  /** Any text with an `i`, `v` or `x` in it earns the ordinal point. */
  lemma LetterEarnsOrdinal(t: string, c: char)
    requires c in "ivx" && Contains(t, [c])
    ensures OrdinalCue(t)
  {
    assert [c] in RomanNumerals;
    RomanEarnsOrdinal(t);
  }

  lemma RomanEarnsOrdinal(t: string)
    requires ContainsAny(t, RomanNumerals)
    ensures OrdinalCue(t)
  {
    ContainsAnyOfSuffix(t, SuffixedNumerals, RomanNumerals);
  }

  lemma ContainsAnyOfSuffix(t: string, a: seq<string>, b: seq<string>)
    requires ContainsAny(t, b)
    ensures ContainsAny(t, a + b)
  {
    var w :| w in b && Contains(t, w);
    assert w in a + b;
  }

  /** A text containing a word with an `i`, `v` or `x` at some position earns the ordinal point. */
  lemma WordWithLetterEarnsOrdinal(t: string, w: string, k: nat)
    requires k < |w| && w[k] in "ivx" && Contains(t, w)
    ensures OrdinalCue(t)
  {
    ContainsLetterOf(t, w, k);
    LetterEarnsOrdinal(t, w[k]);
  }

  /** Text with `next` or `continue` in it always earns the ordinal point as well as the
      link-text point, through the `x` of `next` and the `i` of `continue`. */
  lemma NextAndContinueEarnOrdinal(t: string)
    requires Contains(t, "next") || Contains(t, "continue")
    ensures OrdinalCue(t) && TextCue(t)
  {
    assert "next" in TextKeywords && "continue" in TextKeywords;
    if Contains(t, "next") {
      WordWithLetterEarnsOrdinal(t, "next", 2);
    } else {
      WordWithLetterEarnsOrdinal(t, "continue", 4);
    }
  }

  /** The class/id cue compares whole tokens while the link-text cue looks for substrings: a
      link whose text and only class are `next-btn` earns the text point but not the class point. */
  lemma ClassCueIsTokenMatch()
    ensures TextCue("next-btn") && !ClassIdCue(["next-btn"], [])
  {
    assert OccursAt("next-btn", "next", 0);
    ContainsAt("next-btn", "next");
    assert "next" in TextKeywords;
  }

  /** No keyword list holds the empty string. */
  lemma NoEmptyKeyword()
    ensures "" !in OrdinalWords && "" !in OrdinalNumerals
    ensures "" !in TextKeywords && "" !in SurroundingKeywords
  {
    NoEmptyNumeral(StNumerals);
    NoEmptyNumeral(NdNumerals);
    NoEmptyNumeral(RdNumerals);
    NoEmptyNumeral(ThNumerals);
    NoEmptyNumeral(RomanNumerals);
  }

  /** A list of the numerals of `ordinal_numerals` does not hold the empty string. */
  lemma NoEmptyNumeral(part: seq<string>)
    requires part in [StNumerals, NdNumerals, RdNumerals, ThNumerals, RomanNumerals]
    ensures "" !in part
  {
  }

  /** Empty text fires none of the substring cues. */
  lemma EmptyTextFiresNoCue()
    ensures !OrdinalCue("") && !TextCue("") && !SurroundingCue("")
  {
    NoEmptyKeyword();
    EmptyContainsOnlyEmpty(OrdinalWords);
    EmptyContainsOnlyEmpty(OrdinalNumerals);
    EmptyContainsOnlyEmpty(TextKeywords);
    EmptyContainsOnlyEmpty(SurroundingKeywords);
  }

  /** Link-text cue: `next`, `continue` or `more` occurs in the text. */
  predicate TextCue(text: string)
  {
    ContainsAny(text, TextKeywords)
  }

  /** Position cue: `y > 0.7 * height`, stated exactly over the integers. */
  predicate LowInViewport(y: int, height: int)
  {
    10 * y > 7 * height
  }

  /** Class/id cue: one of the keywords is, as a whole token, among the classes and ids. */
  predicate ClassIdCue(classes: seq<string>, ids: seq<string>)
  {
    exists k | k in ClassKeywords :: k in classes + ids
  }

  /** URL-pattern cue: the URL path holds a decimal digit. */
  predicate PathDigitCue(path: string)
  {
    HasDigit(path)
  }

  /** Surrounding-text cue: `next`, `continue` or `upcoming` occurs in the parent's text. */
  predicate SurroundingCue(surrounding: string)
  {
    ContainsAny(surrounding, SurroundingKeywords)
  }

  /** The `score += 1` of a cue that fired. */
  function Point(fired: bool): (r: real)
    ensures r == 0.0 || r == 1.0
    ensures r == 1.0 <==> fired
  {
    if fired then 1.0 else 0.0
  }

  /** Order term for the link at `index` of a sorted group of `n` links. */
  function OrderTerm(index: nat, n: nat, horizontal: bool): real
    requires index < n
  {
    if horizontal then (n - index - 1) as real / n as real else index as real / n as real
  }

  /** The order term lies in `[0, (n-1)/n]`, which is below 1, and is 0 in a group of one. */
  lemma OrderTermBounds(index: nat, n: nat, horizontal: bool)
    requires index < n
    ensures 0.0 <= OrderTerm(index, n, horizontal) <= (n - 1) as real / n as real < 1.0
    ensures n == 1 ==> OrderTerm(index, n, horizontal) == 0.0
  {
    var k := if horizontal then n - index - 1 else index;
    assert 0 <= k <= n - 1;
    DivMonotone(k as real, (n - 1) as real, n as real);
    DivMonotone(0.0, k as real, n as real);
    assert (n - 1) as real / n as real < 1.0 by {
      DivBelowOne((n - 1) as real, n as real);
    }
  }

  lemma DivMonotone(a: real, b: real, d: real)
    requires a <= b && d > 0.0
    ensures a / d <= b / d
  {
    assert b / d - a / d == (b - a) / d;
  }

  lemma DivBelowOne(a: real, d: real)
    requires a < d && d > 0.0
    ensures a / d < 1.0
  {
    assert a / d * d == a;
  }

  /** Vertical groups reward later sorted positions, horizontal groups earlier ones: the order
      term strictly increases with the index in a vertical group and strictly decreases in a
      horizontal one. */
  lemma OrderTermDirection(i: nat, j: nat, n: nat)
    requires i < j < n
    ensures OrderTerm(i, n, false) < OrderTerm(j, n, false)
    ensures OrderTerm(i, n, true) > OrderTerm(j, n, true)
  {
    DivStrict(i as real, j as real, n as real);
    DivStrict((n - j - 1) as real, (n - i - 1) as real, n as real);
  }

  lemma DivStrict(a: real, b: real, d: real)
    requires a < b && d > 0.0
    ensures a / d < b / d
  {
    assert b / d - a / d == (b - a) / d;
    assert (b - a) / d * d == b - a;
  }

  /** The score of one link: the sum of the seven contributions of score.py:110-145. */
  function LinkScore(link: Link, index: nat, n: nat, horizontal: bool, height: int): real
    requires index < n
  {
    Point(OrdinalCue(link.text))
    + Point(TextCue(link.text))
    + Point(LowInViewport(link.y, height))
    + Point(ClassIdCue(link.classes, link.ids))
    + OrderTerm(index, n, horizontal)
    + Point(PathDigitCue(link.path))
    + Point(SurroundingCue(link.surrounding))
  }

  /** How many of the six 0/1 cues fire for a link. */
  function CueCount(link: Link, height: int): (k: nat)
    ensures k <= 6
  {
    (if OrdinalCue(link.text) then 1 else 0)
    + (if TextCue(link.text) then 1 else 0)
    + (if LowInViewport(link.y, height) then 1 else 0)
    + (if ClassIdCue(link.classes, link.ids) then 1 else 0)
    + (if PathDigitCue(link.path) then 1 else 0)
    + (if SurroundingCue(link.surrounding) then 1 else 0)
  }

  /** A score is a whole number of cue points, at most 6, plus the order term of its position. */
  lemma LinkScoreSplits(link: Link, index: nat, n: nat, horizontal: bool, height: int)
    requires index < n
    ensures LinkScore(link, index, n, horizontal, height)
         == CueCount(link, height) as real + OrderTerm(index, n, horizontal)
    ensures CueCount(link, height) <= 6
  {
    var ordinal, text := Point(OrdinalCue(link.text)), Point(TextCue(link.text));
    var low, token := Point(LowInViewport(link.y, height)), Point(ClassIdCue(link.classes, link.ids));
    var digit, around := Point(PathDigitCue(link.path)), Point(SurroundingCue(link.surrounding));
    assert LinkScore(link, index, n, horizontal, height)
        == ordinal + text + low + token + digit + around + OrderTerm(index, n, horizontal);
    assert ordinal + text + low + token + digit + around == CueCount(link, height) as real;
  }

  /** Every score is at least 0 and below 7: six 0/1 cues plus an order term below 1. */
  lemma LinkScoreBounds(link: Link, index: nat, n: nat, horizontal: bool, height: int)
    requires index < n
    ensures 0.0 <= LinkScore(link, index, n, horizontal, height) < 7.0
  {
    OrderTermBounds(index, n, horizontal);
    var ordinal, text := Point(OrdinalCue(link.text)), Point(TextCue(link.text));
    var low, token := Point(LowInViewport(link.y, height)), Point(ClassIdCue(link.classes, link.ids));
    var digit, around := Point(PathDigitCue(link.path)), Point(SurroundingCue(link.surrounding));
    var order := OrderTerm(index, n, horizontal);
    assert LinkScore(link, index, n, horizontal, height) == ordinal + text + low + token + order + digit + around;
    assert 0.0 <= ordinal + text + low + token + digit + around <= 6.0;
  }
}
