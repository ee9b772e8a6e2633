/** Worked pages for the v2 scorer and the ranking. */
module Scenarios {
  import opened Text
  import opened Signals
  import opened Sorting
  import opened Grouping
  import opened Score
  import opened Ranking

  /** A page whose links all share one parent is scored as that one group. */
  lemma OneGroupPage(links: seq<Link>, p: NodeId, height: int)
    requires Parents(links) == [p] && Children(links, p) == links
    ensures ScoreAll(links, height) == ScoreGroup(links, height)
  {
    assert [p][..0] == [];
    assert ScoreGroups(links, [p], height) == ScoreGroups(links, [], height) + ScoreGroup(links, height);
  }

  /** A page with one link scores that link alone, as a vertical group of one at index 0. */
  lemma SingleLinkPage(l: Link, height: int)
    ensures ScoreAll([l], height) == [ScoredLink(l.href, LinkScore(l, 0, 1, false, height))]
  {
    assert [l][..0] == [];
    assert Parents([l]) == [l.parent];
    assert Children([l], l.parent) == [l];
    assert Arrange([l]) == [l];
    var group := ScoreGroup([l], height);
    assert |group| == 1 && group[0] == ScoredLink(l.href, LinkScore(l, 0, 1, false, height));
    OneGroupPage([l], l.parent, height);
  }

  /** `read more` holds none of the surrounding-text keywords. */
  lemma ReadMoreIsNotSurroundingCue()
    ensures !SurroundingCue("read more")
  {
    MissingFirstChar("read more", "next");
    MissingFirstChar("read more", "continue");
    MissingFirstChar("read more", "upcoming");
  }

  /** The link of `NextLinkScoresFour` earns text, ordinal, position and URL-digit points. */
  lemma NextLinkScore(l: Link)
    requires l.text == "next" && l.path == "/page/2" && l.y == 900
    requires l.classes == [] && l.ids == [] && l.surrounding == "read more"
    ensures LinkScore(l, 0, 1, false, 1000) == 4.0
  {
    NextAndContinueEarnOrdinal("next");
    assert IsDigit(l.path[6]);
    ReadMoreIsNotSurroundingCue();
    OrderTermBounds(0, 1, false);
  }

  /** A single link with text `next`, path `/page/2`, at `y = 900` in a viewport 1000 high, no
      class or id and surrounding text `read more` scores 4: text, ordinal (the `x` of `next`),
      position and URL digit. */
  lemma NextLinkScoresFour(l: Link)
    requires l.text == "next" && l.path == "/page/2" && l.y == 900
    requires l.classes == [] && l.ids == [] && l.surrounding == "read more"
    ensures ScoreAll([l], 1000) == [ScoredLink(l.href, 4.0)]
  {
    SingleLinkPage(l, 1000);
    NextLinkScore(l);
  }

  /** A link with empty text, path, surrounding text, classes and ids fires no 0/1 cue, so its
      score is its order term alone. */
  lemma NoCueLink(l: Link, index: nat, n: nat, horizontal: bool, height: int)
    requires index < n && 10 * l.y <= 7 * height
    requires l.text == "" && l.path == "" && l.surrounding == "" && l.classes == [] && l.ids == []
    ensures LinkScore(l, index, n, horizontal, height) == OrderTerm(index, n, horizontal)
  {
    EmptyTextFiresNoCue();
  }

  /** Two links of one parent with equal `x` make one vertical group, already in `y` order. */
  lemma VerticalPairGroup(a: Link, b: Link)
    requires a.parent == b.parent && a.x == b.x && a.y <= b.y
    ensures Parents([a, b]) == [a.parent]
    ensures Children([a, b], a.parent) == [a, b]
    ensures !IsHorizontal([a, b]) && Arrange([a, b]) == [a, b]
  {
    assert [a][..0] == [];
    assert [a, b] == [a] + [b];
    ParentsSnoc([a], b);
    ChildrenSnoc([a], b, a.parent);
    assert SortBy([a], YKey) == [a];
    assert [a, b][..1] == [a];
    assert SortBy([a, b], YKey) == Insert([a], b, YKey);
  }

  /** Two links of one parent at equal `x`, `y = 50` and `y = 150`, with no cue, form a vertical
      group scored 0 and 0.5. */
  lemma VerticalPairScores(a: Link, b: Link)
    requires a.parent == b.parent && a.x == b.x && a.y == 50 && b.y == 150
    requires a.text == b.text == "" && a.path == b.path == "" && a.surrounding == b.surrounding == ""
    requires a.classes == b.classes == [] && a.ids == b.ids == []
    ensures ScoreAll([a, b], 1000) == [ScoredLink(a.href, 0.0), ScoredLink(b.href, 0.5)]
  {
    VerticalPairGroup(a, b);
    NoCueLink(a, 0, 2, false, 1000);
    NoCueLink(b, 1, 2, false, 1000);
    var group := ScoreGroup([a, b], 1000);
    assert group == [ScoredLink(a.href, 0.0), ScoredLink(b.href, 0.5)] by {
      assert group[0] == ScoredLink(a.href, 0.0);
      assert group[1] == ScoredLink(b.href, 0.5);
    }
    OneGroupPage([a, b], a.parent, 1000);
  }

  /** Of two pairs, the ranking puts the higher score first and keeps a tie in emitted order. */
  lemma RankedPair(p: ScoredLink, q: ScoredLink)
    ensures Ranked([p, q]) == if p.score < q.score then [q, p] else [p, q]
  {
    assert [p, q][..1] == [p];
    assert SortBy([p], NegScore) == [p];
    assert Ranked([p, q]) == Insert([p], q, NegScore);
  }

  /** In the page of `VerticalPairScores`, ranking puts the lower link (`y = 150`) first. */
  lemma VerticalPairRanksLowerFirst(a: Link, b: Link)
    requires a.parent == b.parent && a.x == b.x && a.y == 50 && b.y == 150
    requires a.text == b.text == "" && a.path == b.path == "" && a.surrounding == b.surrounding == ""
    requires a.classes == b.classes == [] && a.ids == b.ids == []
    ensures Ranked(ScoreAll([a, b], 1000)) == [ScoredLink(b.href, 0.5), ScoredLink(a.href, 0.0)]
  {
    VerticalPairScores(a, b);
    RankedPair(ScoredLink(a.href, 0.0), ScoredLink(b.href, 0.5));
  }

  /** A score can exceed 6: a link that fires all six 0/1 cues and sits second in a vertical
      group of two scores 6.5. */
  lemma ScoreCanExceedSix(l: Link)
    requires l.text == "next" && l.path == "/2" && l.y == 1000
    requires l.classes == ["next"] && l.ids == [] && l.surrounding == "next"
    ensures LinkScore(l, 1, 2, false, 1000) == 6.5
  {
    NextAndContinueEarnOrdinal("next");
    assert "next" in ClassKeywords && "next" in l.classes + l.ids;
    assert IsDigit(l.path[1]);
    assert Contains("next", "next");
    assert "next" in SurroundingKeywords;
  }
}
