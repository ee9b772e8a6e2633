/** `score_link_elements_v2` (score.py:88-149): group the links by parent node,
    infer each group's orientation from its first two links, visit each group in
    a stable sort by the oriented coordinate, and emit one `(href, score)` pair
    per link. Also the internal-link filter of `extract_links_and_score`. */
module Score {
  import opened Signals
  import opened Sorting
  import opened Grouping

  /** A group is laid out horizontally when its first two links, in discovery order, have
      different `x`; a group of one link is vertical. */
  predicate IsHorizontal(group: seq<Link>)
  {
    |group| > 1 && group[0].x != group[1].x
  }

  function XKey(link: Link): real
  {
    link.x as real
  }

  function YKey(link: Link): real
  {
    link.y as real
  }

  /** The sort key of score.py:99: `x` for horizontal groups, `y` for vertical ones. */
  function CoordKey(horizontal: bool): Link -> real
  {
    if horizontal then XKey else YKey
  }

  /** The order in which the scoring loop visits a group: `sorted(links, key=...)`. */
  function Arrange(group: seq<Link>): seq<Link>
  {
    SortBy(group, CoordKey(IsHorizontal(group)))
  }

  /** The pairs emitted for one group: each link of the sorted group with its score at its
      sorted index. */
  function ScoreGroup(group: seq<Link>, height: int): seq<ScoredLink>
  {
    var sorted := Arrange(group);
    seq(|sorted|, i requires 0 <= i < |sorted| =>
      ScoredLink(sorted[i].href, LinkScore(sorted[i], i, |group|, IsHorizontal(group), height)))
  }

  /** The pairs emitted for the groups of `ps`, one group after the other. */
  function ScoreGroups(links: seq<Link>, ps: seq<NodeId>, height: int): seq<ScoredLink>
  {
    if ps == [] then []
    else ScoreGroups(links, ps[..|ps| - 1], height) + ScoreGroup(Children(links, ps[|ps| - 1]), height)
  }

  /** The result of `score_link_elements_v2`. */
  function ScoreAll(links: seq<Link>, height: int): seq<ScoredLink>
  {
    ScoreGroups(links, Parents(links), height)
  }

  /** The links of the groups of `ps` in the order they are visited. */
  function Arranged(links: seq<Link>, ps: seq<NodeId>): seq<Link>
  {
    if ps == [] then [] else Arranged(links, ps[..|ps| - 1]) + Arrange(Children(links, ps[|ps| - 1]))
  }

  /** Every link of the page in the order it is scored. */
  function VisitOrder(links: seq<Link>): seq<Link>
  {
    Arranged(links, Parents(links))
  }

  /** Within a group, links are visited in a stable sort by `x` (horizontal) or `y` (vertical):
      the coordinate never decreases, and links of equal coordinate keep their discovery order. */
  lemma ArrangeIsStableSort(group: seq<Link>, v: real)
    ensures var key := CoordKey(IsHorizontal(group));
      && multiset(Arrange(group)) == multiset(group)
      && Ascending(Arrange(group), key)
      && WithKey(Arrange(group), key, v) == WithKey(group, key, v)
  {
    SortByAscending(group, CoordKey(IsHorizontal(group)));
    SortByStable(group, CoordKey(IsHorizontal(group)), v);
  }

  /** `out` pairs each link of `visited`, position by position, with its destination and a
      score in `[0, 7)`. */
  ghost predicate PairsEach(out: seq<ScoredLink>, visited: seq<Link>)
  {
    && |out| == |visited|
    && forall i :: 0 <= i < |out| ==> out[i].href == visited[i].href && 0.0 <= out[i].score < 7.0
  }

  lemma PairsEachAppend(out1: seq<ScoredLink>, visited1: seq<Link>, out2: seq<ScoredLink>, visited2: seq<Link>)
    requires PairsEach(out1, visited1) && PairsEach(out2, visited2)
    ensures PairsEach(out1 + out2, visited1 + visited2)
  {
    forall i | 0 <= i < |out1 + out2|
      ensures (out1 + out2)[i].href == (visited1 + visited2)[i].href
      ensures 0.0 <= (out1 + out2)[i].score < 7.0
    {
      if i >= |out1| {
        assert (out1 + out2)[i] == out2[i - |out1|];
        assert (visited1 + visited2)[i] == visited2[i - |out1|];
      }
    }
  }

  /** The pairs of one group are its sorted links, each with a score in `[0, 7)`. */
  lemma ScoreGroupPairs(group: seq<Link>, height: int)
    ensures PairsEach(ScoreGroup(group, height), Arrange(group))
  {
    var sorted := Arrange(group);
    forall i | 0 <= i < |group|
      ensures 0.0 <= ScoreGroup(group, height)[i].score < 7.0
    {
      LinkScoreBounds(sorted[i], i, |group|, IsHorizontal(group), height);
    }
  }

  /** The pairs of the groups of `ps` line up with the links of those groups in visiting order. */
  lemma {:induction false} ScoreGroupsPairs(links: seq<Link>, ps: seq<NodeId>, height: int)
    ensures PairsEach(ScoreGroups(links, ps, height), Arranged(links, ps))
  {
    if ps != [] {
      var front, p := ps[..|ps| - 1], ps[|ps| - 1];
      ScoreGroupsPairs(links, front, height);
      ScoreGroupPairs(Children(links, p), height);
      PairsEachAppend(ScoreGroups(links, front, height), Arranged(links, front),
                      ScoreGroup(Children(links, p), height), Arrange(Children(links, p)));
    }
  }

  /** The visited links of the groups of `ps` are the links of those groups. */
  lemma {:induction false} ArrangedPermutesFlatten(links: seq<Link>, ps: seq<NodeId>)
    ensures multiset(Arranged(links, ps)) == multiset(Flatten(links, ps))
  {
    if ps != [] {
      ArrangedPermutesFlatten(links, ps[..|ps| - 1]);
    }
  }

  /** Every input link is visited exactly once. */
  lemma VisitOrderPermutesLinks(links: seq<Link>)
    ensures multiset(VisitOrder(links)) == multiset(links)
    ensures |VisitOrder(links)| == |links|
  {
    ArrangedPermutesFlatten(links, Parents(links));
    GroupsPartitionLinks(links);
    assert |multiset(VisitOrder(links))| == |multiset(links)|;
  }

  /** The output has exactly one `(href, score)` pair per input link and no deduplication:
      the i-th pair belongs to the i-th link of a visiting order that is a permutation of the
      input, and every score lies in `[0, 7)`. */
  lemma ScoreAllPairsEachLink(links: seq<Link>, height: int)
    ensures |ScoreAll(links, height)| == |VisitOrder(links)| == |links|
    ensures multiset(VisitOrder(links)) == multiset(links)
    ensures forall i :: 0 <= i < |links| ==>
      && ScoreAll(links, height)[i].href == VisitOrder(links)[i].href
      && 0.0 <= ScoreAll(links, height)[i].score < 7.0
  {
    VisitOrderPermutesLinks(links);
    ScoreGroupsPairs(links, Parents(links), height);
  }

  /** Orientation is read from discovery order only: the same three links give a vertical group
      in one order and a horizontal group in another. */
  lemma OrientationDependsOnDiscoveryOrder(a: Link, b: Link, c: Link)
    requires a.x == b.x != c.x
    ensures !IsHorizontal([a, b, c]) && IsHorizontal([a, c, b])
    ensures multiset([a, b, c]) == multiset([a, c, b])
  {
  }

  /** The body of the scoring loop for one link (score.py:110-145): starts at 0 and adds each
      contribution in the order of the source. */
  method ScoreLink(link: Link, index: nat, n: nat, horizontal: bool, height: int) returns (score: real)
    requires index < n
    ensures score == LinkScore(link, index, n, horizontal, height)
    ensures 0.0 <= score < 7.0
  {
    score := 0.0;
    if OrdinalCue(link.text) {
      score := score + 1.0;
    }
    if TextCue(link.text) {
      score := score + 1.0;
    }
    assert score == Point(OrdinalCue(link.text)) + Point(TextCue(link.text));
    if LowInViewport(link.y, height) {
      score := score + 1.0;
    }
    if ClassIdCue(link.classes, link.ids) {
      score := score + 1.0;
    }
    ghost var cues := score;
    if horizontal {
      score := score + (n - index - 1) as real / n as real;
    } else {
      score := score + index as real / n as real;
    }
    assert score == cues + OrderTerm(index, n, horizontal);
    if PathDigitCue(link.path) {
      score := score + 1.0;
    }
    if SurroundingCue(link.surrounding) {
      score := score + 1.0;
    }
    LinkScoreBounds(link, index, n, horizontal, height);
  }

  lemma ScoreGroupAt(group: seq<Link>, height: int, i: nat)
    requires i < |group|
    ensures |ScoreGroup(group, height)| == |Arrange(group)| == |group|
    ensures ScoreGroup(group, height)[i]
         == ScoredLink(Arrange(group)[i].href, LinkScore(Arrange(group)[i], i, |group|, IsHorizontal(group), height))
  {
  }

  lemma PrefixStep<T>(s: seq<T>, i: nat)
    requires i < |s|
    ensures s[..i + 1] == s[..i] + [s[i]]
  {
  }

  lemma ScoreGroupsSnoc(links: seq<Link>, ps: seq<NodeId>, p: NodeId, height: int)
    ensures ScoreGroups(links, ps + [p], height) == ScoreGroups(links, ps, height) + ScoreGroup(Children(links, p), height)
  {
    assert (ps + [p])[..|ps|] == ps;
  }

  /** The inner loop of score.py:98-149 for one group: reads the orientation from the first two
      links, sorts the group by the oriented coordinate and scores each link at its sorted index. */
  method ScoreGroupLinks(members: seq<Link>, height: int) returns (out: seq<ScoredLink>)
    ensures out == ScoreGroup(members, height)
  {
    var horizontal := |members| > 1 && members[0].x != members[1].x;
    var sortedLinks := SortBy(members, CoordKey(horizontal));
    assert horizontal == IsHorizontal(members) && sortedLinks == Arrange(members);
    ghost var expected := ScoreGroup(members, height);
    out := [];
    for index := 0 to |sortedLinks|
      invariant out == expected[..index]
    {
      var score := ScoreLink(sortedLinks[index], index, |members|, horizontal, height);
      ScoreGroupAt(members, height, index);
      PrefixStep(expected, index);
      out := out + [ScoredLink(sortedLinks[index].href, score)];
    }
    assert expected[..|sortedLinks|] == expected;
  }

  /** `score_link_elements_v2`: builds `parent_groups`, then scores every group in key order,
      visiting each group in its sorted order. */
  method ScoreLinkElementsV2(links: seq<Link>, height: int) returns (scored: seq<ScoredLink>)
    ensures scored == ScoreAll(links, height)
  {
    var order, groups := GroupByParent(links);
    scored := [];
    for g := 0 to |order|
      invariant scored == ScoreGroups(links, order[..g], height)
    {
      var pairs := ScoreGroupLinks(groups[order[g]], height);
      ScoreGroupsSnoc(links, order[..g], order[g], height);
      PrefixStep(order, g);
      scored := scored + pairs;
    }
    assert order[..|order|] == order;
  }

  /** `is_internal_link`: the link's network location is the page's. */
  predicate IsInternalLink(baseNetloc: string, link: Link)
  {
    link.netloc == baseNetloc
  }

  /** The internal links of the page, in discovery order (score.py:154). */
  function InternalLinks(links: seq<Link>, baseNetloc: string): (r: seq<Link>)
    ensures forall l :: l in r <==> l in links && IsInternalLink(baseNetloc, l)
    ensures |r| <= |links|
  {
    if links == [] then []
    else
      var front, last := links[..|links| - 1], links[|links| - 1];
      assert links == front + [last];
      InternalLinks(front, baseNetloc) + (if IsInternalLink(baseNetloc, last) then [last] else [])
  }

  /** `extract_links_and_score`: keeps the internal links and scores them with the v2 scorer.
      Every emitted pair names the destination of an internal link of the page. */
  method ExtractLinksAndScore(links: seq<Link>, baseNetloc: string, height: int) returns (scored: seq<ScoredLink>)
    ensures scored == ScoreAll(InternalLinks(links, baseNetloc), height)
    ensures forall i :: 0 <= i < |scored| ==>
      exists l :: l in links && IsInternalLink(baseNetloc, l) && l.href == scored[i].href
  {
    var internal := InternalLinks(links, baseNetloc);
    scored := ScoreLinkElementsV2(internal, height);
    ScoreAllPairsEachLink(internal, height);
    forall i | 0 <= i < |scored|
      ensures exists l :: l in links && IsInternalLink(baseNetloc, l) && l.href == scored[i].href
    {
      var l := VisitOrder(internal)[i];
      assert l in multiset(VisitOrder(internal));
      assert l in internal;
    }
  }
}
