/** The final ranking of score.py:164: `scored_links.sort(key=lambda x: x[1], reverse=True)`.
    Python's `list.sort` is stable also with `reverse=True`, so the ranking is a stable sort
    by the negated score: highest score first, ties in the order the scorer emitted them. */
module Ranking {
  import opened Signals
  import opened Sorting
  import opened Score

  /** The sort key: ascending negated score is descending score. */
  function NegScore(p: ScoredLink): real
  {
    -p.score
  }

  /** The ranked list. */
  function Ranked(s: seq<ScoredLink>): seq<ScoredLink>
  {
    SortBy(s, NegScore)
  }

  /** The ranking is a permutation of its input with scores non-increasing from first to last. */
  lemma RankedIsDescending(s: seq<ScoredLink>)
    ensures multiset(Ranked(s)) == multiset(s)
    ensures forall i, j :: 0 <= i < j < |Ranked(s)| ==> Ranked(s)[i].score >= Ranked(s)[j].score
  {
    var r := Ranked(s);
    SortByAscending(s, NegScore);
    forall i, j | 0 <= i < j < |r|
      ensures r[i].score >= r[j].score
    {
      assert NegScore(r[i]) <= NegScore(r[j]);
    }
  }

  /** The ranking is stable: the pairs of any one score keep the order in which they were emitted. */
  lemma RankedIsStable(s: seq<ScoredLink>, v: real)
    ensures WithKey(Ranked(s), NegScore, -v) == WithKey(s, NegScore, -v)
  {
    SortByStable(s, NegScore, -v);
  }

  /** Any ordering with non-increasing scores that keeps tied pairs in their emitted order is
      the ranking: the result does not depend on the sorting algorithm. */
  lemma RankingIsUnique(s: seq<ScoredLink>, r: seq<ScoredLink>)
    requires forall i, j :: 0 <= i < j < |r| ==> r[i].score >= r[j].score
    requires forall v :: WithKey(r, NegScore, v) == WithKey(s, NegScore, v)
    ensures r == Ranked(s)
  {
    assert Ascending(r, NegScore);
    StableSortUnique(s, r, NegScore);
  }

  /** One step of the in-place sort: moves `a[i]` down into the sorted prefix `a[..i]`,
      shifting every pair of lower score one place up. */
  method InsertInto(a: array<ScoredLink>, i: nat)
    requires i < a.Length
    modifies a
    ensures a[..] == Insert(old(a[..i]), old(a[i]), NegScore) + old(a[i + 1..])
  {
    ghost var s := a[..i];
    ghost var rest := a[i + 1..];
    var x := a[i];
    var j := i;
    while j > 0 && a[j - 1].score < x.score
      invariant 0 <= j <= i
      invariant forall k :: 0 <= k < j ==> a[k] == s[k]
      invariant forall k :: j < k <= i ==> a[k] == s[k - 1]
      invariant a[i + 1..] == rest
      invariant forall k :: j <= k < i ==> NegScore(s[k]) > NegScore(x)
      decreases j
    {
      a[j] := a[j - 1];
      j := j - 1;
    }
    InsertLandsAt(s, x, NegScore, j);
    a[j] := x;
    Assemble(a[..], s, x, rest, j);
  }

  /** A sequence laid out as `s[..j]`, then `x`, then `s[j..]`, then `rest`, is their concatenation. */
  lemma Assemble(t: seq<ScoredLink>, s: seq<ScoredLink>, x: ScoredLink, rest: seq<ScoredLink>, j: nat)
    requires j <= |s| && |t| == |s| + 1 + |rest|
    requires forall k :: 0 <= k < j ==> t[k] == s[k]
    requires t[j] == x
    requires forall k :: j < k <= |s| ==> t[k] == s[k - 1]
    requires t[|s| + 1..] == rest
    ensures t == s[..j] + [x] + s[j..] + rest
  {
    var u := s[..j] + [x] + s[j..] + rest;
    forall k | 0 <= k < |t|
      ensures t[k] == u[k]
    {
      if k > |s| {
        assert t[k] == t[|s| + 1..][k - |s| - 1];
      }
    }
  }

  /** `scored_links.sort(key=score, reverse=True)`, in place. */
  method Rank(a: array<ScoredLink>)
    modifies a
    ensures a[..] == Ranked(old(a[..]))
  {
    ghost var original := a[..];
    for i := 0 to a.Length
      invariant a[..] == SortBy(original[..i], NegScore) + original[i..]
    {
      ghost var before := a[..];
      RankStep(original, i, before);
      InsertInto(a, i);
    }
    assert original[..a.Length] == original;
  }

  /** The array after `i` steps holds the sorted first `i` pairs followed by the untouched rest. */
  lemma RankStep(original: seq<ScoredLink>, i: nat, before: seq<ScoredLink>)
    requires i < |original| && before == SortBy(original[..i], NegScore) + original[i..]
    ensures Insert(before[..i], before[i], NegScore) + before[i + 1..]
         == SortBy(original[..i + 1], NegScore) + original[i + 1..]
  {
    var sorted := SortBy(original[..i], NegScore);
    assert before[..i] == sorted;
    assert before[i] == original[i];
    assert before[i + 1..] == original[i + 1..];
    SortByPrefix(original, i, NegScore);
  }

  /** The ranked output of the program for one page: scores the page's internal links with the
      v2 scorer and sorts the pairs by score, highest first. */
  method RankPage(links: seq<Link>, baseNetloc: string, height: int) returns (ranked: seq<ScoredLink>)
    ensures ranked == Ranked(ScoreAll(InternalLinks(links, baseNetloc), height))
  {
    var scored := ExtractLinksAndScore(links, baseNetloc, height);
    var a := new ScoredLink[|scored|](i requires 0 <= i < |scored| => scored[i]);
    assert a[..] == scored;
    Rank(a);
    ranked := a[..];
  }
}
