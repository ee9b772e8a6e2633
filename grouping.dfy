/** Grouping of links by parent node, the `parent_groups` dictionary of
    `score_link_elements_v2` (score.py:89-93). Python dictionaries iterate in
    insertion order, so the model keeps the keys in a sequence beside the map. */
module Grouping {
  import opened Signals

  /** The parent nodes of `links`, each once, in the order of their first link. */
  function Parents(links: seq<Link>): (ps: seq<NodeId>)
    ensures forall p :: p in ps <==> exists l :: l in links && l.parent == p
  {
    if links == [] then []
    else
      var front, last := links[..|links| - 1], links[|links| - 1];
      assert links == front + [last];
      var ps := Parents(front);
      if last.parent in ps then ps else ps + [last.parent]
  }

  /** The links of `links` whose parent is `p`, in discovery order. */
  function Children(links: seq<Link>, p: NodeId): (r: seq<Link>)
    ensures forall l :: l in r ==> l in links && l.parent == p
  {
    if links == [] then []
    else
      var front, last := links[..|links| - 1], links[|links| - 1];
      Children(front, p) + (if last.parent == p then [last] else [])
  }

  /** The groups of `ps`, one after the other. */
  function Flatten(links: seq<Link>, ps: seq<NodeId>): seq<Link>
  {
    if ps == [] then [] else Flatten(links, ps[..|ps| - 1]) + Children(links, ps[|ps| - 1])
  }

  ghost predicate Distinct(ps: seq<NodeId>)
  {
    forall i, j :: 0 <= i < j < |ps| ==> ps[i] != ps[j]
  }

  /** Each parent is listed once. */
  lemma {:induction false} ParentsDistinct(links: seq<Link>)
    ensures Distinct(Parents(links))
  {
    if links != [] {
      ParentsDistinct(links[..|links| - 1]);
    }
  }

  /** The keys come in first-seen order: a parent listed before another has a link earlier than
      every link of the other. */
  lemma {:induction false} ParentsFirstSeen(links: seq<Link>, i: nat, j: nat, kj: nat)
    requires i < j < |Parents(links)| && kj < |links| && links[kj].parent == Parents(links)[j]
    ensures exists ki :: 0 <= ki < kj && links[ki].parent == Parents(links)[i]
    decreases |links|
  {
    var front := links[..|links| - 1];
    var ps := Parents(front);
    ParentsPrefix(links);
    if kj < |front| || j < |ps| {
      var kj' := kj;
      if kj < |front| {
        EarlierParentListed(links, j, kj);
      } else {
        kj' := LinkOf(front, ps[j]);
      }
      ParentsFirstSeen(front, i, j, kj');
      var ki :| 0 <= ki < kj' && front[ki].parent == ps[i];
      assert links[ki].parent == Parents(links)[i];
    } else {
      var ki := LinkOf(front, ps[i]);
      assert links[ki].parent == Parents(links)[i];
    }
  }

  /** The keys of a page are the keys of the page without its last link, perhaps with one more. */
  lemma ParentsPrefix(links: seq<Link>)
    requires links != []
    ensures var ps := Parents(links[..|links| - 1]);
      |ps| <= |Parents(links)| && Parents(links)[..|ps|] == ps
  {
    ParentsSnoc(links[..|links| - 1], links[|links| - 1]);
    assert links == links[..|links| - 1] + [links[|links| - 1]];
  }

  /** A key whose parent has a link before the last one is already a key without the last link. */
  lemma EarlierParentListed(links: seq<Link>, j: nat, kj: nat)
    requires j < |Parents(links)| && kj < |links| - 1 && links[kj].parent == Parents(links)[j]
    ensures j < |Parents(links[..|links| - 1])|
  {
    var front := links[..|links| - 1];
    var ps := Parents(front);
    ParentsPrefix(links);
    ParentsDistinct(links);
    assert front[kj] in front;
    var j' :| 0 <= j' < |ps| && ps[j'] == front[kj].parent;
    assert Parents(links)[j'] == Parents(links)[j];
  }

  /** The position of some link of a listed parent. */
  lemma LinkOf(links: seq<Link>, p: NodeId) returns (k: nat)
    requires p in Parents(links)
    ensures k < |links| && links[k].parent == p
  {
    var l :| l in links && l.parent == p;
    k :| k < |links| && links[k] == l;
  }

  /** A node that is no link's parent has no children. */
  lemma NoChildrenOutsideParents(links: seq<Link>, p: NodeId)
    requires p !in Parents(links)
    ensures Children(links, p) == []
  {
  }

  lemma ParentsSnoc(links: seq<Link>, l: Link)
    ensures Parents(links + [l])
         == if l.parent in Parents(links) then Parents(links) else Parents(links) + [l.parent]
  {
    assert (links + [l])[..|links|] == links;
  }

  lemma ChildrenSnoc(links: seq<Link>, l: Link, p: NodeId)
    ensures Children(links + [l], p) == Children(links, p) + (if l.parent == p then [l] else [])
  {
    assert (links + [l])[..|links|] == links;
  }

  /** Appending a link to the input adds it to the group of its parent, when that parent is listed. */
  lemma {:induction false} FlattenSnoc(links: seq<Link>, l: Link, ps: seq<NodeId>)
    requires Distinct(ps)
    ensures multiset(Flatten(links + [l], ps))
         == multiset(Flatten(links, ps)) + (if l.parent in ps then multiset{l} else multiset{})
  {
    if ps != [] {
      var front, q := ps[..|ps| - 1], ps[|ps| - 1];
      assert Flatten(links + [l], ps) == Flatten(links + [l], front) + Children(links + [l], q);
      assert Flatten(links, ps) == Flatten(links, front) + Children(links, q);
      FlattenSnoc(links, l, front);
      ChildrenSnoc(links, l, q);
      MemberOfSnoc(ps, l.parent);
    }
  }

  /** A parent is in a distinct key list exactly when it is in the front or is the last key, not both. */
  lemma MemberOfSnoc(ps: seq<NodeId>, p: NodeId)
    requires Distinct(ps) && ps != []
    ensures Distinct(ps[..|ps| - 1])
    ensures p in ps <==> p in ps[..|ps| - 1] || p == ps[|ps| - 1]
    ensures p == ps[|ps| - 1] ==> p !in ps[..|ps| - 1]
  {
    assert ps == ps[..|ps| - 1] + [ps[|ps| - 1]];
  }

  /** Every link belongs to exactly one group: the groups, taken in first-seen parent order,
      hold exactly the links of the input. */
  lemma {:induction false} GroupsPartitionLinks(links: seq<Link>)
    ensures multiset(Flatten(links, Parents(links))) == multiset(links)
  {
    if links != [] {
      var front, l := links[..|links| - 1], links[|links| - 1];
      assert links == front + [l];
      GroupsPartitionLinks(front);
      ParentsDistinct(front);
      var ps := Parents(front);
      FlattenSnoc(front, l, ps);
      if l.parent !in ps {
        NoChildrenOutsideParents(front, l.parent);
        ChildrenSnoc(front, l, l.parent);
        assert (ps + [l.parent])[..|ps|] == ps;
      }
    }
  }

  /** `order` and `groups` are the `parent_groups` dictionary built from `done`. */
  ghost predicate GroupsOf(done: seq<Link>, order: seq<NodeId>, groups: map<NodeId, seq<Link>>)
  {
    && order == Parents(done)
    && (forall p :: p in groups <==> p in order)
    && (forall p :: p in groups ==> groups[p] == Children(done, p))
  }

  /** Appending a link whose parent already has a group extends that group. */
  lemma AppendToGroup(done: seq<Link>, link: Link, order: seq<NodeId>, groups: map<NodeId, seq<Link>>)
    requires GroupsOf(done, order, groups) && link.parent in groups
    ensures GroupsOf(done + [link], order, groups[link.parent := groups[link.parent] + [link]])
  {
    var grown := groups[link.parent := groups[link.parent] + [link]];
    ParentsSnoc(done, link);
    assert order == Parents(done + [link]);
    forall p | p in grown
      ensures grown[p] == Children(done + [link], p)
    {
      ChildrenSnoc(done, link, p);
    }
  }

  /** Appending a link whose parent has no group yet opens a new group, last in key order. */
  lemma OpenGroup(done: seq<Link>, link: Link, order: seq<NodeId>, groups: map<NodeId, seq<Link>>)
    requires GroupsOf(done, order, groups) && link.parent !in groups
    ensures GroupsOf(done + [link], order + [link.parent], groups[link.parent := [link]])
  {
    ParentsSnoc(done, link);
    NoChildrenOutsideParents(done, link.parent);
    forall p
      ensures Children(done + [link], p) == Children(done, p) + (if link.parent == p then [link] else [])
    {
      ChildrenSnoc(done, link, p);
    }
  }

  /** Builds `parent_groups`: `order` lists the dictionary's keys in insertion order and
      `groups` maps each to its links in discovery order. */
  method GroupByParent(links: seq<Link>) returns (order: seq<NodeId>, groups: map<NodeId, seq<Link>>)
    ensures order == Parents(links)
    ensures forall p :: p in groups <==> p in order
    ensures forall p :: p in groups ==> groups[p] == Children(links, p)
  {
    order, groups := [], map[];
    for i := 0 to |links|
      invariant GroupsOf(links[..i], order, groups)
    {
      var link := links[i];
      assert links[..i + 1] == links[..i] + [link];
      if link.parent in groups {
        AppendToGroup(links[..i], link, order, groups);
        groups := groups[link.parent := groups[link.parent] + [link]];
      } else {
        OpenGroup(links[..i], link, order, groups);
        groups := groups[link.parent := [link]];
        order := order + [link.parent];
      }
    }
    assert links[..|links|] == links;
  }
}
