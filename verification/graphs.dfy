/** Walks and cycles in a finite directed graph given by its adjacency lists. */
module Graphs {
  import opened Contexts
  import opened Orders

  type Graph = map<Id, seq<Id>>

  predicate Edge(g: Graph, u: Id, v: Id) { u in g && v in g[u] }

  /** A non-empty sequence of nodes, each linked to the next. */
  ghost predicate IsWalk(g: Graph, p: seq<Id>) {
    p != [] && forall i, j :: 0 <= i && j == i + 1 && j < |p| ==> Edge(g, p[i], p[j])
  }

  ghost predicate IsCycle(g: Graph, p: seq<Id>) {
    IsWalk(g, p) && |p| >= 2 && p[0] == p[|p| - 1]
  }

  ghost predicate Cyclic(g: Graph) { exists p :: IsCycle(g, p) }

  ghost predicate WalkFromTo(g: Graph, a: Id, b: Id, p: seq<Id>) {
    IsWalk(g, p) && p[0] == a && p[|p| - 1] == b
  }

  ghost predicate Reaches(g: Graph, a: Id, b: Id) { exists p :: WalkFromTo(g, a, b, p) }

  lemma ReachesSelf(g: Graph, a: Id)
    ensures Reaches(g, a, a)
  {
    assert WalkFromTo(g, a, a, [a]);
  }

  lemma ReachesNext(g: Graph, a: Id, u: Id, v: Id)
    requires Reaches(g, a, u) && Edge(g, u, v)
    ensures Reaches(g, a, v)
  {
    var p :| WalkFromTo(g, a, u, p);
    var q := p + [v];
    forall i | 0 <= i < |q| - 1
      ensures Edge(g, q[i], q[i + 1])
    {
      if i < |p| - 1 {
        assert Edge(g, p[i], p[i + 1]);
      }
    }
    assert WalkFromTo(g, a, v, q);
  }

  /** A set that holds the start and is closed under edges holds everything a walk can reach. */
  lemma {:induction false} ClosedHoldsWalk(g: Graph, s: set<Id>, p: seq<Id>)
    requires IsWalk(g, p) && p[0] in s
    requires forall u, v :: u in s && Edge(g, u, v) ==> v in s
    ensures p[|p| - 1] in s
  {
    if |p| > 1 {
      var init := p[..|p| - 1];
      forall i | 0 <= i < |init| - 1
        ensures Edge(g, init[i], init[i + 1])
      {
        assert Edge(g, p[i], p[i + 1]);
      }
      ClosedHoldsWalk(g, s, init);
      assert Edge(g, p[|p| - 2], p[|p| - 2 + 1]);
    }
  }

  lemma SubWalk(g: Graph, p: seq<Id>, i: nat, j: nat)
    requires IsWalk(g, p) && i <= j < |p|
    ensures IsWalk(g, p[i..j + 1])
  {
    var q := p[i..j + 1];
    forall k | 0 <= k < |q| - 1
      ensures Edge(g, q[k], q[k + 1])
    {
      assert Edge(g, p[i + k], p[i + k + 1]);
    }
  }

  /** A walk that meets a node twice contains a cycle. */
  lemma RepeatMakesCycle(g: Graph, p: seq<Id>, i: nat, j: nat)
    requires IsWalk(g, p) && i < j < |p| && p[i] == p[j]
    ensures Cyclic(g)
  {
    SubWalk(g, p, i, j);
    assert IsCycle(g, p[i..j + 1]);
  }

  lemma AcyclicWalkIsDistinct(g: Graph, p: seq<Id>)
    requires IsWalk(g, p) && !Cyclic(g)
    ensures Distinct(p)
  {
    forall i, j | 0 <= i < j < |p|
      ensures p[i] != p[j]
    {
      if p[i] == p[j] {
        RepeatMakesCycle(g, p, i, j);
      }
    }
  }

  /** A walk into a set can be cut down to one that meets no node twice and enters the set only at its end. */
  lemma {:induction false} LeadIn(g: Graph, core: set<Id>, p: seq<Id>) returns (q: seq<Id>)
    requires IsWalk(g, p) && p[|p| - 1] in core
    ensures IsWalk(g, q) && q[0] == p[0] && Distinct(q) && q[|q| - 1] in core
    ensures forall i :: 0 <= i < |q| - 1 ==> q[i] !in core
    decreases |p|
  {
    if i :| 0 <= i < |p| - 1 && p[i] in core {
      SubWalk(g, p, 0, i);
      q := LeadIn(g, core, p[..i + 1]);
    } else if i, j :| 0 <= i < j < |p| && p[i] == p[j] {
      q := LeadIn(g, core, p[..i] + p[j..]);
    } else {
      q := p;
    }
  }

  /** Every node of a cycle has a successor on it. */
  lemma CycleKeepsGoing(g: Graph, p: seq<Id>, u: Id)
    requires IsCycle(g, p) && u in p
    ensures exists v :: v in p && Edge(g, u, v)
  {
    var i :| 0 <= i < |p| && p[i] == u;
    if i + 1 < |p| {
      assert p[i + 1] in p && Edge(g, p[i], p[i + 1]);
    } else {
      assert p[1] in p && Edge(g, p[0], p[1]);
    }
  }

  lemma FewerEdgesFewerCycles(g: Graph, h: Graph)
    requires forall u, v :: Edge(h, u, v) ==> Edge(g, u, v)
    ensures Cyclic(h) ==> Cyclic(g)
  {
    if Cyclic(h) {
      var p :| IsCycle(h, p);
      forall i | 0 <= i < |p| - 1
        ensures Edge(g, p[i], p[i + 1])
      {
        assert Edge(h, p[i], p[i + 1]);
      }
      assert IsCycle(g, p);
    }
  }

  /** Every edge out of a listed node leads to a node listed earlier. */
  ghost predicate Finished(g: Graph, order: seq<Id>) {
    forall i, v :: 0 <= i < |order| && Edge(g, order[i], v) ==> v in order[..i]
  }

  /** A walk from a listed node goes strictly down the list. */
  lemma {:induction false} WalkDescends(g: Graph, order: seq<Id>, p: seq<Id>, n: nat)
    requires Finished(g, order) && IsWalk(g, p) && |p| >= 2
    requires n <= |order| && p[0] in order[..n]
    ensures n > 0 && p[|p| - 1] in order[..n - 1]
    decreases |p|
  {
    var i :| 0 <= i < n && order[i] == p[0];
    assert Edge(g, p[0], p[0 + 1]);
    assert p[1] in order[..i];
    if |p| == 2 {
      var j :| 0 <= j < i && order[j] == p[1];
      assert order[..n - 1][j] == p[1];
    } else {
      SubWalk(g, p, 1, |p| - 1);
      WalkDescends(g, order, p[1..], i);
      var last := p[|p| - 1];
      var j :| 0 <= j < i - 1 && order[j] == last;
      assert order[..n - 1][j] == last;
    }
  }

  /** Taking the first listed position of a node, a cycle would lead below it: there is none. */
  lemma FinishedIsAcyclic(g: Graph, order: seq<Id>)
    requires Finished(g, order) && forall u :: u in g ==> u in order
    ensures !Cyclic(g)
  {
    if Cyclic(g) {
      var p :| IsCycle(g, p);
      assert Edge(g, p[0], p[0 + 1]);
      var n: nat := |order|;
      while n > 0
        invariant n <= |order| && p[0] in order[..n]
      {
        assert order[..|order|] == order;
        WalkDescends(g, order, p, n);
        n := n - 1;
      }
      assert false;
    }
  }

  /** When no edge leads into a set, cycles never meet it: only edges outside the set matter. */
  lemma CyclesAvoid(g: Graph, h: Graph, bad: Id -> bool)
    requires forall u, v :: Edge(g, u, v) ==> !bad(v) && (!bad(u) ==> Edge(h, u, v))
    ensures Cyclic(g) ==> Cyclic(h)
  {
    if p :| IsCycle(g, p) {
      forall i | 0 <= i < |p|
        ensures !bad(p[i])
      {
        if i > 0 {
          assert Edge(g, p[i - 1], p[i]);
        } else {
          assert Edge(g, p[|p| - 2], p[|p| - 1]);
        }
      }
      assert IsCycle(h, p);
    }
  }

  // ----- Levels -----

  lemma ReachesFrom(g: Graph, u: Id, v: Id, w: Id)
    requires Edge(g, u, v) && Reaches(g, v, w)
    ensures Reaches(g, u, w)
    ensures w == u ==> Cyclic(g)
  {
    var p :| WalkFromTo(g, v, w, p);
    var q := [u] + p;
    forall i, j | 0 <= i && j == i + 1 && j < |q|
      ensures Edge(g, q[i], q[j])
    {
      if i > 0 {
        assert Edge(g, p[i - 1], p[j - 1]);
      }
    }
    assert WalkFromTo(g, u, w, q);
    if w == u {
      assert IsCycle(g, q);
    }
  }

  /** How many of a set's nodes a node reaches. */
  ghost function Level(g: Graph, all: set<Id>, u: Id): nat { |set v | v in all && Reaches(g, u, v)| }

  /** Without cycles every edge leads down a level. */
  lemma EdgesLeadDown(g: Graph, all: set<Id>, u: Id, v: Id)
    requires Edge(g, u, v) && !Cyclic(g) && u in all
    ensures Level(g, all, v) < Level(g, all, u)
  {
    var below, above := set w | w in all && Reaches(g, v, w), set w | w in all && Reaches(g, u, w);
    forall w | w in below
      ensures w in above && w != u
    {
      ReachesFrom(g, u, v, w);
    }
    ReachesSelf(g, u);
    assert above == below + {u} + (above - below - {u});
  }

  lemma LevelsFit(g: Graph, all: set<Id>, u: Id)
    ensures Level(g, all, u) <= |all|
  {
    var reached := set v | v in all && Reaches(g, u, v);
    assert all == reached + (all - reached);
  }
}
