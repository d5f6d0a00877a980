/**
 * The structural check of a declared workflow: fan-out, reachability by worklist, and cycles by a
 * marking depth-first search that keeps its path.  Only declared connections are looked at.
 */
module Validation {
  import opened Json
  import opened Contexts
  import opened Orders
  import opened Graphs
  import opened Nodes
  import opened Schemas

  datatype ValidationError =
    | UnregisteredNode(identity: Id)
    | UnreachableNode(identity: Id)
    | NonRouterFanOut(identity: Id, connections: nat)
    | Cycle(path: seq<Id>)

  function DeclaredGraph(schema: Schema): Graph { map u | u in schema.nodes :: schema.nodes[u].connections }

  /** What the cycle check walks: a router's connections are skipped. */
  function CheckedGraph(registry: Registry, schema: Schema): Graph {
    map u | u in schema.nodes && !IsRouter(registry, u) :: schema.nodes[u].connections
  }

  ghost function Targets(schema: Schema): set<Id> {
    set u, v | u in schema.nodes && v in schema.nodes[u].connections :: v
  }

  ghost function Universe(schema: Schema): set<Id> { {schema.startNode} + schema.nodes.Keys + Targets(schema) }

  // ----- Reachability -----

  /** Everything visited is reachable, and everything off the queue has been expanded. */
  ghost predicate Frontier(schema: Schema, visited: set<Id>, queue: seq<Id>) {
    && schema.startNode in visited && visited <= Universe(schema)
    && (forall q :: q in queue ==> q in visited)
    && (forall v :: v in visited ==> Reaches(DeclaredGraph(schema), schema.startNode, v))
    && forall u, v :: u in visited && u !in queue && Edge(DeclaredGraph(schema), u, v) ==> v in visited
  }

  /**
   * The worklist: everything ever pushed is visited, and popping (from the end) expands one node.
   * What it visits is exactly what the start reaches.
   */
  method VisitReachable(schema: Schema) returns (visited: set<Id>)
    ensures forall v :: v in visited <==> Reaches(DeclaredGraph(schema), schema.startNode, v)
  {
    var queue := [schema.startNode];
    visited := {schema.startNode};
    ReachesSelf(DeclaredGraph(schema), schema.startNode);
    while queue != []
      invariant Frontier(schema, visited, queue)
      decreases |Universe(schema) - visited|, |queue|
    {
      ghost var before := visited;
      visited, queue := PopAndExpand(schema, visited, queue);
      VisitedGrows(Universe(schema), before, visited);
    }
    NothingElseReached(schema, visited);
  }

  lemma NothingElseReached(schema: Schema, visited: set<Id>)
    requires Frontier(schema, visited, [])
    ensures forall v :: v in visited <==> Reaches(DeclaredGraph(schema), schema.startNode, v)
  {
    forall v | Reaches(DeclaredGraph(schema), schema.startNode, v)
      ensures v in visited
    {
      var p :| WalkFromTo(DeclaredGraph(schema), schema.startNode, v, p);
      ClosedHoldsWalk(DeclaredGraph(schema), visited, p);
    }
  }

  lemma VisitedGrows(all: set<Id>, before: set<Id>, visited: set<Id>)
    requires before <= visited <= all
    ensures |all - visited| <= |all - before|
    ensures visited != before ==> |all - visited| < |all - before|
  {
    SubsetIsSmaller(all - visited, all - before);
    if visited != before {
      assert all - visited < all - before;
      ProperSubsetIsSmaller(all - visited, all - before);
    }
  }

  /** One turn: more is visited, or the queue is shorter. */
  method PopAndExpand(schema: Schema, seen: set<Id>, queue0: seq<Id>) returns (visited: set<Id>, queue: seq<Id>)
    requires Frontier(schema, seen, queue0) && queue0 != []
    ensures Frontier(schema, visited, queue) && seen <= visited
    ensures visited == seen ==> |queue| < |queue0|
  {
    var identity := queue0[|queue0| - 1];
    visited, queue := seen, queue0[..|queue0| - 1];
    assert forall u :: u in queue0 <==> u in queue || u == identity;
    if identity in schema.nodes {
      visited, queue := Expand(schema, identity, visited, queue);
    }
  }

  /** Push every connection not seen before. */
  method Expand(schema: Schema, identity: Id, seen: set<Id>, queue0: seq<Id>) returns (visited: set<Id>, queue: seq<Id>)
    requires identity in schema.nodes && identity in seen && seen <= Universe(schema)
    requires forall q :: q in queue0 ==> q in seen
    requires Reaches(DeclaredGraph(schema), schema.startNode, identity)
    ensures seen <= visited <= Universe(schema)
    ensures visited == seen ==> queue == queue0
    ensures forall q :: q in queue <==> q in queue0 || q in visited - seen
    ensures forall v :: v in visited - seen ==> Reaches(DeclaredGraph(schema), schema.startNode, v)
    ensures forall v :: v in schema.nodes[identity].connections ==> v in visited
  {
    visited, queue := seen, queue0;
    var connections, i := schema.nodes[identity].connections, 0;
    while i < |connections|
      invariant i <= |connections|
      invariant seen <= visited <= Universe(schema)
      invariant visited == seen ==> queue == queue0
      invariant forall q :: q in queue <==> q in queue0 || q in visited - seen
      invariant forall v :: v in visited - seen ==> Reaches(DeclaredGraph(schema), schema.startNode, v)
      invariant forall j :: 0 <= j < i ==> connections[j] in visited
    {
      var next := connections[i];
      if next !in visited {
        ReachesNext(DeclaredGraph(schema), schema.startNode, identity, next);
        visited, queue := visited + {next}, queue + [next];
      }
      i := i + 1;
    }
  }

  lemma SubsetIsSmaller<T>(a: set<T>, b: set<T>)
    requires a <= b
    ensures |a| <= |b|
  {
    assert b == a + (b - a);
  }

  lemma ProperSubsetIsSmaller<T>(a: set<T>, b: set<T>)
    requires a < b
    ensures |a| < |b|
  {
    var x :| x in b && x !in a;
    SubsetIsSmaller(a, b - {x});
  }

  ghost predicate Unreachable(schema: Schema, k: Id) {
    k in schema.nodes && !Reaches(DeclaredGraph(schema), schema.startNode, k)
  }

  /** Accepts exactly when everything declared is reachable; otherwise names the least identity that is not. */
  method CheckReachability(schema: Schema) returns (r: Result<(), ValidationError>)
    ensures r.Ok? <==> forall k :: !Unreachable(schema, k)
    ensures r.Err? ==> r.error.UnreachableNode? && Unreachable(schema, r.error.identity)
    ensures r.Err? ==> forall k :: Unreachable(schema, k) ==> StringLeq(r.error.identity, k)
  {
    var visited := VisitReachable(schema);
    StringsAreOrdered();
    var declared := SetInOrder(StringLeq, schema.nodes.Keys);
    StringsAreOrdered();
    var i := 0;
    while i < |declared|
      invariant i <= |declared|
      invariant forall j :: 0 <= j < i ==> declared[j] in visited
    {
      if declared[i] !in visited {
        forall k | Unreachable(schema, k)
          ensures StringLeq(declared[i], k)
        {
          var j :| 0 <= j < |declared| && declared[j] == k;
        }
        assert Unreachable(schema, declared[i]);
        return Err(UnreachableNode(declared[i]));
      }
      i := i + 1;
    }
    return Ok(());
  }

  // ----- Cycles -----

  datatype DfsMark = InProgress | Done

  /** A walk over checked edges that comes back to one of its own nodes. */
  ghost predicate ClosesCycle(g: Graph, path: seq<Id>) {
    && IsWalk(g, path) && |path| >= 2
    && exists i :: 0 <= i < |path| - 1 && path[i] == path[|path| - 1]
  }

  /** The graph the search walks, and a finite set it never leaves. */
  ghost predicate Represents(registry: Registry, schema: Schema, g: Graph, all: set<Id>) {
    && (forall u :: u in g <==> u in schema.nodes && !IsRouter(registry, u))
    && (forall u :: u in g ==> g[u] == schema.nodes[u].connections)
    && (forall u, v :: Edge(g, u, v) ==> v in all)
    && schema.nodes.Keys <= all
  }

  /** Nodes whose visit has ended, in the order it ended. */
  datatype Closed = Closed(members: set<Id>, order: seq<Id>)

  /** The stack is a walk of distinct nodes, exactly those in progress; the rest of the marked are closed. */
  ghost predicate Coherent(g: Graph, all: set<Id>, marks: map<Id, DfsMark>, stack: seq<Id>, closed: Closed) {
    && marks.Keys <= all
    && Distinct(stack)
    && (stack != [] ==> IsWalk(g, stack))
    && (forall k :: k in marks && marks[k] == InProgress <==> k in stack)
    && (forall k :: k in marks && marks[k] == DfsMark.Done <==> k in closed.members)
    && (forall k :: k in closed.members <==> k in closed.order)
    && Finished(g, closed.order)
  }

  lemma OneFewerLeft(all: set<Id>, marks: map<Id, DfsMark>, k: Id)
    requires k in all && k !in marks
    ensures |all - marks[k := InProgress].Keys| < |all - marks.Keys|
  {
    var before, after := all - marks.Keys, all - marks[k := InProgress].Keys;
    assert k in before && k !in after;
    ProperSubsetIsSmaller(after, before);
  }

  lemma PushKeeps(g: Graph, all: set<Id>, marks: map<Id, DfsMark>, stack: seq<Id>, closed: Closed, k: Id)
    requires Coherent(g, all, marks, stack, closed)
    requires k !in marks && k in all
    requires stack != [] ==> Edge(g, stack[|stack| - 1], k)
    ensures Coherent(g, all, marks[k := InProgress], stack + [k], closed)
  {
    assert k !in stack && k !in closed.members;
  }

  lemma PopKeeps(g: Graph, all: set<Id>, marks: map<Id, DfsMark>, stack: seq<Id>, closed: Closed, k: Id)
    requires Coherent(g, all, marks, stack + [k], closed)
    requires forall v :: Edge(g, k, v) ==> v in closed.members
    ensures Coherent(g, all, marks[k := DfsMark.Done], stack, Closed(closed.members + {k}, closed.order + [k]))
  {
    var s, order := stack + [k], closed.order + [k];
    assert s[|s| - 1] == k && s[..|stack|] == stack;
    assert k !in stack;
    forall i, v | 0 <= i < |order| && Edge(g, order[i], v)
      ensures v in order[..i]
    {
      assert order[..i] == closed.order[..i];
      assert closed.order[..|closed.order|] == closed.order;
    }
    forall i | stack != [] && 0 <= i < |stack| - 1
      ensures Edge(g, stack[i], stack[i + 1])
    {
      assert Edge(g, s[i], s[i + 1]);
    }
  }

  /** With nothing in progress, whatever is marked is closed. */
  lemma MarkedIsClosed(g: Graph, all: set<Id>, marks: map<Id, DfsMark>, stack: seq<Id>, closed: Closed, k: Id)
    requires Coherent(g, all, marks, stack, closed) && k in marks && k !in stack
    ensures k in closed.members
  {
    assert marks[k] != InProgress;
  }

  lemma ClosedPathIsCyclic(g: Graph, path: seq<Id>)
    requires ClosesCycle(g, path)
    ensures Cyclic(g)
  {
    var k :| 0 <= k < |path| - 1 && path[k] == path[|path| - 1];
    RepeatMakesCycle(g, path, k, |path| - 1);
  }

  class CycleSearch {
    const registry: Registry
    const schema: Schema
    ghost const g: Graph
    ghost const all: set<Id>
    var marks: map<Id, DfsMark>
    var stack: seq<Id>
    ghost var closed: Closed

    /** How many nodes have no mark yet: the search's measure. */
    ghost function Left(): nat
      reads this
    {
      |all - marks.Keys|
    }

    ghost predicate Valid()
      reads this
    {
      Represents(registry, schema, g, all) && Coherent(g, all, marks, stack, closed)
    }

    constructor (registry: Registry, schema: Schema, ghost g: Graph, ghost all: set<Id>)
      requires Represents(registry, schema, g, all)
      ensures Valid() && marks == map[] && stack == []
      ensures this.g == g && this.all == all && this.registry == registry && this.schema == schema
    {
      this.registry, this.schema, this.g, this.all := registry, schema, g, all;
      marks, stack, closed := map[], [], Closed({}, []);
    }

    /** Visit an unmarked node: itself and everything below it end up closed, or a cycle is shown. */
    method Visit(identity: Id) returns (r: Result<(), ValidationError>)
      requires Valid()
      requires identity !in marks && identity in all
      requires stack != [] ==> Edge(g, stack[|stack| - 1], identity)
      modifies this`marks, this`stack, this`closed
      ensures r.Err? ==> r.error.Cycle? && ClosesCycle(g, r.error.path)
      ensures r.Ok? ==> Valid() && stack == old(stack)
      ensures r.Ok? ==> identity in closed.members && old(closed).members <= closed.members && Left() <= old(Left())
      decreases Left(), 1
    {
      ghost var below := stack;
      Push(identity);
      if !IsRouter(registry, identity) && identity in schema.nodes {
        r := FollowAll(identity);
        if r.Err? {
          return;
        }
      }
      Pop(identity, below);
      r := Ok(());
    }

    /** Every connection of the node on top of the stack, in order. */
    method FollowAll(identity: Id) returns (r: Result<(), ValidationError>)
      requires Valid() && stack != [] && stack[|stack| - 1] == identity
      requires !IsRouter(registry, identity) && identity in schema.nodes
      modifies this`marks, this`stack, this`closed
      ensures r.Err? ==> r.error.Cycle? && ClosesCycle(g, r.error.path)
      ensures r.Ok? ==> Valid() && stack == old(stack)
      ensures r.Ok? ==> old(closed).members <= closed.members && Left() <= old(Left())
      ensures r.Ok? ==> forall v :: Edge(g, identity, v) ==> v in closed.members
      decreases Left(), 3
    {
      var connections, i := schema.nodes[identity].connections, 0;
      while i < |connections|
        invariant i <= |connections|
        invariant Valid() && stack == old(stack)
        invariant old(closed).members <= closed.members && Left() <= old(Left())
        invariant forall j :: 0 <= j < i ==> connections[j] in closed.members
      {
        ConnectionIsEdge(identity, i);
        r := Follow(identity, connections[i]);
        if r.Err? {
          return;
        }
        i := i + 1;
      }
      AllFollowed(identity);
      r := Ok(());
    }

    lemma AllFollowed(identity: Id)
      requires Valid() && !IsRouter(registry, identity) && identity in schema.nodes
      requires var connections := schema.nodes[identity].connections;
               forall j :: 0 <= j < |connections| ==> connections[j] in closed.members
      ensures forall v :: Edge(g, identity, v) ==> v in closed.members
    {
    }

    lemma ConnectionIsEdge(identity: Id, i: nat)
      requires Valid() && !IsRouter(registry, identity) && identity in schema.nodes
      requires i < |schema.nodes[identity].connections|
      ensures Edge(g, identity, schema.nodes[identity].connections[i])
    {
    }

    method Follow(identity: Id, next: Id) returns (r: Result<(), ValidationError>)
      requires Valid() && stack != [] && stack[|stack| - 1] == identity && Edge(g, identity, next)
      modifies this`marks, this`stack, this`closed
      ensures r.Err? ==> r.error.Cycle? && ClosesCycle(g, r.error.path)
      ensures r.Ok? ==> Valid() && stack == old(stack)
      ensures r.Ok? ==> next in closed.members && old(closed).members <= closed.members && Left() <= old(Left())
      decreases Left(), 2
    {
      if next in marks {
        if marks[next] == InProgress {
          var path := stack + [next];
          RepeatedCloses(next);
          return Err(Cycle(path));
        }
        return Ok(());
      }
      r := Visit(next);
    }

    /** Start from a declared node, unless an earlier start already got there. */
    method VisitRoot(identity: Id) returns (r: Result<(), ValidationError>)
      requires Valid() && stack == [] && identity in schema.nodes
      modifies this`marks, this`stack, this`closed
      ensures r.Err? ==> r.error.Cycle? && ClosesCycle(g, r.error.path)
      ensures r.Ok? ==> Valid() && stack == []
      ensures r.Ok? ==> identity in closed.members && old(closed).members <= closed.members
    {
      if identity !in marks {
        r := Visit(identity);
      } else {
        MarkedIsClosed(g, all, marks, stack, closed, identity);
        r := Ok(());
      }
    }

    /** Every declared node as a start: either all end up closed, in an order no edge contradicts, or a cycle shows. */
    method VisitRoots(declared: seq<Id>) returns (r: Result<(), ValidationError>)
      requires Valid() && stack == [] && forall k :: k in declared <==> k in schema.nodes
      modifies this`marks, this`stack, this`closed
      ensures r.Err? ==> r.error.Cycle? && ClosesCycle(g, r.error.path)
      ensures r.Ok? <==> !Cyclic(g)
    {
      var i := 0;
      while i < |declared|
        invariant i <= |declared|
        invariant Valid() && stack == []
        invariant forall j :: 0 <= j < i ==> declared[j] in closed.members
      {
        r := VisitRoot(declared[i]);
        if r.Err? {
          ClosedPathIsCyclic(g, r.error.path);
          return;
        }
        i := i + 1;
      }
      assert forall u :: u in g ==> u in declared;
      FinishedIsAcyclic(g, closed.order);
      r := Ok(());
    }

    method Push(identity: Id)
      requires Valid()
      requires identity !in marks && identity in all
      requires stack != [] ==> Edge(g, stack[|stack| - 1], identity)
      modifies this`marks, this`stack
      ensures Valid() && marks == old(marks)[identity := InProgress] && stack == old(stack) + [identity]
      ensures Left() < old(Left())
    {
      OneFewerLeft(all, marks, identity);
      PushKeeps(g, all, marks, stack, closed, identity);
      marks := marks[identity := InProgress];
      stack := stack + [identity];
    }

    method Pop(identity: Id, ghost below: seq<Id>)
      requires Valid()
      requires stack == below + [identity]
      requires forall v :: Edge(g, identity, v) ==> v in closed.members
      modifies this`marks, this`stack, this`closed
      ensures Valid() && stack == below && marks == old(marks)[identity := DfsMark.Done]
      ensures closed.members == old(closed).members + {identity} && Left() <= old(Left())
    {
      PopKeeps(g, all, marks, below, closed, identity);
      SubsetIsSmaller(all - marks[identity := DfsMark.Done].Keys, all - marks.Keys);
      stack := stack[..|stack| - 1];
      marks := marks[identity := DfsMark.Done];
      closed := Closed(closed.members + {identity}, closed.order + [identity]);
    }

    /** The reported path is the whole stack, then the node met again. */
    lemma RepeatedCloses(next: Id)
      requires Valid() && stack != [] && next in stack && Edge(g, stack[|stack| - 1], next)
      ensures ClosesCycle(g, stack + [next])
    {
      var path := stack + [next];
      forall i | 0 <= i < |path| - 1
        ensures Edge(g, path[i], path[i + 1])
      {
        if i < |stack| - 1 {
          assert Edge(g, stack[i], stack[i + 1]);
        }
      }
      var i :| 0 <= i < |stack| && stack[i] == next;
      assert path[i] == path[|path| - 1];
    }
  }

  /**
   * Sound and complete, on every schema: accepts exactly the declared graphs with no cycle once
   * router edges are removed, and otherwise shows a walk that closes one.
   */
  method CheckCycles(registry: Registry, schema: Schema) returns (r: Result<(), ValidationError>)
    ensures r.Ok? <==> !Cyclic(CheckedGraph(registry, schema))
    ensures r.Err? ==> r.error.Cycle? && ClosesCycle(CheckedGraph(registry, schema), r.error.path)
  {
    UniverseHoldsAll(registry, schema);
    var search := new CycleSearch(registry, schema, CheckedGraph(registry, schema), Universe(schema));
    StringsAreOrdered();
    var declared := SetInOrder(StringLeq, schema.nodes.Keys);
    r := search.VisitRoots(declared);
  }

  lemma UniverseHoldsAll(registry: Registry, schema: Schema)
    ensures Represents(registry, schema, CheckedGraph(registry, schema), Universe(schema))
  {
    forall u, v | Edge(CheckedGraph(registry, schema), u, v)
      ensures v in Universe(schema)
    {
      assert v in Targets(schema);
    }
  }

  // ----- The whole check -----

  predicate FansOut(registry: Registry, schema: Schema, k: Id) {
    k in schema.nodes && |schema.nodes[k].connections| > 1 && !IsRouter(registry, k)
  }

  /** What an accepted schema satisfies. */
  ghost predicate WellFormed(registry: Registry, schema: Schema) {
    && (forall k :: !FansOut(registry, schema, k))
    && (forall k :: !Unreachable(schema, k))
    && !Cyclic(CheckedGraph(registry, schema))
  }

  /**
   * Fan-out, then reachability, then cycles; the first defect found is reported.  Registration is
   * never checked, so that error is never returned.
   */
  method Validate(registry: Registry, schema: Schema) returns (r: Result<(), ValidationError>)
    ensures r.Ok? <==> WellFormed(registry, schema)
    ensures r.Err? ==>
              match r.error
              case UnregisteredNode(_) => false
              case NonRouterFanOut(k, n) => FansOut(registry, schema, k) && n == |schema.nodes[k].connections|
              case UnreachableNode(k) =>
                && (forall j :: !FansOut(registry, schema, j))
                && Unreachable(schema, k) && forall j :: Unreachable(schema, j) ==> StringLeq(k, j)
              case Cycle(path) =>
                && (forall j :: !FansOut(registry, schema, j)) && (forall j :: !Unreachable(schema, j))
                && ClosesCycle(CheckedGraph(registry, schema), path)
  {
    var todo := schema.nodes.Keys;
    while todo != {}
      invariant todo <= schema.nodes.Keys
      invariant forall k :: k !in todo ==> !FansOut(registry, schema, k)
      decreases todo
    {
      var identity :| identity in todo;
      todo := todo - {identity};
      if |schema.nodes[identity].connections| > 1 && !IsRouter(registry, identity) {
        assert FansOut(registry, schema, identity);
        return Err(NonRouterFanOut(identity, |schema.nodes[identity].connections|));
      }
    }
    r := CheckReachability(schema);
    if r.Ok? {
      r := CheckCycles(registry, schema);
    }
  }
}
