/**
 * A validated schema without routers is one simple path, and an undisturbed run whose nodes all
 * succeed dispatches every declared node exactly once, in path order.
 */
module LinearRuns {
  import opened Json
  import opened Contexts
  import opened Budgets
  import opened Suspensions
  import opened Orders
  import opened Graphs
  import opened Nodes
  import opened Schemas
  import opened Validation
  import opened TaskContexts
  import opened Workflows
  import opened Runs
  import opened Accounts

  ghost predicate RouterFree(registry: Registry, schema: Schema) {
    forall k :: k in schema.nodes ==> k in registry && !IsRouter(registry, k)
  }

  function Following(path: seq<Id>, i: nat): Option<Id> {
    if i + 1 < |path| then Some(path[i + 1]) else None
  }

  /** From the start, first connection by first connection, through every declared node once. */
  ghost predicate IsWholePath(schema: Schema, path: seq<Id>) {
    && path != [] && path[0] == schema.startNode
    && (forall i :: 0 <= i < |path| ==> NextAfter(schema, path[i]) == Following(path, i))
    && Distinct(path)
    && forall k :: k in path <==> k in schema.nodes
  }

  lemma OneWayOut(registry: Registry, schema: Schema, u: Id, v: Id)
    requires RouterFree(registry, schema) && !FansOut(registry, schema, u)
    ensures Edge(CheckedGraph(registry, schema), u, v) <==> NextAfter(schema, u) == Some(v)
    ensures Edge(DeclaredGraph(schema), u, v) <==> NextAfter(schema, u) == Some(v)
  {
  }

  /** A path of first connections from the start, through declared nodes, none twice. */
  ghost predicate IsPathPrefix(schema: Schema, prefix: seq<Id>) {
    && prefix != [] && prefix[0] == schema.startNode && Distinct(prefix)
    && (forall k :: k in prefix ==> k in schema.nodes)
    && forall i, j :: 0 <= i && j == i + 1 && j < |prefix| ==> NextAfter(schema, prefix[i]) == Some(prefix[j])
  }

  lemma LongerPrefix(registry: Registry, schema: Schema, prefix: seq<Id>, next: Id)
    requires WellFormed(registry, schema) && RouterFree(registry, schema) && TargetsDeclared(schema)
    requires IsPathPrefix(schema, prefix) && NextAfter(schema, prefix[|prefix| - 1]) == Some(next)
    ensures IsPathPrefix(schema, prefix + [next]) && |prefix| < |schema.nodes.Keys|
  {
    var g, longer := CheckedGraph(registry, schema), prefix + [next];
    forall i, j | 0 <= i && j == i + 1 && j < |longer|
      ensures NextAfter(schema, longer[i]) == Some(longer[j]) && Edge(g, longer[i], longer[j])
    {
      assert longer[i] == prefix[i] && !FansOut(registry, schema, longer[i]);
      OneWayOut(registry, schema, longer[i], longer[j]);
    }
    AcyclicWalkIsDistinct(g, longer);
    assert next in schema.nodes[prefix[|prefix| - 1]].connections;
    DistinctFits(longer, schema.nodes.Keys);
  }

  lemma EndedPathFollows(schema: Schema, path: seq<Id>)
    requires IsPathPrefix(schema, path) && NextAfter(schema, path[|path| - 1]) == None
    ensures forall i :: 0 <= i < |path| ==> NextAfter(schema, path[i]) == Following(path, i)
  {
    forall i | 0 <= i < |path|
      ensures NextAfter(schema, path[i]) == Following(path, i)
    {
      var j := i + 1;
      if j < |path| {
        assert NextAfter(schema, path[i]) == Some(path[j]);
      }
    }
  }

  lemma EndedPathIsWhole(registry: Registry, schema: Schema, path: seq<Id>)
    requires WellFormed(registry, schema) && RouterFree(registry, schema)
    requires IsPathPrefix(schema, path) && NextAfter(schema, path[|path| - 1]) == None
    ensures IsWholePath(schema, path)
  {
    EndedPathFollows(schema, path);
    forall k | k in schema.nodes
      ensures k in path
    {
      ReachedIsOnPath(registry, schema, path, k);
    }
  }

  lemma ReachedIsOnPath(registry: Registry, schema: Schema, path: seq<Id>, k: Id)
    requires WellFormed(registry, schema) && RouterFree(registry, schema) && k in schema.nodes
    requires path != [] && path[0] == schema.startNode
    requires forall j :: 0 <= j < |path| ==> NextAfter(schema, path[j]) == Following(path, j)
    ensures k in path
  {
    assert !Unreachable(schema, k);
    var q :| WalkFromTo(DeclaredGraph(schema), schema.startNode, k, q);
    WalkIsPrefix(registry, schema, path, q, |q| - 1);
  }

  /** Following first connections from the start cannot go round, so it ends; what it passed is all there is. */
  lemma {:induction false} ExtendPath(registry: Registry, schema: Schema, prefix: seq<Id>) returns (path: seq<Id>)
    requires WellFormed(registry, schema) && RouterFree(registry, schema) && TargetsDeclared(schema)
    requires IsPathPrefix(schema, prefix)
    ensures IsWholePath(schema, path)
    decreases |schema.nodes.Keys| - |prefix|
  {
    var next := NextAfter(schema, prefix[|prefix| - 1]);
    if next.None? {
      path := prefix;
      EndedPathIsWhole(registry, schema, path);
    } else {
      LongerPrefix(registry, schema, prefix, next.value);
      path := ExtendPath(registry, schema, prefix + [next.value]);
    }
  }

  lemma {:induction false} WalkIsPrefix(registry: Registry, schema: Schema, path: seq<Id>, q: seq<Id>, i: nat)
    requires WellFormed(registry, schema) && RouterFree(registry, schema)
    requires path != [] && path[0] == schema.startNode
    requires forall j :: 0 <= j < |path| ==> NextAfter(schema, path[j]) == Following(path, j)
    requires IsWalk(DeclaredGraph(schema), q) && q[0] == schema.startNode && i < |q|
    ensures i < |path| && q[i] == path[i]
  {
    if i > 0 {
      WalkIsPrefix(registry, schema, path, q, i - 1);
      assert Edge(DeclaredGraph(schema), q[i - 1], q[i]);
      assert !FansOut(registry, schema, q[i - 1]);
      OneWayOut(registry, schema, q[i - 1], q[i]);
      assert NextAfter(schema, path[i - 1]) == Following(path, i - 1) == Some(q[i]);
    }
  }

  lemma ValidatedSchemaIsOnePath(registry: Registry, schema: Schema)
    requires WellFormed(registry, schema) && RouterFree(registry, schema) && TargetsDeclared(schema)
    ensures exists path :: IsWholePath(schema, path)
  {
    var path := ExtendPath(registry, schema, [schema.startNode]);
  }

  // ----- Any run along the path -----

  /** What has been dispatched is where the path begins, and the walk stands, or waits, at what comes next. */
  ghost predicate FollowsPath(path: seq<Id>, m: Machine) {
    && |m.trace| <= |path| && (forall i :: 0 <= i < |m.trace| ==> m.trace[i].identity == path[i])
    && match m.status
       case AtNode(x) => |m.trace| < |path| && x == path[|m.trace|]
       case Suspended(x) => |m.trace| < |path| && x == path[|m.trace|]
       case Completed => |m.trace| == |path|
       case Unresolved(_) => false
       case _ => true
  }

  lemma PointOnPath(registry: Registry, schema: Schema, path: seq<Id>, j: nat)
    requires RouterFree(registry, schema) && IsWholePath(schema, path) && j < |path|
    ensures path[j] in schema.nodes && path[j] in registry && !IsRouter(registry, path[j])
    ensures NextAfter(schema, path[j]) == Following(path, j)
  {
    assert path[j] in path;
  }

  lemma PassFollowsPath(wf: Workflow, w: World, path: seq<Id>, m: Machine, e: Event)
    requires KeyedByName(wf.registry) && m.status.AtNode? && e.Tick? && FollowsPath(path, m)
    requires var x := path[|m.trace|];
             && x in wf.registry && !IsRouter(wf.registry, x) && NextAfter(wf.schema, x) == Following(path, |m.trace|)
    ensures FollowsPath(path, Advance(wf, w, m, e))
  {
    PassOutline(wf, w, m, e);
    if Stopped(m, Advance(wf, w, m, e)) {
      StopWaitsHere(wf, w, m, e);
    } else {
      VisitLeadsToSuccessor(wf, w, m, e);
    }
  }

  lemma StopWaitsHere(wf: Workflow, w: World, m: Machine, e: Event)
    requires m.status.AtNode? && e.Tick? && Stopped(m, Advance(wf, w, m, e))
    ensures var n := Advance(wf, w, m, e); n.status.Suspended? ==> n.status == Suspended(m.status.at)
  {
    assert Advance(wf, w, m, e).trace == m.trace;
  }

  /** Whatever its nodes do and whatever signals it is sent, a run visits the path from its start, in order. */
  lemma {:induction false} EveryRunFollowsPath(wf: Workflow, w: World, event: Value, path: seq<Id>, events: seq<Event>)
    requires KeyedByName(wf.registry) && RouterFree(wf.registry, wf.schema) && IsWholePath(wf.schema, path)
    ensures FollowsPath(path, Exec(wf, w, Begin(wf, w, event), events))
    decreases |events|
  {
    if events != [] {
      var init, e := events[..|events| - 1], events[|events| - 1];
      EveryRunFollowsPath(wf, w, event, path, init);
      EveryRunKeepsAccount(wf, w, event, init);
      var m := Exec(wf, w, Begin(wf, w, event), init);
      if e.Tick? && m.status.AtNode? {
        PointOnPath(wf.registry, wf.schema, path, |m.trace|);
        PassFollowsPath(wf, w, path, m, e);
      } else if e.Continue? && m.status.Suspended? {
        ResumeRestoresExactly(wf, w, m);
      }
    }
  }

  // ----- The undisturbed run -----

  /** A node that always succeeds and does not ask to be suspended. */
  ghost predicate Cooperative(node: Node) {
    forall c :: node.process(c).Done? &&
      (!Requested(c.metadata.suspension) ==> !Requested(node.process(c).ctx.metadata.suspension))
  }

  predicate Quiet(events: seq<Event>) {
    forall e :: e in events ==> e.Tick? && !e.cancelled && !e.paused
  }

  /** After `j` dispatches the walk has run the first `j` nodes of the path and stands at the next. */
  ghost predicate Along(path: seq<Id>, m: Machine, j: nat)
    requires j <= |path|
  {
    && m.status == (if j < |path| then AtNode(path[j]) else Completed)
    && |m.trace| == j && (forall i :: 0 <= i < j ==> m.trace[i].identity == path[i])
    && forall i :: 0 <= i < j ==> HasStatus(m.ctx.nodeRuns, path[i], Success)
  }

  /** A cooperative node's dispatch succeeds and leaves no request behind. */
  lemma CooperativeDispatch(node: Node, c: Context, w: World, uuid: Uuid)
    requires Framed(node) && Cooperative(node) && !Requested(c.metadata.suspension)
    ensures var d := Dispatch(node, c, w, uuid); !d.failed && !Requested(d.after.metadata.suspension)
  {
    var pre := EnterRunning(c, node.name);
    assert node.process(pre).Done?;
  }

  /** One quiet boundary: a cooperative node runs, and the walk stands at its successor, or is done. */
  lemma QuietPass(wf: Workflow, w: World, m: Machine, e: Event)
    requires FramedRegistry(wf.registry) && m.status.AtNode? && m.status.at in wf.registry
    requires Cooperative(wf.registry[m.status.at])
    requires w.budget.None? && e.Tick? && !e.cancelled && !e.paused && MarkersMatch(m)
    ensures var n, d := Advance(wf, w, m, e), Dispatch(wf.registry[m.status.at], m.ctx, w, e.uuid);
            && Visited(m, n, d) && !d.failed
            && n.status == (if Last(n).next.Some? then AtNode(Last(n).next.value) else Completed)
  {
    var node := wf.registry[m.status.at];
    CooperativeDispatch(node, m.ctx, w, e.uuid);
    PassOutline(wf, w, m, e);
    var n := Advance(wf, w, m, e);
    assert n == Proceed(w, AfterDispatch(wf, w, m, m.status.at, e.uuid));
    assert !Stopped(m, n) by {
      assert !Stopped(m, n) || n.trace == m.trace;
    }
  }

  /** Without routers that successor is the first connection, and the node ends as a success. */
  lemma QuietPassAlong(wf: Workflow, w: World, m: Machine, e: Event)
    requires FramedRegistry(wf.registry) && RouterFree(wf.registry, wf.schema)
    requires m.status.AtNode? && m.status.at in wf.schema.nodes && Cooperative(wf.registry[m.status.at])
    requires w.budget.None? && e.Tick? && !e.cancelled && !e.paused && MarkersMatch(m)
    ensures var n, at := Advance(wf, w, m, e), m.status.at;
            var next := NextAfter(wf.schema, at);
            && n.status == (if next.Some? then AtNode(next.value) else Completed)
            && |n.trace| == |m.trace| + 1 && n.trace[..|m.trace|] == m.trace && n.trace[|m.trace|].identity == at
            && HasStatus(n.ctx.nodeRuns, at, Success)
            && forall k :: k != at && HasStatus(m.ctx.nodeRuns, k, Success) ==> HasStatus(n.ctx.nodeRuns, k, Success)
  {
    var node := wf.registry[m.status.at];
    QuietPass(wf, w, m, e);
    DispatchHasOutline(node, m.ctx, w, e.uuid);
    VisitLeadsToSuccessor(wf, w, m, e);
    var n, d := Advance(wf, w, m, e), Dispatch(node, m.ctx, w, e.uuid);
    assert forall k, s :: HasStatus(n.ctx.nodeRuns, k, s) == HasStatus(d.after.nodeRuns, k, s);
  }

  lemma StepAlong(wf: Workflow, w: World, path: seq<Id>, m: Machine, e: Event, j: nat)
    requires FramedRegistry(wf.registry) && RouterFree(wf.registry, wf.schema) && IsWholePath(wf.schema, path)
    requires forall k :: k in wf.schema.nodes ==> Cooperative(wf.registry[k])
    requires w.budget.None? && e.Tick? && !e.cancelled && !e.paused
    requires j < |path| && Along(path, m, j) && MarkersMatch(m)
    ensures Along(path, Advance(wf, w, m, e), j + 1)
  {
    var at := path[j];
    assert at in wf.schema.nodes;
    QuietPassAlong(wf, w, m, e);
    var n := Advance(wf, w, m, e);
    assert NextAfter(wf.schema, path[j]) == Following(path, j);
    forall i | 0 <= i < j + 1
      ensures HasStatus(n.ctx.nodeRuns, path[i], Success) && n.trace[i].identity == path[i]
    {
      if i < j {
        assert HasStatus(m.ctx.nodeRuns, path[i], Success);
        assert n.trace[i] == n.trace[..|m.trace|][i];
      }
    }
  }

  lemma {:induction false} QuietRunFollowsPath(wf: Workflow, w: World, event: Value, path: seq<Id>, events: seq<Event>)
    requires FramedRegistry(wf.registry) && RouterFree(wf.registry, wf.schema) && IsWholePath(wf.schema, path)
    requires forall k :: k in wf.schema.nodes ==> Cooperative(wf.registry[k])
    requires w.budget.None? && Quiet(events)
    ensures Along(path, Exec(wf, w, Begin(wf, w, event), events), if |events| < |path| then |events| else |path|)
    decreases |events|
  {
    if events != [] {
      var init, e := events[..|events| - 1], events[|events| - 1];
      QuietRunFollowsPath(wf, w, event, path, init);
      EveryRunKeepsMarkers(wf, w, event, init);
      var m := Exec(wf, w, Begin(wf, w, event), init);
      if |init| < |path| {
        StepAlong(wf, w, path, m, e, |init|);
      }
    }
  }

  /**
   * A validated router-free workflow, all registered and all targets declared, run undisturbed by
   * nodes that succeed: given enough boundaries it completes, having dispatched every declared node
   * exactly once, each after the node that leads to it, and every declared node ends as a success.
   */
  lemma {:induction false} LinearWorkflowRunsEveryNodeOnce(wf: Workflow, w: World, event: Value, events: seq<Event>)
    requires WellFormed(wf.registry, wf.schema) && RouterFree(wf.registry, wf.schema) && TargetsDeclared(wf.schema)
    requires FramedRegistry(wf.registry) && forall k :: k in wf.schema.nodes ==> Cooperative(wf.registry[k])
    requires w.budget.None? && Quiet(events) && |events| >= |wf.schema.nodes.Keys|
    ensures var m := Exec(wf, w, Begin(wf, w, event), events);
            && m.status == Completed
            && |m.trace| == |wf.schema.nodes.Keys|
            && (forall k :: k in wf.schema.nodes <==> exists i :: 0 <= i < |m.trace| && m.trace[i].identity == k)
            && (forall i, j :: 0 <= i < j < |m.trace| ==> m.trace[i].identity != m.trace[j].identity)
            && (forall i :: 0 <= i < |m.trace| - 1 ==> NextAfter(wf.schema, m.trace[i].identity) == Some(m.trace[i + 1].identity))
            && (forall k :: k in wf.schema.nodes ==> HasStatus(m.ctx.nodeRuns, k, Success))
  {
    ValidatedSchemaIsOnePath(wf.registry, wf.schema);
    var path :| IsWholePath(wf.schema, path);
    DistinctFits(path, wf.schema.nodes.Keys);
    DistinctCovers(path, wf.schema.nodes.Keys);
    QuietRunFollowsPath(wf, w, event, path, events);
    WholePathReadOut(wf.schema, path, Exec(wf, w, Begin(wf, w, event), events));
  }

  lemma WholePathReadOut(schema: Schema, path: seq<Id>, m: Machine)
    requires IsWholePath(schema, path) && Along(path, m, |path|)
    ensures forall k :: k in schema.nodes <==> exists i :: 0 <= i < |m.trace| && m.trace[i].identity == k
    ensures forall i, j :: 0 <= i < j < |m.trace| ==> m.trace[i].identity != m.trace[j].identity
    ensures forall i :: 0 <= i < |m.trace| - 1 ==> NextAfter(schema, m.trace[i].identity) == Some(m.trace[i + 1].identity)
    ensures forall k :: k in schema.nodes ==> HasStatus(m.ctx.nodeRuns, k, Success)
  {
    forall k | k in schema.nodes
      ensures HasStatus(m.ctx.nodeRuns, k, Success)
      ensures exists i :: 0 <= i < |m.trace| && m.trace[i].identity == k
    {
      var i :| 0 <= i < |path| && path[i] == k;
      assert m.trace[i].identity == k;
    }
    forall i | 0 <= i < |m.trace|
      ensures m.trace[i].identity in schema.nodes
    {
      assert path[i] in path;
    }
  }

  lemma {:induction false} DistinctCovers(p: seq<Id>, all: set<Id>)
    requires Distinct(p) && forall k :: k in all <==> k in p
    ensures |all| == |p|
  {
    if p != [] {
      var init, last := p[..|p| - 1], p[|p| - 1];
      assert p == init + [last];
      assert last !in init;
      DistinctCovers(init, all - {last});
    } else {
      assert all == {};
    }
  }
}
