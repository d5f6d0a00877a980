/**
 * Validation does not look at registration, nor at whether edges lead to declared nodes.  A run that comes
 * to a name without a node stops there; this file says exactly which accepted schemas can come to that.
 */
module UnresolvedRuns {
  import opened Json
  import opened Contexts
  import opened Budgets
  import opened Suspensions
  import opened Graphs
  import opened Nodes
  import opened Schemas
  import opened TaskContexts
  import opened Workflows
  import opened Runs
  import opened Accounts
  import opened LinearRuns
  import Validation

  ghost predicate NoRouters(registry: Registry) { forall k :: k in registry ==> registry[k].router.None? }

  ghost predicate AllCooperate(registry: Registry) { forall k :: k in registry ==> Cooperative(registry[k]) }

  ghost predicate Reachable(schema: Schema, k: Id) { Reaches(Validation.DeclaredGraph(schema), schema.startNode, k) }

  /** Some run of the workflow stops at a name that has no node. */
  ghost predicate CanStopUnresolved(wf: Workflow, w: World, event: Value) {
    exists events :: Exec(wf, w, Begin(wf, w, event), events).status.Unresolved?
  }

  // ----- Where a run can stand -----

  /** The pointer is reachable over declared connections, and an unresolved one has no node. */
  ghost predicate StandsReachable(wf: Workflow, m: Machine) {
    match m.status
    case AtNode(x) => Reachable(wf.schema, x)
    case Suspended(x) => Reachable(wf.schema, x)
    case Unresolved(x) => Reachable(wf.schema, x) && x !in wf.registry
    case _ => true
  }

  lemma PassStandsReachable(wf: Workflow, w: World, m: Machine, e: Event)
    requires KeyedByName(wf.registry) && NoRouters(wf.registry)
    requires m.status.AtNode? && e.Tick? && StandsReachable(wf, m)
    ensures StandsReachable(wf, Advance(wf, w, m, e))
  {
    var n := Advance(wf, w, m, e);
    PassOutline(wf, w, m, e);
    if Stopped(m, n) {
      StopWaitsHere(wf, w, m, e);
    } else if m.status.at in wf.registry {
      VisitLeadsToSuccessor(wf, w, m, e);
      if Last(n).next.Some? {
        ReachesNext(Validation.DeclaredGraph(wf.schema), wf.schema.startNode, m.status.at, Last(n).next.value);
      }
    }
  }

  /** Whatever its nodes do and whatever signals it is sent, a run without routers stops unresolved only at a reachable name without a node. */
  lemma {:induction false} EveryRunStandsReachable(wf: Workflow, w: World, event: Value, events: seq<Event>)
    requires KeyedByName(wf.registry) && NoRouters(wf.registry)
    ensures StandsReachable(wf, Exec(wf, w, Begin(wf, w, event), events))
    decreases |events|
  {
    if events == [] {
      ReachesSelf(Validation.DeclaredGraph(wf.schema), wf.schema.startNode);
    } else {
      var init, e := events[..|events| - 1], events[|events| - 1];
      EveryRunStandsReachable(wf, w, event, init);
      EveryRunKeepsAccount(wf, w, event, init);
      var m := Exec(wf, w, Begin(wf, w, event), init);
      if e.Tick? && m.status.AtNode? {
        PassStandsReachable(wf, w, m, e);
      } else if e.Continue? && m.status.Suspended? {
        ResumeRestoresExactly(wf, w, m);
      }
    }
  }

  // ----- A run that gets there -----

  function QuietTicks(n: nat): seq<Event> { seq(n, _ => Tick(false, false, 0)) }

  /** A walk all of whose nodes but the last have a node registered. */
  ghost predicate RegisteredWalk(wf: Workflow, p: seq<Id>) {
    && IsWalk(Validation.DeclaredGraph(wf.schema), p) && p[0] == wf.schema.startNode
    && forall i :: 0 <= i < |p| - 1 ==> p[i] in wf.registry
  }

  /** Up to its first name without a node a walk can be followed. */
  lemma {:induction false} FirstUnregistered(wf: Workflow, p: seq<Id>) returns (q: seq<Id>)
    requires IsWalk(Validation.DeclaredGraph(wf.schema), p) && p[0] == wf.schema.startNode
    requires p[|p| - 1] !in wf.registry
    ensures RegisteredWalk(wf, q) && q[|q| - 1] !in wf.registry
    decreases |p|
  {
    if i :| 0 <= i < |p| - 1 && p[i] !in wf.registry {
      SubWalk(Validation.DeclaredGraph(wf.schema), p, 0, i);
      q := FirstUnregistered(wf, p[..i + 1]);
    } else {
      q := p;
    }
  }

  /** An edge of an accepted schema out of a node that is no router is that node's first connection. */
  lemma EdgeIsNext(wf: Workflow, u: Id, v: Id)
    requires Validation.WellFormed(wf.registry, wf.schema) && NoRouters(wf.registry)
    requires Edge(Validation.DeclaredGraph(wf.schema), u, v)
    ensures NextAfter(wf.schema, u) == Some(v)
  {
    assert !Validation.FansOut(wf.registry, wf.schema, u);
  }

  lemma {:induction false} QuietRunFollowsWalk(wf: Workflow, w: World, event: Value, p: seq<Id>, j: nat)
    requires Validation.WellFormed(wf.registry, wf.schema) && NoRouters(wf.registry)
    requires FramedRegistry(wf.registry) && AllCooperate(wf.registry) && w.budget.None?
    requires RegisteredWalk(wf, p) && j < |p|
    ensures Exec(wf, w, Begin(wf, w, event), QuietTicks(j)).status == AtNode(p[j])
  {
    if j > 0 {
      var before, e := QuietTicks(j - 1), Tick(false, false, 0);
      QuietRunFollowsWalk(wf, w, event, p, j - 1);
      EveryRunKeepsMarkers(wf, w, event, before);
      assert QuietTicks(j) == before + [e];
      ExecSnoc(wf, w, Begin(wf, w, event), before, e);
      FollowsEdge(wf, w, Exec(wf, w, Begin(wf, w, event), before), e, p[j - 1], p[j]);
    }
  }

  lemma FollowsEdge(wf: Workflow, w: World, m: Machine, e: Event, u: Id, v: Id)
    requires Validation.WellFormed(wf.registry, wf.schema) && NoRouters(wf.registry)
    requires FramedRegistry(wf.registry) && AllCooperate(wf.registry) && w.budget.None?
    requires m.status == AtNode(u) && MarkersMatch(m) && e == Tick(false, false, 0)
    requires u in wf.registry && Edge(Validation.DeclaredGraph(wf.schema), u, v)
    ensures Advance(wf, w, m, e).status == AtNode(v)
  {
    QuietPass(wf, w, m, e);
    VisitLeadsToSuccessor(wf, w, m, e);
    EdgeIsNext(wf, u, v);
  }

  lemma ReachedNameStopsTheRun(wf: Workflow, w: World, event: Value, k: Id)
    requires Validation.WellFormed(wf.registry, wf.schema) && NoRouters(wf.registry)
    requires FramedRegistry(wf.registry) && AllCooperate(wf.registry) && w.budget.None?
    requires Reachable(wf.schema, k) && k !in wf.registry
    ensures CanStopUnresolved(wf, w, event)
  {
    var p :| WalkFromTo(Validation.DeclaredGraph(wf.schema), wf.schema.startNode, k, p);
    var q := FirstUnregistered(wf, p);
    var ticks, e := QuietTicks(|q| - 1), Tick(false, false, 0);
    QuietRunFollowsWalk(wf, w, event, q, |q| - 1);
    ExecSnoc(wf, w, Begin(wf, w, event), ticks, e);
    assert Exec(wf, w, Begin(wf, w, event), ticks + [e]).status.Unresolved?;
  }

  /**
   * An accepted schema without routers, its nodes succeeding, can end at a missing node if and only if some
   * name reachable over declared connections has none registered: acceptance does not settle it, this does.
   */
  lemma UnresolvedIffUnregistered(wf: Workflow, w: World, event: Value)
    requires Validation.WellFormed(wf.registry, wf.schema) && NoRouters(wf.registry)
    requires FramedRegistry(wf.registry) && AllCooperate(wf.registry) && w.budget.None?
    ensures CanStopUnresolved(wf, w, event) <==> exists k :: Reachable(wf.schema, k) && k !in wf.registry
  {
    if CanStopUnresolved(wf, w, event) {
      var events :| Exec(wf, w, Begin(wf, w, event), events).status.Unresolved?;
      EveryRunStandsReachable(wf, w, event, events);
    }
    if k :| Reachable(wf.schema, k) && k !in wf.registry {
      ReachedNameStopsTheRun(wf, w, event, k);
    }
  }

  // ----- An accepted schema -----

  /** Its one node leads to a name neither declared nor registered. */
  function Dangling(): Workflow {
    Workflow(map["A" := Node("A", (c: Context) => Done(c), None)],
             Schema("dangling", "A", map["A" := NodeConfig("A", ["missing"])]), map[])
  }

  lemma DanglingIsAccepted()
    ensures Validation.WellFormed(Dangling().registry, Dangling().schema)
  {
    var schema := Dangling().schema;
    ReachesSelf(Validation.DeclaredGraph(schema), "A");
    assert "missing"[0] != "A"[0];
    var g := Validation.CheckedGraph(Dangling().registry, schema);
    var order := ["missing", "A"];
    assert order[..0] == [] && order[..1] == ["missing"];
    FinishedIsAcyclic(g, order);
  }

  lemma AcceptedYetUnresolved(w: World, event: Value)
    requires w.budget.None?
    ensures Validation.WellFormed(Dangling().registry, Dangling().schema) && CanStopUnresolved(Dangling(), w, event)
  {
    var wf := Dangling();
    DanglingIsAccepted();
    assert "missing"[0] != "A"[0];
    ReachesSelf(Validation.DeclaredGraph(wf.schema), "A");
    ReachesNext(Validation.DeclaredGraph(wf.schema), "A", "A", "missing");
    ReachedNameStopsTheRun(wf, w, event, "missing");
  }
}
