/**
 * When a workflow with loops is bound to halt.  In the part of the graph a run can reach, cut every
 * guard's edge that continues its loop: if what is left has no cycle, every run halts, within a bound.
 */
module LoopHalting {
  import opened Json
  import opened Contexts
  import opened Budgets
  import opened Suspensions
  import opened Orders
  import opened Graphs
  import opened Nodes
  import opened Schemas
  import opened TaskContexts
  import opened Workflows
  import opened Runs
  import opened Loops
  import opened LoopRuns
  import Validation

  // ----- The graph without the edges that continue a loop -----

  /** The loop whose guard this is. */
  function LoopAt(specs: seq<LoopSpec>, u: Id): Option<LoopSpec> {
    if specs == [] then None
    else if GuardId(specs[|specs| - 1]) == u then Some(specs[|specs| - 1])
    else LoopAt(specs[..|specs| - 1], u)
  }

  function FirstConnection(schema: Schema, u: Id): seq<Id> {
    var next := NextAfter(schema, u);
    if next.Some? then [next.value] else []
  }

  /** Where a node can lead at run time: a guard bounded by one turn or none never continues its loop. */
  function LiveConnections(specs: seq<LoopSpec>, schema: Schema, u: Id): seq<Id> {
    match LoopAt(specs, u)
    case Some(spec) => if spec.maxIterations >= 2 then [IncrementId(spec), spec.exitTo] else [spec.exitTo]
    case None => FirstConnection(schema, u)
  }

  function LiveGraph(specs: seq<LoopSpec>, schema: Schema): Graph {
    map u | u in schema.nodes :: LiveConnections(specs, schema, u)
  }

  predicate Live(specs: seq<LoopSpec>, schema: Schema, u: Id, v: Id) { Edge(LiveGraph(specs, schema), u, v) }

  ghost predicate IsLive(specs: seq<LoopSpec>, schema: Schema, u: Id) {
    Reaches(LiveGraph(specs, schema), schema.startNode, u)
  }

  function CutConnections(specs: seq<LoopSpec>, schema: Schema, u: Id): seq<Id> {
    match LoopAt(specs, u)
    case Some(spec) => [spec.exitTo]
    case None => FirstConnection(schema, u)
  }

  /** The live part of the graph, where all that is left of a guard is its way out. */
  ghost function CutGraph(specs: seq<LoopSpec>, schema: Schema): Graph {
    map u | u in schema.nodes && IsLive(specs, schema, u) :: CutConnections(specs, schema, u)
  }

  lemma {:induction false} LoopAtGuard(specs: seq<LoopSpec>, i: nat)
    requires DistinctPrefixes(specs) && i < |specs|
    ensures LoopAt(specs, GuardId(specs[i])) == Some(specs[i])
  {
    if i < |specs| - 1 {
      IdentitiesAreDistinct(specs[i], specs[|specs| - 1]);
      LoopAtGuard(specs[..|specs| - 1], i);
    }
  }

  lemma {:induction false} LoopAtIs(specs: seq<LoopSpec>, u: Id)
    ensures var found := LoopAt(specs, u);
            if found.Some? then found.value in specs && GuardId(found.value) == u else !IsGuard(specs, u)
  {
    if specs != [] {
      var init, last := specs[..|specs| - 1], specs[|specs| - 1];
      LoopAtIs(init, u);
      if i :| 0 <= i < |specs| && GuardId(specs[i]) == u {
        assert i < |init| ==> GuardId(init[i]) == u;
      }
    }
  }

  // ----- Turns -----

  /** A guard visit that continued its loop. */
  predicate Turned(spec: LoopSpec, v: Visit) { v.identity == GuardId(spec) && !Exits(spec, v.after) }

  predicate IsTurn(specs: seq<LoopSpec>, v: Visit) { exists i :: 0 <= i < |specs| && Turned(specs[i], v) }

  function TurnsTaken(trace: seq<Visit>, spec: LoopSpec): nat {
    if trace == [] then 0
    else TurnsTaken(trace[..|trace| - 1], spec) + (if Turned(spec, trace[|trace| - 1]) then 1 else 0)
  }

  function AllTurnsTaken(trace: seq<Visit>, specs: seq<LoopSpec>): nat {
    if specs == [] then 0 else AllTurnsTaken(trace, specs[..|specs| - 1]) + TurnsTaken(trace, specs[|specs| - 1])
  }

  function TotalTurns(specs: seq<LoopSpec>): nat {
    if specs == [] then 0 else TotalTurns(specs[..|specs| - 1]) + Turns(specs[|specs| - 1])
  }

  lemma {:induction false} TurnsTakenSnoc(trace: seq<Visit>, v: Visit, spec: LoopSpec)
    ensures TurnsTaken(trace + [v], spec) == TurnsTaken(trace, spec) + (if Turned(spec, v) then 1 else 0)
  {
    assert (trace + [v])[..|trace|] == trace;
  }

  lemma {:induction false} AllTurnsSnoc(trace: seq<Visit>, v: Visit, specs: seq<LoopSpec>)
    requires DistinctPrefixes(specs)
    ensures AllTurnsTaken(trace + [v], specs) == AllTurnsTaken(trace, specs) + (if IsTurn(specs, v) then 1 else 0)
  {
    if specs != [] {
      var init, last := specs[..|specs| - 1], specs[|specs| - 1];
      AllTurnsSnoc(trace, v, init);
      TurnsTakenSnoc(trace, v, last);
      if i :| 0 <= i < |specs| && Turned(specs[i], v) {
        if i < |init| {
          assert Turned(init[i], v);
          NotAnIncrement(specs, i);
        }
      }
      if i :| 0 <= i < |init| && Turned(init[i], v) {
        assert Turned(specs[i], v);
        NotAnIncrement(specs, i);
      }
      assert specs[|specs| - 1] == last;
    }
  }

  lemma {:induction false} AllTurnsBounded(trace: seq<Visit>, specs: seq<LoopSpec>)
    requires forall i :: 0 <= i < |specs| ==> TurnsTaken(trace, specs[i]) <= Turns(specs[i])
    ensures AllTurnsTaken(trace, specs) <= TotalTurns(specs)
  {
    if specs != [] {
      var init := specs[..|specs| - 1];
      assert forall i :: 0 <= i < |init| ==> init[i] == specs[i];
      AllTurnsBounded(trace, init);
    }
  }

  /** The identities visited since the last turn. */
  function Phase(trace: seq<Visit>, specs: seq<LoopSpec>): seq<Id> {
    if trace == [] || IsTurn(specs, trace[|trace| - 1]) then []
    else Phase(trace[..|trace| - 1], specs) + [trace[|trace| - 1].identity]
  }

  lemma {:induction false} PhaseSnoc(trace: seq<Visit>, v: Visit, specs: seq<LoopSpec>)
    ensures Phase(trace + [v], specs) == if IsTurn(specs, v) then [] else Phase(trace, specs) + [v.identity]
  {
    assert (trace + [v])[..|trace|] == trace;
  }

  // ----- The invariant -----

  predicate Pending(spec: LoopSpec, trace: seq<Visit>) { trace != [] && Turned(spec, trace[|trace| - 1]) }

  /** Each turn but a pending last one has been paid for by an increment, and none exceeds the bound. */
  ghost predicate TurnsPaid(specs: seq<LoopSpec>, m: Machine) {
    forall i :: 0 <= i < |specs| ==>
      && TurnsTaken(m.trace, specs[i]) <= Turns(specs[i])
      && TurnsTaken(m.trace, specs[i]) <= Visits(m.trace, IncrementId(specs[i])) + (if Pending(specs[i], m.trace) then 1 else 0)
      && (Pending(specs[i], m.trace) && Pointer(m.status).Some? ==> Pointer(m.status).value == IncrementId(specs[i]))
  }

  /** Since the last turn the walk has followed the cut graph. */
  ghost predicate OnCutWalk(wf: Workflow, specs: seq<LoopSpec>, m: Machine) {
    var at := Pointer(m.status);
    at.Some? ==>
      && at.value in wf.schema.nodes && IsLive(specs, wf.schema, at.value)
      && IsWalk(CutGraph(specs, wf.schema), Phase(m.trace, specs) + [at.value])
  }

  ghost predicate WithinBound(wf: Workflow, specs: seq<LoopSpec>, m: Machine) {
    && |Phase(m.trace, specs)| <= |wf.schema.nodes.Keys|
    && |m.trace| <= |wf.schema.nodes.Keys| * AllTurnsTaken(m.trace, specs) + |Phase(m.trace, specs)|
  }

  ghost predicate HaltInvariant(wf: Workflow, specs: seq<LoopSpec>, m: Machine) {
    CountersAgree(specs, m) && TurnsPaid(specs, m) && OnCutWalk(wf, specs, m) && WithinBound(wf, specs, m)
  }

  /** No counter has reached the width it is read back with. */
  ghost predicate CountersFit(specs: seq<LoopSpec>, trace: seq<Visit>) {
    forall i :: 0 <= i < |specs| ==> Visits(trace, IncrementId(specs[i])) < U32
  }

  // ----- One visit -----

  /** A guard continues only while its counter, read without wrapping, is below the last turn. */
  lemma TurnHasRoom(spec: LoopSpec, c: Context)
    requires spec.maxIterations < U32 && Iterations(c, IncrementId(spec)) < U32 && !Exits(spec, c)
    ensures Iterations(c, IncrementId(spec)) < Turns(spec)
  {
  }

  lemma VisitPaysTurns(wf: Workflow, specs: seq<LoopSpec>, m: Machine, n: Machine, d: Dispatched, i: nat)
    requires DistinctPrefixes(specs) && i < |specs| && specs[i].maxIterations < U32
    requires CountersAgree(specs, m) && TurnsPaid(specs, m) && CountersFit(specs, m.trace)
    requires Moved(wf, specs, m, n, d)
    ensures var spec := specs[i];
            && TurnsTaken(n.trace, spec) <= Turns(spec)
            && TurnsTaken(n.trace, spec) <= Visits(n.trace, IncrementId(spec)) + (if Pending(spec, n.trace) then 1 else 0)
            && (Pending(spec, n.trace) && Pointer(n.status).Some? ==> Pointer(n.status).value == IncrementId(spec))
  {
    var spec, v := specs[i], Last(n);
    TurnsTakenSnoc(m.trace, v, spec);
    VisitsSnoc(m.trace, v, IncrementId(spec));
    NotAnIncrement(specs, i);
    if Turned(spec, v) {
      assert Iterations(d.after, IncrementId(spec)) == Visits(m.trace, IncrementId(spec));
      TurnHasRoom(spec, d.after);
      assert !d.failed && v.next == RouteGuard(spec, d.after);
    }
  }

  lemma CutFits(specs: seq<LoopSpec>, schema: Schema, phase: seq<Id>, x: Id)
    requires !Cyclic(CutGraph(specs, schema)) && x in schema.nodes
    requires IsWalk(CutGraph(specs, schema), phase + [x])
    ensures |phase| + 1 <= |schema.nodes.Keys|
  {
    var g, walk := CutGraph(specs, schema), phase + [x];
    AcyclicWalkIsDistinct(g, walk);
    forall k | k in walk
      ensures k in schema.nodes
    {
      var i :| 0 <= i < |walk| && walk[i] == k;
      if i + 1 < |walk| {
        assert Edge(g, walk[i], walk[i + 1]);
      }
    }
    DistinctFits(walk, schema.nodes.Keys);
  }

  lemma OneMoreTurn(count: nat, turns: nat)
    ensures count * (turns + 1) == count * turns + count
  {
  }

  lemma VisitKeepsBound(wf: Workflow, specs: seq<LoopSpec>, m: Machine, n: Machine, d: Dispatched)
    requires DistinctPrefixes(specs) && !Cyclic(CutGraph(specs, wf.schema)) && Visited(m, n, d)
    requires OnCutWalk(wf, specs, m) && WithinBound(wf, specs, m)
    ensures WithinBound(wf, specs, n)
  {
    CutFits(specs, wf.schema, Phase(m.trace, specs), m.status.at);
    PhaseSnoc(m.trace, Last(n), specs);
    AllTurnsSnoc(m.trace, Last(n), specs);
    OneMoreTurn(|wf.schema.nodes.Keys|, AllTurnsTaken(m.trace, specs));
  }

  /** Where a visit leads: along a live edge, and, unless it is a turn, along a cut one. */
  lemma VisitFollowsEdges(wf: Workflow, specs: seq<LoopSpec>, m: Machine, n: Machine, d: Dispatched)
    requires LoopWorkflow(wf, specs) && Moved(wf, specs, m, n, d) && Pointer(n.status).Some?
    requires IsLive(specs, wf.schema, m.status.at)
    ensures Live(specs, wf.schema, m.status.at, Pointer(n.status).value)
    ensures !IsTurn(specs, Last(n)) ==> Edge(CutGraph(specs, wf.schema), m.status.at, Pointer(n.status).value)
  {
    var v, y := Last(n), Pointer(n.status).value;
    if IsGuard(specs, v.identity) {
      var i :| 0 <= i < |specs| && GuardId(specs[i]) == v.identity;
      GuardFollowsEdges(specs, wf.schema, i, v, y);
    } else {
      LoopAtIs(specs, v.identity);
      OthersGoAhead(wf, specs, v.identity, d);
    }
  }

  lemma GuardFollowsEdges(specs: seq<LoopSpec>, schema: Schema, i: nat, v: Visit, y: Id)
    requires DistinctPrefixes(specs) && i < |specs|
    requires v.identity == GuardId(specs[i]) && Some(y) == RouteGuard(specs[i], v.after)
    ensures y in LiveConnections(specs, schema, v.identity)
    ensures !IsTurn(specs, v) ==> y in CutConnections(specs, schema, v.identity)
  {
    LoopAtGuard(specs, i);
    GuardGoes(specs[i], v.after);
    assert !Exits(specs[i], v.after) ==> Turned(specs[i], v);
  }

  lemma GuardGoes(spec: LoopSpec, c: Context)
    ensures if Exits(spec, c) then RouteGuard(spec, c) == Some(spec.exitTo)
            else RouteGuard(spec, c) == Some(IncrementId(spec)) && spec.maxIterations >= 2
  {
  }

  /** Any node but a guard goes down its first connection: an increment's is its body. */
  lemma OthersGoAhead(wf: Workflow, specs: seq<LoopSpec>, x: Id, d: Dispatched)
    requires LoopWorkflow(wf, specs) && x in wf.registry && x in wf.schema.nodes && !IsGuard(specs, x)
    requires RouteStep(wf, specs, x, d)
    ensures Successor(wf, wf.registry[x], x, d.after) == NextAfter(wf.schema, x)
  {
    if IsIncrement(specs, x) {
      var i :| 0 <= i < |specs| && IncrementId(specs[i]) == x;
      InstalledNodes(wf, specs[i]);
    } else {
      assert Ordinary(wf.registry[x]);
    }
  }

  lemma WalkExtends(g: Graph, p: seq<Id>, y: Id)
    requires IsWalk(g, p) && Edge(g, p[|p| - 1], y)
    ensures IsWalk(g, p + [y])
  {
  }

  lemma {:induction false} CutWalkSnoc(g: Graph, specs: seq<LoopSpec>, trace: seq<Visit>, v: Visit, y: Id)
    requires IsWalk(g, Phase(trace, specs) + [v.identity])
    requires !IsTurn(specs, v) ==> Edge(g, v.identity, y)
    ensures IsWalk(g, Phase(trace + [v], specs) + [y])
  {
    PhaseSnoc(trace, v, specs);
    if IsTurn(specs, v) {
      assert Phase(trace + [v], specs) + [y] == [y];
    } else {
      WalkExtends(g, Phase(trace, specs) + [v.identity], y);
    }
  }

  lemma VisitKeepsCutWalk(wf: Workflow, specs: seq<LoopSpec>, m: Machine, n: Machine, d: Dispatched)
    requires LoopWorkflow(wf, specs) && Moved(wf, specs, m, n, d) && OnCutWalk(wf, specs, m)
    ensures OnCutWalk(wf, specs, n)
  {
    var at := Pointer(n.status);
    if at.Some? {
      assert at.value in wf.schema.nodes[m.status.at].connections;
      VisitFollowsEdges(wf, specs, m, n, d);
      ReachesNext(LiveGraph(specs, wf.schema), wf.schema.startNode, m.status.at, at.value);
      CutWalkSnoc(CutGraph(specs, wf.schema), specs, m.trace, Last(n), at.value);
    }
  }

  lemma MoveKeepsHaltInvariant(wf: Workflow, specs: seq<LoopSpec>, m: Machine, n: Machine, d: Dispatched)
    requires LoopWorkflow(wf, specs) && !Cyclic(CutGraph(specs, wf.schema))
    requires HaltInvariant(wf, specs, m) && CountersFit(specs, m.trace) && Moved(wf, specs, m, n, d)
    ensures HaltInvariant(wf, specs, n)
  {
    VisitKeepsCounters(specs, m, n, d);
    VisitKeepsBound(wf, specs, m, n, d);
    VisitKeepsCutWalk(wf, specs, m, n, d);
    forall i | 0 <= i < |specs|
      ensures TurnsTaken(n.trace, specs[i]) <= Turns(specs[i])
      ensures TurnsTaken(n.trace, specs[i]) <= Visits(n.trace, IncrementId(specs[i])) + (if Pending(specs[i], n.trace) then 1 else 0)
      ensures Pending(specs[i], n.trace) && Pointer(n.status).Some? ==> Pointer(n.status).value == IncrementId(specs[i])
    {
      VisitPaysTurns(wf, specs, m, n, d, i);
    }
  }

  // ----- Every run -----

  /** The most dispatches a loop workflow can take: every declared node once, and once more for each turn. */
  function DispatchBound(wf: Workflow, specs: seq<LoopSpec>): nat { |wf.schema.nodes.Keys| * (1 + TotalTurns(specs)) }

  /** Either no counter is stepped from outside its loop, or the bound itself fits the counter's width. */
  ghost predicate NeverWraps(wf: Workflow, specs: seq<LoopSpec>) {
    OnlyGuardsEnter(wf.schema, specs) || DispatchBound(wf, specs) < U32
  }

  lemma MoreTurnsMoreRoom(count: nat, a: nat, b: nat)
    requires a <= b
    ensures count * a + count <= count * (1 + b)
  {
    assert count * a <= count * b;
    assert count * (1 + b) == count + count * b;
  }

  lemma BoundFromInvariant(wf: Workflow, specs: seq<LoopSpec>, m: Machine)
    requires TurnsPaid(specs, m) && WithinBound(wf, specs, m)
    ensures |m.trace| <= DispatchBound(wf, specs)
  {
    AllTurnsBounded(m.trace, specs);
    MoreTurnsMoreRoom(|wf.schema.nodes.Keys|, AllTurnsTaken(m.trace, specs), TotalTurns(specs));
  }

  lemma {:induction false} VisitsFit(trace: seq<Visit>, k: Id)
    ensures Visits(trace, k) <= |trace|
  {
    if trace != [] {
      VisitsFit(trace[..|trace| - 1], k);
    }
  }

  lemma {:induction false} RunCountersFit(wf: Workflow, specs: seq<LoopSpec>, w: World, event: Value, events: seq<Event>)
    requires LoopWorkflow(wf, specs) && NeverWraps(wf, specs)
    requires HaltInvariant(wf, specs, Exec(wf, w, Begin(wf, w, event), events))
    ensures CountersFit(specs, Exec(wf, w, Begin(wf, w, event), events).trace)
  {
    var m := Exec(wf, w, Begin(wf, w, event), events);
    BoundFromInvariant(wf, specs, m);
    forall i | 0 <= i < |specs|
      ensures Visits(m.trace, IncrementId(specs[i])) < U32
    {
      VisitsFit(m.trace, IncrementId(specs[i]));
      if OnlyGuardsEnter(wf.schema, specs) {
        TurnsNeverExceedBound(wf, specs, w, event, events, i);
      }
    }
  }

  lemma KeptKeepsHaltInvariant(wf: Workflow, specs: seq<LoopSpec>, m: Machine, n: Machine)
    requires Kept(m, n) && HaltInvariant(wf, specs, m)
    ensures HaltInvariant(wf, specs, n)
  {
    KeptKeepsCounters(specs, m, n);
  }

  lemma NaturalProduct(a: nat, b: nat)
    ensures a * b >= 0
  {
  }

  lemma BeginHaltInvariant(wf: Workflow, specs: seq<LoopSpec>, w: World, event: Value)
    requires LoopWorkflow(wf, specs)
    ensures HaltInvariant(wf, specs, Begin(wf, w, event))
  {
    var m := Begin(wf, w, event);
    NoVisitsYet(wf, specs, m);
    ReachesSelf(LiveGraph(specs, wf.schema), wf.schema.startNode);
    assert Phase(m.trace, specs) + [wf.schema.startNode] == [wf.schema.startNode];
    NaturalProduct(|wf.schema.nodes.Keys|, AllTurnsTaken(m.trace, specs));
  }

  lemma {:induction false} HaltInvariantIsKept(wf: Workflow, specs: seq<LoopSpec>, w: World, event: Value, events: seq<Event>)
    requires LoopWorkflow(wf, specs) && !Cyclic(CutGraph(specs, wf.schema)) && NeverWraps(wf, specs)
    ensures HaltInvariant(wf, specs, Exec(wf, w, Begin(wf, w, event), events))
    decreases |events|
  {
    if events == [] {
      BeginHaltInvariant(wf, specs, w, event);
    } else {
      var init, e := events[..|events| - 1], events[|events| - 1];
      HaltInvariantIsKept(wf, specs, w, event, init);
      RunCountersFit(wf, specs, w, event, init);
      LoopRegistryIsFramed(wf, specs);
      EveryRunKeepsInvariant(wf, w, event, init);
      var m := Exec(wf, w, Begin(wf, w, event), init);
      EventKeepsOrMoves(wf, specs, w, m, e);
      if Moves(wf, w, m, e) {
        MoveKeepsHaltInvariant(wf, specs, m, Advance(wf, w, m, e), Ran(wf, w, m, e));
      } else {
        KeptKeepsHaltInvariant(wf, specs, m, Advance(wf, w, m, e));
      }
    }
  }

  lemma {:induction false} EveryTickDispatches(wf: Workflow, w: World, event: Value, ticks: seq<Event>)
    requires KeyedByName(wf.registry) && forall e :: e in ticks ==> e.Tick?
    ensures var m := Exec(wf, w, Begin(wf, w, event), ticks); m.status.AtNode? ==> |m.trace| == |ticks|
    decreases |ticks|
  {
    if ticks != [] {
      var init, e := ticks[..|ticks| - 1], ticks[|ticks| - 1];
      EveryTickDispatches(wf, w, event, init);
      var m := Exec(wf, w, Begin(wf, w, event), init);
      if m.status.AtNode? {
        PassOutline(wf, w, m, e);
      }
    }
  }

  /**
   * Where no counter can wrap the bound is small: no run, over any number of segments, takes more than
   * (declared nodes) x (1 + all turns) dispatches, and a segment given more boundaries has returned.
   */
  lemma {:induction false} DispatchesStayWithinBound(wf: Workflow, specs: seq<LoopSpec>, w: World, event: Value, events: seq<Event>)
    requires LoopWorkflow(wf, specs) && !Cyclic(CutGraph(specs, wf.schema)) && NeverWraps(wf, specs)
    ensures |Exec(wf, w, Begin(wf, w, event), events).trace| <= DispatchBound(wf, specs)
    ensures (forall e :: e in events ==> e.Tick?) && |events| > DispatchBound(wf, specs) ==>
              !Exec(wf, w, Begin(wf, w, event), events).status.AtNode?
  {
    HaltInvariantIsKept(wf, specs, w, event, events);
    BoundFromInvariant(wf, specs, Exec(wf, w, Begin(wf, w, event), events));
    if forall e :: e in events ==> e.Tick? {
      EveryTickDispatches(wf, w, event, events);
    }
  }
}
