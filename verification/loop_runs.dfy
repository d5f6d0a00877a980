/** Runs of loop workflows: how many dispatches they can take, and how often each loop turns. */
module LoopRuns {
  import opened Json
  import opened Contexts
  import opened Budgets
  import opened Suspensions
  import opened Orders
  import opened Graphs
  import opened Nodes
  import opened Schemas
  import opened TaskContexts
  import opened Workflows
  import opened Runs
  import opened Loops
  import Validation

  // ----- Counting visits -----

  function Visits(trace: seq<Visit>, k: Id): nat {
    if trace == [] then 0
    else Visits(trace[..|trace| - 1], k) + (if trace[|trace| - 1].identity == k then 1 else 0)
  }

  lemma {:induction false} VisitsSnoc(trace: seq<Visit>, v: Visit, k: Id)
    ensures Visits(trace + [v], k) == Visits(trace, k) + (if v.identity == k then 1 else 0)
  {
    assert (trace + [v])[..|trace|] == trace;
  }

  /** How often a cluster may turn: one less than its bound, and never below zero. */
  function Turns(spec: LoopSpec): nat { if spec.maxIterations == 0 then 0 else spec.maxIterations - 1 }

  // ----- The invariant of a loop run -----

  function Pointer(s: Status): Option<Id> {
    match s
    case AtNode(x) => Some(x)
    case Suspended(x) => Some(x)
    case _ => None
  }

  /** Every counter holds the number of visits to its increment. */
  ghost predicate CountersAgree(specs: seq<LoopSpec>, m: Machine) {
    && BaseNamesFree(m.ctx)
    && forall i :: 0 <= i < |specs| ==> Iterations(m.ctx, IncrementId(specs[i])) == Visits(m.trace, IncrementId(specs[i]))
  }

  ghost predicate WithinTurns(specs: seq<LoopSpec>, m: Machine) {
    forall i :: 0 <= i < |specs| ==> Visits(m.trace, IncrementId(specs[i])) <= Turns(specs[i])
  }

  /** At an increment there is a turn left, and its guard came right before. */
  ghost predicate PointerSound(wf: Workflow, specs: seq<LoopSpec>, m: Machine) {
    var at := Pointer(m.status);
    at.Some? ==>
      && at.value in wf.schema.nodes
      && (if m.trace == [] then at.value == wf.schema.startNode else Last(m).next == at)
      && forall i :: 0 <= i < |specs| && at.value == IncrementId(specs[i]) ==>
           && Visits(m.trace, at.value) < Turns(specs[i])
           && m.trace != [] && Last(m).identity == GuardId(specs[i])
  }

  /** What a guard saw and chose at one of its visits, in terms of the visits before it. */
  ghost predicate GuardChose(spec: LoopSpec, trace: seq<Visit>, p: nat)
    requires p < |trace|
  {
    && Iterations(trace[p].after, IncrementId(spec)) == Visits(trace[..p], IncrementId(spec))
    && trace[p].next == RouteGuard(spec, trace[p].after)
  }

  ghost predicate HistorySound(specs: seq<LoopSpec>, trace: seq<Visit>) {
    && (forall p, q :: 0 <= p && q == p + 1 && q < |trace| ==> trace[p].next == Some(trace[q].identity))
    && (forall p, i :: 0 <= p < |trace| && 0 <= i < |specs| && trace[p].identity == GuardId(specs[i]) ==>
          GuardChose(specs[i], trace, p))
    && (forall p, i :: 0 <= p < |trace| && 0 <= i < |specs| && trace[p].identity == IncrementId(specs[i]) ==>
          p > 0 && trace[p - 1].identity == GuardId(specs[i]))
  }

  ghost predicate LoopInvariant(wf: Workflow, specs: seq<LoopSpec>, m: Machine) {
    CountersAgree(specs, m) && WithinTurns(specs, m) && PointerSound(wf, specs, m) && HistorySound(specs, m.trace)
  }

  // ----- One visit -----

  /** While turns are left nothing wraps: the guard continues only below its bound. */
  lemma ContinuingMeansTurnsLeft(spec: LoopSpec, c: Context)
    requires spec.maxIterations < U32 && Iterations(c, IncrementId(spec)) <= Turns(spec)
    ensures SoFar(Iterations(c, IncrementId(spec))) == Iterations(c, IncrementId(spec)) + 1
    ensures !Exits(spec, c) ==> Iterations(c, IncrementId(spec)) < Turns(spec)
  {
  }

  lemma VisitKeepsCounters(specs: seq<LoopSpec>, m: Machine, n: Machine, d: Dispatched)
    requires Visited(m, n, d) && CountersAgree(specs, m) && BaseNamesFree(d.after)
    requires CountersStep(specs, m.status.at, m.ctx, d.after)
    ensures CountersAgree(specs, n)
  {
    SameOutputsSameCounts(n.ctx, d.after);
    forall i | 0 <= i < |specs|
      ensures Iterations(n.ctx, IncrementId(specs[i])) == Visits(n.trace, IncrementId(specs[i]))
    {
      VisitsSnoc(m.trace, Last(n), IncrementId(specs[i]));
    }
  }

  lemma VisitKeepsWithinTurns(wf: Workflow, specs: seq<LoopSpec>, m: Machine, n: Machine, d: Dispatched)
    requires Visited(m, n, d) && WithinTurns(specs, m) && PointerSound(wf, specs, m)
    ensures WithinTurns(specs, n)
  {
    forall i | 0 <= i < |specs|
      ensures Visits(n.trace, IncrementId(specs[i])) <= Turns(specs[i])
    {
      VisitsSnoc(m.trace, Last(n), IncrementId(specs[i]));
    }
  }

  lemma VisitKeepsPointer(wf: Workflow, specs: seq<LoopSpec>, m: Machine, n: Machine, d: Dispatched)
    requires LoopWorkflow(wf, specs) && OnlyGuardsEnter(wf.schema, specs) && Visited(m, n, d)
    requires CountersAgree(specs, m) && PointerSound(wf, specs, m) && CountersAgree(specs, n) && WithinTurns(specs, n)
    requires m.status.at in wf.registry && RouteStep(wf, specs, m.status.at, d)
    requires !d.failed ==> Last(n).next == Successor(wf, wf.registry[m.status.at], m.status.at, d.after)
    ensures PointerSound(wf, specs, n)
  {
    var x, at := m.status.at, Pointer(n.status);
    if at.Some? {
      var y := at.value;
      assert y in wf.schema.nodes[x].connections;
      forall i | 0 <= i < |specs| && y == IncrementId(specs[i])
        ensures Visits(n.trace, y) < Turns(specs[i]) && Last(n).identity == GuardId(specs[i])
      {
        assert Edge(Validation.DeclaredGraph(wf.schema), x, y);
        assert x == GuardId(specs[i]);
        assert Last(n).next == RouteGuard(specs[i], d.after);
        SameOutputsSameCounts(n.ctx, d.after);
        ContinuingMeansTurnsLeft(specs[i], d.after);
      }
    }
  }

  lemma VisitKeepsHistory(wf: Workflow, specs: seq<LoopSpec>, m: Machine, n: Machine, d: Dispatched)
    requires DistinctPrefixes(specs) && Visited(m, n, d)
    requires CountersAgree(specs, m) && PointerSound(wf, specs, m) && HistorySound(specs, m.trace)
    requires m.status.at in wf.registry && m.status.at in wf.schema.nodes && RouteStep(wf, specs, m.status.at, d)
    requires CountersStep(specs, m.status.at, m.ctx, d.after)
    requires !d.failed ==> Last(n).next == Successor(wf, wf.registry[m.status.at], m.status.at, d.after)
    ensures HistorySound(specs, n.trace)
  {
    var earlier := m.trace;
    assert n.trace == earlier + [Last(n)];
    forall p, q | 0 <= p && q == p + 1 && q < |n.trace|
      ensures n.trace[p].next == Some(n.trace[q].identity)
    {
      if q < |earlier| {
        assert earlier[p].next == Some(earlier[q].identity);
      }
    }
    forall p, i | 0 <= p < |n.trace| && 0 <= i < |specs| && n.trace[p].identity == GuardId(specs[i])
      ensures GuardChose(specs[i], n.trace, p)
    {
      assert n.trace[..p] == earlier[..p];
      if p < |earlier| {
        assert GuardChose(specs[i], earlier, p);
      } else {
        assert earlier[..p] == earlier;
        NotAnIncrement(specs, i);
      }
    }
    forall p, i | 0 <= p < |n.trace| && 0 <= i < |specs| && n.trace[p].identity == IncrementId(specs[i])
      ensures p > 0 && n.trace[p - 1].identity == GuardId(specs[i])
    {
      if p < |earlier| {
        assert earlier[p].identity == IncrementId(specs[i]);
      }
    }
  }

  // ----- Every run -----

  /** Nothing ran: outputs and history are as before, and the pointer stands where it stood, if anywhere. */
  predicate Kept(m: Machine, n: Machine) {
    n.trace == m.trace && n.ctx.nodes == m.ctx.nodes && (Pointer(n.status).Some? ==> Pointer(n.status) == Pointer(m.status))
  }

  /** One node ran, by the rules for its kind. */
  ghost predicate Moved(wf: Workflow, specs: seq<LoopSpec>, m: Machine, n: Machine, d: Dispatched) {
    && Visited(m, n, d) && m.status.at in wf.registry && m.status.at in wf.schema.nodes
    && LoopStep(wf, specs, m.status.at, m.ctx, d)
    && (!d.failed ==> Last(n).next == Successor(wf, wf.registry[m.status.at], m.status.at, d.after))
  }

  ghost function Ran(wf: Workflow, w: World, m: Machine, e: Event): Dispatched
    requires e.Tick? && m.status.AtNode? && m.status.at in wf.registry
  {
    Dispatch(wf.registry[m.status.at], m.ctx, w, e.uuid)
  }

  ghost predicate Moves(wf: Workflow, w: World, m: Machine, e: Event) {
    && e.Tick? && m.status.AtNode? && m.status.at in wf.registry
    && !Stopped(m, Advance(wf, w, m, e))
  }

  lemma StopKeeps(wf: Workflow, w: World, m: Machine, e: Event)
    requires e.Tick? && m.status.AtNode?
    requires Stopped(m, Advance(wf, w, m, e)) || m.status.at !in wf.registry
    ensures Kept(m, Advance(wf, w, m, e))
  {
    var n := Advance(wf, w, m, e);
    assert n.ctx.nodes == m.ctx.nodes && n.trace == m.trace;
    assert Pointer(n.status).Some? ==> n.status == Suspended(m.status.at);
  }

  lemma DispatchMoves(wf: Workflow, specs: seq<LoopSpec>, w: World, m: Machine, e: Event)
    requires LoopWorkflow(wf, specs) && BaseNamesFree(m.ctx) && Moves(wf, w, m, e) && m.status.at in wf.schema.nodes
    ensures Moved(wf, specs, m, Advance(wf, w, m, e), Ran(wf, w, m, e))
  {
    PassOutline(wf, w, m, e);
    LoopDispatch(wf, specs, m.status.at, m.ctx, w, e.uuid);
    VisitLeadsToSuccessor(wf, w, m, e);
  }

  lemma EventKeepsOrMoves(wf: Workflow, specs: seq<LoopSpec>, w: World, m: Machine, e: Event)
    requires LoopWorkflow(wf, specs) && Invariant(wf, w, m) && BaseNamesFree(m.ctx)
    requires m.status.AtNode? ==> m.status.at in wf.schema.nodes
    ensures var n := Advance(wf, w, m, e);
            if Moves(wf, w, m, e) then Moved(wf, specs, m, n, Ran(wf, w, m, e)) else Kept(m, n)
  {
    if Moves(wf, w, m, e) {
      DispatchMoves(wf, specs, w, m, e);
    } else if e.Tick? && m.status.AtNode? {
      StopKeeps(wf, w, m, e);
    } else if e.Continue? && m.status.Suspended? {
      ResumeChangesOnlyTheMarker(wf, w, m);
    }
  }

  lemma MoveKeepsLoopInvariant(wf: Workflow, specs: seq<LoopSpec>, m: Machine, n: Machine, d: Dispatched)
    requires LoopWorkflow(wf, specs) && OnlyGuardsEnter(wf.schema, specs)
    requires Moved(wf, specs, m, n, d) && LoopInvariant(wf, specs, m)
    ensures LoopInvariant(wf, specs, n)
  {
    VisitKeepsCounters(specs, m, n, d);
    VisitKeepsWithinTurns(wf, specs, m, n, d);
    VisitKeepsPointer(wf, specs, m, n, d);
    VisitKeepsHistory(wf, specs, m, n, d);
  }

  lemma KeptKeepsCounters(specs: seq<LoopSpec>, m: Machine, n: Machine)
    requires Kept(m, n) && CountersAgree(specs, m)
    ensures CountersAgree(specs, n)
  {
    SameOutputsSameCounts(m.ctx, n.ctx);
  }

  lemma {:induction false} LoopInvariantIsKept(wf: Workflow, specs: seq<LoopSpec>, w: World, event: Value, events: seq<Event>)
    requires LoopWorkflow(wf, specs) && OnlyGuardsEnter(wf.schema, specs)
    ensures LoopInvariant(wf, specs, Exec(wf, w, Begin(wf, w, event), events))
    decreases |events|
  {
    var m0 := Begin(wf, w, event);
    if events == [] {
      BeginIsLoopSound(wf, specs, w, event);
    } else {
      var init, e := events[..|events| - 1], events[|events| - 1];
      LoopInvariantIsKept(wf, specs, w, event, init);
      LoopRegistryIsFramed(wf, specs);
      EveryRunKeepsInvariant(wf, w, event, init);
      var m := Exec(wf, w, m0, init);
      EventKeepsOrMoves(wf, specs, w, m, e);
      if Moves(wf, w, m, e) {
        MoveKeepsLoopInvariant(wf, specs, m, Advance(wf, w, m, e), Ran(wf, w, m, e));
      } else {
        KeptKeepsCounters(specs, m, Advance(wf, w, m, e));
      }
    }
  }

  lemma NoVisitsYet(wf: Workflow, specs: seq<LoopSpec>, m: Machine)
    requires m.trace == [] && m.ctx.nodes == wf.seeded
    requires GuardBase !in wf.seeded && IncrementBase !in wf.seeded
    requires forall i :: 0 <= i < |specs| ==> IncrementId(specs[i]) !in wf.seeded
    ensures CountersAgree(specs, m) && WithinTurns(specs, m) && HistorySound(specs, m.trace)
  {
  }

  lemma BeginIsLoopSound(wf: Workflow, specs: seq<LoopSpec>, w: World, event: Value)
    requires LoopWorkflow(wf, specs) && OnlyGuardsEnter(wf.schema, specs)
    ensures LoopInvariant(wf, specs, Begin(wf, w, event))
  {
    var m := Begin(wf, w, event);
    NoVisitsYet(wf, specs, m);
    AtStart(wf, specs, m);
  }

  lemma AtStart(wf: Workflow, specs: seq<LoopSpec>, m: Machine)
    requires m.trace == [] && m.status == AtNode(wf.schema.startNode) && TargetsDeclared(wf.schema)
    requires forall i :: 0 <= i < |specs| ==> wf.schema.startNode != IncrementId(specs[i])
    ensures PointerSound(wf, specs, m)
  {
  }

  // ----- Exact counts -----

  /** No guard visit of this cluster before position `n` left the loop. */
  ghost predicate StillLooping(spec: LoopSpec, trace: seq<Visit>, n: nat)
    requires n <= |trace|
  {
    forall q :: 0 <= q < n && trace[q].identity == GuardId(spec) ==> trace[q].next == Some(IncrementId(spec))
  }

  /** Until the loop is left, every guard visit but a pending last one has been followed by one increment. */
  lemma {:induction false} GuardsMatchIncrements(specs: seq<LoopSpec>, i: nat, trace: seq<Visit>, n: nat)
    requires DistinctPrefixes(specs) && i < |specs| && HistorySound(specs, trace)
    requires n <= |trace| && StillLooping(specs[i], trace, n)
    ensures Visits(trace[..n], GuardId(specs[i])) ==
            Visits(trace[..n], IncrementId(specs[i])) + (if n > 0 && trace[n - 1].identity == GuardId(specs[i]) then 1 else 0)
  {
    if n > 0 {
      var guard, inc := GuardId(specs[i]), IncrementId(specs[i]);
      NotAnIncrement(specs, i);
      GuardsMatchIncrements(specs, i, trace, n - 1);
      assert trace[..n] == trace[..n - 1] + [trace[n - 1]];
      VisitsSnoc(trace[..n - 1], trace[n - 1], guard);
      VisitsSnoc(trace[..n - 1], trace[n - 1], inc);
      if n > 1 {
        assert trace[n - 2].next == Some(trace[n - 1].identity);
      }
    }
  }

  /**
   * First entry: while the loop has not been left, the k-th guard visit finds the counter at k - 1 and
   * leaves exactly when k reaches the bound or the predicate holds there.  So the body, each pass of
   * which ends in one guard visit, runs exactly k times for the least such k >= 1.
   */
  lemma {:induction false} FirstEntryRunsExactly(wf: Workflow, specs: seq<LoopSpec>, w: World, event: Value, events: seq<Event>, i: nat, p: nat)
    requires LoopWorkflow(wf, specs) && OnlyGuardsEnter(wf.schema, specs) && i < |specs|
    requires var trace := Exec(wf, w, Begin(wf, w, event), events).trace;
             p < |trace| && trace[p].identity == GuardId(specs[i]) && StillLooping(specs[i], trace, p)
    ensures var trace := Exec(wf, w, Begin(wf, w, event), events).trace;
            var spec, k := specs[i], Visits(trace[..p + 1], GuardId(specs[i]));
            && k >= 1
            && Iterations(trace[p].after, IncrementId(spec)) == k - 1
            && Visits(trace[..p], IncrementId(spec)) == k - 1
            && (trace[p].next == Some(spec.exitTo) <==> k >= spec.maxIterations || spec.exitPredicate(trace[p].after))
            && (trace[p].next != Some(spec.exitTo) ==> trace[p].next == Some(IncrementId(spec)))
  {
    LoopInvariantIsKept(wf, specs, w, event, events);
    var m := Exec(wf, w, Begin(wf, w, event), events);
    ExactCount(specs, i, m.trace, p);
    VisitsGrow(m.trace, p, IncrementId(specs[i]));
    assert specs[i].exitTo != IncrementId(specs[i]);
    ContinuingMeansTurnsLeft(specs[i], m.trace[p].after);
  }

  lemma ExactCount(specs: seq<LoopSpec>, i: nat, trace: seq<Visit>, p: nat)
    requires DistinctPrefixes(specs) && i < |specs| && HistorySound(specs, trace)
    requires p < |trace| && trace[p].identity == GuardId(specs[i]) && StillLooping(specs[i], trace, p)
    ensures var k := Visits(trace[..p + 1], GuardId(specs[i]));
            k == Visits(trace[..p], IncrementId(specs[i])) + 1 && GuardChose(specs[i], trace, p)
  {
    NotAnIncrement(specs, i);
    GuardsMatchIncrements(specs, i, trace, p);
    assert trace[..p + 1] == trace[..p] + [trace[p]];
    VisitsSnoc(trace[..p], trace[p], GuardId(specs[i]));
    if p > 0 {
      assert trace[p - 1].next == Some(trace[p].identity);
    }
  }

  lemma {:induction false} VisitsGrow(trace: seq<Visit>, p: nat, k: Id)
    requires p <= |trace|
    ensures Visits(trace[..p], k) <= Visits(trace, k)
    decreases |trace| - p
  {
    if p < |trace| {
      assert trace[..p + 1] == trace[..p] + [trace[p]];
      VisitsSnoc(trace[..p], trace[p], k);
      VisitsGrow(trace, p + 1, k);
    } else {
      assert trace[..p] == trace;
    }
  }

  /** Over a whole run, however often a loop is re-entered, it turns at most bound - 1 times in all. */
  lemma {:induction false} TurnsNeverExceedBound(wf: Workflow, specs: seq<LoopSpec>, w: World, event: Value, events: seq<Event>, i: nat)
    requires LoopWorkflow(wf, specs) && OnlyGuardsEnter(wf.schema, specs) && i < |specs|
    ensures var m := Exec(wf, w, Begin(wf, w, event), events);
            Iterations(m.ctx, IncrementId(specs[i])) == Visits(m.trace, IncrementId(specs[i])) <= Turns(specs[i])
  {
    LoopInvariantIsKept(wf, specs, w, event, events);
  }

  /**
   * What a guard does with any stored count, wrapped or not: it reads the count in 32 bits, adds the body run
   * in flight, and leaves at the bound or on the predicate.
   */
  lemma GuardReadsThirtyTwoBits(spec: LoopSpec, c: Context)
    requires spec.maxIterations < 0x1_0000_0000
    ensures var stored := Iterations(c, IncrementId(spec));
            if stored % 0x1_0000_0000 + 1 >= spec.maxIterations || spec.exitPredicate(c)
            then RouteGuard(spec, c) == Some(spec.exitTo)
            else RouteGuard(spec, c) == Some(IncrementId(spec))
    ensures forall n :: n >= 0 && IncrementId(spec) in c.nodes && c.nodes[IncrementId(spec)] == Obj(map["iterations" := Int(n)]) ==>
              Iterations(c, IncrementId(spec)) == n
    ensures IncrementId(spec) !in c.nodes ==> Iterations(c, IncrementId(spec)) == 0
  {
  }
}
