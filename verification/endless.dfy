/**
 * The other half: when the cut graph of a loop workflow has a cycle, exit predicates can be chosen under
 * which an undisturbed run of idle nodes never ends.  So the cut graph decides halting exactly.
 */
module EndlessLoops {
  import opened Json
  import opened Contexts
  import opened Budgets
  import opened Suspensions
  import opened Orders
  import opened Graphs
  import opened Nodes
  import opened Schemas
  import opened TaskContexts
  import opened Workflows
  import opened Runs
  import opened LinearRuns
  import opened Loops
  import opened LoopRuns
  import opened LoopHalting
  import opened LoopPotential
  import Validation

  // ----- The same workflow with other predicates and other ordinary nodes -----

  ghost predicate SameLoops(specs: seq<LoopSpec>, other: seq<LoopSpec>) {
    && |specs| == |other|
    && forall i :: 0 <= i < |specs| ==> other[i] == specs[i].(exitPredicate := other[i].exitPredicate)
  }

  /** Same schema, same loops up to their predicates, nodes registered under the same names. */
  ghost predicate Variation(wf: Workflow, specs: seq<LoopSpec>, wf2: Workflow, specs2: seq<LoopSpec>) {
    && LoopWorkflow(wf2, specs2) && SameLoops(specs, specs2)
    && wf2.schema == wf.schema && wf2.registry.Keys == wf.registry.Keys
  }

  ghost predicate HaltsWithin(wf: Workflow, bound: nat) {
    forall w: World, event: Value, ticks: seq<Event> :: (forall e :: e in ticks ==> e.Tick?) && |ticks| > bound ==>
      !Exec(wf, w, Begin(wf, w, event), ticks).status.AtNode?
  }

  lemma {:induction false} SameLoopAt(specs: seq<LoopSpec>, other: seq<LoopSpec>, u: Id)
    requires SameLoops(specs, other)
    ensures match LoopAt(specs, u)
            case None => LoopAt(other, u).None?
            case Some(a) => LoopAt(other, u).Some? && LoopAt(other, u).value == a.(exitPredicate := LoopAt(other, u).value.exitPredicate)
  {
    if specs != [] {
      var init, rest := specs[..|specs| - 1], other[..|other| - 1];
      assert forall i :: 0 <= i < |init| ==> init[i] == specs[i] && rest[i] == other[i];
      SameLoopAt(init, rest, u);
    }
  }

  lemma SameGraphs(specs: seq<LoopSpec>, other: seq<LoopSpec>, schema: Schema)
    requires SameLoops(specs, other)
    ensures LiveGraph(specs, schema) == LiveGraph(other, schema)
    ensures CutGraph(specs, schema) == CutGraph(other, schema)
  {
    forall u | u in schema.nodes
      ensures LiveConnections(specs, schema, u) == LiveConnections(other, schema, u)
      ensures CutConnections(specs, schema, u) == CutConnections(other, schema, u)
    {
      SameLoopAt(specs, other, u);
    }
    assert LiveGraph(specs, schema) == LiveGraph(other, schema);
  }

  // ----- Building the variation -----

  /** Guards in `leave` always leave their loop, the others never do. */
  ghost function Choosing(specs: seq<LoopSpec>, leave: set<Id>): seq<LoopSpec> {
    seq(|specs|, i requires 0 <= i < |specs| => specs[i].(exitPredicate := Always(GuardId(specs[i]) in leave)))
  }

  function Always(answer: bool): Context -> bool { (c: Context) => answer }

  function Idle(k: Id): Node { Node(k, (c: Context) => Done(c), None) }

  ghost function Stand(specs: seq<LoopSpec>, k: Id): Node {
    if IsGuard(specs, k) then var i :| 0 <= i < |specs| && GuardId(specs[i]) == k; GuardNode(specs[i])
    else if IsIncrement(specs, k) then var i :| 0 <= i < |specs| && IncrementId(specs[i]) == k; IncrementNode(specs[i])
    else Idle(k)
  }

  ghost function Rewired(wf: Workflow, specs: seq<LoopSpec>): Workflow {
    wf.(registry := map k | k in wf.registry :: Stand(specs, k))
  }

  lemma SameIds(specs: seq<LoopSpec>, other: seq<LoopSpec>)
    requires SameLoops(specs, other)
    ensures forall i :: 0 <= i < |specs| ==> GuardId(other[i]) == GuardId(specs[i]) && IncrementId(other[i]) == IncrementId(specs[i])
    ensures DistinctPrefixes(specs) ==> DistinctPrefixes(other)
    ensures forall k :: (IsGuard(specs, k) <==> IsGuard(other, k)) && (IsIncrement(specs, k) <==> IsIncrement(other, k))
  {
    assert forall i :: 0 <= i < |specs| ==> GuardId(other[i]) == GuardId(specs[i]) && IncrementId(other[i]) == IncrementId(specs[i]);
  }

  lemma StandsInstalled(wf: Workflow, specs: seq<LoopSpec>, other: seq<LoopSpec>, i: nat)
    requires DistinctPrefixes(other) && SameLoops(specs, other) && i < |specs| && Installed(wf, specs[i])
    ensures Installed(Rewired(wf, other), other[i])
  {
    NotAnIncrement(other, i);
    InstalledNodes(wf, specs[i]);
    SameIds(specs, other);
    assert IsGuard(other, GuardId(other[i])) && IsIncrement(other, IncrementId(other[i]));
    assert Stand(other, GuardId(other[i])) == GuardNode(other[i]);
    assert Stand(other, IncrementId(other[i])) == IncrementNode(other[i]);
    assert BuildLoop(other[i]).connections == BuildLoop(specs[i]).connections;
  }

  lemma StandFits(specs: seq<LoopSpec>, k: Id)
    ensures Stand(specs, k).name == k && Cooperative(Stand(specs, k))
  {
    if IsGuard(specs, k) {
      var i :| 0 <= i < |specs| && GuardId(specs[i]) == k && Stand(specs, k) == GuardNode(specs[i]);
    } else if IsIncrement(specs, k) {
      var i :| 0 <= i < |specs| && IncrementId(specs[i]) == k && Stand(specs, k) == IncrementNode(specs[i]);
    }
  }

  lemma StandsFit(wf: Workflow, specs: seq<LoopSpec>)
    ensures KeyedByName(Rewired(wf, specs).registry)
    ensures forall k :: k in wf.registry ==> Cooperative(Rewired(wf, specs).registry[k])
  {
    forall k | k in wf.registry
      ensures Stand(specs, k).name == k && Cooperative(Stand(specs, k))
    {
      StandFits(specs, k);
    }
  }

  lemma IdleIsOrdinary(k: Id)
    requires k != GuardBase && k != IncrementBase
    ensures Ordinary(Idle(k))
  {
  }

  lemma RewiredIsVariation(wf: Workflow, specs: seq<LoopSpec>, other: seq<LoopSpec>)
    requires LoopWorkflow(wf, specs) && SameLoops(specs, other)
    ensures Variation(wf, specs, Rewired(wf, other), other)
  {
    SameIds(specs, other);
    StandsFit(wf, other);
    var wf2 := Rewired(wf, other);
    forall i | 0 <= i < |other|
      ensures other[i].maxIterations < U32 && Installed(wf2, other[i]) && IncrementId(other[i]) !in wf2.seeded
    {
      StandsInstalled(wf, specs, other, i);
    }
    forall k | k in wf2.registry && !IsGuard(other, k) && !IsIncrement(other, k)
      ensures Ordinary(wf2.registry[k])
    {
      assert Ordinary(wf.registry[k]) && wf.registry[k].name == k;
      IdleIsOrdinary(k);
    }
  }

  // ----- A run that goes in and never comes out -----

  ghost predicate Leaves(spec: LoopSpec) { forall c :: spec.exitPredicate(c) }

  ghost predicate Stays(spec: LoopSpec) { forall c :: !spec.exitPredicate(c) }

  ghost predicate GoesOn(specs: seq<LoopSpec>, schema: Schema, core: set<Id>, u: Id) {
    exists v :: v in core && v in CutConnections(specs, schema, u)
  }

  /** A simple live path into a core every node of which goes on inside it when guards leave their loops. */
  ghost predicate Lasso(specs: seq<LoopSpec>, schema: Schema, path: seq<Id>, core: set<Id>) {
    && IsWalk(LiveGraph(specs, schema), path) && path[0] == schema.startNode && Distinct(path)
    && path[|path| - 1] in core && (forall i :: 0 <= i < |path| - 1 ==> path[i] !in core)
    && core <= schema.nodes.Keys
    && forall u {:trigger GoesOn(specs, schema, core, u)} :: u in core ==> GoesOn(specs, schema, core, u)
  }

  /** The predicates drive every guard along the path, and keep those in the core leaving. */
  ghost predicate Drives(specs: seq<LoopSpec>, path: seq<Id>, core: set<Id>) {
    && (forall u :: u in core && LoopAt(specs, u).Some? ==> Leaves(LoopAt(specs, u).value))
    && forall j, k :: 0 <= j && k == j + 1 && k < |path| && LoopAt(specs, path[j]).Some? ==>
         if path[k] == LoopAt(specs, path[j]).value.exitTo then Leaves(LoopAt(specs, path[j]).value)
         else Stays(LoopAt(specs, path[j]).value)
  }

  /** A guard goes by its rule, any other node down its first connection. */
  ghost predicate GoesBy(specs: seq<LoopSpec>, schema: Schema, at: Id, after: Context, next: Option<Id>) {
    match LoopAt(specs, at)
    case Some(spec) => next == RouteGuard(spec, after)
    case None => next == NextAfter(schema, at)
  }

  lemma RouteGoesBy(wf: Workflow, specs: seq<LoopSpec>, at: Id, d: Dispatched)
    requires LoopWorkflow(wf, specs) && at in wf.registry && at in wf.schema.nodes && !d.failed && RouteStep(wf, specs, at, d)
    ensures GoesBy(specs, wf.schema, at, d.after, Successor(wf, wf.registry[at], at, d.after))
  {
    LoopAtIs(specs, at);
    if !IsGuard(specs, at) {
      OthersGoAhead(wf, specs, at, d);
    }
  }

  ghost predicate OnLasso(specs: seq<LoopSpec>, path: seq<Id>, core: set<Id>, m: Machine) {
    && m.status.AtNode? && CountersAgree(specs, m)
    && (|m.trace| + 1 >= |path| ==> m.status.at in core)
    && (|m.trace| < |path| ==> m.status.at == path[|m.trace|])
    && (|m.trace| < |path| ==> forall j :: 0 <= j < |m.trace| ==> m.trace[j].identity == path[j])
  }

  lemma {:induction false} NotYetVisited(trace: seq<Visit>, k: Id)
    requires forall j :: 0 <= j < |trace| ==> trace[j].identity != k
    ensures Visits(trace, k) == 0
  {
    if trace != [] {
      NotYetVisited(trace[..|trace| - 1], k);
    }
  }

  /** In the core a guard leaves, so any node leads to another node of the core. */
  lemma CoreStaysInside(specs: seq<LoopSpec>, schema: Schema, path: seq<Id>, core: set<Id>, at: Id, after: Context, next: Option<Id>)
    requires Lasso(specs, schema, path, core) && Drives(specs, path, core)
    requires at in core && GoesBy(specs, schema, at, after, next)
    ensures next.Some? && next.value in core
  {
    assert GoesOn(specs, schema, core, at);
    if LoopAt(specs, at).Some? {
      assert Leaves(LoopAt(specs, at).value);
    }
  }

  /** On the path every node leads to the next one: a guard that must continue finds its counter at zero. */
  lemma {:induction false} PathLeadsOn(specs: seq<LoopSpec>, schema: Schema, path: seq<Id>, core: set<Id>, n: nat, after: Context, next: Option<Id>)
    requires Lasso(specs, schema, path, core) && Drives(specs, path, core)
    requires n + 1 < |path| && GoesBy(specs, schema, path[n], after, next)
    requires LoopAt(specs, path[n]).Some? && IncrementId(LoopAt(specs, path[n]).value) == path[n + 1] ==>
               Iterations(after, path[n + 1]) == 0
    ensures next == Some(path[n + 1])
  {
    var k := n + 1;
    assert Edge(LiveGraph(specs, schema), path[n], path[k]);
    if LoopAt(specs, path[n]).Some? {
      var spec := LoopAt(specs, path[n]).value;
      assert if path[k] == spec.exitTo then Leaves(spec) else Stays(spec);
    }
  }

  lemma {:induction false} CounterStillZero(specs: seq<LoopSpec>, u: Id, at: Id, m: Machine, after: Context)
    requires CountersAgree(specs, m) && CountersStep(specs, at, m.ctx, after)
    requires LoopAt(specs, u).Some?
    requires var k := IncrementId(LoopAt(specs, u).value); at != k && forall j :: 0 <= j < |m.trace| ==> m.trace[j].identity != k
    ensures Iterations(after, IncrementId(LoopAt(specs, u).value)) == 0
  {
    LoopAtIs(specs, u);
    var i :| 0 <= i < |specs| && specs[i] == LoopAt(specs, u).value;
    NotYetVisited(m.trace, IncrementId(specs[i]));
  }

  lemma MoveStaysOnLasso(wf: Workflow, specs: seq<LoopSpec>, path: seq<Id>, core: set<Id>, m: Machine, n: Machine, d: Dispatched)
    requires Lasso(specs, wf.schema, path, core) && Drives(specs, path, core)
    requires OnLasso(specs, path, core, m) && Visited(m, n, d)
    requires CountersStep(specs, m.status.at, m.ctx, d.after) && BaseNamesFree(d.after)
    requires GoesBy(specs, wf.schema, m.status.at, d.after, Last(n).next)
    requires n.status == (if Last(n).next.Some? then AtNode(Last(n).next.value) else Completed)
    ensures OnLasso(specs, path, core, n)
  {
    var done := |m.trace|;
    VisitKeepsCounters(specs, m, n, d);
    if done + 1 < |path| {
      if LoopAt(specs, path[done]).Some? && IncrementId(LoopAt(specs, path[done]).value) == path[done + 1] {
        CounterStillZero(specs, path[done], path[done], m, d.after);
      }
      PathLeadsOn(specs, wf.schema, path, core, done, d.after, Last(n).next);
    } else {
      CoreStaysInside(specs, wf.schema, path, core, m.status.at, d.after, Last(n).next);
    }
  }

  lemma QuietStep(wf: Workflow, specs: seq<LoopSpec>, path: seq<Id>, core: set<Id>, w: World, m: Machine, e: Event)
    requires LoopWorkflow(wf, specs) && AllRegistered(wf) && AllCooperative(wf) && FramedRegistry(wf.registry)
    requires Lasso(specs, wf.schema, path, core) && Drives(specs, path, core)
    requires w.budget.None? && e.Tick? && !e.cancelled && !e.paused && MarkersMatch(m)
    requires OnLasso(specs, path, core, m)
    ensures OnLasso(specs, path, core, Advance(wf, w, m, e))
  {
    LassoIsDeclared(specs, wf.schema, path, core, m);
    QuietPass(wf, w, m, e);
    var n, d := Advance(wf, w, m, e), Ran(wf, w, m, e);
    QuietMoves(m, n, d);
    DispatchMoves(wf, specs, w, m, e);
    RouteGoesBy(wf, specs, m.status.at, d);
    MoveStaysOnLasso(wf, specs, path, core, m, n, d);
  }

  lemma LassoIsDeclared(specs: seq<LoopSpec>, schema: Schema, path: seq<Id>, core: set<Id>, m: Machine)
    requires Lasso(specs, schema, path, core) && OnLasso(specs, path, core, m)
    ensures m.status.at in schema.nodes
  {
    var j := |m.trace|;
    var k := j + 1;
    if k < |path| {
      assert Edge(LiveGraph(specs, schema), path[j], path[k]);
    }
  }

  ghost predicate AllRegistered(wf: Workflow) { forall k :: k in wf.schema.nodes ==> k in wf.registry }

  ghost predicate AllCooperative(wf: Workflow) { forall k :: k in wf.registry ==> Cooperative(wf.registry[k]) }

  lemma {:induction false} QuietRunStaysOnLasso(
      wf: Workflow, specs: seq<LoopSpec>, path: seq<Id>, core: set<Id>, w: World, event: Value, events: seq<Event>)
    requires LoopWorkflow(wf, specs) && AllRegistered(wf) && AllCooperative(wf) && FramedRegistry(wf.registry)
    requires Lasso(specs, wf.schema, path, core) && Drives(specs, path, core)
    requires w.budget.None? && Quiet(events)
    ensures OnLasso(specs, path, core, Exec(wf, w, Begin(wf, w, event), events))
    decreases |events|
  {
    var m0 := Begin(wf, w, event);
    if events == [] {
      BeginsOnLasso(wf, specs, path, core, m0);
    } else {
      var init, e := events[..|events| - 1], events[|events| - 1];
      QuietRunStaysOnLasso(wf, specs, path, core, w, event, init);
      EveryRunKeepsMarkers(wf, w, event, init);
      var m := Exec(wf, w, m0, init);
      QuietStep(wf, specs, path, core, w, m, e);
      assert Exec(wf, w, m0, events) == Advance(wf, w, m, e);
    }
  }

  lemma BeginsOnLasso(wf: Workflow, specs: seq<LoopSpec>, path: seq<Id>, core: set<Id>, m: Machine)
    requires LoopWorkflow(wf, specs) && Lasso(specs, wf.schema, path, core)
    requires m.trace == [] && m.ctx.nodes == wf.seeded && m.status == AtNode(wf.schema.startNode)
    ensures OnLasso(specs, path, core, m)
  {
    NoVisitsYet(wf, specs, m);
  }

  lemma QuietMoves(m: Machine, n: Machine, d: Dispatched)
    requires Visited(m, n, d)
    ensures !Stopped(m, n)
  {
  }

  // ----- The choice of predicates -----

  lemma CycleMakesCore(specs: seq<LoopSpec>, schema: Schema, p: seq<Id>, core: set<Id>, u: Id)
    requires IsCycle(CutGraph(specs, schema), p) && u in p && forall v :: v in p ==> v in core
    ensures u in schema.nodes && IsLive(specs, schema, u) && GoesOn(specs, schema, core, u)
  {
    CycleKeepsGoing(CutGraph(specs, schema), p, u);
    var v :| v in p && Edge(CutGraph(specs, schema), u, v);
  }

  lemma FindLasso(specs: seq<LoopSpec>, schema: Schema) returns (path: seq<Id>, core: set<Id>)
    requires Cyclic(CutGraph(specs, schema))
    ensures Lasso(specs, schema, path, core)
  {
    var p :| IsCycle(CutGraph(specs, schema), p);
    core := set u | u in p;
    forall u {:trigger GoesOn(specs, schema, core, u)} | u in core
      ensures GoesOn(specs, schema, core, u)
    {
      CycleMakesCore(specs, schema, p, core, u);
    }
    forall u | u in core
      ensures u in schema.nodes
    {
      CycleMakesCore(specs, schema, p, core, u);
    }
    CycleMakesCore(specs, schema, p, core, p[0]);
    var q :| WalkFromTo(LiveGraph(specs, schema), schema.startNode, p[0], q);
    path := LeadIn(LiveGraph(specs, schema), core, q);
  }

  lemma SameLasso(specs: seq<LoopSpec>, other: seq<LoopSpec>, schema: Schema, path: seq<Id>, core: set<Id>)
    requires SameLoops(specs, other) && Lasso(specs, schema, path, core)
    ensures Lasso(other, schema, path, core)
  {
    SameGraphs(specs, other, schema);
    forall u | u in core
      ensures GoesOn(other, schema, core, u)
    {
      assert GoesOn(specs, schema, core, u);
      SameLoopAt(specs, other, u);
    }
  }

  /** Leave at every guard of the core, and wherever the path itself takes the way out. */
  ghost function LeavingAt(specs: seq<LoopSpec>, path: seq<Id>, core: set<Id>): set<Id> {
    core + set j, k | 0 <= j < |path| && k == j + 1 && k < |path|
                      && LoopAt(specs, path[j]).Some? && LoopAt(specs, path[j]).value.exitTo == path[k] :: path[j]
  }

  lemma ChoiceDrives(specs: seq<LoopSpec>, schema: Schema, path: seq<Id>, core: set<Id>)
    requires Lasso(specs, schema, path, core)
    ensures SameLoops(specs, Choosing(specs, LeavingAt(specs, path, core)))
    ensures Drives(Choosing(specs, LeavingAt(specs, path, core)), path, core)
  {
    var leave := LeavingAt(specs, path, core);
    var other := Choosing(specs, leave);
    forall u | LoopAt(other, u).Some?
      ensures if u in leave then Leaves(LoopAt(other, u).value) else Stays(LoopAt(other, u).value)
    {
      LoopAtIs(other, u);
    }
    forall j, k | 0 <= j && k == j + 1 && k < |path| && LoopAt(other, path[j]).Some?
      ensures path[j] in leave <==> path[k] == LoopAt(other, path[j]).value.exitTo
    {
      SameLoopAt(specs, other, path[j]);
    }
  }

  /** A cyclic cut graph: some predicates, with idle nodes, give a workflow whose undisturbed runs never stop. */
  lemma SomeVariationNeverHalts(wf: Workflow, specs: seq<LoopSpec>) returns (wf2: Workflow, specs2: seq<LoopSpec>)
    requires LoopWorkflow(wf, specs) && AllRegistered(wf) && Cyclic(CutGraph(specs, wf.schema))
    ensures Variation(wf, specs, wf2, specs2)
    ensures forall w: World, event, events :: w.budget.None? && Quiet(events) ==>
              Exec(wf2, w, Begin(wf2, w, event), events).status.AtNode?
  {
    var path, core := FindLasso(specs, wf.schema);
    ChoiceDrives(specs, wf.schema, path, core);
    specs2 := Choosing(specs, LeavingAt(specs, path, core));
    SameLasso(specs, specs2, wf.schema, path, core);
    wf2 := Rewired(wf, specs2);
    RewiredIsVariation(wf, specs, specs2);
    StandsFit(wf, specs2);
    LoopRegistryIsFramed(wf2, specs2);
    forall w: World, event, events | w.budget.None? && Quiet(events)
      ensures Exec(wf2, w, Begin(wf2, w, event), events).status.AtNode?
    {
      QuietRunStaysOnLasso(wf2, specs2, path, core, w, event, events);
    }
  }

  lemma HaltsByBound(wf: Workflow, specs: seq<LoopSpec>)
    requires LoopWorkflow(wf, specs) && !Cyclic(CutGraph(specs, wf.schema))
    ensures HaltsWithin(wf, WrapBound(wf, |specs|))
  {
    forall w: World, event: Value, ticks: seq<Event> | (forall e :: e in ticks ==> e.Tick?) && |ticks| > WrapBound(wf, |specs|)
      ensures !Exec(wf, w, Begin(wf, w, event), ticks).status.AtNode?
    {
      LoopWorkflowsHalt(wf, specs, w, event, ticks);
    }
  }

  lemma VariationHalts(wf: Workflow, specs: seq<LoopSpec>, wf2: Workflow, specs2: seq<LoopSpec>)
    requires !Cyclic(CutGraph(specs, wf.schema)) && Variation(wf, specs, wf2, specs2)
    ensures HaltsWithin(wf2, WrapBound(wf, |specs|))
  {
    SameGraphs(specs, specs2, wf.schema);
    HaltsByBound(wf2, specs2);
  }

  lemma {:induction false} RunningPastEveryBound(wf: Workflow, bound: nat)
    requires forall w: World, event, events :: w.budget.None? && Quiet(events) ==>
               Exec(wf, w, Begin(wf, w, event), events).status.AtNode?
    ensures !HaltsWithin(wf, bound)
  {
    var w := World(None, None, (v: Value) => 0, (c: Context) => Null);
    var ticks := seq(bound + 1, _ => Tick(false, false, 0));
    assert Quiet(ticks);
    assert Exec(wf, w, Begin(wf, w, Null), ticks).status.AtNode?;
  }

  /**
   * The cut graph decides: without a cycle every choice of predicates and of ordinary nodes halts, within
   * one bound; with a cycle some choice runs past every bound.
   */
  lemma CutGraphDecidesHalting(wf: Workflow, specs: seq<LoopSpec>)
    requires LoopWorkflow(wf, specs) && AllRegistered(wf)
    ensures !Cyclic(CutGraph(specs, wf.schema)) <==>
            forall wf2, specs2 :: Variation(wf, specs, wf2, specs2) ==> exists bound :: HaltsWithin(wf2, bound)
    ensures !Cyclic(CutGraph(specs, wf.schema)) ==>
            forall wf2, specs2 :: Variation(wf, specs, wf2, specs2) ==> HaltsWithin(wf2, WrapBound(wf, |specs|))
  {
    if Cyclic(CutGraph(specs, wf.schema)) {
      var wf2, specs2 := SomeVariationNeverHalts(wf, specs);
      forall bound: nat
        ensures !HaltsWithin(wf2, bound)
      {
        RunningPastEveryBound(wf2, bound);
      }
    } else {
      forall wf2, specs2 | Variation(wf, specs, wf2, specs2)
        ensures HaltsWithin(wf2, WrapBound(wf, |specs|))
      {
        VariationHalts(wf, specs, wf2, specs2);
      }
    }
  }

  // ----- The validator and the bound -----

  /** Declared edges, without those that go back from an increment to its body. */
  function ForwardGraph(specs: seq<LoopSpec>, schema: Schema): Graph {
    map u | u in schema.nodes && !IsIncrement(specs, u) :: schema.nodes[u].connections
  }

  /** The cycle check accepts clusters: what it walks are forward edges. */
  lemma AcyclicForwardPassesValidation(wf: Workflow, specs: seq<LoopSpec>)
    requires LoopWorkflow(wf, specs) && !Cyclic(ForwardGraph(specs, wf.schema))
    ensures !Cyclic(Validation.CheckedGraph(wf.registry, wf.schema))
  {
    forall u, v | Edge(Validation.CheckedGraph(wf.registry, wf.schema), u, v)
      ensures Edge(ForwardGraph(specs, wf.schema), u, v)
    {
      if i :| 0 <= i < |specs| && IncrementId(specs[i]) == u {
        InstalledNodes(wf, specs[i]);
      }
    }
    FewerEdgesFewerCycles(ForwardGraph(specs, wf.schema), Validation.CheckedGraph(wf.registry, wf.schema));
  }

  lemma {:induction false} GuardCutEdge(wf: Workflow, specs: seq<LoopSpec>, i: nat, u: Id, v: Id)
    requires DistinctPrefixes(specs) && i < |specs| && Installed(wf, specs[i])
    requires LoopAt(specs, u) == Some(specs[i]) && Edge(CutGraph(specs, wf.schema), u, v)
    ensures Edge(Validation.DeclaredGraph(wf.schema), u, v) && v == specs[i].exitTo && u == GuardId(specs[i])
  {
    LoopAtIs(specs, u);
    InstalledNodes(wf, specs[i]);
  }

  /** A cut edge is a declared one, and under `OnlyGuardsEnter` it leads into no increment. */
  lemma {:induction false} CutEdgeIsDeclared(wf: Workflow, specs: seq<LoopSpec>, u: Id, v: Id)
    requires LoopWorkflow(wf, specs) && Edge(CutGraph(specs, wf.schema), u, v)
    ensures Edge(Validation.DeclaredGraph(wf.schema), u, v)
    ensures LoopAt(specs, u).Some? ==> LoopAt(specs, u).value.exitTo == v && LoopAt(specs, u).value in specs
  {
    LoopAtIs(specs, u);
    if LoopAt(specs, u).Some? {
      var i :| 0 <= i < |specs| && specs[i] == LoopAt(specs, u).value;
      GuardCutEdge(wf, specs, i, u, v);
    }
  }

  lemma {:induction false} EntersNoIncrement(schema: Schema, specs: seq<LoopSpec>, u: Id, v: Id)
    requires DistinctPrefixes(specs) && OnlyGuardsEnter(schema, specs) && Edge(Validation.DeclaredGraph(schema), u, v)
    requires LoopAt(specs, u).Some? ==> LoopAt(specs, u).value.exitTo == v
    ensures !IsIncrement(specs, v)
  {
    if i :| 0 <= i < |specs| && IncrementId(specs[i]) == v {
      assert u == GuardId(specs[i]);
      LoopAtGuard(specs, i);
    }
  }

  /**
   * When increments are entered from their own guards only, acyclic forward edges are enough: a cycle of
   * the cut graph could meet no increment.
   */
  lemma AcyclicForwardSuffices(wf: Workflow, specs: seq<LoopSpec>)
    requires LoopWorkflow(wf, specs) && OnlyGuardsEnter(wf.schema, specs) && !Cyclic(ForwardGraph(specs, wf.schema))
    ensures !Cyclic(CutGraph(specs, wf.schema))
  {
    var cut, forward := CutGraph(specs, wf.schema), ForwardGraph(specs, wf.schema);
    forall u, v | Edge(cut, u, v)
      ensures !IsIncrement(specs, v) && (!IsIncrement(specs, u) ==> Edge(forward, u, v))
    {
      CutEdgeIsDeclared(wf, specs, u, v);
      EntersNoIncrement(wf.schema, specs, u, v);
    }
    CyclesAvoid(cut, forward, (k: Id) => IsIncrement(specs, k));
  }

  // ----- A loop whose body leads straight into its own increment -----

  function Shortcut(): LoopSpec { LoopSpec("L", 2, Always(false), "Body", "Exit") }

  function ShortcutSchema(): Schema {
    var g, n := GuardId(Shortcut()), IncrementId(Shortcut());
    Schema("shortcut", g, map[g := NodeConfig(g, [n, "Exit"]), n := NodeConfig(n, ["Body"]),
                              "Body" := NodeConfig("Body", [n]), "Exit" := NodeConfig("Exit", [])])
  }

  function ShortcutWorkflow(): Workflow {
    var g, n := GuardId(Shortcut()), IncrementId(Shortcut());
    Workflow(map[g := GuardNode(Shortcut()), n := IncrementNode(Shortcut()), "Body" := Idle("Body"), "Exit" := Idle("Exit")],
             ShortcutSchema(), map[])
  }

  lemma ShortcutNames()
    ensures var g, n := GuardId(Shortcut()), IncrementId(Shortcut());
            |{g, n, "Body", "Exit"}| == 4 && g != n && g !in {"Body", "Exit"} && n !in {"Body", "Exit"} && "Body" != "Exit"
  {
    var g, n := GuardId(Shortcut()), IncrementId(Shortcut());
    assert |g| == 6 && |n| == 10 && "Body"[0] != "Exit"[0];
    assert {g, n, "Body", "Exit"} == {g} + {n} + {"Body"} + {"Exit"};
  }

  lemma ShortcutInstalled()
    ensures Installed(ShortcutWorkflow(), Shortcut())
  {
    ShortcutNames();
    assert BuildLoop(Shortcut()).nodes == [GuardNode(Shortcut()), IncrementNode(Shortcut())];
  }

  lemma ShortcutIsLoopWorkflow()
    ensures LoopWorkflow(ShortcutWorkflow(), [Shortcut()]) && AllRegistered(ShortcutWorkflow())
  {
    var specs := [Shortcut()];
    ShortcutIsDeclared();
    ShortcutInstalled();
    forall k | k in ShortcutWorkflow().registry && !IsGuard(specs, k) && !IsIncrement(specs, k)
      ensures Ordinary(ShortcutWorkflow().registry[k])
    {
      ShortcutOrdinary(k);
    }
  }

  lemma ShortcutIsDeclared()
    ensures AllRegistered(ShortcutWorkflow()) && TargetsDeclared(ShortcutSchema()) && KeyedByName(ShortcutWorkflow().registry)
  {
    ShortcutNames();
  }

  lemma ShortcutOrdinary(k: Id)
    requires k in ShortcutWorkflow().registry && !IsGuard([Shortcut()], k) && !IsIncrement([Shortcut()], k)
    ensures Ordinary(ShortcutWorkflow().registry[k])
  {
    assert [Shortcut()][0] == Shortcut();
    assert k == "Body" || k == "Exit";
    IdleIsOrdinary(k);
  }

  lemma ShortcutForwardIsAcyclic()
    ensures !Cyclic(ForwardGraph([Shortcut()], ShortcutSchema()))
  {
    var g, n := GuardId(Shortcut()), IncrementId(Shortcut());
    ShortcutNames();
    assert IncrementId([Shortcut()][0]) == n;
    var order := ["Exit", n, "Body", g];
    assert order[..0] == [] && order[..1] == ["Exit"] && order[..2] == ["Exit", n] && order[..3] == ["Exit", n, "Body"];
    FinishedIsAcyclic(ForwardGraph([Shortcut()], ShortcutSchema()), order);
  }

  lemma ShortcutIsReachable(k: Id)
    requires k in ShortcutSchema().nodes
    ensures Reaches(Validation.DeclaredGraph(ShortcutSchema()), ShortcutSchema().startNode, k)
  {
    var g, n, declared := GuardId(Shortcut()), IncrementId(Shortcut()), Validation.DeclaredGraph(ShortcutSchema());
    ReachesSelf(declared, g);
    ReachesNext(declared, g, g, n);
    ReachesNext(declared, g, g, "Exit");
    ReachesNext(declared, g, n, "Body");
  }

  lemma ShortcutFansOutNowhere(k: Id)
    ensures !Validation.FansOut(ShortcutWorkflow().registry, ShortcutSchema(), k)
  {
  }

  lemma ShortcutIsWellFormed()
    ensures Validation.WellFormed(ShortcutWorkflow().registry, ShortcutSchema())
  {
    forall k | k in ShortcutSchema().nodes
      ensures Reaches(Validation.DeclaredGraph(ShortcutSchema()), ShortcutSchema().startNode, k)
    {
      ShortcutIsReachable(k);
    }
    forall k
      ensures !Validation.FansOut(ShortcutWorkflow().registry, ShortcutSchema(), k)
    {
      ShortcutFansOutNowhere(k);
    }
    ShortcutPassesCycleCheck();
  }

  lemma ShortcutPassesCycleCheck()
    ensures !Cyclic(Validation.CheckedGraph(ShortcutWorkflow().registry, ShortcutSchema()))
  {
    ShortcutForwardIsAcyclic();
    ShortcutIsLoopWorkflow();
    AcyclicForwardPassesValidation(ShortcutWorkflow(), [Shortcut()]);
  }

  lemma ShortcutCutIsCyclic()
    ensures Cyclic(CutGraph([Shortcut()], ShortcutSchema()))
  {
    var g, n, specs, schema := GuardId(Shortcut()), IncrementId(Shortcut()), [Shortcut()], ShortcutSchema();
    ShortcutNames();
    ShortcutLoopAt();
    var live := LiveGraph(specs, schema);
    ReachesSelf(live, g);
    ReachesNext(live, g, g, n);
    ReachesNext(live, g, n, "Body");
    assert IsCycle(CutGraph(specs, schema), [n, "Body", n]);
  }

  lemma ShortcutLoopAt()
    ensures var specs := [Shortcut()];
            && LoopAt(specs, GuardId(Shortcut())) == Some(Shortcut())
            && forall k :: k != GuardId(Shortcut()) ==> LoopAt(specs, k) == None
  {
    var specs := [Shortcut()];
    assert specs[|specs| - 1] == Shortcut() && specs[..|specs| - 1] == [];
  }

  lemma ShortcutIsLasso()
    ensures var g, n := GuardId(Shortcut()), IncrementId(Shortcut());
            && Lasso([Shortcut()], ShortcutSchema(), [g, n], {n, "Body"})
            && Drives([Shortcut()], [g, n], {n, "Body"})
  {
    var g, n, specs, schema := GuardId(Shortcut()), IncrementId(Shortcut()), [Shortcut()], ShortcutSchema();
    ShortcutNames();
    ShortcutLoopAt();
    assert "Body" in CutConnections(specs, schema, n) && n in CutConnections(specs, schema, "Body");
    assert GoesOn(specs, schema, {n, "Body"}, n) && GoesOn(specs, schema, {n, "Body"}, "Body");
    assert Stays(Shortcut());
  }

  lemma ShortcutIsCooperative()
    ensures AllCooperative(ShortcutWorkflow())
  {
    var spec := Shortcut();
    assert Cooperative(GuardNode(spec)) && Cooperative(IncrementNode(spec)) && Cooperative(Idle("Body")) && Cooperative(Idle("Exit"));
  }

  lemma {:induction false} ShortcutNeverEnds(w: World, event: Value, events: seq<Event>)
    requires w.budget.None? && Quiet(events)
    ensures Exec(ShortcutWorkflow(), w, Begin(ShortcutWorkflow(), w, event), events).status.AtNode?
  {
    var g, n := GuardId(Shortcut()), IncrementId(Shortcut());
    ShortcutIsLoopWorkflow();
    ShortcutIsLasso();
    ShortcutIsCooperative();
    LoopRegistryIsFramed(ShortcutWorkflow(), [Shortcut()]);
    QuietRunStaysOnLasso(ShortcutWorkflow(), [Shortcut()], [g, n], {n, "Body"}, w, event, events);
  }

  /**
   * That loop passes validation and its forward edges have no cycle, yet an undisturbed run of it never
   * ends: acyclic forward edges alone do not bound a run.
   */
  lemma AcceptedYetEndless()
    ensures Validation.WellFormed(ShortcutWorkflow().registry, ShortcutWorkflow().schema)
    ensures LoopWorkflow(ShortcutWorkflow(), [Shortcut()])
    ensures !Cyclic(ForwardGraph([Shortcut()], ShortcutWorkflow().schema))
    ensures Cyclic(CutGraph([Shortcut()], ShortcutWorkflow().schema))
    ensures forall bound: nat :: !HaltsWithin(ShortcutWorkflow(), bound)
  {
    ShortcutCutIsCyclic();
    ShortcutIsLoopWorkflow();
    ShortcutForwardIsAcyclic();
    ShortcutIsWellFormed();
    forall w: World, event, events | w.budget.None? && Quiet(events)
      ensures Exec(ShortcutWorkflow(), w, Begin(ShortcutWorkflow(), w, event), events).status.AtNode?
    {
      ShortcutNeverEnds(w, event, events);
    }
    forall bound: nat
      ensures !HaltsWithin(ShortcutWorkflow(), bound)
    {
      RunningPastEveryBound(ShortcutWorkflow(), bound);
    }
  }
}
