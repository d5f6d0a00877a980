/**
 * Halting without any assumption on the counters, which are stored wide but read back in 32 bits and may
 * wrap.  A loop's turn can reset only loops below it in the cut graph, so a potential in mixed radix, one
 * digit per loop, falls with every turn.
 */
module LoopPotential {
  import opened Json
  import opened Contexts
  import opened Orders
  import opened Graphs
  import opened Nodes
  import opened Schemas
  import opened TaskContexts
  import opened Workflows
  import opened Runs
  import opened Loops
  import opened LoopRuns
  import opened LoopHalting

  function Pow(w: nat, e: nat): nat { if e == 0 then 1 else w * Pow(w, e - 1) }

  lemma {:induction false} PowGrows(w: nat, d: nat, e: nat)
    requires w >= 1 && d <= e
    ensures 1 <= Pow(w, d) <= Pow(w, e)
  {
    if d < e {
      PowGrows(w, d, e - 1);
      assert w * Pow(w, e - 1) >= Pow(w, e - 1);
    } else if d > 0 {
      PowGrows(w, d - 1, d - 1);
      assert w * Pow(w, d - 1) >= 1;
    }
  }

  /** How often a guard would still continue if only its own increments moved its counter. */
  function Left(spec: LoopSpec, completed: nat): nat {
    var narrow := completed % U32;
    if narrow + 1 < spec.maxIterations then spec.maxIterations - 1 - narrow else 0
  }

  lemma LeftCountsDown(spec: LoopSpec, completed: nat)
    requires spec.maxIterations < U32
    ensures Left(spec, completed) <= U32
    ensures Left(spec, completed) > 0 ==> Left(spec, completed + 1) == Left(spec, completed) - 1
  {
  }

  lemma ContinuingHasLeft(spec: LoopSpec, c: Context)
    requires spec.maxIterations < U32 && !Exits(spec, c)
    ensures Left(spec, Iterations(c, IncrementId(spec))) > 0
  {
  }

  // ----- The potential -----

  type Levels = map<Id, nat>

  function LevelOf(lv: Levels, spec: LoopSpec): nat {
    if IncrementId(spec) in lv then lv[IncrementId(spec)] else 0
  }

  /** One loop's digit: what is left, or, below the gate, the most that could ever be. */
  function Digit(spec: LoopSpec, lv: Levels, gate: nat, c: Context): nat {
    if LevelOf(lv, spec) < gate then U32 else Left(spec, Iterations(c, IncrementId(spec)))
  }

  function Potential(specs: seq<LoopSpec>, lv: Levels, w: nat, gate: nat, c: Context): nat {
    if specs == [] then 0
    else
      var last := specs[|specs| - 1];
      Potential(specs[..|specs| - 1], lv, w, gate, c) + Digit(last, lv, gate, c) * Pow(w, LevelOf(lv, last))
  }

  /** The part of the potential below a level, every digit at its most. */
  function Below(specs: seq<LoopSpec>, lv: Levels, w: nat, gate: nat): nat {
    if specs == [] then 0
    else
      var last := specs[|specs| - 1];
      Below(specs[..|specs| - 1], lv, w, gate) + (if LevelOf(lv, last) < gate then U32 * Pow(w, LevelOf(lv, last)) else 0)
  }

  lemma Scaled(a: nat, b: nat, k: nat)
    requires a <= b
    ensures a * k <= b * k
  {
  }

  lemma Distribute(a: nat, b: nat, k: nat)
    ensures (a + b) * k == a * k + b * k
  {
  }

  ghost predicate Bounded(specs: seq<LoopSpec>) { forall i :: 0 <= i < |specs| ==> specs[i].maxIterations < U32 }

  /** Moving the gate costs at most what lies below the new one. */
  lemma {:induction false} GateMoves(specs: seq<LoopSpec>, lv: Levels, w: nat, wide: nat, gate: nat, c: Context)
    requires Bounded(specs)
    ensures Potential(specs, lv, w, gate, c) <= Potential(specs, lv, w, wide, c) + Below(specs, lv, w, gate)
  {
    if specs != [] {
      var init, last := specs[..|specs| - 1], specs[|specs| - 1];
      GateMoves(init, lv, w, wide, gate, c);
      LeftCountsDown(last, Iterations(c, IncrementId(last)));
      Scaled(Digit(last, lv, gate, c), Digit(last, lv, wide, c) + (if LevelOf(lv, last) < gate then U32 else 0), Pow(w, LevelOf(lv, last)));
      Distribute(Digit(last, lv, wide, c), if LevelOf(lv, last) < gate then U32 else 0, Pow(w, LevelOf(lv, last)));
    }
  }

  lemma {:induction false} BelowFits(specs: seq<LoopSpec>, lv: Levels, w: nat, gate: nat)
    requires w >= 1 && gate > 0
    ensures Below(specs, lv, w, gate) <= |specs| * U32 * Pow(w, gate - 1)
  {
    if specs != [] {
      var init, last := specs[..|specs| - 1], specs[|specs| - 1];
      BelowFits(init, lv, w, gate);
      if LevelOf(lv, last) < gate {
        PowGrows(w, LevelOf(lv, last), gate - 1);
      }
      Distribute(|init| * U32, U32, Pow(w, gate - 1));
      assert |specs| * U32 == |init| * U32 + U32;
    }
  }

  lemma {:induction false} NothingBelowZero(specs: seq<LoopSpec>, lv: Levels, w: nat)
    ensures Below(specs, lv, w, 0) == 0
  {
    if specs != [] {
      NothingBelowZero(specs[..|specs| - 1], lv, w);
    }
  }

  /** A base large enough that all lower digits together are less than one unit of the next. */
  function Base(specs: seq<LoopSpec>): nat { 1 + |specs| * U32 }

  lemma {:induction false} BelowIsLess(specs: seq<LoopSpec>, lv: Levels, gate: nat)
    ensures Below(specs, lv, Base(specs), gate) < Pow(Base(specs), gate)
  {
    var w := Base(specs);
    PowGrows(w, 0, gate);
    if gate == 0 {
      NothingBelowZero(specs, lv, w);
    } else {
      BelowFits(specs, lv, w, gate);
      PowGrows(w, 0, gate - 1);
      Distribute(1, |specs| * U32, Pow(w, gate - 1));
    }
  }

  /** Counters below the gate may move: their digits are at their most already. */
  lemma {:induction false} BelowGateNothingMoves(specs: seq<LoopSpec>, lv: Levels, w: nat, gate: nat, c: Context, after: Context)
    requires forall i :: 0 <= i < |specs| ==>
               LevelOf(lv, specs[i]) < gate || Iterations(after, IncrementId(specs[i])) == Iterations(c, IncrementId(specs[i]))
    ensures Potential(specs, lv, w, gate, after) == Potential(specs, lv, w, gate, c)
  {
    if specs != [] {
      BelowGateNothingMoves(specs[..|specs| - 1], lv, w, gate, c, after);
      assert Digit(specs[|specs| - 1], lv, gate, after) == Digit(specs[|specs| - 1], lv, gate, c);
    }
  }

  /** The paid-for increment takes one unit off its own digit. */
  lemma {:induction false} IncrementTakesOne(specs: seq<LoopSpec>, i: nat, lv: Levels, w: nat, gate: nat, c: Context, after: Context)
    requires Bounded(specs) && i < |specs| && LevelOf(lv, specs[i]) >= gate
    requires Left(specs[i], Iterations(c, IncrementId(specs[i]))) > 0
    requires forall j :: 0 <= j < |specs| ==>
               Iterations(after, IncrementId(specs[j])) == Iterations(c, IncrementId(specs[j])) + (if j == i then 1 else 0)
    ensures Potential(specs, lv, w, gate, after) + Pow(w, LevelOf(lv, specs[i])) == Potential(specs, lv, w, gate, c)
  {
    var init, last := specs[..|specs| - 1], specs[|specs| - 1];
    if i == |init| {
      BelowGateNothingMoves(init, lv, w, gate, c, after);
      LeftCountsDown(last, Iterations(c, IncrementId(last)));
      Distribute(Digit(last, lv, gate, after), 1, Pow(w, LevelOf(lv, last)));
    } else {
      IncrementTakesOne(init, i, lv, w, gate, c, after);
      assert Digit(last, lv, gate, after) == Digit(last, lv, gate, c);
    }
  }

  lemma {:induction false} OneDigitFits(specs: seq<LoopSpec>, i: nat, lv: Levels, w: nat, gate: nat, c: Context)
    requires i < |specs| && LevelOf(lv, specs[i]) >= gate && Left(specs[i], Iterations(c, IncrementId(specs[i]))) > 0
    ensures Pow(w, LevelOf(lv, specs[i])) <= Potential(specs, lv, w, gate, c)
  {
    var init, last := specs[..|specs| - 1], specs[|specs| - 1];
    if i == |init| {
      Scaled(1, Digit(last, lv, gate, c), Pow(w, LevelOf(lv, last)));
    } else {
      OneDigitFits(init, i, lv, w, gate, c);
    }
  }

  // ----- Along a run -----

  ghost function CutLevels(specs: seq<LoopSpec>, schema: Schema): Levels {
    map u | u in schema.nodes :: Level(CutGraph(specs, schema), schema.nodes.Keys, u)
  }

  function Top(schema: Schema): nat { |schema.nodes.Keys| + 1 }

  /** The level of the loop whose turn began this phase; above all levels before the first turn. */
  ghost function Gate(specs: seq<LoopSpec>, schema: Schema, trace: seq<Visit>): nat {
    if trace == [] then Top(schema)
    else
      var last := trace[|trace| - 1];
      if IsTurn(specs, last) && LoopAt(specs, last.identity).Some?
      then LevelOf(CutLevels(specs, schema), LoopAt(specs, last.identity).value)
      else Gate(specs, schema, trace[..|trace| - 1])
  }

  predicate JustTurned(specs: seq<LoopSpec>, trace: seq<Visit>) { trace != [] && IsTurn(specs, trace[|trace| - 1]) }

  ghost function All(specs: seq<LoopSpec>, schema: Schema): nat {
    Below(specs, CutLevels(specs, schema), Base(specs), Top(schema))
  }

  ghost function Now(specs: seq<LoopSpec>, schema: Schema, m: Machine): nat {
    Potential(specs, CutLevels(specs, schema), Base(specs), Gate(specs, schema, m.trace), m.ctx)
  }

  /** The pointer stands below the gate, or, right after a turn, at the increment that pays for it. */
  ghost predicate Paying(specs: seq<LoopSpec>, schema: Schema, m: Machine, i: nat)
    requires i < |specs|
  {
    && m.trace != [] && Turned(specs[i], m.trace[|m.trace| - 1])
    && Left(specs[i], Iterations(m.ctx, IncrementId(specs[i]))) > 0
    && (Pointer(m.status).Some? ==> Pointer(m.status).value == IncrementId(specs[i]))
    && AllTurnsTaken(m.trace, specs) + Now(specs, schema, m) <=
       All(specs, schema) + Pow(Base(specs), LevelOf(CutLevels(specs, schema), specs[i]))
  }

  ghost predicate Falling(specs: seq<LoopSpec>, schema: Schema, m: Machine) {
    var lv, at := CutLevels(specs, schema), Pointer(m.status);
    if JustTurned(specs, m.trace) then exists i :: 0 <= i < |specs| && Paying(specs, schema, m, i)
    else
      && (at.Some? && at.value in lv ==> lv[at.value] < Gate(specs, schema, m.trace))
      && AllTurnsTaken(m.trace, specs) + Now(specs, schema, m) <= All(specs, schema)
  }

  lemma {:induction false} GateSnoc(specs: seq<LoopSpec>, schema: Schema, trace: seq<Visit>, v: Visit)
    ensures Gate(specs, schema, trace + [v]) ==
            if IsTurn(specs, v) && LoopAt(specs, v.identity).Some?
            then LevelOf(CutLevels(specs, schema), LoopAt(specs, v.identity).value)
            else Gate(specs, schema, trace)
  {
    assert (trace + [v])[..|trace|] == trace;
  }

  lemma {:induction false} TurnedLoopIsFound(specs: seq<LoopSpec>, i: nat, v: Visit)
    requires DistinctPrefixes(specs) && i < |specs| && Turned(specs[i], v)
    ensures IsTurn(specs, v) && LoopAt(specs, v.identity) == Some(specs[i])
  {
    LoopAtGuard(specs, i);
  }

  /** A visit to an increment is no guard's. */
  lemma IncrementIsNoTurn(specs: seq<LoopSpec>, i: nat, v: Visit)
    requires DistinctPrefixes(specs) && i < |specs| && v.identity == IncrementId(specs[i])
    ensures !IsTurn(specs, v)
  {
    NotAnIncrement(specs, i);
  }

  lemma LevelsLeadDown(wf: Workflow, specs: seq<LoopSpec>, u: Id, v: Id)
    requires !Cyclic(CutGraph(specs, wf.schema)) && Edge(CutGraph(specs, wf.schema), u, v)
    requires u in wf.schema.nodes && v in wf.schema.nodes
    ensures var lv := CutLevels(specs, wf.schema); lv[v] < lv[u]
  {
    EdgesLeadDown(CutGraph(specs, wf.schema), wf.schema.nodes.Keys, u, v);
  }

  /** The pointer after a visit stands a level below the node visited, unless the visit was a turn. */
  lemma PointerGoesDown(wf: Workflow, specs: seq<LoopSpec>, m: Machine, n: Machine, d: Dispatched)
    requires LoopWorkflow(wf, specs) && !Cyclic(CutGraph(specs, wf.schema)) && OnCutWalk(wf, specs, m)
    requires Moved(wf, specs, m, n, d) && !IsTurn(specs, Last(n)) && Pointer(n.status).Some?
    ensures var lv, y := CutLevels(specs, wf.schema), Pointer(n.status).value; y in lv && lv[y] < lv[m.status.at]
  {
    VisitFollowsEdges(wf, specs, m, n, d);
    PointerIsDeclared(wf, specs, m, n, d);
    LevelsLeadDown(wf, specs, m.status.at, Pointer(n.status).value);
  }

  /** The increment a turn leads to takes one unit off the potential. */
  lemma {:induction false} PaymentTakesOne(wf: Workflow, specs: seq<LoopSpec>, m: Machine, n: Machine, d: Dispatched, i: nat)
    requires DistinctPrefixes(specs) && Bounded(specs) && i < |specs| && Moved(wf, specs, m, n, d)
    requires m.status.at == IncrementId(specs[i]) && Left(specs[i], Iterations(m.ctx, IncrementId(specs[i]))) > 0
    requires Gate(specs, wf.schema, m.trace) == LevelOf(CutLevels(specs, wf.schema), specs[i])
    ensures Potential(specs, CutLevels(specs, wf.schema), Base(specs), Gate(specs, wf.schema, m.trace), n.ctx)
            + Pow(Base(specs), LevelOf(CutLevels(specs, wf.schema), specs[i])) == Now(specs, wf.schema, m)
  {
    NotAnIncrement(specs, i);
    SameOutputsSameCounts(n.ctx, d.after);
    IncrementTakesOne(specs, i, CutLevels(specs, wf.schema), Base(specs), Gate(specs, wf.schema, m.trace), m.ctx, n.ctx);
  }

  lemma {:induction false} PaymentSettles(wf: Workflow, specs: seq<LoopSpec>, m: Machine, n: Machine, d: Dispatched, i: nat)
    requires DistinctPrefixes(specs) && Bounded(specs) && Moved(wf, specs, m, n, d) && i < |specs| && Paying(specs, wf.schema, m, i)
    ensures n.trace == m.trace + [Last(n)] && !IsTurn(specs, Last(n)) && m.status.at == IncrementId(specs[i])
    ensures Gate(specs, wf.schema, n.trace) == LevelOf(CutLevels(specs, wf.schema), specs[i])
    ensures AllTurnsTaken(n.trace, specs) + Now(specs, wf.schema, n) <= All(specs, wf.schema)
  {
    IncrementIsNoTurn(specs, i, Last(n));
    TurnedLoopIsFound(specs, i, m.trace[|m.trace| - 1]);
    GateSnoc(specs, wf.schema, m.trace, Last(n));
    AllTurnsSnoc(m.trace, Last(n), specs);
    PaymentTakesOne(wf, specs, m, n, d, i);
  }

  /** So it pays for the turn, and the walk goes on below the gate. */
  lemma PaymentKeepsFalling(wf: Workflow, specs: seq<LoopSpec>, m: Machine, n: Machine, d: Dispatched, i: nat)
    requires LoopWorkflow(wf, specs) && !Cyclic(CutGraph(specs, wf.schema)) && OnCutWalk(wf, specs, m)
    requires Moved(wf, specs, m, n, d) && i < |specs| && Paying(specs, wf.schema, m, i)
    ensures Falling(specs, wf.schema, n)
  {
    PaymentSettles(wf, specs, m, n, d, i);
    if Pointer(n.status).Some? {
      PointerGoesDown(wf, specs, m, n, d);
    }
  }

  lemma PointerIsDeclared(wf: Workflow, specs: seq<LoopSpec>, m: Machine, n: Machine, d: Dispatched)
    requires TargetsDeclared(wf.schema) && Moved(wf, specs, m, n, d) && Pointer(n.status).Some?
    ensures Pointer(n.status).value in wf.schema.nodes
  {
    assert Pointer(n.status).value in wf.schema.nodes[m.status.at].connections;
  }

  /** Below the gate nothing a visit does to the counters shows. */
  lemma {:induction false} VisitBelowGate(wf: Workflow, specs: seq<LoopSpec>, m: Machine, n: Machine, d: Dispatched)
    requires Moved(wf, specs, m, n, d)
    requires var lv := CutLevels(specs, wf.schema); lv[m.status.at] < Gate(specs, wf.schema, m.trace)
    ensures Potential(specs, CutLevels(specs, wf.schema), Base(specs), Gate(specs, wf.schema, m.trace), n.ctx) == Now(specs, wf.schema, m)
  {
    SameOutputsSameCounts(n.ctx, d.after);
    BelowGateNothingMoves(specs, CutLevels(specs, wf.schema), Base(specs), Gate(specs, wf.schema, m.trace), m.ctx, n.ctx);
  }

  /** A turn moves the gate to its own loop, at less than the one unit its increment is about to pay. */
  lemma {:induction false} TurnCosts(wf: Workflow, specs: seq<LoopSpec>, m: Machine, n: Machine, d: Dispatched, i: nat)
    requires Bounded(specs) && Moved(wf, specs, m, n, d) && i < |specs|
    requires CutLevels(specs, wf.schema)[m.status.at] < Gate(specs, wf.schema, m.trace)
    ensures var lv := CutLevels(specs, wf.schema);
            Potential(specs, lv, Base(specs), LevelOf(lv, specs[i]), n.ctx) <
            Now(specs, wf.schema, m) + Pow(Base(specs), LevelOf(lv, specs[i]))
  {
    var lv := CutLevels(specs, wf.schema);
    VisitBelowGate(wf, specs, m, n, d);
    GateMoves(specs, lv, Base(specs), Gate(specs, wf.schema, m.trace), LevelOf(lv, specs[i]), n.ctx);
    BelowIsLess(specs, lv, LevelOf(lv, specs[i]));
  }

  /** It leads to the increment that will pay for it. */
  lemma TurnLeadsToPayment(wf: Workflow, specs: seq<LoopSpec>, m: Machine, n: Machine, d: Dispatched, i: nat)
    requires Bounded(specs) && Moved(wf, specs, m, n, d) && i < |specs| && Turned(specs[i], Last(n))
    ensures Left(specs[i], Iterations(n.ctx, IncrementId(specs[i]))) > 0
    ensures Pointer(n.status).Some? ==> Pointer(n.status).value == IncrementId(specs[i])
  {
    SameOutputsSameCounts(n.ctx, d.after);
    ContinuingHasLeft(specs[i], d.after);
    assert Last(n).next == RouteGuard(specs[i], d.after);
  }

  lemma TurnKeepsFalling(wf: Workflow, specs: seq<LoopSpec>, m: Machine, n: Machine, d: Dispatched, i: nat)
    requires LoopWorkflow(wf, specs) && Moved(wf, specs, m, n, d) && i < |specs| && Turned(specs[i], Last(n))
    requires !JustTurned(specs, m.trace) && Falling(specs, wf.schema, m)
    ensures Falling(specs, wf.schema, n)
  {
    TurnedLoopIsFound(specs, i, Last(n));
    GateSnoc(specs, wf.schema, m.trace, Last(n));
    AllTurnsSnoc(m.trace, Last(n), specs);
    TurnCosts(wf, specs, m, n, d, i);
    TurnLeadsToPayment(wf, specs, m, n, d, i);
    assert Paying(specs, wf.schema, n, i);
  }

  lemma OtherVisitKeepsFalling(wf: Workflow, specs: seq<LoopSpec>, m: Machine, n: Machine, d: Dispatched)
    requires LoopWorkflow(wf, specs) && !Cyclic(CutGraph(specs, wf.schema)) && OnCutWalk(wf, specs, m)
    requires Moved(wf, specs, m, n, d) && !IsTurn(specs, Last(n))
    requires !JustTurned(specs, m.trace) && Falling(specs, wf.schema, m)
    ensures Falling(specs, wf.schema, n)
  {
    GateSnoc(specs, wf.schema, m.trace, Last(n));
    AllTurnsSnoc(m.trace, Last(n), specs);
    VisitBelowGate(wf, specs, m, n, d);
    if Pointer(n.status).Some? {
      PointerGoesDown(wf, specs, m, n, d);
    }
  }

  lemma MoveKeepsFalling(wf: Workflow, specs: seq<LoopSpec>, m: Machine, n: Machine, d: Dispatched)
    requires LoopWorkflow(wf, specs) && !Cyclic(CutGraph(specs, wf.schema)) && OnCutWalk(wf, specs, m)
    requires Moved(wf, specs, m, n, d) && Falling(specs, wf.schema, m)
    ensures Falling(specs, wf.schema, n)
  {
    if JustTurned(specs, m.trace) {
      var i :| 0 <= i < |specs| && Paying(specs, wf.schema, m, i);
      PaymentKeepsFalling(wf, specs, m, n, d, i);
    } else if i :| 0 <= i < |specs| && Turned(specs[i], Last(n)) {
      TurnKeepsFalling(wf, specs, m, n, d, i);
    } else {
      OtherVisitKeepsFalling(wf, specs, m, n, d);
    }
  }

  // ----- Every run -----

  ghost predicate FallInvariant(wf: Workflow, specs: seq<LoopSpec>, m: Machine) {
    CountersAgree(specs, m) && OnCutWalk(wf, specs, m) && WithinBound(wf, specs, m) && Falling(specs, wf.schema, m)
  }

  lemma {:induction false} SameCountsSamePotential(specs: seq<LoopSpec>, lv: Levels, w: nat, gate: nat, c: Context, after: Context)
    requires c.nodes == after.nodes
    ensures Potential(specs, lv, w, gate, c) == Potential(specs, lv, w, gate, after)
  {
    SameOutputsSameCounts(c, after);
    BelowGateNothingMoves(specs, lv, w, gate, c, after);
  }

  lemma KeptKeepsFalling(wf: Workflow, specs: seq<LoopSpec>, m: Machine, n: Machine)
    requires Kept(m, n) && FallInvariant(wf, specs, m)
    ensures FallInvariant(wf, specs, n)
  {
    KeptKeepsCounters(specs, m, n);
    SameOutputsSameCounts(m.ctx, n.ctx);
    SameCountsSamePotential(specs, CutLevels(specs, wf.schema), Base(specs), Gate(specs, wf.schema, m.trace), m.ctx, n.ctx);
    if JustTurned(specs, m.trace) {
      var i :| 0 <= i < |specs| && Paying(specs, wf.schema, m, i);
      assert Paying(specs, wf.schema, n, i);
    }
  }

  /** With the gate on top every digit is at its most. */
  lemma {:induction false} AllAtTheirMost(specs: seq<LoopSpec>, lv: Levels, w: nat, gate: nat, c: Context)
    requires forall i :: 0 <= i < |specs| ==> LevelOf(lv, specs[i]) < gate
    ensures Potential(specs, lv, w, gate, c) == Below(specs, lv, w, gate)
  {
    if specs != [] {
      var init := specs[..|specs| - 1];
      assert forall i :: 0 <= i < |init| ==> init[i] == specs[i];
      AllAtTheirMost(init, lv, w, gate, c);
    }
  }

  lemma LevelsAreBelowTop(specs: seq<LoopSpec>, schema: Schema)
    ensures forall u :: u in schema.nodes ==> CutLevels(specs, schema)[u] < Top(schema)
    ensures forall i :: 0 <= i < |specs| ==> LevelOf(CutLevels(specs, schema), specs[i]) < Top(schema)
  {
    forall u | u in schema.nodes
      ensures CutLevels(specs, schema)[u] < Top(schema)
    {
      LevelsFit(CutGraph(specs, schema), schema.nodes.Keys, u);
    }
  }

  lemma BeginFalls(wf: Workflow, specs: seq<LoopSpec>, w: World, event: Value)
    requires LoopWorkflow(wf, specs)
    ensures FallInvariant(wf, specs, Begin(wf, w, event))
  {
    var m := Begin(wf, w, event);
    BeginHaltInvariant(wf, specs, w, event);
    LevelsAreBelowTop(specs, wf.schema);
    AllAtTheirMost(specs, CutLevels(specs, wf.schema), Base(specs), Top(wf.schema), m.ctx);
    NoTurnsYet(specs);
  }

  lemma {:induction false} NoTurnsYet(specs: seq<LoopSpec>)
    ensures AllTurnsTaken([], specs) == 0
  {
    if specs != [] {
      NoTurnsYet(specs[..|specs| - 1]);
    }
  }

  lemma MoveKeepsFallInvariant(wf: Workflow, specs: seq<LoopSpec>, m: Machine, n: Machine, d: Dispatched)
    requires LoopWorkflow(wf, specs) && !Cyclic(CutGraph(specs, wf.schema))
    requires FallInvariant(wf, specs, m) && Moved(wf, specs, m, n, d)
    ensures FallInvariant(wf, specs, n)
  {
    VisitKeepsCounters(specs, m, n, d);
    VisitKeepsBound(wf, specs, m, n, d);
    VisitKeepsCutWalk(wf, specs, m, n, d);
    MoveKeepsFalling(wf, specs, m, n, d);
  }

  lemma {:induction false} EveryRunFalls(wf: Workflow, specs: seq<LoopSpec>, w: World, event: Value, events: seq<Event>)
    requires LoopWorkflow(wf, specs) && !Cyclic(CutGraph(specs, wf.schema))
    ensures FallInvariant(wf, specs, Exec(wf, w, Begin(wf, w, event), events))
    decreases |events|
  {
    if events == [] {
      BeginFalls(wf, specs, w, event);
    } else {
      var init, e := events[..|events| - 1], events[|events| - 1];
      EveryRunFalls(wf, specs, w, event, init);
      LoopRegistryIsFramed(wf, specs);
      EveryRunKeepsInvariant(wf, w, event, init);
      var m := Exec(wf, w, Begin(wf, w, event), init);
      EventKeepsOrMoves(wf, specs, w, m, e);
      if Moves(wf, w, m, e) {
        MoveKeepsFallInvariant(wf, specs, m, Advance(wf, w, m, e), Ran(wf, w, m, e));
      } else {
        KeptKeepsFalling(wf, specs, m, Advance(wf, w, m, e));
      }
    }
  }

  /** The most dispatches any loop workflow of this size can take, counters wrapping or not. */
  function WrapBound(wf: Workflow, loops: nat): nat {
    |wf.schema.nodes.Keys| * Pow(1 + loops * U32, |wf.schema.nodes.Keys| + 1)
  }

  lemma {:induction false} TurnsFit(specs: seq<LoopSpec>, schema: Schema, m: Machine)
    requires Falling(specs, schema, m) && DistinctPrefixes(specs)
    ensures AllTurnsTaken(m.trace, specs) < Pow(Base(specs), Top(schema))
  {
    var lv := CutLevels(specs, schema);
    BelowIsLess(specs, lv, Top(schema));
    if JustTurned(specs, m.trace) {
      var i :| 0 <= i < |specs| && Paying(specs, schema, m, i);
      TurnedLoopIsFound(specs, i, m.trace[|m.trace| - 1]);
      OneDigitFits(specs, i, lv, Base(specs), Gate(specs, schema, m.trace), m.ctx);
    }
  }

  lemma FallingIsBounded(wf: Workflow, specs: seq<LoopSpec>, m: Machine)
    requires WithinBound(wf, specs, m) && Falling(specs, wf.schema, m) && DistinctPrefixes(specs)
    ensures |m.trace| <= WrapBound(wf, |specs|)
  {
    TurnsFit(specs, wf.schema, m);
    TraceFits(|wf.schema.nodes.Keys|, AllTurnsTaken(m.trace, specs), Pow(Base(specs), Top(wf.schema)));
  }

  /**
   * With no cycle in the cut graph a loop workflow halts, whatever its exit predicates, its nodes, the
   * signals it is sent and the size of its bounds: no run, over any number of segments, takes more than
   * (declared nodes) x (1 + loops x 2^32)^(declared nodes + 1) dispatches, and a segment given more
   * boundaries has returned.
   */
  lemma {:induction false} LoopWorkflowsHalt(wf: Workflow, specs: seq<LoopSpec>, w: World, event: Value, events: seq<Event>)
    requires LoopWorkflow(wf, specs) && !Cyclic(CutGraph(specs, wf.schema))
    ensures |Exec(wf, w, Begin(wf, w, event), events).trace| <= WrapBound(wf, |specs|)
    ensures (forall e :: e in events ==> e.Tick?) && |events| > WrapBound(wf, |specs|) ==>
              !Exec(wf, w, Begin(wf, w, event), events).status.AtNode?
  {
    EveryRunFalls(wf, specs, w, event, events);
    FallingIsBounded(wf, specs, Exec(wf, w, Begin(wf, w, event), events));
    if forall e :: e in events ==> e.Tick? {
      EveryTickDispatches(wf, w, event, events);
    }
  }

  lemma TraceFits(count: nat, turns: nat, bound: nat)
    requires turns < bound
    ensures count * turns + count <= count * bound
  {
    Scaled(turns + 1, bound, count);
    Distribute(turns, 1, count);
  }
}
