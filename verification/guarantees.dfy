/** What a caller can rely on at any moment of any run, read off the run invariants. */
module Guarantees {
  import opened Json
  import opened Contexts
  import opened Budgets
  import opened Suspensions
  import opened Ledgers
  import opened Nodes
  import opened Schemas
  import opened TaskContexts
  import opened Workflows
  import opened Runs
  import opened Accounts

  // ----- Outcome -----

  datatype TerminalStatus = WasCancelled | WasBudgetHalted | HasFailed | HasSucceeded

  /** The status derived from a final snapshot; the suspension marker is not consulted. */
  function DeriveTerminalStatus(c: Context): TerminalStatus {
    if c.metadata.cancelled then WasCancelled
    else if c.metadata.budgetHalt.Some? then WasBudgetHalted
    else if c.metadata.failure.Some? || exists k :: k in c.nodeRuns && c.nodeRuns[k].status == Failed then HasFailed
    else HasSucceeded
  }

  /** Each status by what it takes: cancellation goes before a budget halt, and either before a failure. */
  lemma TerminalStatusByMarker(c: Context)
    ensures var d, r := c.metadata, DeriveTerminalStatus(c);
            var failed := d.failure.Some? || exists k :: k in c.nodeRuns && c.nodeRuns[k].status == Failed;
            && (r == WasCancelled <==> d.cancelled)
            && (r == WasBudgetHalted <==> !d.cancelled && d.budgetHalt.Some?)
            && (r == HasFailed <==> !d.cancelled && d.budgetHalt.None? && failed)
            && (r == HasSucceeded <==> !d.cancelled && d.budgetHalt.None? && !failed)
  {
  }

  function Ones(a: bool, b: bool, c: bool): nat {
    (if a then 1 else 0) + (if b then 1 else 0) + (if c then 1 else 0)
  }

  /**
   * At most one of the three stop markers is ever set, none after a node failure; and the derived
   * status names the exit taken: a run that neither stopped early nor failed reads as succeeded
   * unless one of its nodes left the failure marker.
   */
  lemma {:induction false} OutcomeIsExclusive(wf: Workflow, w: World, event: Value, events: seq<Event>)
    requires FramedRegistry(wf.registry)
    ensures var m := Exec(wf, w, Begin(wf, w, event), events);
            var d := m.ctx.metadata;
            && Ones(d.cancelled, d.budgetHalt.Some?, IsSuspended(d.suspension)) == (if EndedEarly(m.status) then 1 else 0)
            && match m.status
               case Cancelled => DeriveTerminalStatus(m.ctx) == WasCancelled
               case BudgetHalted => DeriveTerminalStatus(m.ctx) == WasBudgetHalted
               case NodeFailed => DeriveTerminalStatus(m.ctx) == HasFailed
               case _ => DeriveTerminalStatus(m.ctx) == if d.failure.Some? then HasFailed else HasSucceeded
  {
    EveryRunKeepsInvariant(wf, w, event, events);
    var m := Exec(wf, w, Begin(wf, w, event), events);
    if m.status == NodeFailed {
      assert HasStatus(m.ctx.nodeRuns, Last(m).identity, Failed);
    } else {
      assert NothingFailed(m.ctx);
      assert forall k :: k in m.ctx.nodeRuns && m.ctx.nodeRuns[k].status == Failed ==> HasStatus(m.ctx.nodeRuns, k, Failed);
    }
  }

  /**
   * Once every later boundary reads the token as cancelled, only the dispatch already under way when
   * it was set can still begin: nothing runs from the second boundary on.
   */
  lemma {:induction false} CancelStopsDispatching(wf: Workflow, w: World, m: Machine, first: Event, rest: seq<Event>)
    requires KeyedByName(wf.registry)
    requires first.Tick? && forall e :: e in rest ==> e.Tick? && e.cancelled
    ensures |Exec(wf, w, m, [first] + rest).trace| <= |m.trace| + 1
    ensures var after := Exec(wf, w, m, [first]);
            rest != [] && after.status.AtNode? ==> Exec(wf, w, m, [first] + rest).status == Cancelled
    decreases |rest|
  {
    var one := Exec(wf, w, m, [first]);
    assert Exec(wf, w, m, [first]) == Advance(wf, w, m, first) by {
      ExecSnoc(wf, w, m, [], first);
      assert [] + [first] == [first];
    }
    if m.status.AtNode? {
      PassOutline(wf, w, m, first);
    }
    if rest == [] {
      assert [first] + rest == [first];
    } else {
      var init, e := rest[..|rest| - 1], rest[|rest| - 1];
      CancelStopsDispatching(wf, w, m, first, init);
      assert [first] + rest == ([first] + init) + [e];
      ExecSnoc(wf, w, m, [first] + init, e);
      if init == [] {
        assert [first] + init == [first];
      }
    }
  }

  // ----- Ledger and snapshots -----

  /**
   * Over any number of segments: one row per dispatch in dispatch order, numbered 0, 1, 2, ...; at
   * most one failed row, which is then the last; and the ledgers shown by successive snapshots are
   * prefixes of one another and of the final one.
   */
  lemma {:induction false} InvocationLedgerIsExact(wf: Workflow, w: World, event: Value, events: seq<Event>)
    requires RowKeepingRegistry(wf.registry)
    ensures var m := Exec(wf, w, Begin(wf, w, event), events);
            var rows := Rows(m.ctx);
            && |rows| == |m.trace|
            && Numbered(rows)
            && (forall k :: 0 <= k < |rows| ==> rows[k].node == m.trace[k].identity)
            && (forall k :: 0 <= k < |rows| && rows[k].status == InvocationFailed ==> k == |rows| - 1 && m.status == NodeFailed)
            && (m.status == NodeFailed ==> rows != [] && rows[|rows| - 1].status == InvocationFailed)
            && (forall i, j :: 0 <= i <= j < |m.emitted| ==> Rows(m.emitted[i]) <= Rows(m.emitted[j]) <= rows)
  {
    EveryRunKeepsRows(wf, w, event, events);
    FailedWalkEndsInFailedVisit(wf, w, event, events);
    var m := Exec(wf, w, Begin(wf, w, event), events);
    var rows := Rows(m.ctx);
    assert forall k :: 0 <= k < |rows| ==> RowMatches(rows[k], k, m.trace[k].identity, m.trace[k].failed);
  }

  lemma {:induction false} FailedWalkEndsInFailedVisit(wf: Workflow, w: World, event: Value, events: seq<Event>)
    requires KeyedByName(wf.registry)
    ensures var m := Exec(wf, w, Begin(wf, w, event), events);
            m.status == NodeFailed ==> m.trace != [] && Last(m).failed
    decreases |events|
  {
    if events != [] {
      var init, e := events[..|events| - 1], events[|events| - 1];
      FailedWalkEndsInFailedVisit(wf, w, event, init);
      var m := Exec(wf, w, Begin(wf, w, event), init);
      if e.Tick? && m.status.AtNode? {
        PassOutline(wf, w, m, e);
      }
    }
  }

  /** At most one node shows as running, and it is the dispatch whose row is still missing. */
  ghost predicate ShowsOneRunning(c: Context, trace: seq<Visit>) {
    forall a :: HasStatus(c.nodeRuns, a, Running) ==>
      && |Rows(c)| < |trace| && trace[|Rows(c)|].identity == a
      && forall b :: HasStatus(c.nodeRuns, b, Running) ==> a == b
  }

  /** A failed node shows only in the last snapshot of a failed walk, and is the last one dispatched. */
  ghost predicate ShowsFailureLast(m: Machine, i: nat)
    requires i < |m.emitted|
  {
    forall a :: HasStatus(m.emitted[i].nodeRuns, a, Failed) ==>
      i == |m.emitted| - 1 && m.status == NodeFailed && m.trace != [] && Last(m).identity == a
  }

  /** Snapshots, whatever the nodes do: one at the start of each segment, two per dispatch, one more for each early stop. */
  lemma {:induction false} SnapshotsAreCounted(wf: Workflow, w: World, event: Value, events: seq<Event>)
    requires KeyedByName(wf.registry)
    ensures var m := Exec(wf, w, Begin(wf, w, event), events);
            |m.emitted| == 1 + 2 * m.resumes + 2 * |m.trace| + (if EndedEarly(m.status) then 1 else 0)
  {
    EveryRunCountsSnapshots(wf, w, event, events);
  }

  /**
   * What they show: at most one node running, the one in flight, and a failure only at the very end.  The
   * marker's resume count is the number of resumes, and a returned context shows nothing running.
   */
  lemma {:induction false} SnapshotStateMachine(wf: Workflow, w: World, event: Value, events: seq<Event>)
    requires FramedRegistry(wf.registry)
    ensures var m := Exec(wf, w, Begin(wf, w, event), events);
            && ResumeCount(m.ctx.metadata.suspension) == m.resumes
            && (forall i :: 0 <= i < |m.emitted| ==> ShowsOneRunning(m.emitted[i], m.trace) && ShowsFailureLast(m, i))
            && (forall a :: !HasStatus(m.ctx.nodeRuns, a, Running))
  {
    EveryRunKeepsInvariant(wf, w, event, events);
    var m := Exec(wf, w, Begin(wf, w, event), events);
    forall i | 0 <= i < |m.emitted|
      ensures ShowsOneRunning(m.emitted[i], m.trace) && ShowsFailureLast(m, i)
    {
      SnapshotReadOut(m, i);
    }
  }

  lemma SnapshotReadOut(m: Machine, i: nat)
    requires SnapshotsSound(m) && i < |m.emitted|
    ensures ShowsOneRunning(m.emitted[i], m.trace) && ShowsFailureLast(m, i)
  {
    assert RunningIsInFlight(m.emitted[i], m.trace);
    if m.status != NodeFailed || i < |m.emitted| - 1 {
      assert NothingFailed(m.emitted[i]);
    }
  }

  /** A node that files a run record for an inner step, as running, under that step's own name. */
  function InnerStepNode(name: Id, inner: Id): Node {
    Node(name, (c: Context) => Done(c.(nodeRuns := c.nodeRuns[inner := PendingRun.(status := Running)])), None)
  }

  function OneNodeWorkflow(node: Node): Workflow {
    Workflow(map[node.name := node], Schema("demo", node.name, map[node.name := NodeConfig(node.name, [])]), map[])
  }

  /**
   * The frame is needed: where nothing dispatches that name later, the returned context of an otherwise
   * clean run shows the inner step as running, exactly when its name is not the dispatched one.
   */
  lemma {:induction false} InnerStepStaysRunning(w: World, event: Value, name: Id, inner: Id)
    requires w.budget.None?
    ensures var wf := OneNodeWorkflow(InnerStepNode(name, inner));
            var m := Exec(wf, w, Begin(wf, w, event), [Tick(false, false, 0)]);
            m.status == Completed && (HasStatus(m.ctx.nodeRuns, inner, Running) <==> inner != name)
  {
    var node := InnerStepNode(name, inner);
    var wf := OneNodeWorkflow(node);
    var m0 := Begin(wf, w, event);
    ExecSnoc(wf, w, m0, [], Tick(false, false, 0));
    assert [] + [Tick(false, false, 0)] == [Tick(false, false, 0)];
    var a := Absorb(wf, m0, name, Dispatch(node, m0.ctx, w, 0));
    assert a.trace[|a.trace| - 1].next == None;
  }

  // ----- Budget -----

  /**
   * Every dispatch, in every segment, began with the exact spend of all earlier visits and strictly
   * below each configured cap; so what a run finally recorded is below each cap plus its last
   * visit's spend.
   */
  lemma {:induction false} BudgetBoundsWholeRuns(wf: Workflow, w: World, event: Value, events: seq<Event>)
    requires KeyedByName(wf.registry)
    ensures var m := Exec(wf, w, Begin(wf, w, event), events);
            && Spent(m.ledger) == TraceSpend(m.trace)
            && (forall k :: 0 <= k < |m.trace| ==>
                  m.trace[k].before == TraceSpend(m.trace[..k]) && BelowCaps(w.budget, m.trace[k].before))
            && (w.budget.Some? && m.trace != [] ==>
                  && (w.budget.value.maxTokens.Some? ==>
                        m.ledger.totalTokens < w.budget.value.maxTokens.value + Last(m).spend.tokens)
                  && (w.budget.value.maxCost.Some? ==>
                        m.ledger.totalCost < w.budget.value.maxCost.value + Last(m).spend.cost))
  {
    EveryRunKeepsAccount(wf, w, event, events);
  }

  /** A suspension nobody but the operator asked for leaves the run strictly below every cap. */
  lemma {:induction false} OperatorPausesBelowCaps(wf: Workflow, w: World, event: Value, events: seq<Event>)
    requires KeyedByName(wf.registry)
    ensures var m := Exec(wf, w, Begin(wf, w, event), events);
            m.status.Suspended? ==>
              && m.ctx.metadata.suspension.Some?
              && (m.ctx.metadata.suspension.value.origin.None? ==> BelowCaps(w.budget, Spent(m.ledger)))
  {
    EveryRunKeepsAccount(wf, w, event, events);
  }

  /** The spend a suspended context stores. */
  function StoredSpend(c: Context): Option<Spend> {
    var marker := c.metadata.suspension;
    if marker.Some? && marker.value.ledger.Some?
    then Some(Spend(marker.value.ledger.value.totalTokens, marker.value.ledger.value.totalCost))
    else None
  }

  /**
   * What becomes of any suspended run at the first boundary after its resume, unless it is cancelled there:
   * it is halted if and only if the spend its marker stores has reached a cap.  After a pause the operator
   * asked for it never is.
   */
  lemma {:induction false} ResumeHaltsAtStoredSpend(wf: Workflow, w: World, event: Value, events: seq<Event>, e: Event)
    requires KeyedByName(wf.registry) && e.Tick? && !e.cancelled
    requires Exec(wf, w, Begin(wf, w, event), events).status.Suspended?
    ensures var c := Exec(wf, w, Begin(wf, w, event), events).ctx;
            var halted := Exec(wf, w, Begin(wf, w, event), events + [Continue, e]).status == BudgetHalted;
            && StoredSpend(c).Some? && (halted <==> !BelowCaps(w.budget, StoredSpend(c).value))
            && c.metadata.suspension.Some? && (c.metadata.suspension.value.origin.None? ==> !halted)
  {
    var m := Exec(wf, w, Begin(wf, w, event), events);
    EveryRunKeepsAccount(wf, w, event, events);
    ResumeRestoresExactly(wf, w, m);
    ExecSnoc(wf, w, Begin(wf, w, event), events, Continue);
    ExecSnoc(wf, w, Begin(wf, w, event), events + [Continue], e);
    assert (events + [Continue]) + [e] == events + [Continue, e];
    BoundaryHaltsAtCap(wf, w, Resumed(wf, w, m), e);
  }

  /** A node that reports some usage of its own and asks to be suspended. */
  function SpendingRequester(name: Id, tokens: nat): Node {
    Node(name,
         (c: Context) => Done(c.(
           nodeRuns := c.nodeRuns[name := PendingRun.(status := Running, usage := Some(Usage(Some(tokens), None, "model")))],
           metadata := c.metadata.(suspension := Some(Request(c.metadata.suspension, None))))),
         None)
  }

  function RequestThenStop(tokens: nat): Workflow {
    Workflow(map["A" := SpendingRequester("A", tokens)],
             Schema("request", "A", map["A" := NodeConfig("A", ["B"]), "B" := NodeConfig("B", [])]), map[])
  }

  /**
   * An instance.  A suspension a node asked for is not preceded by the budget check: whatever the node has just spent,
   * the run suspends, at or above the cap too, and only the first boundary after the resume halts it.
   */
  lemma {:induction false} RequestSuspendsOverCap(w: World, event: Value, tokens: nat, limit: nat)
    requires w.budget == Some(Budget(Some(limit), None)) && limit > 0
    ensures var wf, tick := RequestThenStop(tokens), Tick(false, false, 0);
            var m0 := Begin(wf, w, event);
            && Exec(wf, w, m0, [tick]).status == Suspended("B")
            && Exec(wf, w, m0, [tick]).ledger.totalTokens == tokens
            && (Exec(wf, w, m0, [tick, Continue, tick]).status == BudgetHalted <==> tokens >= limit)
  {
    var wf, tick := RequestThenStop(tokens), Tick(false, false, 0);
    var m0 := Begin(wf, w, event);
    var m1 := Advance(wf, w, m0, tick);
    ThreeEvents(wf, w, m0, tick, Continue, tick);
    RequesterSuspends(w, event, tokens, limit);
    ResumeRestoresExactly(wf, w, m1);
    BoundaryHaltsAtCap(wf, w, Resumed(wf, w, m1), tick);
  }

  lemma {:induction false} ThreeEvents(wf: Workflow, w: World, m: Machine, a: Event, b: Event, c: Event)
    ensures Exec(wf, w, m, [a]) == Advance(wf, w, m, a)
    ensures Exec(wf, w, m, [a, b, c]) == Advance(wf, w, Advance(wf, w, Advance(wf, w, m, a), b), c)
  {
    ExecSnoc(wf, w, m, [], a);
    ExecSnoc(wf, w, m, [a], b);
    ExecSnoc(wf, w, m, [a, b], c);
    assert [] + [a] == [a] && [a] + [b] == [a, b] && [a, b] + [c] == [a, b, c];
  }

  lemma BoundaryHaltsAtCap(wf: Workflow, w: World, m: Machine, e: Event)
    requires m.status.AtNode? && e.Tick? && !e.cancelled
    ensures Advance(wf, w, m, e).status == BudgetHalted <==> !BelowCaps(w.budget, Spent(m.ledger))
  {
    if BelowCaps(w.budget, Spent(m.ledger)) && !e.paused && m.status.at in wf.registry {
      assert !Proceed(w, AfterDispatch(wf, w, m, m.status.at, e.uuid)).status.BudgetHalted?;
    }
  }

  lemma RequesterSuspends(w: World, event: Value, tokens: nat, limit: nat)
    requires w.budget == Some(Budget(Some(limit), None)) && limit > 0
    ensures var wf := RequestThenStop(tokens);
            var m := Advance(wf, w, Begin(wf, w, event), Tick(false, false, 0));
            && m.status == Suspended("B") && m.ledger.totalTokens == tokens
            && StoredExactly(w, m)
  {
    var wf := RequestThenStop(tokens);
    var m0 := Begin(wf, w, event);
    var a := AfterDispatch(wf, w, m0, "A", 0);
    assert a.ctx.nodeRuns["A"].usage == Some(Usage(Some(tokens), None, "model"));
    assert a.ledger.totalTokens == tokens;
    assert a.trace[|a.trace| - 1].next == Some("B");
    PassStoresExactly(wf, w, m0, Tick(false, false, 0));
  }

  // ----- Failed dispatches -----

  /**
   * A failed dispatch rolls back to the context it was called with: whatever the node did to its own
   * copy is gone, so only what its error carries can be seen; the node's run is failed with the
   * message, its report (if any) is filed, its sessions are appended in order, and one row is added.
   */
  lemma FailedDispatchRollsBack(node: Node, c: Context, w: World, uuid: Uuid)
    requires var pre := EnterRunning(c, node.name); node.process(pre).Fault?
    ensures var pre := EnterRunning(c, node.name);
            var err := node.process(pre).error;
            var after := Dispatch(node, c, w, uuid).after;
            && after.event == c.event
            && (forall k :: k != node.name ==> (k in after.nodes <==> k in c.nodes) && (k in c.nodes ==> after.nodes[k] == c.nodes[k]))
            && (node.name in after.nodes <==> node.name in c.nodes || err.nodeResult.Some?)
            && (err.nodeResult.Some? ==> after.nodes[node.name] == err.nodeResult.value)
            && (err.nodeResult.None? && node.name in c.nodes ==> after.nodes[node.name] == c.nodes[node.name])
            && after.nodeRuns.Keys == c.nodeRuns.Keys + {node.name}
            && (forall k :: k in c.nodeRuns && k != node.name ==> after.nodeRuns[k] == c.nodeRuns[k])
            && after.nodeRuns[node.name].status == Failed && after.nodeRuns[node.name].error == Some(err.message)
            && after.metadata.sessions == c.metadata.sessions + err.sessions
            && after.metadata == c.metadata.(sessions := after.metadata.sessions, invocations := after.metadata.invocations)
            && after.metadata.invocations == c.metadata.invocations + [FailureRow(pre, err, node.name, uuid)]
  {
  }

  /** Spend is conserved across the rollback: totals grow by exactly the carried sessions'. */
  lemma FailedDispatchConservesSessions(node: Node, c: Context, w: World, uuid: Uuid)
    requires node.process(EnterRunning(c, node.name)).Fault?
    ensures var carried := node.process(EnterRunning(c, node.name)).error.sessions;
            var before, after := c.metadata.sessions, Dispatch(node, c, w, uuid).after.metadata.sessions;
            && |after| == |before| + |carried|
            && before <= after
            && SumCost(after) == SumCost(before) + SumCost(carried)
            && (forall channel :: SumTokens(after, channel) == SumTokens(before, channel) + SumTokens(carried, channel))
            && CountUnknown(after) == CountUnknown(before) + CountUnknown(carried)
  {
    FailedDispatchRollsBack(node, c, w, uuid);
    TotalsAreAdditive(c.metadata.sessions, node.process(EnterRunning(c, node.name)).error.sessions);
  }
}
