/**
 * What every run keeps: the dispatch ledger, the snapshots handed to the progress callback, the stop
 * markers, and the budget account.  Each is an invariant of `Exec` from a fresh start, over every
 * sequence of ticks and resumes and every choice of nodes that respect their frame.
 */
module Runs {
  import opened Json
  import opened Contexts
  import opened Budgets
  import opened Suspensions
  import opened Ledgers
  import opened Nodes
  import opened Schemas
  import opened TaskContexts
  import opened Workflows

  function Rows(c: Context): seq<Invocation> { c.metadata.invocations }

  predicate HasStatus(runs: map<Id, NodeRun>, k: Id, s: NodeRunStatus) { k in runs && runs[k].status == s }

  predicate EndedEarly(s: Status) { s.Cancelled? || s.BudgetHalted? || s.Suspended? }

  // ----- What one dispatch and one pass of the loop do, in outline -----

  /** A dispatch appends one row. */
  ghost predicate RowOutline(c: Context, identity: Id, uuid: Uuid, d: Dispatched) {
    && Rows(d.running) == Rows(c)
    && exists row :: Rows(d.after) == Rows(c) + [row] && RowMatches(row, |Rows(c)|, identity, d.failed) && row.id == uuid
  }

  /** A dispatch shows the node as running, ends it, appends one row, and leaves the stop markers alone. */
  ghost predicate DispatchOutline(c: Context, identity: Id, uuid: Uuid, d: Dispatched) {
    && RowOutline(c, identity, uuid, d)
    && (forall k, s :: HasStatus(d.running.nodeRuns, k, s) <==>
          if k == identity then s == Running else HasStatus(c.nodeRuns, k, s))
    && (forall k, s :: HasStatus(d.after.nodeRuns, k, s) <==>
          if k == identity then s == (if d.failed then Failed else Success) else HasStatus(c.nodeRuns, k, s))
    && d.after.nodeRuns.Keys == c.nodeRuns.Keys + {identity}
    && d.after.metadata.cancelled == c.metadata.cancelled
    && d.after.metadata.budgetHalt == c.metadata.budgetHalt
    && d.after.metadata.runId == c.metadata.runId
    && OnlyRequests(c.metadata.suspension, d.after.metadata.suspension)
    && (d.failed ==> d.after.metadata.suspension == c.metadata.suspension)
  }

  predicate RowMatches(row: Invocation, k: nat, identity: Id, failed: bool) {
    row.rowSeq == k && row.node == identity && (row.status == InvocationFailed <==> failed)
  }

  lemma DispatchAddsRow(node: Node, c: Context, w: World, uuid: Uuid)
    requires KeepsRows(node)
    ensures RowOutline(c, node.name, uuid, Dispatch(node, c, w, uuid))
  {
    var pre := EnterRunning(c, node.name);
    var d := Dispatch(node, c, w, uuid);
    match node.process(pre)
    case Done(out) =>
      assert node.process(pre).ctx.metadata.invocations == pre.metadata.invocations;
      assert Rows(d.after) == Rows(c) + [SuccessRow(pre, out, node.name, w, uuid)];
    case Fault(err) =>
      assert Rows(d.after) == Rows(c) + [FailureRow(pre, err, node.name, uuid)];
  }

  lemma DispatchHasOutline(node: Node, c: Context, w: World, uuid: Uuid)
    requires Framed(node)
    ensures DispatchOutline(c, node.name, uuid, Dispatch(node, c, w, uuid))
  {
    var pre := EnterRunning(c, node.name);
    assert node.process(pre).Done? ==> FramedStep(pre, node.process(pre).ctx);
    FramedKeepsRows(node);
    DispatchAddsRow(node, c, w, uuid);
  }

  lemma FramedKeepsRows(node: Node)
    requires Framed(node)
    ensures KeepsRows(node)
  {
    forall c | node.process(c).Done?
      ensures node.process(c).ctx.metadata.invocations == c.metadata.invocations
    {
      assert FramedStep(c, node.process(c).ctx);
    }
  }

  /** The walk stopped at the boundary: markers and telemetry only, and one more snapshot. */
  ghost predicate Stopped(m: Machine, n: Machine) {
    && EndedEarly(n.status)
    && n.trace == m.trace && n.ledger == m.ledger && n.resumes == m.resumes
    && n.ctx == m.ctx.(metadata := n.ctx.metadata)
    && Rows(n.ctx) == Rows(m.ctx) && n.ctx.metadata.runId == m.ctx.metadata.runId
    && n.emitted == m.emitted + [n.ctx]
  }

  /** The walk ran one node: one visit, its spend, its snapshots, and where it led. */
  ghost predicate Visited(m: Machine, n: Machine, d: Dispatched) {
    && |n.trace| == |m.trace| + 1 && n.trace == m.trace + [Last(n)] && n.resumes == m.resumes
    && m.status.AtNode? && Last(n).identity == m.status.at && Last(n).failed == d.failed && Last(n).after == d.after
    && Last(n).before == Spent(m.ledger)
    && n.ledger.totalTokens == m.ledger.totalTokens + Last(n).spend.tokens
    && n.ledger.totalCost == m.ledger.totalCost + Last(n).spend.cost
    && n.ctx == d.after.(metadata := n.ctx.metadata)
    && Rows(n.ctx) == Rows(d.after) && n.ctx.metadata.runId == d.after.metadata.runId
    && n.emitted == m.emitted + [d.running, d.after] + (if n.status.Suspended? then [n.ctx] else [])
    && match n.status
       case NodeFailed => d.failed && Last(n).next.None?
       case Completed => !d.failed && Last(n).next.None?
       case AtNode(x) => !d.failed && Last(n).next == Some(x)
       case Suspended(x) => !d.failed && Last(n).next == Some(x)
       case _ => false
  }

  function Last(m: Machine): Visit
    requires m.trace != []
  {
    m.trace[|m.trace| - 1]
  }

  /** The visit just taken, before the walk decides how to go on. */
  ghost predicate Taken(m: Machine, a: Machine, d: Dispatched) {
    && |a.trace| == |m.trace| + 1 && a.trace == m.trace + [Last(a)] && a.resumes == m.resumes
    && m.status.AtNode? && Last(a).identity == m.status.at && Last(a).failed == d.failed && Last(a).after == d.after
    && (d.failed ==> Last(a).next.None?)
    && Last(a).before == Spent(m.ledger)
    && a.ledger.totalTokens == m.ledger.totalTokens + Last(a).spend.tokens
    && a.ledger.totalCost == m.ledger.totalCost + Last(a).spend.cost
    && a.ctx == d.after && a.emitted == m.emitted + [d.running, d.after]
  }

  lemma ProceedOutline(w: World, m: Machine, a: Machine, d: Dispatched)
    requires Taken(m, a, d)
    ensures Visited(m, Proceed(w, a), d)
  {
  }

  lemma PassOutline(wf: Workflow, w: World, m: Machine, e: Event)
    requires KeyedByName(wf.registry) && m.status.AtNode? && e.Tick?
    ensures var n := Advance(wf, w, m, e);
            || Stopped(m, n)
            || (n == m.(status := Unresolved(m.status.at)) && m.status.at !in wf.registry)
            || (m.status.at in wf.registry && Check(m.ledger, w.budget).Allow?
                && Visited(m, n, Dispatch(wf.registry[m.status.at], m.ctx, w, e.uuid)))
  {
    if !e.cancelled && Check(m.ledger, w.budget).Allow? && !e.paused && m.status.at in wf.registry {
      var d := Dispatch(wf.registry[m.status.at], m.ctx, w, e.uuid);
      var a := Absorb(wf, m, m.status.at, d);
      assert a.trace == m.trace + [a.trace[|m.trace|]];
      ProceedOutline(w, m, a, d);
    }
  }

  /** A visit that did not fail leads where the node's router says, or else down its first connection. */
  lemma VisitLeadsToSuccessor(wf: Workflow, w: World, m: Machine, e: Event)
    requires KeyedByName(wf.registry) && m.status.AtNode? && m.status.at in wf.registry && e.Tick?
    requires Visited(m, Advance(wf, w, m, e), Dispatch(wf.registry[m.status.at], m.ctx, w, e.uuid))
    ensures var n := Advance(wf, w, m, e);
            !Last(n).failed ==> Last(n).next == Successor(wf, wf.registry[m.status.at], m.status.at, Last(n).after)
    ensures var n := Advance(wf, w, m, e);
            n.status.Suspended? ==> Requested(Last(n).after.metadata.suspension)
  {
  }

  // ----- The dispatch ledger -----

  /** One row per dispatch, in order, numbered from zero; only the very last one may have failed. */
  ghost predicate LedgerExact(m: Machine) {
    && |Rows(m.ctx)| == |m.trace|
    && (forall k :: 0 <= k < |m.trace| ==> RowMatches(Rows(m.ctx)[k], k, m.trace[k].identity, m.trace[k].failed))
    && (forall k :: 0 <= k < |m.trace| && m.trace[k].failed ==> k == |m.trace| - 1 && m.status == NodeFailed)
  }

  lemma VisitKeepsLedger(m: Machine, n: Machine, d: Dispatched, uuid: Uuid)
    requires LedgerExact(m) && Visited(m, n, d) && RowOutline(m.ctx, m.status.at, uuid, d)
    ensures LedgerExact(n)
  {
  }

  // ----- Snapshots -----

  function SnapshotCount(m: Machine): nat {
    1 + 2 * m.resumes + 2 * |m.trace| + (if EndedEarly(m.status) then 1 else 0)
  }

  /** The only run shown as running is the dispatch in flight: the one whose row is not there yet. */
  ghost predicate RunningIsInFlight(c: Context, trace: seq<Visit>) {
    forall k :: HasStatus(c.nodeRuns, k, Running) ==> |Rows(c)| < |trace| && trace[|Rows(c)|].identity == k
  }

  ghost predicate NothingFailed(c: Context) {
    forall k :: !HasStatus(c.nodeRuns, k, Failed)
  }

  /** A failed run shows only once the walk failed, only in its last snapshot, and only on the last node run. */
  ghost predicate FailureIsFinal(m: Machine) {
    && (forall i :: 0 <= i < |m.emitted| && (m.status != NodeFailed || i < |m.emitted| - 1) ==> NothingFailed(m.emitted[i]))
    && (m.status != NodeFailed ==> NothingFailed(m.ctx))
    && (m.status == NodeFailed ==>
          && m.trace != [] && m.emitted != []
          && m.emitted[|m.emitted| - 1].nodeRuns == m.ctx.nodeRuns
          && forall k :: HasStatus(m.ctx.nodeRuns, k, Failed) <==> k == Last(m).identity)
  }

  ghost predicate SnapshotsSound(m: Machine) {
    && |m.emitted| == SnapshotCount(m)
    && (forall i :: 0 <= i < |m.emitted| ==> RunningIsInFlight(m.emitted[i], m.trace))
    && (forall k :: !HasStatus(m.ctx.nodeRuns, k, Running))
    && FailureIsFinal(m)
  }

  /** The ledgers shown by successive snapshots only ever grow at the end. */
  ghost predicate SnapshotsOrdered(m: Machine) {
    && (forall i, j :: 0 <= i <= j < |m.emitted| ==> Rows(m.emitted[i]) <= Rows(m.emitted[j]))
    && (forall i :: 0 <= i < |m.emitted| ==> Rows(m.emitted[i]) <= Rows(m.ctx))
  }

  lemma OneMoreSnapshot(m: Machine, n: Machine, c: Context)
    requires SnapshotsOrdered(m) && n.emitted == m.emitted + [c]
    requires Rows(m.ctx) <= Rows(c) <= Rows(n.ctx)
    ensures SnapshotsOrdered(n)
  {
    forall i, j | 0 <= i <= j < |n.emitted|
      ensures Rows(n.emitted[i]) <= Rows(n.emitted[j])
    {
      if i < |m.emitted| {
        assert Rows(m.emitted[i]) <= Rows(m.ctx);
      }
    }
  }

  lemma VisitKeepsOrder(m: Machine, n: Machine, d: Dispatched, uuid: Uuid)
    requires SnapshotsOrdered(m) && Visited(m, n, d) && RowOutline(m.ctx, m.status.at, uuid, d)
    ensures SnapshotsOrdered(n)
  {
    var a := m.(emitted := m.emitted + [d.running]);
    OneMoreSnapshot(m, a, d.running);
    var b := a.(emitted := a.emitted + [d.after], ctx := d.after);
    OneMoreSnapshot(a, b, d.after);
    if n.status.Suspended? {
      assert n.emitted == b.emitted + [n.ctx];
      OneMoreSnapshot(b, n, n.ctx);
    } else {
      assert n.emitted == b.emitted;
    }
  }

  lemma VisitKeepsSnapshots(m: Machine, n: Machine, d: Dispatched, uuid: Uuid)
    requires LedgerExact(m) && SnapshotsSound(m) && m.status.AtNode?
    requires Visited(m, n, d) && DispatchOutline(m.ctx, m.status.at, uuid, d)
    ensures SnapshotsSound(n)
  {
    forall i | 0 <= i < |n.emitted|
      ensures RunningIsInFlight(n.emitted[i], n.trace)
      ensures n.status != NodeFailed || i < |n.emitted| - 1 ==> NothingFailed(n.emitted[i])
    {
      if i < |m.emitted| {
        assert n.emitted[i] == m.emitted[i];
        assert RunningIsInFlight(m.emitted[i], m.trace);
      } else if i == |m.emitted| {
        assert n.emitted[i] == d.running;
      } else {
        assert n.emitted[i].nodeRuns == d.after.nodeRuns;
      }
    }
  }

  lemma StopKeepsSnapshots(m: Machine, n: Machine)
    requires LedgerExact(m) && SnapshotsSound(m) && m.status.AtNode? && Stopped(m, n)
    ensures SnapshotsSound(n)
  {
    assert NothingFailed(m.ctx);
    forall i | 0 <= i < |n.emitted|
      ensures RunningIsInFlight(n.emitted[i], n.trace) && NothingFailed(n.emitted[i])
    {
      if i < |m.emitted| {
        assert n.emitted[i] == m.emitted[i];
      } else {
        assert n.emitted[i].nodeRuns == m.ctx.nodeRuns;
      }
    }
  }

  // ----- Stop markers -----

  /** Exactly the marker of the exit taken is set, and a suspension stores pointer and spend exactly. */
  ghost predicate MarkersMatch(m: Machine) {
    var d := m.ctx.metadata;
    && (d.cancelled <==> m.status == Cancelled)
    && (d.budgetHalt.Some? <==> m.status == BudgetHalted)
    && (IsSuspended(d.suspension) <==> m.status.Suspended?)
    && (m.status.AtNode? || m.status.Suspended? ==>
          !Requested(d.suspension) && (d.suspension.Some? ==> d.suspension.value.pendingReason.None?))
    && (m.status.Suspended? ==>
          && d.suspension.value.resumeAt == Some(m.status.resumeAt)
          && d.suspension.value.ledger == Some(LedgerSnapshot(m.ledger.totalTokens, m.ledger.totalCost)))
    && ResumeCount(d.suspension) == m.resumes
  }

  lemma PassKeepsMarkers(wf: Workflow, w: World, m: Machine, e: Event)
    requires FramedRegistry(wf.registry) && m.status.AtNode? && e.Tick? && MarkersMatch(m)
    ensures MarkersMatch(Advance(wf, w, m, e))
  {
    if !e.cancelled && Check(m.ledger, w.budget).Allow? && !e.paused && m.status.at in wf.registry {
      var node := wf.registry[m.status.at];
      DispatchHasOutline(node, m.ctx, w, e.uuid);
      var d := Dispatch(node, m.ctx, w, e.uuid);
      ProceedKeepsMarkers(w, m, Absorb(wf, m, m.status.at, d), d, e.uuid);
    }
  }

  lemma ProceedKeepsMarkers(w: World, m: Machine, a: Machine, d: Dispatched, uuid: Uuid)
    requires m.status.AtNode? && MarkersMatch(m) && DispatchOutline(m.ctx, m.status.at, uuid, d)
    requires a.ctx == d.after && a.resumes == m.resumes && a.trace != [] && Last(a).failed == d.failed
    ensures MarkersMatch(Proceed(w, a))
  {
  }

  // ----- Budget account -----

  function TraceSpend(trace: seq<Visit>): Spend {
    if trace == [] then Spend(0, 0.0)
    else
      var before, last := TraceSpend(trace[..|trace| - 1]), trace[|trace| - 1].spend;
      Spend(before.tokens + last.tokens, before.cost + last.cost)
  }

  /** The ledger is the sum of every visit's spend, and no visit began at or above a cap. */
  ghost predicate BudgetKept(w: World, m: Machine) {
    && Spent(m.ledger) == TraceSpend(m.trace)
    && forall k :: 0 <= k < |m.trace| ==>
         m.trace[k].before == TraceSpend(m.trace[..k]) && BelowCaps(w.budget, m.trace[k].before)
  }

  /** The account is kept by any visit that began on it, below every cap. */
  lemma {:induction false} AccountExtends(w: World, trace: seq<Visit>, v: Visit, k: nat)
    requires forall j :: 0 <= j < |trace| ==> trace[j].before == TraceSpend(trace[..j]) && BelowCaps(w.budget, trace[j].before)
    requires v.before == TraceSpend(trace) && BelowCaps(w.budget, v.before)
    requires k <= |trace|
    ensures (trace + [v])[k].before == TraceSpend((trace + [v])[..k]) && BelowCaps(w.budget, (trace + [v])[k].before)
  {
    assert (trace + [v])[..k] == trace[..k];
    assert trace[..|trace|] == trace;
  }

  lemma {:induction false} TraceSpendSnoc(trace: seq<Visit>, v: Visit)
    ensures TraceSpend(trace + [v]).tokens == TraceSpend(trace).tokens + v.spend.tokens
    ensures TraceSpend(trace + [v]).cost == TraceSpend(trace).cost + v.spend.cost
  {
    assert (trace + [v])[..|trace|] == trace;
  }

  lemma VisitKeepsBudget(w: World, m: Machine, n: Machine, d: Dispatched)
    requires BudgetKept(w, m) && Visited(m, n, d) && Check(m.ledger, w.budget).Allow?
    ensures BudgetKept(w, n)
  {
    TraceSpendSnoc(m.trace, Last(n));
    forall k | 0 <= k < |n.trace|
      ensures n.trace[k].before == TraceSpend(n.trace[..k]) && BelowCaps(w.budget, n.trace[k].before)
    {
      AccountExtends(w, m.trace, Last(n), k);
    }
  }

  // ----- Everything, over every run -----

  /** Every declared node has a run record, and a configured run id stays stamped. */
  ghost predicate Declared(wf: Workflow, w: World, m: Machine) {
    && wf.schema.nodes.Keys <= m.ctx.nodeRuns.Keys
    && (w.runId.Some? ==> m.ctx.metadata.runId == w.runId)
  }

  ghost predicate Invariant(wf: Workflow, w: World, m: Machine) {
    && LedgerExact(m) && SnapshotsOrdered(m) && SnapshotsSound(m)
    && MarkersMatch(m) && BudgetKept(w, m) && Declared(wf, w, m)
  }

  /** A resume changes the marker and nothing else: pointer, spend and history carry over exactly. */
  lemma ResumeChangesOnlyTheMarker(wf: Workflow, w: World, m: Machine)
    requires m.status.Suspended? && MarkersMatch(m) && Declared(wf, w, m)
    ensures var n := Resumed(wf, w, m);
            && n.status == AtNode(m.status.resumeAt)
            && n.ctx == WithSuspension(m.ctx, StampResumed(m.ctx.metadata.suspension))
            && Spent(n.ledger) == Spent(m.ledger)
            && n.trace == m.trace && n.emitted == m.emitted + [n.ctx] && n.resumes == m.resumes + 1
  {
    var seeded := SeedMissing(m.ctx, wf.schema.nodes.Keys);
    assert seeded.nodeRuns == m.ctx.nodeRuns;
  }

  lemma ResumeKeepsSnapshots(m: Machine, n: Machine)
    requires LedgerExact(m) && SnapshotsSound(m) && m.status.Suspended? && n.status.AtNode?
    requires n.ctx.nodeRuns == m.ctx.nodeRuns && Rows(n.ctx) == Rows(m.ctx)
    requires n.trace == m.trace && n.emitted == m.emitted + [n.ctx] && n.resumes == m.resumes + 1
    ensures SnapshotsSound(n)
  {
    assert NothingFailed(m.ctx);
    forall i | 0 <= i < |n.emitted|
      ensures RunningIsInFlight(n.emitted[i], n.trace) && NothingFailed(n.emitted[i])
    {
      if i < |m.emitted| {
        assert n.emitted[i] == m.emitted[i];
      } else {
        assert n.emitted[i].nodeRuns == m.ctx.nodeRuns;
      }
    }
  }

  lemma ResumeKeepsInvariant(wf: Workflow, w: World, m: Machine)
    requires m.status.Suspended? && Invariant(wf, w, m)
    ensures Invariant(wf, w, Resumed(wf, w, m))
  {
    ResumeChangesOnlyTheMarker(wf, w, m);
    var n := Resumed(wf, w, m);
    ResumeKeepsSnapshots(m, n);
    OneMoreSnapshot(m, n, n.ctx);
  }

  lemma PassKeepsInvariant(wf: Workflow, w: World, m: Machine, e: Event)
    requires FramedRegistry(wf.registry) && m.status.AtNode? && e.Tick? && Invariant(wf, w, m)
    ensures Invariant(wf, w, Advance(wf, w, m, e))
  {
    var n := Advance(wf, w, m, e);
    PassOutline(wf, w, m, e);
    PassKeepsMarkers(wf, w, m, e);
    if Stopped(m, n) {
      StopKeepsSnapshots(m, n);
      OneMoreSnapshot(m, n, n.ctx);
    } else if m.status.at in wf.registry {
      var node := wf.registry[m.status.at];
      var d := Dispatch(node, m.ctx, w, e.uuid);
      DispatchHasOutline(node, m.ctx, w, e.uuid);
      VisitKeepsLedger(m, n, d, e.uuid);
      VisitKeepsOrder(m, n, d, e.uuid);
      VisitKeepsSnapshots(m, n, d, e.uuid);
      VisitKeepsBudget(w, m, n, d);
    }
  }

  lemma {:induction false} InvariantIsKept(wf: Workflow, w: World, m0: Machine, events: seq<Event>)
    requires FramedRegistry(wf.registry) && Invariant(wf, w, m0)
    ensures Invariant(wf, w, Exec(wf, w, m0, events))
    decreases |events|
  {
    if events != [] {
      var init, e := events[..|events| - 1], events[|events| - 1];
      InvariantIsKept(wf, w, m0, init);
      var m := Exec(wf, w, m0, init);
      if e.Tick? && m.status.AtNode? {
        PassKeepsInvariant(wf, w, m, e);
      } else if e.Continue? && m.status.Suspended? {
        ResumeKeepsInvariant(wf, w, m);
      }
    }
  }

  lemma BeginIsSound(wf: Workflow, w: World, event: Value)
    ensures Invariant(wf, w, Begin(wf, w, event))
  {
  }

  lemma {:induction false} EveryRunKeepsInvariant(wf: Workflow, w: World, event: Value, events: seq<Event>)
    requires FramedRegistry(wf.registry)
    ensures Invariant(wf, w, Exec(wf, w, Begin(wf, w, event), events))
  {
    BeginIsSound(wf, w, event);
    InvariantIsKept(wf, w, Begin(wf, w, event), events);
  }

  lemma {:induction false} EveryRunKeepsMarkers(wf: Workflow, w: World, event: Value, events: seq<Event>)
    requires FramedRegistry(wf.registry)
    ensures MarkersMatch(Exec(wf, w, Begin(wf, w, event), events))
  {
    EveryRunKeepsInvariant(wf, w, event, events);
  }
}
