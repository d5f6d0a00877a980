/**
 * What every run keeps although its nodes are trusted with less: the dispatch ledger needs only nodes that
 * leave its rows alone, the budget account and the stored resume point need nothing of the nodes at all.
 */
module Accounts {
  import opened Json
  import opened Contexts
  import opened Budgets
  import opened Suspensions
  import opened Ledgers
  import opened Nodes
  import opened Schemas
  import opened TaskContexts
  import opened Workflows
  import opened Runs

  // ----- Rows -----

  ghost predicate RowsExact(m: Machine) { LedgerExact(m) && SnapshotsOrdered(m) }

  lemma PassKeepsRows(wf: Workflow, w: World, m: Machine, e: Event)
    requires RowKeepingRegistry(wf.registry) && m.status.AtNode? && e.Tick? && RowsExact(m)
    ensures RowsExact(Advance(wf, w, m, e))
  {
    var n := Advance(wf, w, m, e);
    PassOutline(wf, w, m, e);
    if Stopped(m, n) {
      OneMoreSnapshot(m, n, n.ctx);
    } else if m.status.at in wf.registry {
      var node := wf.registry[m.status.at];
      var d := Dispatch(node, m.ctx, w, e.uuid);
      DispatchAddsRow(node, m.ctx, w, e.uuid);
      VisitKeepsLedger(m, n, d, e.uuid);
      VisitKeepsOrder(m, n, d, e.uuid);
    }
  }

  lemma ResumeKeepsRows(wf: Workflow, w: World, m: Machine)
    requires m.status.Suspended? && RowsExact(m)
    ensures RowsExact(Resumed(wf, w, m))
  {
    var n := Resumed(wf, w, m);
    assert Rows(n.ctx) == Rows(m.ctx) && n.trace == m.trace;
    if n != m {
      OneMoreSnapshot(m, n, n.ctx);
    }
  }

  lemma {:induction false} EveryRunKeepsRows(wf: Workflow, w: World, event: Value, events: seq<Event>)
    requires RowKeepingRegistry(wf.registry)
    ensures RowsExact(Exec(wf, w, Begin(wf, w, event), events))
    decreases |events|
  {
    if events != [] {
      var init, e := events[..|events| - 1], events[|events| - 1];
      EveryRunKeepsRows(wf, w, event, init);
      var m := Exec(wf, w, Begin(wf, w, event), init);
      if e.Tick? && m.status.AtNode? {
        PassKeepsRows(wf, w, m, e);
      } else if e.Continue? && m.status.Suspended? {
        ResumeKeepsRows(wf, w, m);
      }
    }
  }

  // ----- Spend and resume point -----

  /**
   * A suspension stores pointer and spend exactly.  One the operator asked for comes below every cap; one a
   * node asked for, as the last one run, stores the reason that node's request gave.
   */
  ghost predicate StoredExactly(w: World, m: Machine) {
    m.status.Suspended? ==>
      var marker := m.ctx.metadata.suspension;
      && marker.Some? && marker.value.suspended
      && marker.value.resumeAt == Some(m.status.resumeAt)
      && marker.value.ledger == Some(LedgerSnapshot(m.ledger.totalTokens, m.ledger.totalCost))
      && (marker.value.origin.None? ==> marker.value.reason == Some(OperatorPause) && BelowCaps(w.budget, Spent(m.ledger)))
      && (marker.value.origin.Some? ==>
            && m.trace != [] && marker.value.origin.value == Last(m).identity
            && Requested(Last(m).after.metadata.suspension)
            && marker.value.reason == Some(RequestedReason(Last(m).after.metadata.suspension)))
  }

  lemma PassStoresExactly(wf: Workflow, w: World, m: Machine, e: Event)
    requires KeyedByName(wf.registry) && m.status.AtNode? && e.Tick?
    ensures StoredExactly(w, Advance(wf, w, m, e))
  {
    if !e.cancelled && Check(m.ledger, w.budget).Allow? && !e.paused && m.status.at in wf.registry {
      ProceedStoresExactly(w, AfterDispatch(wf, w, m, m.status.at, e.uuid));
    }
  }

  lemma ProceedStoresExactly(w: World, a: Machine)
    requires a.trace != [] && a.ctx == Last(a).after
    ensures StoredExactly(w, Proceed(w, a))
  {
  }

  /** A resume takes up pointer and spend exactly as they were. */
  lemma ResumeRestoresExactly(wf: Workflow, w: World, m: Machine)
    requires m.status.Suspended? && StoredExactly(w, m)
    ensures var n := Resumed(wf, w, m);
            n.status == AtNode(m.status.resumeAt) && Spent(n.ledger) == Spent(m.ledger) && n.trace == m.trace
  {
  }

  lemma PassKeepsBudget(wf: Workflow, w: World, m: Machine, e: Event)
    requires KeyedByName(wf.registry) && m.status.AtNode? && e.Tick? && BudgetKept(w, m)
    ensures BudgetKept(w, Advance(wf, w, m, e))
  {
    PassOutline(wf, w, m, e);
    var n := Advance(wf, w, m, e);
    if !Stopped(m, n) && m.status.at in wf.registry {
      VisitKeepsBudget(w, m, n, Dispatch(wf.registry[m.status.at], m.ctx, w, e.uuid));
    }
  }

  lemma {:induction false} EveryRunKeepsAccount(wf: Workflow, w: World, event: Value, events: seq<Event>)
    requires KeyedByName(wf.registry)
    ensures var m := Exec(wf, w, Begin(wf, w, event), events); BudgetKept(w, m) && StoredExactly(w, m)
    decreases |events|
  {
    if events != [] {
      var init, e := events[..|events| - 1], events[|events| - 1];
      EveryRunKeepsAccount(wf, w, event, init);
      var m := Exec(wf, w, Begin(wf, w, event), init);
      if e.Tick? && m.status.AtNode? {
        PassKeepsBudget(wf, w, m, e);
        PassStoresExactly(wf, w, m, e);
      } else if e.Continue? && m.status.Suspended? {
        ResumeRestoresExactly(wf, w, m);
      }
    }
  }

  // ----- The number of snapshots -----

  lemma PassCountsSnapshots(wf: Workflow, w: World, m: Machine, e: Event)
    requires KeyedByName(wf.registry) && m.status.AtNode? && e.Tick? && |m.emitted| == SnapshotCount(m)
    ensures var n := Advance(wf, w, m, e); |n.emitted| == SnapshotCount(n)
  {
    PassOutline(wf, w, m, e);
  }

  lemma {:induction false} EveryRunCountsSnapshots(wf: Workflow, w: World, event: Value, events: seq<Event>)
    requires KeyedByName(wf.registry)
    ensures var m := Exec(wf, w, Begin(wf, w, event), events); |m.emitted| == SnapshotCount(m)
    decreases |events|
  {
    if events != [] {
      var init, e := events[..|events| - 1], events[|events| - 1];
      EveryRunCountsSnapshots(wf, w, event, init);
      EveryRunKeepsAccount(wf, w, event, init);
      var m := Exec(wf, w, Begin(wf, w, event), init);
      if e.Tick? && m.status.AtNode? {
        PassCountsSnapshots(wf, w, m, e);
      } else if e.Continue? && m.status.Suspended? {
        ResumeRestoresExactly(wf, w, m);
      }
    }
  }
}
