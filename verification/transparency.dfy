/**
 * Suspend and resume are invisible to the work: a run cut at any operator pauses, each followed by a
 * resume, and the run that was never paused dispatch the same nodes and end alike in everything but
 * the suspension marker, the telemetry stamp and the minted ids.
 */
module Transparency {
  import opened Json
  import opened Contexts
  import opened Budgets
  import opened Suspensions
  import opened Ledgers
  import opened Nodes
  import opened Schemas
  import opened TaskContexts
  import opened Workflows
  import opened Runs

  // ----- What is compared -----

  function ForgetId(row: Invocation): Invocation { row.(id := 0) }

  function ForgetIds(rows: seq<Invocation>): (r: seq<Invocation>)
    ensures |r| == |rows|
  {
    seq(|rows|, i requires 0 <= i < |rows| => ForgetId(rows[i]))
  }

  /** Of the marker only a pending request matters to the walk. */
  function VisibleRequest(m: Option<Marker>): Option<Marker> {
    if Requested(m) then Some(Request(None, m.value.pendingReason)) else None
  }

  function VisibleMetadata(d: Metadata): Metadata {
    d.(telemetry := None, suspension := VisibleRequest(d.suspension), invocations := ForgetIds(d.invocations))
  }

  /** A context up to telemetry, the suspension key and minted ids. */
  function Visible(c: Context): Context { c.(metadata := VisibleMetadata(c.metadata)) }

  predicate SameOutcome(a: Outcome, b: Outcome) {
    match (a, b)
    case (Fault(x), Fault(y)) => x == y
    case (Done(x), Done(y)) => Visible(x) == Visible(y)
    case _ => false
  }

  /** A node (and its routing) that does not look at what a resume may change. */
  ghost predicate Oblivious(node: Node) {
    forall a, b :: Visible(a) == Visible(b) ==>
      && SameOutcome(node.process(a), node.process(b))
      && (node.router.Some? ==> node.router.value(a) == node.router.value(b))
  }

  ghost predicate ObliviousRegistry(registry: Registry) {
    forall k :: k in registry ==> Oblivious(registry[k])
  }

  predicate SameVisit(a: Visit, b: Visit) {
    a.identity == b.identity && a.before == b.before && a.spend == b.spend && a.next == b.next && a.failed == b.failed
    && Visible(a.after) == Visible(b.after)
  }

  ghost predicate SameTrace(a: seq<Visit>, b: seq<Visit>) {
    |a| == |b| && forall k :: 0 <= k < |a| ==> SameVisit(a[k], b[k])
  }

  /** The same run so far, where a suspended walk counts as standing at its resume point. */
  ghost predicate SameRun(cut: Machine, plain: Machine) {
    && Visible(cut.ctx) == Visible(plain.ctx)
    && Spent(cut.ledger) == Spent(plain.ledger)
    && SameTrace(cut.trace, plain.trace)
    && (if cut.status.Suspended? then plain.status == AtNode(cut.status.resumeAt) else plain.status == cut.status)
  }

  // ----- One dispatch on two contexts that look alike -----

  lemma VisibleRows(a: Context, b: Context)
    requires Visible(a) == Visible(b)
    ensures |a.metadata.invocations| == |b.metadata.invocations|
    ensures ForgetIds(a.metadata.invocations) == ForgetIds(b.metadata.invocations)
    ensures a.event == b.event && a.nodes == b.nodes && a.nodeRuns == b.nodeRuns
    ensures a.metadata.runId == b.metadata.runId && a.metadata.sessions == b.metadata.sessions
    ensures Requested(a.metadata.suspension) == Requested(b.metadata.suspension)
    ensures RequestedReason(VisibleRequest(a.metadata.suspension)) == RequestedReason(VisibleRequest(b.metadata.suspension))
  {
    assert Visible(a).metadata == Visible(b).metadata;
    assert |ForgetIds(a.metadata.invocations)| == |ForgetIds(b.metadata.invocations)|;
  }

  /** Appending alike rows to alike contexts, on alike nodes and run records, keeps them alike. */
  lemma AppendAlike(a: Context, b: Context, x: Invocation, y: Invocation)
    requires Visible(a) == Visible(b) && ForgetId(x) == ForgetId(y)
    ensures Visible(WithInvocation(a, x)) == Visible(WithInvocation(b, y))
  {
    VisibleRows(a, b);
    var p, q := a.metadata.invocations, b.metadata.invocations;
    assert ForgetIds(p + [x]) == ForgetIds(p) + [ForgetId(x)];
    assert ForgetIds(q + [y]) == ForgetIds(q) + [ForgetId(y)];
    assert Visible(a).metadata == Visible(b).metadata;
  }

  lemma SameVisibleFields(a: Context, b: Context, nodes: map<Id, Value>, runs: map<Id, NodeRun>, more: seq<Session>)
    requires Visible(a) == Visible(b)
    ensures Visible(WithSessions(a, more).(nodes := nodes, nodeRuns := runs)) ==
            Visible(WithSessions(b, more).(nodes := nodes, nodeRuns := runs))
  {
    VisibleRows(a, b);
    assert Visible(a).metadata == Visible(b).metadata;
  }

  lemma EnterAlike(a: Context, b: Context, identity: Id)
    requires Visible(a) == Visible(b)
    ensures Visible(EnterRunning(a, identity)) == Visible(EnterRunning(b, identity))
  {
    VisibleRows(a, b);
    assert Visible(a).metadata == Visible(b).metadata;
  }

  lemma FailAlike(a: Context, b: Context, err: NodeError, identity: Id, x: Uuid, y: Uuid)
    requires Visible(a) == Visible(b)
    ensures Visible(Fail(a, err, identity, x)) == Visible(Fail(b, err, identity, y))
  {
    VisibleRows(a, b);
    var reported := if err.nodeResult.Some? then a.nodes[identity := err.nodeResult.value] else a.nodes;
    var runs := if identity in a.nodeRuns
                then a.nodeRuns[identity := a.nodeRuns[identity].(status := Failed, error := Some(err.message))]
                else a.nodeRuns;
    SameVisibleFields(a, b, reported, runs, err.sessions);
    AppendAlike(WithSessions(a, err.sessions).(nodes := reported, nodeRuns := runs),
                WithSessions(b, err.sessions).(nodes := reported, nodeRuns := runs),
                FailureRow(a, err, identity, x), FailureRow(b, err, identity, y));
  }

  lemma SucceedAlike(pa: Context, pb: Context, a: Context, b: Context, identity: Id, w: World, x: Uuid, y: Uuid)
    requires Visible(pa) == Visible(pb) && Visible(a) == Visible(b)
    ensures Visible(Succeed(pa, a, identity, w, x)) == Visible(Succeed(pb, b, identity, w, y))
  {
    VisibleRows(pa, pb);
    VisibleRows(a, b);
    assert Visible(a).metadata == Visible(b).metadata;
    AppendAlike(WithStatus(a, identity, Success), WithStatus(b, identity, Success),
                SuccessRow(pa, a, identity, w, x), SuccessRow(pb, b, identity, w, y));
  }

  lemma DispatchAlike(node: Node, a: Context, b: Context, w: World, x: Uuid, y: Uuid)
    requires Visible(a) == Visible(b) && Oblivious(node)
    ensures var p, q := Dispatch(node, a, w, x), Dispatch(node, b, w, y);
            p.failed == q.failed && Visible(p.after) == Visible(q.after)
  {
    EnterAlike(a, b, node.name);
    var pa, pb := EnterRunning(a, node.name), EnterRunning(b, node.name);
    assert SameOutcome(node.process(pa), node.process(pb));
    match node.process(pa)
    case Done(out) => SucceedAlike(pa, pb, out, node.process(pb).ctx, node.name, w, x, y);
    case Fault(err) => FailAlike(pa, pb, err, node.name, x, y);
  }

  lemma SpendAlike(a: Context, b: Context, identity: Id)
    requires Visible(a) == Visible(b)
    ensures SpendOf(a, identity) == SpendOf(b, identity)
  {
    VisibleRows(a, b);
  }

  // ----- One pass of the loop -----

  /** The dispatching pass on two machines that stand alike. */
  lemma VisitAlike(wf: Workflow, w: World, p: Machine, q: Machine, x: Uuid, y: Uuid)
    requires ObliviousRegistry(wf.registry)
    requires p.status.AtNode? && SameRun(p, q) && p.status.at in wf.registry
    ensures var a, b := AfterDispatch(wf, w, p, p.status.at, x), AfterDispatch(wf, w, q, p.status.at, y);
            && Visible(a.ctx) == Visible(b.ctx) && Spent(a.ledger) == Spent(b.ledger) && SameTrace(a.trace, b.trace)
            && a.trace != [] && a.ctx == Last(a).after && b.ctx == Last(b).after
  {
    var id := p.status.at;
    var node := wf.registry[id];
    DispatchAlike(node, p.ctx, q.ctx, w, x, y);
    var d, e := Dispatch(node, p.ctx, w, x), Dispatch(node, q.ctx, w, y);
    SpendAlike(d.after, e.after, id);
    assert Oblivious(node);
    var a, b := Absorb(wf, p, id, d), Absorb(wf, q, id, e);
    assert a.trace == p.trace + [Last(a)] && b.trace == q.trace + [Last(b)];
    assert SameVisit(Last(a), Last(b));
  }

  /** Telemetry and markers that carry no request stay out of sight. */
  lemma StampsAreInvisible(c: Context, w: World, m: Option<Marker>)
    requires VisibleRequest(m) == VisibleRequest(c.metadata.suspension)
    ensures Visible(Harvested(WithSuspension(c, m), w)) == Visible(c)
    ensures Visible(WithSuspension(c, m)) == Visible(c)
    ensures Visible(Harvested(c, w)) == Visible(c)
  {
  }

  /** Two walks that ran alike go on alike; when both suspend, they do so at the same node. */
  lemma ProceedAlike(w: World, a: Machine, b: Machine)
    requires a.trace != [] && SameTrace(a.trace, b.trace)
    requires Visible(a.ctx) == Visible(b.ctx) && Spent(a.ledger) == Spent(b.ledger)
    ensures var m, n := Proceed(w, a), Proceed(w, b);
            && m.status == n.status && Visible(m.ctx) == Visible(n.ctx)
            && Spent(m.ledger) == Spent(n.ledger) && SameTrace(m.trace, n.trace)
  {
    VisibleRows(a.ctx, b.ctx);
    assert SameVisit(Last(a), Last(b));
    var m, n := Proceed(w, a), Proceed(w, b);
    if m.status.Suspended? {
      assert Visible(m.ctx) == Visible(WithSuspension(a.ctx, None)) && Visible(n.ctx) == Visible(WithSuspension(b.ctx, None));
      assert Visible(a.ctx).metadata == Visible(b.ctx).metadata;
    } else if !m.status.AtNode? {
      StampsAreInvisible(a.ctx, w, a.ctx.metadata.suspension);
      StampsAreInvisible(b.ctx, w, b.ctx.metadata.suspension);
    }
  }

  // ----- The uninterrupted run -----

  /** A boundary nobody disturbs, followed by the resume a node-requested suspension would need. */
  const Undisturbed: seq<Event> := [Tick(false, false, 0), Continue]

  function Plain(n: nat): seq<Event> { if n == 0 then [] else Plain(n - 1) + Undisturbed }

  /** Whether an event makes the walk do its work, rather than pause it or find it stopped. */
  predicate Works(w: World, m: Machine, e: Event) {
    e.Tick? && m.status.AtNode? && (e.paused ==> Check(m.ledger, w.budget).Halt?)
  }

  ghost function WorkDone(wf: Workflow, w: World, m: Machine, events: seq<Event>): nat
    decreases |events|
  {
    if events == [] then 0
    else
      var init := events[..|events| - 1];
      WorkDone(wf, w, m, init) + (if Works(w, Exec(wf, w, m, init), events[|events| - 1]) then 1 else 0)
  }

  lemma PlainStep(wf: Workflow, w: World, m: Machine, n: nat)
    ensures Exec(wf, w, m, Plain(n + 1)) ==
            Advance(wf, w, Advance(wf, w, Exec(wf, w, m, Plain(n)), Tick(false, false, 0)), Continue)
  {
    var before := Plain(n);
    assert Plain(n + 1) == (before + [Tick(false, false, 0)]) + [Continue];
    ExecSnoc(wf, w, m, before, Tick(false, false, 0));
    ExecSnoc(wf, w, m, before + [Tick(false, false, 0)], Continue);
  }

  /** A resume alone changes nothing that is compared. */
  lemma ResumeIsInvisible(wf: Workflow, w: World, cut: Machine, plain: Machine)
    requires cut.status.Suspended? && MarkersMatch(cut) && Declared(wf, w, cut) && SameRun(cut, plain)
    ensures SameRun(Resumed(wf, w, cut), plain)
  {
    ResumeChangesOnlyTheMarker(wf, w, cut);
    StampsAreInvisible(cut.ctx, w, StampResumed(cut.ctx.metadata.suspension));
  }

  lemma PauseIsInvisible(wf: Workflow, w: World, cut: Machine, plain: Machine, e: Event)
    requires cut.status.AtNode? && MarkersMatch(cut) && SameRun(cut, plain)
    requires e.Tick? && !e.cancelled && e.paused && Check(cut.ledger, w.budget).Allow?
    ensures SameRun(Advance(wf, w, cut, e), plain)
  {
    var marker := Some(StampSuspended(cut.ctx.metadata.suspension, cut.status.at, OperatorPause, None, cut.ledger));
    StampsAreInvisible(cut.ctx, w, marker);
  }

  /** A working tick matches one undisturbed boundary, resume included. */
  lemma WorkIsMatched(wf: Workflow, w: World, cut: Machine, plain: Machine, e: Event)
    requires FramedRegistry(wf.registry) && ObliviousRegistry(wf.registry)
    requires Invariant(wf, w, plain) && MarkersMatch(cut) && SameRun(cut, plain)
    requires Works(w, cut, e) && !e.cancelled
    ensures SameRun(Advance(wf, w, cut, e),
                    Advance(wf, w, Advance(wf, w, plain, Tick(false, false, 0)), Continue))
  {
    var t := Tick(false, false, 0);
    var m, n := Advance(wf, w, cut, e), Advance(wf, w, plain, t);
    PassKeepsInvariant(wf, w, plain, t);
    assert Check(cut.ledger, w.budget) == Check(plain.ledger, w.budget);
    if Check(cut.ledger, w.budget).Halt? {
      VisibleRows(cut.ctx, plain.ctx);
      assert Visible(cut.ctx).metadata == Visible(plain.ctx).metadata;
    } else if cut.status.at in wf.registry {
      VisitAlike(wf, w, cut, plain, e.uuid, 0);
      var a, b := AfterDispatch(wf, w, cut, cut.status.at, e.uuid), AfterDispatch(wf, w, plain, cut.status.at, 0);
      ProceedAlike(w, a, b);
      assert m == Proceed(w, a) && n == Proceed(w, b);
      if n.status.Suspended? {
        ResumeChangesOnlyTheMarker(wf, w, n);
        StampsAreInvisible(n.ctx, w, StampResumed(n.ctx.metadata.suspension));
      }
    }
  }

  /** Any event but a cancellation either matches one undisturbed boundary or is out of sight. */
  lemma EventIsMatched(wf: Workflow, w: World, cut: Machine, plain: Machine, e: Event)
    requires FramedRegistry(wf.registry) && ObliviousRegistry(wf.registry)
    requires Invariant(wf, w, plain) && Invariant(wf, w, cut) && SameRun(cut, plain)
    requires e.Tick? ==> !e.cancelled
    ensures Works(w, cut, e) ==>
              SameRun(Advance(wf, w, cut, e), Advance(wf, w, Advance(wf, w, plain, Tick(false, false, 0)), Continue))
    ensures !Works(w, cut, e) ==> SameRun(Advance(wf, w, cut, e), plain)
  {
    if Works(w, cut, e) {
      WorkIsMatched(wf, w, cut, plain, e);
    } else if e.Tick? && cut.status.AtNode? {
      PauseIsInvisible(wf, w, cut, plain, e);
    } else if e.Continue? && cut.status.Suspended? {
      ResumeIsInvisible(wf, w, cut, plain);
    }
  }

  lemma {:induction false} PausesAreTransparentFrom(wf: Workflow, w: World, m0: Machine, events: seq<Event>)
    requires FramedRegistry(wf.registry) && ObliviousRegistry(wf.registry)
    requires Invariant(wf, w, m0) && m0.status.AtNode?
    requires forall e :: e in events && e.Tick? ==> !e.cancelled
    ensures SameRun(Exec(wf, w, m0, events), Exec(wf, w, m0, Plain(WorkDone(wf, w, m0, events))))
    decreases |events|
  {
    if events == [] {
      SameRunIsReflexive(m0);
    } else {
      var init, e := events[..|events| - 1], events[|events| - 1];
      PausesAreTransparentFrom(wf, w, m0, init);
      OneMoreEventIsMatched(wf, w, m0, init, e);
      assert events == init + [e];
    }
  }

  lemma {:induction false} OneMoreEventIsMatched(wf: Workflow, w: World, m0: Machine, init: seq<Event>, e: Event)
    requires FramedRegistry(wf.registry) && ObliviousRegistry(wf.registry)
    requires Invariant(wf, w, m0) && (e.Tick? ==> !e.cancelled)
    requires SameRun(Exec(wf, w, m0, init), Exec(wf, w, m0, Plain(WorkDone(wf, w, m0, init))))
    ensures SameRun(Exec(wf, w, m0, init + [e]), Exec(wf, w, m0, Plain(WorkDone(wf, w, m0, init + [e]))))
  {
    var done := WorkDone(wf, w, m0, init);
    InvariantIsKept(wf, w, m0, init);
    InvariantIsKept(wf, w, m0, Plain(done));
    EventIsMatched(wf, w, Exec(wf, w, m0, init), Exec(wf, w, m0, Plain(done)), e);
    StepsJoin(wf, w, m0, init, e, done);
  }

  /** One more event on the cut side, one more undisturbed boundary on the other if it did work. */
  lemma {:induction false} StepsJoin(wf: Workflow, w: World, m0: Machine, init: seq<Event>, e: Event, done: nat)
    requires done == WorkDone(wf, w, m0, init)
    requires var cut, plain := Exec(wf, w, m0, init), Exec(wf, w, m0, Plain(done));
             && (Works(w, cut, e) ==>
                   SameRun(Advance(wf, w, cut, e), Advance(wf, w, Advance(wf, w, plain, Tick(false, false, 0)), Continue)))
             && (!Works(w, cut, e) ==> SameRun(Advance(wf, w, cut, e), plain))
    ensures SameRun(Exec(wf, w, m0, init + [e]), Exec(wf, w, m0, Plain(WorkDone(wf, w, m0, init + [e]))))
  {
    PlainStep(wf, w, m0, done);
    ExecSnoc(wf, w, m0, init, e);
    assert (init + [e])[..|init|] == init;
  }

  /**
   * For every sequence of ticks, operator pauses and resumes in which nobody cancels: the run it
   * makes is the same run as the one that was never paused, taken as many boundaries far as the cut
   * run did work.
   */
  lemma {:induction false} PausesAreTransparent(wf: Workflow, w: World, event: Value, events: seq<Event>)
    requires FramedRegistry(wf.registry) && ObliviousRegistry(wf.registry)
    requires forall e :: e in events && e.Tick? ==> !e.cancelled
    ensures var m0 := Begin(wf, w, event);
            SameRun(Exec(wf, w, m0, events), Exec(wf, w, m0, Plain(WorkDone(wf, w, m0, events))))
  {
    BeginIsSound(wf, w, event);
    PausesAreTransparentFrom(wf, w, Begin(wf, w, event), events);
  }

  lemma SameRunIsReflexive(m: Machine)
    requires m.status.AtNode?
    ensures SameRun(m, m)
  {
  }

  lemma {:induction false} PlainStays(wf: Workflow, w: World, m: Machine, n: nat, more: nat)
    requires !Exec(wf, w, m, Plain(n)).status.AtNode? && !Exec(wf, w, m, Plain(n)).status.Suspended?
    ensures Exec(wf, w, m, Plain(n + more)) == Exec(wf, w, m, Plain(n))
  {
    if more > 0 {
      PlainStays(wf, w, m, n, more - 1);
      PlainStep(wf, w, m, n + more - 1);
    }
  }

  /** The same exit, the same nodes in the same order, and the same results in all that matters. */
  ghost predicate EndsAlike(cut: Machine, plain: Machine) {
    && cut.status == plain.status
    && |cut.trace| == |plain.trace|
    && (forall k :: 0 <= k < |cut.trace| ==> cut.trace[k].identity == plain.trace[k].identity)
    && cut.ctx.event == plain.ctx.event && cut.ctx.nodes == plain.ctx.nodes && cut.ctx.nodeRuns == plain.ctx.nodeRuns
    && cut.ctx.metadata.sessions == plain.ctx.metadata.sessions
    && ForgetIds(Rows(cut.ctx)) == ForgetIds(Rows(plain.ctx))
    && cut.ctx.metadata.budgetHalt == plain.ctx.metadata.budgetHalt
    && cut.ctx.metadata.failure == plain.ctx.metadata.failure
    && cut.ctx.metadata.other == plain.ctx.metadata.other
    && Spent(cut.ledger) == Spent(plain.ledger)
  }

  lemma SameRunEndsAlike(cut: Machine, plain: Machine)
    requires SameRun(cut, plain) && !cut.status.Suspended?
    ensures EndsAlike(cut, plain)
  {
    VisibleRows(cut.ctx, plain.ctx);
    assert Visible(cut.ctx).metadata == Visible(plain.ctx).metadata;
    forall k | 0 <= k < |cut.trace|
      ensures cut.trace[k].identity == plain.trace[k].identity
    {
      assert SameVisit(cut.trace[k], plain.trace[k]);
    }
  }

  /**
   * A cut run that ended ends as the uninterrupted run does, however long that one is given: same
   * exit, same nodes dispatched in the same order, and the same event, outputs, run records,
   * sessions, dispatch ledger (up to ids), stop markers and budget totals.
   */
  lemma {:induction false} CutRunEndsLikePlainRun(wf: Workflow, w: World, event: Value, events: seq<Event>, boundaries: nat)
    requires FramedRegistry(wf.registry) && ObliviousRegistry(wf.registry)
    requires forall e :: e in events && e.Tick? ==> !e.cancelled
    requires !Exec(wf, w, Begin(wf, w, event), events).status.AtNode?
    requires !Exec(wf, w, Begin(wf, w, event), events).status.Suspended?
    requires boundaries >= WorkDone(wf, w, Begin(wf, w, event), events)
    ensures EndsAlike(Exec(wf, w, Begin(wf, w, event), events), Exec(wf, w, Begin(wf, w, event), Plain(boundaries)))
  {
    var m0 := Begin(wf, w, event);
    var done := WorkDone(wf, w, m0, events);
    PausesAreTransparent(wf, w, event, events);
    PlainStays(wf, w, m0, done, boundaries - done);
    SameRunEndsAlike(Exec(wf, w, m0, events), Exec(wf, w, m0, Plain(boundaries)));
  }

  /**
   * A cancellation is matched too, placed at the same boundary of the uninterrupted run: the one it has
   * reached once it has done as much work as the cut run.
   */
  lemma {:induction false} CancelledRunsEndAlike(wf: Workflow, w: World, event: Value, events: seq<Event>, paused: bool, uuid: Uuid)
    requires FramedRegistry(wf.registry) && ObliviousRegistry(wf.registry)
    requires forall e :: e in events && e.Tick? ==> !e.cancelled
    requires Exec(wf, w, Begin(wf, w, event), events).status.AtNode?
    ensures var m0, cancel := Begin(wf, w, event), Tick(true, paused, uuid);
            var cut := Exec(wf, w, m0, events + [cancel]);
            var plain := Exec(wf, w, m0, Plain(WorkDone(wf, w, m0, events)) + [cancel]);
            cut.status == Cancelled && EndsAlike(cut, plain)
  {
    var m0, cancel := Begin(wf, w, event), Tick(true, paused, uuid);
    var done := Plain(WorkDone(wf, w, m0, events));
    PausesAreTransparent(wf, w, event, events);
    ExecSnoc(wf, w, m0, events, cancel);
    ExecSnoc(wf, w, m0, done, cancel);
    CancelsAlike(w, Exec(wf, w, m0, events), Exec(wf, w, m0, done));
  }

  lemma CancelsAlike(w: World, cut: Machine, plain: Machine)
    requires cut.status.AtNode? && SameRun(cut, plain)
    ensures EndsAlike(CancelRun(cut, w), CancelRun(plain, w))
  {
    SameRunEndsAlike(cut, plain);
  }
}
