/**
 * The run loop.  `Dispatch` is the envelope around one node call, `Iterate` one pass of the loop,
 * and `Exec` a whole run: any sequence of boundary observations (ticks) and resumes.  The methods
 * `NodeContext` and `Walk` are the loop itself, proved to compute exactly these functions.
 */
module Workflows {
  import opened Json
  import opened Contexts
  import opened Budgets
  import opened Suspensions
  import opened Ledgers
  import opened Nodes
  import opened Schemas
  import opened TaskContexts

  datatype Workflow = Workflow(registry: Registry, schema: Schema, seeded: map<Id, Value>)

  /** Run options, and the two foreign computations the loop calls. */
  datatype World = World(
    budget: Option<Budget>,
    runId: Option<string>,
    encodedLen: Value -> nat,
    harvest: Context -> Value)

  // ----- One dispatch -----

  function CampaignId(c: Context): Option<string> {
    var own := AsStr(Get(c.event, "campaign_id"));
    if own.Some? then own
    else if "OrchestrationRunNode" in c.nodes then AsStr(Get(c.nodes["OrchestrationRunNode"], "campaign_id"))
    else None
  }

  function EnterRunning(c: Context, identity: Id): Context {
    var run := if identity in c.nodeRuns then c.nodeRuns[identity].(status := Running) else PendingRun.(status := Running);
    c.(nodeRuns := c.nodeRuns[identity := run])
  }

  function SuccessRow(pre: Context, out: Context, identity: Id, w: World, uuid: Uuid): Invocation {
    var cap := PayloadCap(pre);
    var kept := if identity in out.nodes then TruncatePayload(out.nodes[identity], cap, w.encodedLen) else (Null, false);
    Invocation(uuid, pre.metadata.runId, CampaignId(pre), identity, |out.metadata.invocations|, InvocationSuccess, None,
               if identity in out.nodes then Some(kept.0) else None, kept.1, cap)
  }

  function FailureRow(pre: Context, err: NodeError, identity: Id, uuid: Uuid): Invocation {
    Invocation(uuid, pre.metadata.runId, CampaignId(pre), identity, |pre.metadata.invocations|, InvocationFailed,
               Some(err.message), None, false, PayloadCap(pre))
  }

  function Succeed(pre: Context, out: Context, identity: Id, w: World, uuid: Uuid): Context {
    WithInvocation(WithStatus(out, identity, Success), SuccessRow(pre, out, identity, w, uuid))
  }

  /** The reverted snapshot: the node's own report and sessions, its failed run, and one row. */
  function Fail(pre: Context, err: NodeError, identity: Id, uuid: Uuid): Context {
    var reported := if err.nodeResult.Some? then pre.nodes[identity := err.nodeResult.value] else pre.nodes;
    var runs := if identity in pre.nodeRuns
                then pre.nodeRuns[identity := pre.nodeRuns[identity].(status := Failed, error := Some(err.message))]
                else pre.nodeRuns;
    WithInvocation(WithSessions(pre, err.sessions).(nodes := reported, nodeRuns := runs), FailureRow(pre, err, identity, uuid))
  }

  datatype Dispatched = Dispatched(running: Context, after: Context, failed: bool)

  function Dispatch(node: Node, c: Context, w: World, uuid: Uuid): Dispatched {
    var pre := EnterRunning(c, node.name);
    match node.process(pre)
    case Done(out) => Dispatched(pre, Succeed(pre, out, node.name, w, uuid), false)
    case Fault(err) => Dispatched(pre, Fail(pre, err, node.name, uuid), true)
  }

  /** The injected progress callback, remembering every snapshot it was handed. */
  class ProgressSink {
    var emitted: seq<Context>

    constructor (earlier: seq<Context>)
      ensures emitted == earlier
    {
      emitted := earlier;
    }

    method OnProgress(c: TaskContext)
      modifies this
      ensures emitted == old(emitted) + [c.View()]
    {
      emitted := emitted + [c.View()];
    }
  }

  /** Turn the pre-call snapshot into the failed context: sessions, report, run record, row, in this order. */
  method StampFailure(ctx: TaskContext, err: NodeError, identity: Id, uuid: Uuid)
    modifies ctx
    ensures ctx.View() == Fail(old(ctx.View()), err, identity, uuid)
  {
    ghost var pre := ctx.View();
    var row := FailureRow(ctx.View(), err, identity, uuid);
    var i := 0;
    while i < |err.sessions|
      invariant i <= |err.sessions|
      invariant ctx.View() == WithSessions(pre, err.sessions[..i])
    {
      assert err.sessions[..i + 1] == err.sessions[..i] + [err.sessions[i]];
      ctx.AppendSession(err.sessions[i]);
      i := i + 1;
    }
    assert err.sessions[..i] == err.sessions;
    if err.nodeResult.Some? {
      ctx.nodes := ctx.nodes[identity := err.nodeResult.value];
    }
    if identity in ctx.nodeRuns {
      ctx.nodeRuns := ctx.nodeRuns[identity := ctx.nodeRuns[identity].(status := Failed, error := Some(err.message))];
    }
    ctx.AppendInvocation(row);
  }

  method NodeContext(node: Node, ctx: TaskContext, sink: ProgressSink, w: World, uuid: Uuid) returns (failed: bool)
    modifies ctx, sink
    ensures var d := Dispatch(node, old(ctx.View()), w, uuid);
            ctx.View() == d.after && failed == d.failed && sink.emitted == old(sink.emitted) + [d.running, d.after]
  {
    var identity := node.name;
    if identity in ctx.nodeRuns {
      ctx.SetStatus(identity, Running);
    } else {
      ctx.nodeRuns := ctx.nodeRuns[identity := PendingRun.(status := Running)];
    }
    sink.OnProgress(ctx);
    var pre := ctx.View();
    assert pre == EnterRunning(old(ctx.View()), identity);

    match node.process(pre) {
      case Done(out) =>
        ctx.Assign(out);
        ctx.SetStatus(identity, Success);
        ctx.AppendInvocation(SuccessRow(pre, out, identity, w, uuid));
        sink.OnProgress(ctx);
        failed := false;
      case Fault(err) =>
        ctx.Assign(pre);
        StampFailure(ctx, err, identity, uuid);
        sink.OnProgress(ctx);
        failed := true;
    }
  }

  // ----- One pass of the loop -----

  /** How the walk stands: about to visit a node, or the way in which it stopped. */
  datatype Status =
    | AtNode(at: Id)
    | Completed
    | NodeFailed
    | Cancelled
    | BudgetHalted
    | Suspended(resumeAt: Id)
    | Unresolved(missing: Id)

  /** One line of a run's history: who ran, on what spend, what it spent, and where it led. */
  datatype Visit = Visit(identity: Id, before: Spend, spend: Spend, after: Context, next: Option<Id>, failed: bool)

  datatype Machine = Machine(
    ctx: Context,
    status: Status,
    ledger: Ledger,
    emitted: seq<Context>,
    trace: seq<Visit>,
    resumes: nat)

  datatype Event =
    | Tick(cancelled: bool, paused: bool, uuid: Uuid)
    | Continue

  function Harvested(c: Context, w: World): Context {
    c.(metadata := c.metadata.(telemetry := Some(w.harvest(c))))
  }

  /** Every early stop: the marker, the telemetry stamp, one last snapshot. */
  function Stop(m: Machine, c: Context, status: Status, w: World): Machine {
    var final := Harvested(c, w);
    m.(ctx := final, status := status, emitted := m.emitted + [final])
  }

  function CancelRun(m: Machine, w: World): Machine {
    Stop(m, m.ctx.(metadata := m.ctx.metadata.(cancelled := true)), Cancelled, w)
  }

  function HaltRun(m: Machine, reason: HaltReason, w: World): Machine {
    Stop(m, m.ctx.(metadata := m.ctx.metadata.(budgetHalt := Some(reason))), BudgetHalted, w)
  }

  function SuspendRun(m: Machine, at: Id, reason: SuspendReason, origin: Option<Id>, w: World): Machine {
    var marker := StampSuspended(m.ctx.metadata.suspension, at, reason, origin, m.ledger);
    Stop(m, WithSuspension(m.ctx, Some(marker)), Suspended(at), w)
  }

  function Successor(wf: Workflow, node: Node, identity: Id, after: Context): Option<Id> {
    if node.router.Some? then node.router.value(after) else NextAfter(wf.schema, identity)
  }

  /** The state right after a dispatch, before anything decides how to go on. */
  function AfterDispatch(wf: Workflow, w: World, m: Machine, identity: Id, uuid: Uuid): Machine
    requires identity in wf.registry
  {
    Absorb(wf, m, identity, Dispatch(wf.registry[identity], m.ctx, w, uuid))
  }

  function Absorb(wf: Workflow, m: Machine, identity: Id, d: Dispatched): Machine
    requires identity in wf.registry
  {
    var spend := if d.failed then NoSpend else SpendOf(d.after, identity);
    var next := if d.failed then None else Successor(wf, wf.registry[identity], identity, d.after);
    m.(ctx := d.after,
       ledger := m.ledger.(totalTokens := m.ledger.totalTokens + spend.tokens, totalCost := m.ledger.totalCost + spend.cost),
       emitted := m.emitted + [d.running, d.after],
       trace := m.trace + [Visit(identity, Spent(m.ledger), spend, d.after, next, d.failed)])
  }

  /** How the loop goes on from there: out on a failure, to the successor, suspended, or done. */
  function Proceed(w: World, m: Machine): Machine
    requires m.trace != []
  {
    var v := m.trace[|m.trace| - 1];
    if v.failed then m.(ctx := Harvested(m.ctx, w), status := NodeFailed)
    else if v.next.None? then m.(ctx := Harvested(m.ctx, w), status := Completed)
    else if Requested(m.ctx.metadata.suspension) then
      SuspendRun(m, v.next.value, RequestedReason(m.ctx.metadata.suspension), Some(v.identity), w)
    else m.(status := AtNode(v.next.value))
  }

  function Iterate(wf: Workflow, w: World, m: Machine, cancelled: bool, paused: bool, uuid: Uuid): Machine
    requires m.status.AtNode?
  {
    var identity := m.status.at;
    if cancelled then CancelRun(m, w)
    else
      var gate := Check(m.ledger, w.budget);
      if gate.Halt? then HaltRun(m, gate.reason, w)
      else if paused then SuspendRun(m, identity, OperatorPause, None, w)
      else if identity !in wf.registry then m.(status := Unresolved(identity))
      else Proceed(w, AfterDispatch(wf, w, m, identity, uuid))
  }

  // ----- Whole runs -----

  function SeedContext(wf: Workflow, event: Value): Context {
    Context(event, wf.seeded, EmptyMetadata, map k | k in wf.schema.nodes :: PendingRun)
  }

  function Begin(wf: Workflow, w: World, event: Value): Machine {
    var c := WithRunId(SeedContext(wf, event), w.runId);
    Machine(c, AtNode(wf.schema.startNode), EmptyLedger, [c], [], 0)
  }

  ghost function RestoreLedger(c: Context): Ledger {
    var m := c.metadata.suspension;
    if m.Some? && m.value.ledger.Some? then FromParts(m.value.ledger.value.totalTokens, m.value.ledger.value.totalCost)
    else LossyRestore(c)
  }

  function ResumedContext(wf: Workflow, w: World, c: Context): Context {
    var seeded := SeedMissing(c, wf.schema.nodes.Keys);
    WithRunId(WithSuspension(seeded, StampResumed(seeded.metadata.suspension)), w.runId)
  }

  /** A resume rebuilds everything from the stored context: pointer and ledger come from its marker. */
  ghost function Resumed(wf: Workflow, w: World, m: Machine): Machine
  {
    var marker := m.ctx.metadata.suspension;
    if marker.None? || marker.value.resumeAt.None? then m
    else
      var c := ResumedContext(wf, w, m.ctx);
      Machine(c, AtNode(marker.value.resumeAt.value), RestoreLedger(m.ctx), m.emitted + [c], m.trace, m.resumes + 1)
  }

  /** Ticks move a running walk, resumes a suspended one; anything else changes nothing. */
  ghost function Advance(wf: Workflow, w: World, m: Machine, e: Event): Machine {
    match e
    case Tick(cancelled, paused, uuid) =>
      if m.status.AtNode? then Iterate(wf, w, m, cancelled, paused, uuid) else m
    case Continue => if m.status.Suspended? then Resumed(wf, w, m) else m
  }

  ghost function Exec(wf: Workflow, w: World, m: Machine, events: seq<Event>): Machine
    decreases |events|
  {
    if events == [] then m
    else Advance(wf, w, Exec(wf, w, m, events[..|events| - 1]), events[|events| - 1])
  }

  lemma {:induction false} ExecSnoc(wf: Workflow, w: World, m: Machine, events: seq<Event>, e: Event)
    ensures Exec(wf, w, m, events + [e]) == Advance(wf, w, Exec(wf, w, m, events), e)
  {
    assert (events + [e])[..|events|] == events;
  }

  lemma {:induction false} ExecConcat(wf: Workflow, w: World, m: Machine, a: seq<Event>, b: seq<Event>)
    ensures Exec(wf, w, m, a + b) == Exec(wf, w, Exec(wf, w, m, a), b)
    decreases |b|
  {
    if b == [] {
      assert a + b == a;
    } else {
      var init := b[..|b| - 1];
      ExecConcat(wf, w, m, a, init);
      assert a + b == (a + init) + [b[|b| - 1]];
      ExecSnoc(wf, w, m, a + init, b[|b| - 1]);
    }
  }

  /** A walk still running after more ticks was running after fewer. */
  lemma {:induction false} RunningWasRunning(wf: Workflow, w: World, m: Machine, ticks: seq<Event>, k: nat)
    requires forall e :: e in ticks ==> e.Tick?
    requires k <= |ticks|
    requires !Exec(wf, w, m, ticks[..k]).status.AtNode?
    ensures Exec(wf, w, m, ticks) == Exec(wf, w, m, ticks[..k])
    decreases |ticks|
  {
    if k == |ticks| {
      assert ticks[..k] == ticks;
    } else {
      var init := ticks[..|ticks| - 1];
      assert init[..k] == ticks[..k];
      RunningWasRunning(wf, w, m, init, k);
    }
  }

  lemma {:induction false} OneMoreTick(wf: Workflow, w: World, m: Machine, ticks: seq<Event>, k: nat)
    requires k < |ticks|
    ensures Exec(wf, w, m, ticks[..k + 1]) == Advance(wf, w, Exec(wf, w, m, ticks[..k]), ticks[k])
  {
    assert ticks[..k + 1] == ticks[..k] + [ticks[k]];
    ExecSnoc(wf, w, m, ticks[..k], ticks[k]);
  }

  /**
   * The loop.  `ticks[k]` is what the k-th boundary reads from the cancellation token and the pause
   * signal; the walk is given enough of them to return.
   */
  method Walk(wf: Workflow, w: World, ctx: TaskContext, start: Id, ledger: BudgetLedger, sink: ProgressSink,
              ticks: seq<Event>, ghost m0: Machine, ghost earlier: seq<Context>)
    returns (status: Status)
    requires m0.ctx == ctx.View() && m0.status == AtNode(start) && m0.ledger == ledger.View()
    requires m0.emitted == earlier + sink.emitted
    requires forall e :: e in ticks ==> e.Tick?
    requires KeyedByName(wf.registry)
    requires !Exec(wf, w, m0, ticks).status.AtNode?
    modifies ctx, ledger, sink
    ensures var m := Exec(wf, w, m0, ticks);
            status == m.status && ctx.View() == m.ctx && ledger.View() == m.ledger && earlier + sink.emitted == m.emitted
  {
    status := AtNode(start);
    ghost var m := m0;
    var k := 0;
    assert ticks[..0] == [] && ticks[..|ticks|] == ticks;
    while status.AtNode?
      invariant k <= |ticks|
      invariant m == Exec(wf, w, m0, ticks[..k])
      invariant m.status == status && m.ctx == ctx.View() && m.ledger == ledger.View() && m.emitted == earlier + sink.emitted
      decreases |ticks| - k
    {
      var e := ticks[k];
      status := Pass(wf, w, ctx, status.at, ledger, sink, e.cancelled, e.paused, e.uuid, m, earlier);
      m := Iterate(wf, w, m, e.cancelled, e.paused, e.uuid);
      OneMoreTick(wf, w, m0, ticks, k);
      k := k + 1;
    }
    RunningWasRunning(wf, w, m0, ticks, k);
  }

  /** One pass of the loop body. */
  method Pass(wf: Workflow, w: World, ctx: TaskContext, identity: Id, ledger: BudgetLedger, sink: ProgressSink,
              cancelled: bool, paused: bool, uuid: Uuid, ghost m: Machine, ghost earlier: seq<Context>)
    returns (status: Status)
    requires m.ctx == ctx.View() && m.status == AtNode(identity) && m.ledger == ledger.View()
    requires m.emitted == earlier + sink.emitted
    requires KeyedByName(wf.registry)
    modifies ctx, ledger, sink
    ensures var n := Iterate(wf, w, m, cancelled, paused, uuid);
            status == n.status && ctx.View() == n.ctx && ledger.View() == n.ledger && earlier + sink.emitted == n.emitted
  {
    if cancelled {
      ctx.StampCancelled();
      ctx.StampTelemetry(w.harvest);
      sink.OnProgress(ctx);
      return Cancelled;
    }
    var gate := Check(ledger.View(), w.budget);
    if gate.Halt? {
      ctx.StampBudgetHalt(gate.reason);
      ctx.StampTelemetry(w.harvest);
      sink.OnProgress(ctx);
      return BudgetHalted;
    }
    if paused {
      ctx.FinishSuspended(identity, OperatorPause, None, ledger.View());
      ctx.StampTelemetry(w.harvest);
      sink.OnProgress(ctx);
      return Suspended(identity);
    }
    if identity !in wf.registry {
      return Unresolved(identity);
    }
    status := RunNode(wf, w, ctx, identity, ledger, sink, uuid, m, earlier);
  }

  /** The dispatching half of a pass: run the node, record its spend, find where to go. */
  method RunNode(wf: Workflow, w: World, ctx: TaskContext, identity: Id, ledger: BudgetLedger, sink: ProgressSink,
                 uuid: Uuid, ghost m: Machine, ghost earlier: seq<Context>)
    returns (status: Status)
    requires m.ctx == ctx.View() && m.status == AtNode(identity) && m.ledger == ledger.View()
    requires m.emitted == earlier + sink.emitted
    requires KeyedByName(wf.registry) && identity in wf.registry
    modifies ctx, ledger, sink
    ensures var n := Proceed(w, AfterDispatch(wf, w, m, identity, uuid));
            status == n.status && ctx.View() == n.ctx && ledger.View() == n.ledger && earlier + sink.emitted == n.emitted
  {
    var node := wf.registry[identity];
    var failed := NodeContext(node, ctx, sink, w, uuid);
    status := FinishVisit(wf, w, ctx, identity, ledger, sink, failed, m, Dispatch(node, m.ctx, w, uuid), earlier);
  }

  method FinishVisit(wf: Workflow, w: World, ctx: TaskContext, identity: Id, ledger: BudgetLedger, sink: ProgressSink,
                     failed: bool, ghost m: Machine, ghost d: Dispatched, ghost earlier: seq<Context>)
    returns (status: Status)
    requires m.ledger == ledger.View() && m.emitted + [d.running, d.after] == earlier + sink.emitted
    requires ctx.View() == d.after && failed == d.failed
    requires identity in wf.registry
    modifies ctx, ledger, sink
    ensures var n := Proceed(w, Absorb(wf, m, identity, d));
            status == n.status && ctx.View() == n.ctx && ledger.View() == n.ledger && earlier + sink.emitted == n.emitted
  {
    var node := wf.registry[identity];
    if failed {
      ctx.StampTelemetry(w.harvest);
      return NodeFailed;
    }
    var after := ctx.View();
    if identity in after.nodeRuns {
      ledger.Record(after.nodeRuns[identity].usage, NodeCost(after, identity), NodeCacheTokens(after, identity));
    }
    var next := if node.router.Some? then node.router.value(after) else NextAfter(wf.schema, identity);
    ghost var n := Absorb(wf, m, identity, d);
    assert ledger.View() == n.ledger && ctx.View() == n.ctx && n.emitted == earlier + sink.emitted;
    if next.None? {
      ctx.StampTelemetry(w.harvest);
      return Completed;
    }
    if Requested(after.metadata.suspension) {
      ctx.FinishSuspended(next.value, RequestedReason(after.metadata.suspension), Some(identity), ledger.View());
      ctx.StampTelemetry(w.harvest);
      sink.OnProgress(ctx);
      return Suspended(next.value);
    }
    return AtNode(next.value);
  }

  /** Start a fresh run. */
  method RunWith(wf: Workflow, w: World, event: Value, ticks: seq<Event>) returns (status: Status, ctx: TaskContext, sink: ProgressSink)
    requires forall e :: e in ticks ==> e.Tick?
    requires KeyedByName(wf.registry)
    requires !Exec(wf, w, Begin(wf, w, event), ticks).status.AtNode?
    ensures var m := Exec(wf, w, Begin(wf, w, event), ticks);
            status == m.status && ctx.View() == m.ctx && sink.emitted == m.emitted
  {
    ctx := new TaskContext(SeedContext(wf, event));
    ctx.StampRunId(w.runId);
    var ledger := new BudgetLedger(EmptyLedger);
    sink := new ProgressSink([]);
    sink.OnProgress(ctx);
    status := Walk(wf, w, ctx, wf.schema.startNode, ledger, sink, ticks, Begin(wf, w, event), []);
  }

  /** Continue a suspended run from its stored context. */
  method RunFrom(wf: Workflow, w: World, stored: Context, ticks: seq<Event>, ghost before: Machine)
    returns (status: Status, ctx: TaskContext, sink: ProgressSink)
    requires before.ctx == stored && before.status.Suspended?
    requires stored.metadata.suspension.Some? && stored.metadata.suspension.value.resumeAt.Some?
    requires forall e :: e in ticks ==> e.Tick?
    requires KeyedByName(wf.registry)
    requires !Exec(wf, w, Resumed(wf, w, before), ticks).status.AtNode?
    ensures var m := Exec(wf, w, Resumed(wf, w, before), ticks);
            status == m.status && ctx.View() == m.ctx && before.emitted + sink.emitted == m.emitted
  {
    var marker := stored.metadata.suspension.value;
    var ledger: BudgetLedger;
    if marker.ledger.Some? {
      ledger := new BudgetLedger(FromParts(marker.ledger.value.totalTokens, marker.ledger.value.totalCost));
    } else {
      ledger := new BudgetLedger.FromContext(stored);
    }
    ctx := new TaskContext(stored);
    ctx.SeedMissingPending(wf.schema.nodes.Keys);
    ctx.ResumeMarker();
    ctx.StampRunId(w.runId);
    sink := new ProgressSink([]);
    sink.OnProgress(ctx);
    status := Walk(wf, w, ctx, marker.resumeAt.value, ledger, sink, ticks, Resumed(wf, w, before), before.emitted);
  }
}
