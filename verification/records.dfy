/**
 * What a run records, entry by entry: the context a node is given and the one it hands back, the row of each
 * dispatch, the sessions of the whole run, the spend of each visit, and what each exit stamps.
 */
module Records {
  import opened Json
  import opened Contexts
  import opened Budgets
  import opened Suspensions
  import opened Ledgers
  import opened Nodes
  import opened Schemas
  import opened TaskContexts
  import opened Workflows
  import opened Runs
  import opened Accounts

  // ----- One dispatch -----

  /** A node is given the context as it stands, but for its own run record, which shows it running. */
  lemma NodeSeesTheContext(node: Node, c: Context, w: World, uuid: Uuid)
    ensures var d := Dispatch(node, c, w, uuid);
            var k := node.name;
            && d.running.event == c.event && d.running.nodes == c.nodes && d.running.metadata == c.metadata
            && d.running.nodeRuns.Keys == c.nodeRuns.Keys + {k}
            && (forall i :: i in c.nodeRuns && i != k ==> d.running.nodeRuns[i] == c.nodeRuns[i])
            && d.running.nodeRuns[k].status == Running
            && (k in c.nodeRuns ==> d.running.nodeRuns[k] == c.nodeRuns[k].(status := Running))
            && (k !in c.nodeRuns ==> d.running.nodeRuns[k] == NodeRun(Running, None, None, None))
            && (d.failed <==> node.process(d.running).Fault?)
  {
  }

  /**
   * What it hands back is kept whole: event, outputs, sessions, markers and everything else in its metadata,
   * and every run record.  Its own record turns to success, and one row is appended.
   */
  lemma SuccessKeepsReturnedContext(node: Node, c: Context, w: World, uuid: Uuid)
    requires node.process(EnterRunning(c, node.name)).Done?
    ensures var out, after := node.process(EnterRunning(c, node.name)).ctx, Dispatch(node, c, w, uuid).after;
            && after.event == out.event && after.nodes == out.nodes
            && after.metadata == out.metadata.(invocations := after.metadata.invocations)
            && |after.metadata.invocations| == |out.metadata.invocations| + 1
            && out.metadata.invocations <= after.metadata.invocations
            && after.nodeRuns.Keys == out.nodeRuns.Keys
            && forall k :: k in out.nodeRuns ==>
                 after.nodeRuns[k] == if k == node.name then out.nodeRuns[k].(status := Success) else out.nodeRuns[k]
  {
  }

  // ----- The row -----

  /** The row a dispatch appends. */
  function NewRow(node: Node, c: Context, w: World, uuid: Uuid): (row: Invocation) {
    var rows := Dispatch(node, c, w, uuid).after.metadata.invocations;
    rows[|rows| - 1]
  }

  /** The cap in force: a whole number in the resolved policy, or 64 KiB. */
  ghost predicate IsCap(c: Context, cap: nat) {
    if "ResolvedPolicy" in c.nodes && c.nodes["ResolvedPolicy"].Obj?
       && "node_invocation_payload_cap_bytes" in c.nodes["ResolvedPolicy"].fields
       && c.nodes["ResolvedPolicy"].fields["node_invocation_payload_cap_bytes"].Int?
       && c.nodes["ResolvedPolicy"].fields["node_invocation_payload_cap_bytes"].i >= 0
    then cap == c.nodes["ResolvedPolicy"].fields["node_invocation_payload_cap_bytes"].i
    else cap == 65536
  }

  predicate NamesCampaign(v: Value, id: string) {
    v.Obj? && "campaign_id" in v.fields && v.fields["campaign_id"] == Str(id)
  }

  /** The campaign named by the event, or else by the orchestration run's output. */
  ghost predicate IsCampaign(c: Context, id: Option<string>) {
    && (forall s :: NamesCampaign(c.event, s) ==> id == Some(s))
    && ((forall s :: !NamesCampaign(c.event, s)) ==>
          if "OrchestrationRunNode" in c.nodes
          then
            && (forall s :: NamesCampaign(c.nodes["OrchestrationRunNode"], s) ==> id == Some(s))
            && ((forall s :: !NamesCampaign(c.nodes["OrchestrationRunNode"], s)) ==> id == None)
          else id == None)
  }

  /** An output within the cap is recorded as it is, a longer one only as cut off at that cap. */
  ghost predicate RecordsPayload(row: Invocation, output: Option<Value>, encodedLen: Value -> nat) {
    match output
    case None => row.payload == None && !row.payloadTruncated
    case Some(v) =>
      if encodedLen(v) <= row.payloadCap then row.payload == Some(v) && !row.payloadTruncated
      else row.payload == Some(Obj(map["__truncated__" := Bool(true), "cap_bytes" := Int(row.payloadCap)])) && row.payloadTruncated
  }

  lemma CampaignIsNamed(c: Context)
    ensures IsCampaign(c, CampaignId(c))
  {
    var own := Get(c.event, "campaign_id");
    if own.Some? && own.value.Str? {
      assert NamesCampaign(c.event, own.value.s);
    } else if "OrchestrationRunNode" in c.nodes {
      var other := Get(c.nodes["OrchestrationRunNode"], "campaign_id");
      if other.Some? && other.value.Str? {
        assert NamesCampaign(c.nodes["OrchestrationRunNode"], other.value.s);
      }
    }
  }

  /**
   * The row of a dispatch: its id, node and outcome; run, campaign and cap as they were before the call; the
   * message of an error and no payload, or no error and the node's own output, capped.
   */
  lemma RowRecordsDispatch(node: Node, c: Context, w: World, uuid: Uuid)
    ensures |Dispatch(node, c, w, uuid).after.metadata.invocations| > 0
    ensures var pre, row := EnterRunning(c, node.name), NewRow(node, c, w, uuid);
            && row.id == uuid && row.node == node.name && row.runId == c.metadata.runId
            && IsCampaign(c, row.campaignId) && IsCap(c, row.payloadCap)
            && match node.process(pre)
               case Done(out) =>
                 && row.status == InvocationSuccess && row.error == None
                 && RecordsPayload(row, if node.name in out.nodes then Some(out.nodes[node.name]) else None, w.encodedLen)
               case Fault(err) => row.status == InvocationFailed && row.error == Some(err.message) && RecordsPayload(row, None, w.encodedLen)
  {
    CampaignIsNamed(c);
  }

  // ----- The sessions of a run -----

  /** A node that only ever adds to the session ledger. */
  ghost predicate AppendsSessions(node: Node) {
    forall c :: node.process(c).Done? ==> c.metadata.sessions <= node.process(c).ctx.metadata.sessions
  }

  ghost predicate AppendingRegistry(registry: Registry) {
    KeyedByName(registry) && forall k :: k in registry ==> AppendsSessions(registry[k])
  }

  /** The sessions one node call appends, or carries in its error. */
  function CallSessions(node: Node, pre: Context): seq<Session> {
    match node.process(pre)
    case Done(out) =>
      if |out.metadata.sessions| >= |pre.metadata.sessions| then out.metadata.sessions[|pre.metadata.sessions|..] else []
    case Fault(err) => err.sessions
  }

  /** The sessions of an event: those of the node it dispatches, if it dispatches one. */
  ghost function EventSessions(wf: Workflow, w: World, m: Machine, e: Event): seq<Session> {
    if e.Tick? && m.status.AtNode? && m.status.at in wf.registry && !e.cancelled && !e.paused && BelowCaps(w.budget, Spent(m.ledger))
    then CallSessions(wf.registry[m.status.at], EnterRunning(m.ctx, m.status.at))
    else []
  }

  ghost function RunSessions(wf: Workflow, w: World, event: Value, events: seq<Event>): seq<Session>
    decreases |events|
  {
    if events == [] then []
    else
      var init := events[..|events| - 1];
      RunSessions(wf, w, event, init)
      + EventSessions(wf, w, Exec(wf, w, Begin(wf, w, event), init), events[|events| - 1])
  }

  lemma DispatchAddsSessions(node: Node, c: Context, w: World, uuid: Uuid)
    requires AppendsSessions(node)
    ensures Dispatch(node, c, w, uuid).after.metadata.sessions == c.metadata.sessions + CallSessions(node, EnterRunning(c, node.name))
  {
    var pre := EnterRunning(c, node.name);
    if node.process(pre).Done? {
      assert pre.metadata.sessions <= node.process(pre).ctx.metadata.sessions;
      SuccessKeepsReturnedContext(node, c, w, uuid);
    }
  }

  /** A run's sessions are exactly those its node calls appended or carried, in the order of the calls. */
  lemma {:induction false} SessionsAreThoseOfCalls(wf: Workflow, w: World, event: Value, events: seq<Event>)
    requires AppendingRegistry(wf.registry)
    ensures Exec(wf, w, Begin(wf, w, event), events).ctx.metadata.sessions == RunSessions(wf, w, event, events)
    decreases |events|
  {
    if events != [] {
      var init, e := events[..|events| - 1], events[|events| - 1];
      SessionsAreThoseOfCalls(wf, w, event, init);
      EventAddsSessions(wf, w, Exec(wf, w, Begin(wf, w, event), init), e);
    }
  }

  lemma EventAddsSessions(wf: Workflow, w: World, m: Machine, e: Event)
    requires AppendingRegistry(wf.registry)
    ensures Advance(wf, w, m, e).ctx.metadata.sessions == m.ctx.metadata.sessions + EventSessions(wf, w, m, e)
  {
    if e.Tick? && m.status.AtNode? && m.status.at in wf.registry {
      DispatchAddsSessions(wf.registry[m.status.at], m.ctx, w, e.uuid);
    }
  }

  // ----- What an exit stamps -----

  /** Where a pass leaves off before it stamps anything: the context before it, or after its dispatch. */
  ghost function Unstamped(wf: Workflow, w: World, m: Machine, e: Event): Context
    requires e.Tick? && m.status.AtNode?
  {
    if m.status.at in wf.registry && !e.cancelled && !e.paused && BelowCaps(w.budget, Spent(m.ledger))
    then Dispatch(wf.registry[m.status.at], m.ctx, w, e.uuid).after
    else m.ctx
  }

  /** The telemetry is what was harvested from this very context, its markers already set. */
  ghost predicate HarvestedLast(c: Context, w: World) {
    exists earlier :: c.metadata.telemetry == Some(w.harvest(c.(metadata := c.metadata.(telemetry := earlier))))
  }

  /** The cap named was reached, on the spend named; cost is named only while tokens are below theirs. */
  predicate NamesReachedCap(reason: HaltReason, budget: Option<Budget>, l: Ledger) {
    budget.Some? &&
    match reason
    case TotalTokens(spent, limit) => spent == l.totalTokens && budget.value.maxTokens == Some(limit) && spent >= limit
    case CostUsd(spent, limit) =>
      && spent == l.totalCost && budget.value.maxCost == Some(limit) && spent >= limit
      && (budget.value.maxTokens.Some? ==> l.totalTokens < budget.value.maxTokens.value)
  }

  /** Nothing is stamped but the marker of the exit taken and the telemetry, and nothing at all where the walk goes on. */
  ghost predicate StampsOnlyItsExit(base: Context, n: Machine) {
    var marks := n.ctx.metadata;
    && n.ctx == base.(metadata := base.metadata.(
         cancelled := marks.cancelled, budgetHalt := marks.budgetHalt, suspension := marks.suspension, telemetry := marks.telemetry))
    && marks.cancelled == (n.status == Cancelled || base.metadata.cancelled)
    && (n.status != BudgetHalted ==> marks.budgetHalt == base.metadata.budgetHalt)
    && (!n.status.Suspended? ==> marks.suspension == base.metadata.suspension)
    && (n.status.AtNode? || n.status.Unresolved? ==> n.ctx == base)
  }

  lemma ProceedStampsOnlyItsExit(w: World, a: Machine)
    requires a.trace != []
    ensures StampsOnlyItsExit(a.ctx, Proceed(w, a))
  {
  }

  lemma PassStampsOnlyItsExit(wf: Workflow, w: World, m: Machine, e: Event)
    requires e.Tick? && m.status.AtNode?
    ensures StampsOnlyItsExit(Unstamped(wf, w, m, e), Advance(wf, w, m, e))
  {
    if m.status.at in wf.registry && !e.cancelled && !e.paused && BelowCaps(w.budget, Spent(m.ledger)) {
      ProceedStampsOnlyItsExit(w, AfterDispatch(wf, w, m, m.status.at, e.uuid));
    }
  }

  /** What a run shows when it has stopped: telemetry harvested last, and the cap that halted it. */
  ghost predicate ExitStamped(w: World, m: Machine) {
    && (!m.status.AtNode? && !m.status.Unresolved? ==> HarvestedLast(m.ctx, w))
    && (m.status == BudgetHalted ==>
          m.ctx.metadata.budgetHalt.Some? && NamesReachedCap(m.ctx.metadata.budgetHalt.value, w.budget, m.ledger))
  }

  lemma HarvestingIsLast(c: Context, w: World)
    ensures HarvestedLast(Harvested(c, w), w)
  {
    var n := Harvested(c, w);
    assert n.(metadata := n.metadata.(telemetry := c.metadata.telemetry)) == c;
  }

  lemma PassStampsItsExit(wf: Workflow, w: World, m: Machine, e: Event)
    requires e.Tick? && m.status.AtNode?
    ensures ExitStamped(w, Advance(wf, w, m, e))
  {
    var n := Advance(wf, w, m, e);
    var gate := Check(m.ledger, w.budget);
    if e.cancelled {
      HarvestingIsLast(m.ctx.(metadata := m.ctx.metadata.(cancelled := true)), w);
    } else if gate.Halt? {
      HarvestingIsLast(m.ctx.(metadata := m.ctx.metadata.(budgetHalt := Some(gate.reason))), w);
    } else if e.paused {
      SuspendStampsExit(w, m, m.status.at, OperatorPause, None);
    } else if m.status.at in wf.registry {
      ProceedStampsExit(w, AfterDispatch(wf, w, m, m.status.at, e.uuid));
    }
  }

  lemma SuspendStampsExit(w: World, m: Machine, at: Id, reason: SuspendReason, origin: Option<Id>)
    ensures ExitStamped(w, SuspendRun(m, at, reason, origin, w))
  {
    HarvestingIsLast(WithSuspension(m.ctx, Some(StampSuspended(m.ctx.metadata.suspension, at, reason, origin, m.ledger))), w);
  }

  lemma ProceedStampsExit(w: World, a: Machine)
    requires a.trace != []
    ensures ExitStamped(w, Proceed(w, a))
  {
    var v := Last(a);
    HarvestingIsLast(a.ctx, w);
    if !v.failed && v.next.Some? && Requested(a.ctx.metadata.suspension) {
      SuspendStampsExit(w, a, v.next.value, RequestedReason(a.ctx.metadata.suspension), Some(v.identity));
    }
  }

  /** Every exit but that at a missing node has stamped the telemetry last, and a halt names the cap that was reached. */
  lemma {:induction false} EveryExitIsStamped(wf: Workflow, w: World, event: Value, events: seq<Event>)
    ensures ExitStamped(w, Exec(wf, w, Begin(wf, w, event), events))
    decreases |events|
  {
    if events != [] {
      var init, e := events[..|events| - 1], events[|events| - 1];
      EveryExitIsStamped(wf, w, event, init);
      var m := Exec(wf, w, Begin(wf, w, event), init);
      if e.Tick? && m.status.AtNode? {
        PassStampsItsExit(wf, w, m, e);
      }
    }
  }

  // ----- The spend of a visit -----

  /** Each visit folds in what its node reported under its own name, and a failed one nothing. */
  ghost predicate SpendsReported(trace: seq<Visit>) {
    forall k :: 0 <= k < |trace| ==>
      var v := trace[k];
      v.spend == if v.failed then Spend(0, 0.0) else SpendOf(v.after, v.identity)
  }

  lemma {:induction false} EveryVisitSpendsReported(wf: Workflow, w: World, event: Value, events: seq<Event>)
    requires KeyedByName(wf.registry)
    ensures SpendsReported(Exec(wf, w, Begin(wf, w, event), events).trace)
    decreases |events|
  {
    if events != [] {
      var init, e := events[..|events| - 1], events[|events| - 1];
      EveryVisitSpendsReported(wf, w, event, init);
      EventSpendsReported(wf, w, Exec(wf, w, Begin(wf, w, event), init), e);
    }
  }

  lemma EventSpendsReported(wf: Workflow, w: World, m: Machine, e: Event)
    requires SpendsReported(m.trace)
    ensures SpendsReported(Advance(wf, w, m, e).trace)
  {
  }

  /** What a node reports: both kinds of tokens, both kinds of cache tokens, and its cost as any number. */
  lemma EveryChannelCounts(c: Context, k: Id)
    ensures k !in c.nodeRuns ==> SpendOf(c, k) == Spend(0, 0.0)
    ensures k in c.nodeRuns ==>
              SpendOf(c, k).tokens == UsageTokens(c.nodeRuns[k].usage) + OrZero(NodeCacheTokens(c, k))
              && SpendOf(c, k).cost == OrFree(NodeCost(c, k))
    ensures forall i: nat, o: nat, model :: UsageTokens(Some(Usage(Some(i), Some(o), model))) == i + o
    ensures forall i: nat, model :: UsageTokens(Some(Usage(Some(i), None, model))) == i == UsageTokens(Some(Usage(None, Some(i), model)))
    ensures UsageTokens(None) == 0 && forall model :: UsageTokens(Some(Usage(None, None, model))) == 0
  {
  }

  lemma EveryReportedFieldCounts(c: Context, k: Id, fields: map<string, Value>)
    requires k in c.nodes && c.nodes[k] == Obj(fields)
    ensures var read, creation := "cache_read_input_tokens", "cache_creation_input_tokens";
            && (forall a, b :: a >= 0 && b >= 0 && read in fields && creation in fields && fields[read] == Int(a) && fields[creation] == Int(b) ==>
                  NodeCacheTokens(c, k) == Some(a + b))
            && (forall a :: a >= 0 && read in fields && creation !in fields && fields[read] == Int(a) ==> NodeCacheTokens(c, k) == Some(a))
            && (forall b :: b >= 0 && read !in fields && creation in fields && fields[creation] == Int(b) ==> NodeCacheTokens(c, k) == Some(b))
            && (read !in fields && creation !in fields ==> NodeCacheTokens(c, k) == None)
    ensures (forall r :: "cost_usd" in fields && fields["cost_usd"] == Float(r) ==> NodeCost(c, k) == Some(r))
    ensures (forall i :: "cost_usd" in fields && fields["cost_usd"] == Int(i) ==> NodeCost(c, k) == Some(i as real))
    ensures ("cost_usd" !in fields || !(fields["cost_usd"].Int? || fields["cost_usd"].Float?) ==> NodeCost(c, k) == None)
  {
    assert "cache_read_input_tokens"[6] != "cache_creation_input_tokens"[6];
  }

  // ----- Where a visit leads -----

  /** A router's choice, its refusal to choose included; for any other node the first of its connections, if it has any. */
  ghost predicate LeadsByRule(wf: Workflow, v: Visit) {
    && v.identity in wf.registry
    && v.next == if v.failed then None
                 else if wf.registry[v.identity].router.Some? then wf.registry[v.identity].router.value(v.after)
                 else if v.identity in wf.schema.nodes && |wf.schema.nodes[v.identity].connections| > 0
                      then Some(wf.schema.nodes[v.identity].connections[0])
                 else None
  }

  /** Every visit of every run led where that rule says, and the walk goes on exactly there. */
  lemma {:induction false} EveryVisitLeadsByRule(wf: Workflow, w: World, event: Value, events: seq<Event>)
    requires KeyedByName(wf.registry)
    ensures var m := Exec(wf, w, Begin(wf, w, event), events);
            && (forall k :: 0 <= k < |m.trace| ==> LeadsByRule(wf, m.trace[k]))
            && (m.status.AtNode? && m.trace != [] ==> Last(m).next == Some(m.status.at))
            && (m.status == Completed ==> m.trace != [] && !Last(m).failed && Last(m).next == None)
            && (m.status.Suspended? && m.trace != [] ==> Last(m).next == Some(m.status.resumeAt))
    decreases |events|
  {
    if events != [] {
      var init, e := events[..|events| - 1], events[|events| - 1];
      EveryVisitLeadsByRule(wf, w, event, init);
      EveryRunKeepsAccount(wf, w, event, init);
      var m := Exec(wf, w, Begin(wf, w, event), init);
      if e.Tick? && m.status.AtNode? {
        PassLeadsByRule(wf, w, m, e);
      } else if e.Continue? && m.status.Suspended? {
        ResumeRestoresExactly(wf, w, m);
      }
    }
  }

  lemma PassLeadsByRule(wf: Workflow, w: World, m: Machine, e: Event)
    requires KeyedByName(wf.registry) && e.Tick? && m.status.AtNode?
    requires forall k :: 0 <= k < |m.trace| ==> LeadsByRule(wf, m.trace[k])
    requires m.trace != [] ==> Last(m).next == Some(m.status.at)
    ensures var n := Advance(wf, w, m, e);
            && (forall k :: 0 <= k < |n.trace| ==> LeadsByRule(wf, n.trace[k]))
            && (n.status.AtNode? && n.trace != [] ==> Last(n).next == Some(n.status.at))
            && (n.status == Completed ==> n.trace != [] && !Last(n).failed && Last(n).next == None)
            && (n.status.Suspended? && n.trace != [] ==> Last(n).next == Some(n.status.resumeAt))
  {
    var n := Advance(wf, w, m, e);
    PassOutline(wf, w, m, e);
    if Stopped(m, n) {
      assert n.status.Suspended? ==> n.status == Suspended(m.status.at) by {
        assert n.trace == m.trace;
      }
    } else if m.status.at in wf.registry {
      VisitLeadsToSuccessor(wf, w, m, e);
      assert LeadsByRule(wf, Last(n));
    }
  }

  // ----- Beginnings -----

  /** A fresh run holds the event it was given, the seeded outputs, and every declared node pending; nothing else. */
  lemma BeginIsSeeded(wf: Workflow, w: World, event: Value)
    ensures var c := Begin(wf, w, event).ctx;
            && c.event == event && c.nodes == wf.seeded && c.nodeRuns.Keys == wf.schema.nodes.Keys
            && (forall k :: k in c.nodeRuns ==> c.nodeRuns[k] == NodeRun(Pending, None, None, None))
            && c.metadata == Metadata(false, None, None, None, [], [], w.runId, None, map[])
  {
  }

  ghost predicate KeepsEvent(node: Node) {
    forall c :: node.process(c).Done? ==> node.process(c).ctx.event == c.event
  }

  /** Nodes that leave the event alone run on the one the run was given, throughout. */
  lemma {:induction false} EventIsTheOneGiven(wf: Workflow, w: World, event: Value, events: seq<Event>)
    requires forall k :: k in wf.registry ==> KeepsEvent(wf.registry[k])
    ensures Exec(wf, w, Begin(wf, w, event), events).ctx.event == event
    decreases |events|
  {
    if events == [] {
      BeginIsSeeded(wf, w, event);
    } else {
      var init, e := events[..|events| - 1], events[|events| - 1];
      EventIsTheOneGiven(wf, w, event, init);
      EventKeepsEvent(wf, w, Exec(wf, w, Begin(wf, w, event), init), e);
    }
  }

  lemma EventKeepsEvent(wf: Workflow, w: World, m: Machine, e: Event)
    requires forall k :: k in wf.registry ==> KeepsEvent(wf.registry[k])
    ensures Advance(wf, w, m, e).ctx.event == m.ctx.event
  {
    if e.Tick? && m.status.AtNode? && m.status.at in wf.registry {
      var node := wf.registry[m.status.at];
      var pre := EnterRunning(m.ctx, node.name);
      assert node.process(pre).Done? ==> node.process(pre).ctx.event == pre.event;
    }
  }

  /**
   * A resume keeps the stored context: outputs, event, every run record, all metadata but the marker, which
   * it clears and counts, and a run id of its own if it has one.  A declared node the stored context has
   * never heard of becomes pending.
   */
  lemma ResumeKeepsStoredContext(wf: Workflow, w: World, m: Machine)
    requires m.ctx.metadata.suspension.Some? && m.ctx.metadata.suspension.value.resumeAt.Some?
    ensures var c, stored := Resumed(wf, w, m).ctx, m.ctx;
            var before := stored.metadata.suspension.value;
            && c.event == stored.event && c.nodes == stored.nodes
            && c.nodeRuns.Keys == stored.nodeRuns.Keys + wf.schema.nodes.Keys
            && (forall k :: k in stored.nodeRuns ==> c.nodeRuns[k] == stored.nodeRuns[k])
            && (forall k :: k in wf.schema.nodes && k !in stored.nodeRuns ==> c.nodeRuns[k] == NodeRun(Pending, None, None, None))
            && c.metadata == stored.metadata.(
                 suspension := Some(before.(suspended := false, requested := false, resumeCount := before.resumeCount + 1)),
                 runId := if w.runId.Some? then w.runId else stored.metadata.runId)
            && Resumed(wf, w, m).status == AtNode(before.resumeAt.value)
  {
  }
}
