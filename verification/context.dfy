/**
 * The values a run carries: `TaskContext` with its node runs, and the typed markers and ledgers
 * that live in its metadata.  Contexts are values, because the engine moves and clones them;
 * `TaskContexts.TaskContext` is the mutable object the walk updates between two clones.
 */
module Contexts {
  import opened Json

  type Id = string
  type Uuid = nat

  datatype NodeRunStatus = Pending | Running | Success | Failed

  datatype Usage = Usage(inputTokens: Option<nat>, outputTokens: Option<nat>, model: string)

  datatype NodeRun = NodeRun(status: NodeRunStatus, error: Option<string>, input: Option<Value>, usage: Option<Usage>)

  /** One LLM call, recorded under the node that made it. */
  datatype Session = Session(
    node: Id,
    sessionId: Option<string>,
    ok: bool,
    costUsd: real,
    inputTokens: nat,
    outputTokens: nat,
    cacheReadTokens: nat,
    cacheCreationTokens: nat,
    model: string,
    costKnown: bool)

  datatype InvocationStatus = InvocationSuccess | InvocationFailed

  /** One node dispatch. */
  datatype Invocation = Invocation(
    id: Uuid,
    runId: Option<string>,
    campaignId: Option<string>,
    node: Id,
    rowSeq: nat,
    status: InvocationStatus,
    error: Option<string>,
    payload: Option<Value>,
    payloadTruncated: bool,
    payloadCap: nat)

  datatype HaltReason =
    | TotalTokens(spentTokens: nat, tokenLimit: nat)
    | CostUsd(spentCost: real, costLimit: real)

  datatype SuspendReason = OperatorPause | SuspendNode | HeavyWorkQueue

  datatype LedgerSnapshot = LedgerSnapshot(totalTokens: nat, totalCost: real)

  /** The `metadata.suspension` object. */
  datatype Marker = Marker(
    suspended: bool,
    resumeAt: Option<Id>,
    reason: Option<SuspendReason>,
    origin: Option<Id>,
    ledger: Option<LedgerSnapshot>,
    resumeCount: nat,
    requested: bool,
    pendingReason: Option<SuspendReason>)

  datatype Metadata = Metadata(
    cancelled: bool,
    budgetHalt: Option<HaltReason>,
    failure: Option<string>,
    suspension: Option<Marker>,
    sessions: seq<Session>,
    invocations: seq<Invocation>,
    runId: Option<string>,
    telemetry: Option<Value>,
    other: map<string, Value>)

  datatype Context = Context(
    event: Value,
    nodes: map<Id, Value>,
    metadata: Metadata,
    nodeRuns: map<Id, NodeRun>)

  const EmptyMetadata := Metadata(false, None, None, None, [], [], None, None, map[])

  const PendingRun := NodeRun(Pending, None, None, None)
}
