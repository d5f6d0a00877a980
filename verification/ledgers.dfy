/** The two append-only ledgers a context carries: LLM sessions and node dispatches. */
module Ledgers {
  import opened Json
  import opened Contexts

  // ----- Sessions -----

  datatype LedgerTotals = LedgerTotals(
    invocations: nat,
    costUsd: real,
    inputTokens: nat,
    outputTokens: nat,
    cacheReadTokens: nat,
    cacheCreationTokens: nat,
    unknownCost: nat)

  /** One pass over the ledger, accumulating what the run spent. */
  method RollUp(sessions: seq<Session>) returns (t: LedgerTotals)
    ensures t.invocations == |sessions|
    ensures t.costUsd == SumCost(sessions)
    ensures [t.inputTokens, t.outputTokens, t.cacheReadTokens, t.cacheCreationTokens] ==
            [SumTokens(sessions, 0), SumTokens(sessions, 1), SumTokens(sessions, 2), SumTokens(sessions, 3)]
    ensures t.unknownCost == CountUnknown(sessions)
  {
    var n, cost, unknown := 0, 0.0, 0;
    var input, output, read, creation := 0, 0, 0, 0;
    while n < |sessions|
      invariant n <= |sessions|
      invariant cost == SumCost(sessions[..n]) && unknown == CountUnknown(sessions[..n])
      invariant input == SumTokens(sessions[..n], 0) && output == SumTokens(sessions[..n], 1)
      invariant read == SumTokens(sessions[..n], 2) && creation == SumTokens(sessions[..n], 3)
    {
      var s := sessions[n];
      assert sessions[..n + 1][..n] == sessions[..n];
      cost := cost + s.costUsd;
      input, output := input + s.inputTokens, output + s.outputTokens;
      read, creation := read + s.cacheReadTokens, creation + s.cacheCreationTokens;
      if !s.costKnown {
        unknown := unknown + 1;
      }
      n := n + 1;
    }
    assert sessions[..n] == sessions;
    t := LedgerTotals(n, cost, input, output, read, creation, unknown);
  }

  function SumCost(s: seq<Session>): real {
    if s == [] then 0.0 else SumCost(s[..|s| - 1]) + s[|s| - 1].costUsd
  }

  /** Channel 0 is input, 1 output, 2 cache reads, 3 cache creations. */
  function SessionTokens(s: Session, channel: int): nat {
    match channel
    case 0 => s.inputTokens
    case 1 => s.outputTokens
    case 2 => s.cacheReadTokens
    case _ => s.cacheCreationTokens
  }

  function SumTokens(s: seq<Session>, channel: int): nat {
    if s == [] then 0 else SumTokens(s[..|s| - 1], channel) + SessionTokens(s[|s| - 1], channel)
  }

  function CountUnknown(s: seq<Session>): nat {
    if s == [] then 0 else CountUnknown(s[..|s| - 1]) + (if s[|s| - 1].costKnown then 0 else 1)
  }

  /** Totals of a ledger with more sessions appended are the old totals plus the new sessions' own. */
  lemma {:induction false} TotalsAreAdditive(before: seq<Session>, more: seq<Session>)
    ensures SumCost(before + more) == SumCost(before) + SumCost(more)
    ensures forall channel :: SumTokens(before + more, channel) == SumTokens(before, channel) + SumTokens(more, channel)
    ensures CountUnknown(before + more) == CountUnknown(before) + CountUnknown(more)
  {
    if more == [] {
      assert before + more == before;
    } else {
      var rest := more[..|more| - 1];
      assert (before + more)[..|before + more| - 1] == before + rest;
      TotalsAreAdditive(before, rest);
    }
  }

  /** A single session counts for itself, channel by channel. */
  lemma OneSessionCounts(s: Session)
    ensures SumCost([s]) == s.costUsd
    ensures SumTokens([s], 0) == s.inputTokens && SumTokens([s], 1) == s.outputTokens
    ensures SumTokens([s], 2) == s.cacheReadTokens && SumTokens([s], 3) == s.cacheCreationTokens
    ensures CountUnknown([s]) == if s.costKnown then 0 else 1
  {
    assert [s][..0] == [];
  }

  // ----- Invocations -----

  const DefaultPayloadCap := 65536

  function PayloadCap(ctx: Context): nat {
    if "ResolvedPolicy" in ctx.nodes then
      var cap := AsU64(Get(ctx.nodes["ResolvedPolicy"], "node_invocation_payload_cap_bytes"));
      if cap.Some? then cap.value else DefaultPayloadCap
    else DefaultPayloadCap
  }

  function TruncationMark(cap: nat): Value { Obj(map["__truncated__" := Bool(true), "cap_bytes" := Int(cap)]) }

  /** An output within the cap is kept as it is; a longer one is replaced whole by a marker. */
  function TruncatePayload(v: Value, cap: nat, encodedLen: Value -> nat): (Value, bool) {
    if encodedLen(v) <= cap then (v, false) else (TruncationMark(cap), true)
  }

  /** Rows in dispatch order: row k carries sequence number k. */
  ghost predicate Numbered(rows: seq<Invocation>) {
    forall k :: 0 <= k < |rows| ==> rows[k].rowSeq == k
  }

  ghost predicate DistinctIds(rows: seq<Invocation>) {
    forall i, j :: 0 <= i < j < |rows| ==> rows[i].id != rows[j].id
  }
}
