/** The mutable run context: every stamp and ledger append the walk makes, in place. */
module TaskContexts {
  import opened Json
  import opened Contexts
  import opened Budgets
  import opened Suspensions

  function WithSuspension(c: Context, m: Option<Marker>): Context {
    c.(metadata := c.metadata.(suspension := m))
  }

  function WithInvocation(c: Context, row: Invocation): Context {
    c.(metadata := c.metadata.(invocations := c.metadata.invocations + [row]))
  }

  function WithSessions(c: Context, more: seq<Session>): Context {
    c.(metadata := c.metadata.(sessions := c.metadata.sessions + more))
  }

  function WithRunId(c: Context, runId: Option<string>): Context {
    if runId.Some? then c.(metadata := c.metadata.(runId := runId)) else c
  }

  function WithStatus(c: Context, identity: Id, status: NodeRunStatus): Context {
    if identity in c.nodeRuns
    then c.(nodeRuns := c.nodeRuns[identity := c.nodeRuns[identity].(status := status)])
    else c
  }

  /** Pending entries for declared nodes the context has never heard of; nothing is overwritten. */
  function SeedMissing(c: Context, declared: set<Id>): Context {
    c.(nodeRuns := map k | k in declared + c.nodeRuns.Keys :: if k in c.nodeRuns then c.nodeRuns[k] else PendingRun)
  }

  class TaskContext {
    var event: Value
    var nodes: map<Id, Value>
    var metadata: Metadata
    var nodeRuns: map<Id, NodeRun>

    function View(): Context
      reads this
    {
      Context(event, nodes, metadata, nodeRuns)
    }

    constructor (c: Context)
      ensures View() == c
    {
      event, nodes, metadata, nodeRuns := c.event, c.nodes, c.metadata, c.nodeRuns;
    }

    method Assign(c: Context)
      modifies this
      ensures View() == c
    {
      event, nodes, metadata, nodeRuns := c.event, c.nodes, c.metadata, c.nodeRuns;
    }

    method AppendSession(s: Session)
      modifies this
      ensures View() == WithSessions(old(View()), [s])
    {
      metadata := metadata.(sessions := metadata.sessions + [s]);
    }

    method AppendInvocation(row: Invocation)
      modifies this
      ensures View() == WithInvocation(old(View()), row)
    {
      metadata := metadata.(invocations := metadata.invocations + [row]);
    }

    method StampCancelled()
      modifies this
      ensures View() == old(View()).(metadata := old(metadata).(cancelled := true))
    {
      metadata := metadata.(cancelled := true);
    }

    method StampBudgetHalt(reason: HaltReason)
      modifies this
      ensures View() == old(View()).(metadata := old(metadata).(budgetHalt := Some(reason)))
    {
      metadata := metadata.(budgetHalt := Some(reason));
    }

    method StampTelemetry(harvest: Context -> Value)
      modifies this
      ensures View() == old(View()).(metadata := old(metadata).(telemetry := Some(harvest(old(View())))))
    {
      metadata := metadata.(telemetry := Some(harvest(View())));
    }

    method StampRunId(runId: Option<string>)
      modifies this
      ensures View() == WithRunId(old(View()), runId)
    {
      if runId.Some? {
        metadata := metadata.(runId := runId);
      }
    }

    method FinishSuspended(resumeAt: Id, reason: SuspendReason, origin: Option<Id>, l: Ledger)
      modifies this
      ensures View() == WithSuspension(old(View()), Some(StampSuspended(old(metadata).suspension, resumeAt, reason, origin, l)))
    {
      metadata := metadata.(suspension := Some(StampSuspended(metadata.suspension, resumeAt, reason, origin, l)));
    }

    method ResumeMarker()
      modifies this
      ensures View() == WithSuspension(old(View()), StampResumed(old(metadata).suspension))
    {
      metadata := metadata.(suspension := StampResumed(metadata.suspension));
    }

    method SetStatus(identity: Id, status: NodeRunStatus)
      modifies this
      ensures View() == WithStatus(old(View()), identity, status)
    {
      if identity in nodeRuns {
        nodeRuns := nodeRuns[identity := nodeRuns[identity].(status := status)];
      }
    }

    method SeedMissingPending(declared: set<Id>)
      modifies this
      ensures View() == SeedMissing(old(View()), declared)
    {
      var todo := declared;
      while todo != {}
        invariant todo <= declared
        invariant View() == SeedMissing(old(View()), declared - todo)
        decreases todo
      {
        var k :| k in todo;
        todo := todo - {k};
        if k !in nodeRuns {
          nodeRuns := nodeRuns[k := PendingRun];
        }
      }
      assert declared - todo == declared;
    }
  }
}
