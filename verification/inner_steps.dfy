/**
 * Nodes that file run records for inner steps: a record is opened as running under the step's own name and
 * closed by nobody but a later dispatch of that name.
 */
module InnerSteps {
  import opened Json
  import opened Contexts
  import opened Nodes
  import opened Schemas
  import opened TaskContexts
  import opened Workflows
  import opened Runs
  import opened Accounts

  /** Existing records keep their status; new ones may be added, as running. */
  predicate AddsRunning(a: map<Id, NodeRun>, b: map<Id, NodeRun>) {
    && (forall k :: k in a ==> k in b && b[k].status == a[k].status)
    && forall k :: k in b && k !in a ==> b[k].status == Running
  }

  ghost predicate OpensRecords(node: Node) {
    forall c :: node.process(c).Done? ==> AddsRunning(c.nodeRuns, node.process(c).ctx.nodeRuns)
  }

  ghost predicate OpeningRegistry(registry: Registry) {
    KeyedByName(registry) && forall k :: k in registry ==> OpensRecords(registry[k])
  }

  /** The names that had a run record when visit `j` began. */
  function KnownBefore(wf: Workflow, trace: seq<Visit>, j: nat): set<Id>
    requires j <= |trace|
  {
    if j == 0 then wf.schema.nodes.Keys else trace[j - 1].after.nodeRuns.Keys
  }

  /** Visit `j` filed a record under a name of its own choosing: a new one, not the dispatched identity. */
  predicate FilesInner(wf: Workflow, trace: seq<Visit>, j: int, k: Id) {
    0 <= j < |trace| && k in trace[j].after.nodeRuns && k !in KnownBefore(wf, trace, j) && k != trace[j].identity
  }

  predicate DispatchedFrom(trace: seq<Visit>, j: int, k: Id) {
    exists i :: 0 <= j <= i < |trace| && trace[i].identity == k
  }

  ghost predicate LeftOpen(wf: Workflow, trace: seq<Visit>, k: Id) {
    exists j :: FilesInner(wf, trace, j, k) && !DispatchedFrom(trace, j, k)
  }

  // ----- One dispatch -----

  /** A dispatch closes its own record, keeps the others, and may open new ones. */
  ghost predicate RecordOutline(c: Context, identity: Id, d: Dispatched) {
    && c.nodeRuns.Keys + {identity} <= d.after.nodeRuns.Keys
    && forall k :: HasStatus(d.after.nodeRuns, k, Running) <==>
         k != identity && (HasStatus(c.nodeRuns, k, Running) || (k in d.after.nodeRuns && k !in c.nodeRuns))
  }

  lemma DispatchHasRecordOutline(node: Node, c: Context, w: World, uuid: Uuid)
    requires OpensRecords(node)
    ensures RecordOutline(c, node.name, Dispatch(node, c, w, uuid))
  {
    var pre := EnterRunning(c, node.name);
    if node.process(pre).Done? {
      assert AddsRunning(pre.nodeRuns, node.process(pre).ctx.nodeRuns);
    }
  }

  // ----- Every run -----

  /** The returned context shows as running exactly the inner steps left open. */
  ghost predicate RecordsTold(wf: Workflow, m: Machine) {
    && m.ctx.nodeRuns.Keys == KnownBefore(wf, m.trace, |m.trace|)
    && wf.schema.nodes.Keys <= m.ctx.nodeRuns.Keys
    && forall k :: HasStatus(m.ctx.nodeRuns, k, Running) <==> LeftOpen(wf, m.trace, k)
  }

  lemma LeftOpenSnoc(wf: Workflow, trace: seq<Visit>, v: Visit, k: Id)
    ensures LeftOpen(wf, trace + [v], k) <==>
            v.identity != k
            && (LeftOpen(wf, trace, k) || (k in v.after.nodeRuns && k !in KnownBefore(wf, trace, |trace|)))
  {
    var longer, n := trace + [v], |trace|;
    forall j | 0 <= j < n
      ensures FilesInner(wf, longer, j, k) <==> FilesInner(wf, trace, j, k)
      ensures DispatchedFrom(longer, j, k) <==> DispatchedFrom(trace, j, k) || v.identity == k
    {
      DispatchedSnoc(trace, v, j, k);
    }
    DispatchedSnoc(trace, v, n, k);
    if LeftOpen(wf, trace, k) {
      var j :| FilesInner(wf, trace, j, k) && !DispatchedFrom(trace, j, k);
      assert v.identity != k ==> FilesInner(wf, longer, j, k) && !DispatchedFrom(longer, j, k);
    }
    assert FilesInner(wf, longer, n, k) <==> k in v.after.nodeRuns && k !in KnownBefore(wf, trace, n) && k != v.identity;
  }

  lemma DispatchedSnoc(trace: seq<Visit>, v: Visit, j: nat, k: Id)
    requires j <= |trace|
    ensures DispatchedFrom(trace + [v], j, k) <==> DispatchedFrom(trace, j, k) || v.identity == k
  {
    var longer := trace + [v];
    if i :| j <= i < |trace| && trace[i].identity == k {
      assert longer[i].identity == k;
    }
    assert longer[|trace|] == v;
    if i :| j <= i < |longer| && longer[i].identity == k {
      assert i < |trace| ==> trace[i].identity == k;
    }
  }

  lemma VisitTellsRecords(wf: Workflow, m: Machine, n: Machine, d: Dispatched)
    requires RecordsTold(wf, m) && Visited(m, n, d) && RecordOutline(m.ctx, m.status.at, d)
    ensures RecordsTold(wf, n)
  {
    forall k
      ensures HasStatus(n.ctx.nodeRuns, k, Running) <==> LeftOpen(wf, n.trace, k)
    {
      LeftOpenSnoc(wf, m.trace, Last(n), k);
    }
  }

  lemma PassTellsRecords(wf: Workflow, w: World, m: Machine, e: Event)
    requires OpeningRegistry(wf.registry) && m.status.AtNode? && e.Tick? && RecordsTold(wf, m)
    ensures RecordsTold(wf, Advance(wf, w, m, e))
  {
    var n := Advance(wf, w, m, e);
    PassOutline(wf, w, m, e);
    if !Stopped(m, n) && m.status.at in wf.registry {
      DispatchHasRecordOutline(wf.registry[m.status.at], m.ctx, w, e.uuid);
      VisitTellsRecords(wf, m, n, Dispatch(wf.registry[m.status.at], m.ctx, w, e.uuid));
    }
  }

  lemma ResumeTellsRecords(wf: Workflow, w: World, m: Machine)
    requires RecordsTold(wf, m)
    ensures RecordsTold(wf, Resumed(wf, w, m))
  {
    assert SeedMissing(m.ctx, wf.schema.nodes.Keys).nodeRuns == m.ctx.nodeRuns;
    assert Resumed(wf, w, m).ctx.nodeRuns == m.ctx.nodeRuns && Resumed(wf, w, m).trace == m.trace;
  }

  /**
   * In every run whose nodes may open records for inner steps: a name shows as running in the context if
   * and only if some visit filed it as an inner step and it was not dispatched at that visit or later.
   */
  lemma {:induction false} InnerStepsShowAsRunning(wf: Workflow, w: World, event: Value, events: seq<Event>)
    requires OpeningRegistry(wf.registry)
    ensures var m := Exec(wf, w, Begin(wf, w, event), events);
            && RecordsTold(wf, m)
            && forall k :: HasStatus(m.ctx.nodeRuns, k, Running) <==>
                 exists j :: FilesInner(wf, m.trace, j, k) && !DispatchedFrom(m.trace, j, k)
    decreases |events|
  {
    if events != [] {
      var init, e := events[..|events| - 1], events[|events| - 1];
      InnerStepsShowAsRunning(wf, w, event, init);
      var m := Exec(wf, w, Begin(wf, w, event), init);
      if e.Tick? && m.status.AtNode? {
        PassTellsRecords(wf, w, m, e);
      } else if e.Continue? && m.status.Suspended? {
        ResumeTellsRecords(wf, w, m);
      }
    }
    LeftOpenReadOut(wf, Exec(wf, w, Begin(wf, w, event), events));
  }

  lemma LeftOpenReadOut(wf: Workflow, m: Machine)
    requires RecordsTold(wf, m)
    ensures forall k :: HasStatus(m.ctx.nodeRuns, k, Running) <==>
              exists j :: FilesInner(wf, m.trace, j, k) && !DispatchedFrom(m.trace, j, k)
  {
    forall k
      ensures HasStatus(m.ctx.nodeRuns, k, Running) <==>
                exists j :: FilesInner(wf, m.trace, j, k) && !DispatchedFrom(m.trace, j, k)
    {
      assert HasStatus(m.ctx.nodeRuns, k, Running) <==> LeftOpen(wf, m.trace, k);
    }
  }

  // ----- What snapshots show -----

  /** With as many rows as there were visits, a snapshot shows the steps left open then, and perhaps the next visit in flight. */
  ghost predicate ShowsOpenSteps(wf: Workflow, trace: seq<Visit>, c: Context) {
    var r := |Rows(c)|;
    && r <= |trace|
    && (|| (forall k :: HasStatus(c.nodeRuns, k, Running) <==> LeftOpen(wf, trace[..r], k))
        || (r < |trace| && forall k :: HasStatus(c.nodeRuns, k, Running) <==>
              k == trace[r].identity || LeftOpen(wf, trace[..r], k)))
  }

  ghost predicate SnapshotsTold(wf: Workflow, m: Machine) {
    forall i :: 0 <= i < |m.emitted| ==> ShowsOpenSteps(wf, m.trace, m.emitted[i])
  }

  lemma LongerTraceShowsTheSame(wf: Workflow, trace: seq<Visit>, v: Visit, c: Context)
    requires ShowsOpenSteps(wf, trace, c)
    ensures ShowsOpenSteps(wf, trace + [v], c)
  {
    var r := |Rows(c)|;
    assert (trace + [v])[..r] == trace[..r];
  }

  lemma ContextShowsOpenSteps(wf: Workflow, m: Machine, c: Context)
    requires RecordsTold(wf, m) && |Rows(c)| == |m.trace| && c.nodeRuns == m.ctx.nodeRuns
    ensures ShowsOpenSteps(wf, m.trace, c)
  {
    assert m.trace[..|m.trace|] == m.trace;
  }

  /** The snapshot taken as a node starts: the steps left open, and the node itself. */
  lemma RunningShowsOpenSteps(wf: Workflow, m: Machine, n: Machine, d: Dispatched)
    requires RecordsTold(wf, m) && Visited(m, n, d) && Rows(d.running) == Rows(m.ctx) && |Rows(m.ctx)| == |m.trace|
    requires forall k :: HasStatus(d.running.nodeRuns, k, Running) <==> k == m.status.at || HasStatus(m.ctx.nodeRuns, k, Running)
    ensures ShowsOpenSteps(wf, n.trace, d.running)
  {
    assert n.trace[..|m.trace|] == m.trace && n.trace[|m.trace|] == Last(n);
  }

  lemma DispatchShowsRunning(node: Node, c: Context, w: World, uuid: Uuid)
    ensures var d := Dispatch(node, c, w, uuid);
            && Rows(d.running) == Rows(c)
            && forall k :: HasStatus(d.running.nodeRuns, k, Running) <==> k == node.name || HasStatus(c.nodeRuns, k, Running)
  {
  }

  lemma VisitTellsSnapshots(wf: Workflow, m: Machine, n: Machine, d: Dispatched)
    requires RecordsTold(wf, m) && RecordsTold(wf, n) && SnapshotsTold(wf, m) && Visited(m, n, d)
    requires |Rows(m.ctx)| == |m.trace| && |Rows(n.ctx)| == |n.trace| && Rows(d.running) == Rows(m.ctx)
    requires forall k :: HasStatus(d.running.nodeRuns, k, Running) <==> k == m.status.at || HasStatus(m.ctx.nodeRuns, k, Running)
    ensures SnapshotsTold(wf, n)
  {
    forall i | 0 <= i < |n.emitted|
      ensures ShowsOpenSteps(wf, n.trace, n.emitted[i])
    {
      if i < |m.emitted| {
        assert n.emitted[i] == m.emitted[i];
        LongerTraceShowsTheSame(wf, m.trace, Last(n), m.emitted[i]);
      } else if i == |m.emitted| {
        assert n.emitted[i] == d.running;
        RunningShowsOpenSteps(wf, m, n, d);
      } else {
        assert n.emitted[i].nodeRuns == n.ctx.nodeRuns && Rows(n.emitted[i]) == Rows(n.ctx);
        ContextShowsOpenSteps(wf, n, n.emitted[i]);
      }
    }
  }

  lemma OneMoreTold(wf: Workflow, m: Machine, n: Machine)
    requires SnapshotsTold(wf, m) && RecordsTold(wf, n) && |Rows(n.ctx)| == |n.trace|
    requires n.trace == m.trace && n.emitted == m.emitted + [n.ctx]
    ensures SnapshotsTold(wf, n)
  {
    ContextShowsOpenSteps(wf, n, n.ctx);
  }

  lemma PassTellsSnapshots(wf: Workflow, w: World, m: Machine, e: Event)
    requires OpeningRegistry(wf.registry) && RowKeepingRegistry(wf.registry) && m.status.AtNode? && e.Tick?
    requires RecordsTold(wf, m) && SnapshotsTold(wf, m) && RowsExact(m)
    ensures SnapshotsTold(wf, Advance(wf, w, m, e))
  {
    var n := Advance(wf, w, m, e);
    PassOutline(wf, w, m, e);
    PassTellsRecords(wf, w, m, e);
    PassKeepsRows(wf, w, m, e);
    if Stopped(m, n) {
      OneMoreTold(wf, m, n);
    } else if m.status.at in wf.registry {
      DispatchShowsRunning(wf.registry[m.status.at], m.ctx, w, e.uuid);
      VisitTellsSnapshots(wf, m, n, Dispatch(wf.registry[m.status.at], m.ctx, w, e.uuid));
    }
  }

  /**
   * Every snapshot of such a run shows as running exactly the inner steps left open by the visits whose rows
   * it holds, and besides them at most the one node in flight.
   */
  lemma {:induction false} SnapshotsShowOpenSteps(wf: Workflow, w: World, event: Value, events: seq<Event>)
    requires OpeningRegistry(wf.registry) && RowKeepingRegistry(wf.registry)
    ensures SnapshotsTold(wf, Exec(wf, w, Begin(wf, w, event), events))
    decreases |events|
  {
    InnerStepsShowAsRunning(wf, w, event, events);
    EveryRunKeepsRows(wf, w, event, events);
    if events == [] {
      ContextShowsOpenSteps(wf, Begin(wf, w, event), Begin(wf, w, event).ctx);
    } else {
      var init, e := events[..|events| - 1], events[|events| - 1];
      SnapshotsShowOpenSteps(wf, w, event, init);
      InnerStepsShowAsRunning(wf, w, event, init);
      EveryRunKeepsRows(wf, w, event, init);
      EveryRunKeepsAccount(wf, w, event, init);
      var m := Exec(wf, w, Begin(wf, w, event), init);
      if e.Tick? && m.status.AtNode? {
        PassTellsSnapshots(wf, w, m, e);
      } else if e.Continue? && m.status.Suspended? {
        ResumeRestoresExactly(wf, w, m);
        OneMoreTold(wf, m, Advance(wf, w, m, e));
      }
    }
  }
}
