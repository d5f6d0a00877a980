/**
 * Durable delivery: the progress callback forwards every snapshot, and every ledger row past a high-water
 * mark, down a channel; the writer drains the channel into tables, inserting a row only if its id is new.
 */
module DurableDelivery {
  import opened Json
  import opened Contexts
  import opened Ledgers
  import opened Nodes
  import opened Workflows
  import opened Runs
  import opened Accounts

  /** `Other` stands for the items that touch neither table below. */
  datatype Item = Snapshot(runId: string, c: Context) | NodeInvocation(row: Invocation) | Other

  class Channel {
    var items: seq<Item>

    constructor ()
      ensures items == []
    {
      items := [];
    }

    method Send(item: Item)
      modifies this
      ensures items == old(items) + [item]
    {
      items := items + [item];
    }
  }

  // ----- The forwarder -----

  function NewRows(sent: nat, c: Context): seq<Invocation> { if |Rows(c)| > sent then Rows(c)[sent..] else [] }

  function RowItems(rows: seq<Invocation>): seq<Item> {
    if rows == [] then [] else RowItems(rows[..|rows| - 1]) + [NodeInvocation(rows[|rows| - 1])]
  }

  /** What one snapshot puts on the channel: itself, and every ledger row past the mark. */
  function Sent(runId: string, mark: nat, c: Context): seq<Item> { [Snapshot(runId, c)] + RowItems(NewRows(mark, c)) }

  function Raised(mark: nat, c: Context): nat { if |Rows(c)| > mark then |Rows(c)| else mark }

  class Forwarder {
    const runId: string
    const channel: Channel
    var sent: nat

    constructor (runId: string, channel: Channel)
      ensures sent == 0 && this.runId == runId && this.channel == channel
    {
      this.runId, this.channel, sent := runId, channel, 0;
    }

    /** Every row not sent yet, in order. */
    method SendRows(rows: seq<Invocation>)
      modifies channel
      ensures channel.items == old(channel.items) + RowItems(rows)
    {
      var i := 0;
      while i < |rows|
        invariant i <= |rows|
        invariant channel.items == old(channel.items) + RowItems(rows[..i])
      {
        channel.Send(NodeInvocation(rows[i]));
        assert rows[..i + 1][..i] == rows[..i];
        i := i + 1;
      }
      assert rows[..i] == rows;
    }

    method OnProgress(c: Context)
      modifies this, channel
      ensures sent == Raised(old(sent), c)
      ensures channel.items == old(channel.items) + Sent(runId, old(sent), c)
    {
      channel.Send(Snapshot(runId, c));
      var invocations := c.metadata.invocations;
      if |invocations| > sent {
        SendRows(invocations[sent..]);
        sent := |invocations|;
      }
    }
  }

  /** The high-water mark after these snapshots, from a fresh forwarder. */
  function Mark(snapshots: seq<Context>): nat {
    if snapshots == [] then 0 else Raised(Mark(snapshots[..|snapshots| - 1]), snapshots[|snapshots| - 1])
  }

  function Forwarded(runId: string, snapshots: seq<Context>): seq<Item> {
    if snapshots == [] then []
    else
      var init := snapshots[..|snapshots| - 1];
      Forwarded(runId, init) + Sent(runId, Mark(init), snapshots[|snapshots| - 1])
  }

  lemma {:induction false} ForwardedSnoc(runId: string, shown: seq<Context>, c: Context)
    ensures Forwarded(runId, shown + [c]) == Forwarded(runId, shown) + Sent(runId, Mark(shown), c)
    ensures Mark(shown + [c]) == Raised(Mark(shown), c)
  {
    assert (shown + [c])[..|shown|] == shown;
  }

  // ----- The writer -----

  datatype Store = Store(snapshots: map<string, Context>, rows: map<Uuid, Invocation>)

  /** Upsert a snapshot, insert a row unless its id is there; a failed write is only logged. */
  function Written(store: Store, item: Item, ok: bool): Store {
    match item
    case Snapshot(runId, c) => if ok then store.(snapshots := store.snapshots[runId := c]) else store
    case NodeInvocation(row) =>
      if ok && row.id !in store.rows then store.(rows := store.rows[row.id := row]) else store
    case Other => store
  }

  /** `ok` says which writes the database accepts, by position. */
  function WriteAll(store: Store, items: seq<Item>, ok: nat -> bool): Store {
    if items == [] then store
    else Written(WriteAll(store, items[..|items| - 1], ok), items[|items| - 1], ok(|items| - 1))
  }

  class Writer {
    const pool: bool
    var store: Store

    constructor (pool: bool, store: Store)
      ensures this.pool == pool && this.store == store
    {
      this.pool, this.store := pool, store;
    }

    method WriteOne(item: Item, ok: bool)
      modifies this
      ensures store == Written(old(store), item, ok)
    {
      match item {
        case Snapshot(runId, c) =>
          if ok {
            store := store.(snapshots := store.snapshots[runId := c]);
          }
        case NodeInvocation(row) =>
          if ok && row.id !in store.rows {
            store := store.(rows := store.rows[row.id := row]);
          }
        case Other =>
      }
    }

    /** Receive until the channel is empty; without a pool everything is taken and dropped. */
    method Drain(items: seq<Item>, ok: nat -> bool)
      modifies this
      ensures store == if pool then WriteAll(old(store), items, ok) else old(store)
    {
      var i := 0;
      while i < |items|
        invariant i <= |items|
        invariant store == if pool then WriteAll(old(store), items[..i], ok) else old(store)
      {
        assert items[..i + 1][..i] == items[..i];
        if pool {
          WriteOne(items[i], ok(i));
        }
        i := i + 1;
      }
      assert items[..i] == items;
    }
  }

  // ----- One forwarder sends each row once, in order -----

  function RowsIn(items: seq<Item>): seq<Invocation> {
    if items == [] then []
    else RowsIn(items[..|items| - 1]) + if items[|items| - 1].NodeInvocation? then [items[|items| - 1].row] else []
  }

  lemma {:induction false} RowsInConcat(a: seq<Item>, b: seq<Item>)
    ensures RowsIn(a + b) == RowsIn(a) + RowsIn(b)
  {
    if b == [] {
      assert a + b == a;
    } else {
      assert (a + b)[..|a + b| - 1] == a + b[..|b| - 1];
      RowsInConcat(a, b[..|b| - 1]);
    }
  }

  lemma {:induction false} RowsInRowItems(rows: seq<Invocation>)
    ensures RowsIn(RowItems(rows)) == rows
  {
    if rows != [] {
      var init := rows[..|rows| - 1];
      RowsInRowItems(init);
      assert RowItems(rows)[..|RowItems(rows)| - 1] == RowItems(init);
    }
  }

  /** Successive snapshots whose ledgers only grow at the end. */
  ghost predicate Ordered(snapshots: seq<Context>) {
    forall i, j :: 0 <= i <= j < |snapshots| ==> Rows(snapshots[i]) <= Rows(snapshots[j])
  }

  lemma RowsInSent(runId: string, mark: nat, c: Context)
    ensures RowsIn(Sent(runId, mark, c)) == NewRows(mark, c)
  {
    RowsInConcat([Snapshot(runId, c)], RowItems(NewRows(mark, c)));
    RowsInRowItems(NewRows(mark, c));
  }

  /** Showing one more snapshot sends the rows past the mark, and only those. */
  lemma {:induction false} OneMoreShown(runId: string, init: seq<Context>, c: Context, earlier: seq<Invocation>)
    requires RowsIn(Forwarded(runId, init)) == earlier && Mark(init) == |earlier| && earlier <= Rows(c)
    ensures RowsIn(Forwarded(runId, init + [c])) == Rows(c) && Mark(init + [c]) == |Rows(c)|
  {
    ForwardedSnoc(runId, init, c);
    RowsInConcat(Forwarded(runId, init), Sent(runId, Mark(init), c));
    RowsInSent(runId, Mark(init), c);
  }

  lemma {:induction false} ForwardsEachRowOnce(runId: string, snapshots: seq<Context>)
    requires Ordered(snapshots) && snapshots != []
    ensures RowsIn(Forwarded(runId, snapshots)) == Rows(snapshots[|snapshots| - 1])
    ensures Mark(snapshots) == |Rows(snapshots[|snapshots| - 1])|
  {
    var init, c := snapshots[..|snapshots| - 1], snapshots[|snapshots| - 1];
    assert snapshots == init + [c];
    if init == [] {
      OneMoreShown(runId, init, c, []);
    } else {
      ForwardsEachRowOnce(runId, init);
      OneMoreShown(runId, init, c, Rows(init[|init| - 1]));
    }
  }

  /**
   * Whatever ledgers the snapshots show, even shrinking ones: the mark is the longest seen, and as many rows
   * were sent as that.
   */
  lemma {:induction false} MarkIsTheLongest(runId: string, snapshots: seq<Context>)
    ensures forall c :: c in snapshots ==> |Rows(c)| <= Mark(snapshots)
    ensures Mark(snapshots) == 0 || exists c :: c in snapshots && |Rows(c)| == Mark(snapshots)
    ensures |RowsIn(Forwarded(runId, snapshots))| == Mark(snapshots)
  {
    if snapshots != [] {
      var init, c := snapshots[..|snapshots| - 1], snapshots[|snapshots| - 1];
      assert snapshots == init + [c];
      MarkIsTheLongest(runId, init);
      RowsInConcat(Forwarded(runId, init), Sent(runId, Mark(init), c));
      RowsInSent(runId, Mark(init), c);
    }
  }

  // ----- The table, through any number of restarts -----

  /** Beside other runs' rows, every row in the table is the ledger's own row of that id. */
  ghost predicate TableFrom(rows: map<Uuid, Invocation>, others: map<Uuid, Invocation>, ledger: seq<Invocation>) {
    && (forall id :: id in others ==> id in rows && rows[id] == others[id])
    && (forall r :: r in ledger ==> r.id !in others)
    && forall id :: id in rows ==> id in others || (rows[id] in ledger && rows[id].id == id)
  }

  ghost predicate TableIs(rows: map<Uuid, Invocation>, others: map<Uuid, Invocation>, ledger: seq<Invocation>) {
    TableFrom(rows, others, ledger) && forall r :: r in ledger ==> r.id in rows && rows[r.id] == r
  }

  lemma {:induction false} WritingKeepsTable(store: Store, items: seq<Item>, ok: nat -> bool, others: map<Uuid, Invocation>, ledger: seq<Invocation>)
    requires TableFrom(store.rows, others, ledger)
    requires forall r :: r in RowsIn(items) ==> r in ledger
    ensures TableFrom(WriteAll(store, items, ok).rows, others, ledger)
    ensures store.rows.Keys <= WriteAll(store, items, ok).rows.Keys
    ensures forall id :: id in store.rows ==> WriteAll(store, items, ok).rows[id] == store.rows[id]
  {
    if items != [] {
      WritingKeepsTable(store, items[..|items| - 1], ok, others, ledger);
    }
  }

  lemma SameIdSameRow(ledger: seq<Invocation>, a: Invocation, b: Invocation)
    requires DistinctIds(ledger) && a in ledger && b in ledger && a.id == b.id
    ensures a == b
  {
    var i :| 0 <= i < |ledger| && ledger[i] == a;
    var j :| 0 <= j < |ledger| && ledger[j] == b;
  }

  lemma {:induction false} WritingAddsRows(store: Store, items: seq<Item>, ok: nat -> bool, others: map<Uuid, Invocation>, ledger: seq<Invocation>)
    requires DistinctIds(ledger) && TableFrom(store.rows, others, ledger) && forall n :: ok(n)
    requires forall r :: r in RowsIn(items) ==> r in ledger
    ensures forall r :: r in RowsIn(items) ==> r.id in WriteAll(store, items, ok).rows && WriteAll(store, items, ok).rows[r.id] == r
  {
    if items != [] {
      var init, last := items[..|items| - 1], items[|items| - 1];
      WritingAddsRows(store, init, ok, others, ledger);
      WritingKeepsTable(store, init, ok, others, ledger);
      var before := WriteAll(store, init, ok);
      if last.NodeInvocation? && last.row.id in before.rows {
        SameIdSameRow(ledger, last.row, before.rows[last.row.id]);
      }
    }
  }

  lemma {:induction false} FullDrainFillsTable(store: Store, items: seq<Item>, ok: nat -> bool, others: map<Uuid, Invocation>, ledger: seq<Invocation>)
    requires RowsIn(items) == ledger && DistinctIds(ledger) && TableFrom(store.rows, others, ledger) && forall n :: ok(n)
    ensures TableIs(WriteAll(store, items, ok).rows, others, ledger)
    ensures store.rows.Keys <= WriteAll(store, items, ok).rows.Keys
    ensures forall id :: id in store.rows ==> WriteAll(store, items, ok).rows[id] == store.rows[id]
  {
    WritingKeepsTable(store, items, ok, others, ledger);
    WritingAddsRows(store, items, ok, others, ledger);
  }

  /** The two stores agree on a run's snapshot. */
  predicate SameSnapshot(a: Store, b: Store, id: string) {
    (id in a.snapshots <==> id in b.snapshots) && (id in a.snapshots ==> a.snapshots[id] == b.snapshots[id])
  }

  /** Writes leave alone the snapshot of every run they hold none of. */
  lemma {:induction false} WritingKeepsOtherSnapshots(store: Store, items: seq<Item>, ok: nat -> bool, id: string)
    requires forall item :: item in items && item.Snapshot? ==> item.runId != id
    ensures SameSnapshot(store, WriteAll(store, items, ok), id)
  {
    if items != [] {
      var last := items[|items| - 1];
      WritingKeepsOtherSnapshots(store, items[..|items| - 1], ok, id);
      assert last in items;
    }
  }

  /** A refused write changes nothing, wherever it comes. */
  lemma {:induction false} RefusedWriteChangesNothing(store: Store, before: seq<Item>, item: Item, ok: nat -> bool)
    requires !ok(|before|)
    ensures WriteAll(store, before + [item], ok) == WriteAll(store, before, ok)
  {
    assert (before + [item])[..|before|] == before;
  }

  lemma {:induction false} ForwardsOwnSnapshots(runId: string, snapshots: seq<Context>)
    ensures forall item :: item in Forwarded(runId, snapshots) && item.Snapshot? ==> item.runId == runId
  {
    if snapshots != [] {
      var init := snapshots[..|snapshots| - 1];
      ForwardsOwnSnapshots(runId, init);
      RowItemsHoldNoSnapshot(NewRows(Mark(init), snapshots[|snapshots| - 1]));
    }
  }

  /** One process: what it was shown, how much of what it sent was drained, and which writes went through. */
  datatype Process = Process(snapshots: seq<Context>, drained: nat, ok: nat -> bool)

  function Drained(runId: string, p: Process): seq<Item> {
    var items := Forwarded(runId, p.snapshots);
    if p.drained <= |items| then items[..p.drained] else items
  }

  /** The store after these processes, each with a fresh forwarder, ran one after the other. */
  function AfterProcesses(store: Store, runId: string, history: seq<Process>): Store {
    if history == [] then store
    else
      var last := history[|history| - 1];
      WriteAll(AfterProcesses(store, runId, history[..|history| - 1]), Drained(runId, last), last.ok)
  }

  ghost predicate ShowsPrefixes(p: Process, ledger: seq<Invocation>) {
    Ordered(p.snapshots) && forall c :: c in p.snapshots ==> Rows(c) <= ledger
  }

  lemma {:induction false} PartHoldsFewerRows(items: seq<Item>, n: nat, r: Invocation)
    requires n <= |items| && r in RowsIn(items[..n])
    ensures r in RowsIn(items)
  {
    assert items[..n] + items[n..] == items;
    RowsInConcat(items[..n], items[n..]);
  }

  lemma ShownRowIsLedger(p: Process, ledger: seq<Invocation>, r: Invocation)
    requires ShowsPrefixes(p, ledger) && p.snapshots != [] && r in Rows(p.snapshots[|p.snapshots| - 1])
    ensures r in ledger
  {
    var c := p.snapshots[|p.snapshots| - 1];
    assert c in p.snapshots && Rows(c) <= ledger;
    var i :| 0 <= i < |Rows(c)| && Rows(c)[i] == r;
    assert ledger[i] == r;
  }

  lemma DrainedRowsAreLedger(runId: string, p: Process, ledger: seq<Invocation>)
    requires ShowsPrefixes(p, ledger)
    ensures forall r :: r in RowsIn(Drained(runId, p)) ==> r in ledger
  {
    var items := Forwarded(runId, p.snapshots);
    forall r | r in RowsIn(Drained(runId, p))
      ensures r in ledger
    {
      if p.drained <= |items| {
        PartHoldsFewerRows(items, p.drained, r);
      }
      if p.snapshots != [] {
        ForwardsEachRowOnce(runId, p.snapshots);
        ShownRowIsLedger(p, ledger, r);
      }
    }
  }

  lemma {:induction false} ProcessesKeepTable(store: Store, runId: string, history: seq<Process>, others: map<Uuid, Invocation>, ledger: seq<Invocation>)
    requires TableFrom(store.rows, others, ledger)
    requires forall p :: p in history ==> ShowsPrefixes(p, ledger)
    ensures TableFrom(AfterProcesses(store, runId, history).rows, others, ledger)
  {
    if history != [] {
      var init, last := history[..|history| - 1], history[|history| - 1];
      ProcessesKeepTable(store, runId, init, others, ledger);
      assert last in history;
      DrainedRowsAreLedger(runId, last, ledger);
      WritingKeepsTable(AfterProcesses(store, runId, init), Drained(runId, last), last.ok, others, ledger);
    }
  }

  lemma {:induction false} LastSnapshotWins(store: Store, items: seq<Item>, more: seq<Item>, ok: nat -> bool, runId: string, c: Context)
    requires items != [] && items[|items| - 1] == Snapshot(runId, c) && forall n :: ok(n)
    requires forall item :: item in more ==> !item.Snapshot?
    ensures var s := WriteAll(store, items + more, ok); runId in s.snapshots && s.snapshots[runId] == c
  {
    if more == [] {
      assert items + more == items;
    } else {
      var init := more[..|more| - 1];
      assert (items + more)[..|items + more| - 1] == items + init;
      assert (items + more)[|items + more| - 1] == more[|more| - 1];
      LastSnapshotWins(store, items, init, ok, runId, c);
    }
  }

  lemma {:induction false} RowItemsHoldNoSnapshot(rows: seq<Invocation>)
    ensures forall item :: item in RowItems(rows) ==> !item.Snapshot?
  {
    if rows != [] {
      RowItemsHoldNoSnapshot(rows[..|rows| - 1]);
    }
  }

  /**
   * After any number of processes, each possibly cut off mid-drain or with writes refused, one process
   * whose forwarder is drained in full leaves exactly the last snapshot's ledger rows in the table, each
   * as recorded, without having changed any row that was there; it leaves that snapshot, and every other
   * run's as it was.
   */
  lemma {:induction false} TableHoldsExactlyTheLedger(store: Store, runId: string, history: seq<Process>, snapshots: seq<Context>, ok: nat -> bool,
                                                      others: map<Uuid, Invocation>)
    requires snapshots != [] && Ordered(snapshots) && forall n :: ok(n)
    requires var ledger := Rows(snapshots[|snapshots| - 1]);
             DistinctIds(ledger) && TableFrom(store.rows, others, ledger) && forall p :: p in history ==> ShowsPrefixes(p, ledger)
    ensures var final := snapshots[|snapshots| - 1];
            var before := AfterProcesses(store, runId, history);
            var after := WriteAll(before, Forwarded(runId, snapshots), ok);
            && TableIs(after.rows, others, Rows(final))
            && before.rows.Keys <= after.rows.Keys && (forall id :: id in before.rows ==> after.rows[id] == before.rows[id])
            && runId in after.snapshots && after.snapshots[runId] == final
            && forall id :: id != runId ==> SameSnapshot(store, after, id)
  {
    var init, final := snapshots[..|snapshots| - 1], snapshots[|snapshots| - 1];
    assert snapshots == init + [final];
    ForwardsEachRowOnce(runId, snapshots);
    LastProcessDelivers(store, runId, history, init, final, ok, others);
    DeliveryKeepsOtherSnapshots(store, runId, history, snapshots, ok);
  }

  lemma {:induction false} LastProcessDelivers(store: Store, runId: string, history: seq<Process>, init: seq<Context>, final: Context,
                                               ok: nat -> bool, others: map<Uuid, Invocation>)
    requires RowsIn(Forwarded(runId, init + [final])) == Rows(final) && forall n :: ok(n)
    requires DistinctIds(Rows(final)) && TableFrom(store.rows, others, Rows(final))
    requires forall p :: p in history ==> ShowsPrefixes(p, Rows(final))
    ensures var before := AfterProcesses(store, runId, history);
            var after := WriteAll(before, Forwarded(runId, init + [final]), ok);
            && TableIs(after.rows, others, Rows(final))
            && before.rows.Keys <= after.rows.Keys && (forall id :: id in before.rows ==> after.rows[id] == before.rows[id])
            && runId in after.snapshots && after.snapshots[runId] == final
  {
    ProcessesKeepTable(store, runId, history, others, Rows(final));
    var before := AfterProcesses(store, runId, history);
    FullDrainFillsTable(before, Forwarded(runId, init + [final]), ok, others, Rows(final));
    LastSnapshotIsStored(before, runId, init, final, ok);
  }

  /** Through all processes, and the last drain, every other run keeps its snapshot. */
  lemma {:induction false} ProcessesKeepOtherSnapshots(store: Store, runId: string, history: seq<Process>, id: string)
    requires id != runId
    ensures SameSnapshot(store, AfterProcesses(store, runId, history), id)
  {
    if history != [] {
      var init, last := history[..|history| - 1], history[|history| - 1];
      ProcessesKeepOtherSnapshots(store, runId, init, id);
      ForwardsOwnSnapshots(runId, last.snapshots);
      WritingKeepsOtherSnapshots(AfterProcesses(store, runId, init), Drained(runId, last), last.ok, id);
    }
  }

  lemma {:induction false} DeliveryKeepsOtherSnapshots(store: Store, runId: string, history: seq<Process>, snapshots: seq<Context>, ok: nat -> bool)
    ensures var after := WriteAll(AfterProcesses(store, runId, history), Forwarded(runId, snapshots), ok);
            forall id :: id != runId ==> SameSnapshot(store, after, id)
  {
    var before := AfterProcesses(store, runId, history);
    forall id | id != runId
      ensures SameSnapshot(store, WriteAll(before, Forwarded(runId, snapshots), ok), id)
    {
      ProcessesKeepOtherSnapshots(store, runId, history, id);
      ForwardsOwnSnapshots(runId, snapshots);
      WritingKeepsOtherSnapshots(before, Forwarded(runId, snapshots), ok, id);
    }
  }

  lemma {:induction false} LastSnapshotIsStored(store: Store, runId: string, init: seq<Context>, final: Context, ok: nat -> bool)
    requires forall n :: ok(n)
    ensures var s := WriteAll(store, Forwarded(runId, init + [final]), ok); runId in s.snapshots && s.snapshots[runId] == final
  {
    var last, rest := Forwarded(runId, init) + [Snapshot(runId, final)], RowItems(NewRows(Mark(init), final));
    ForwardedSnoc(runId, init, final);
    assert Forwarded(runId, init + [final]) == last + rest;
    RowItemsHoldNoSnapshot(NewRows(Mark(init), final));
    LastSnapshotWins(store, last, rest, ok, runId, final);
  }

  // ----- The engine's own runs -----

  /** Every boundary is given an identifier of its own. */
  ghost predicate FreshUuids(events: seq<Event>) {
    forall i, j :: 0 <= i < j < |events| && events[i].Tick? && events[j].Tick? ==> events[i].uuid != events[j].uuid
  }

  ghost predicate IdsFrom(rows: seq<Invocation>, events: seq<Event>) {
    forall r :: r in rows ==> exists e :: e in events && e.Tick? && e.uuid == r.id
  }

  lemma NewRowIsDistinct(rows: seq<Invocation>, init: seq<Event>, e: Event, row: Invocation)
    requires DistinctIds(rows) && IdsFrom(rows, init) && e.Tick? && row.id == e.uuid && FreshUuids(init + [e])
    ensures DistinctIds(rows + [row]) && IdsFrom(rows + [row], init + [e])
  {
    forall r | r in rows
      ensures r.id != row.id
    {
      var origin :| origin in init && origin.Tick? && origin.uuid == r.id;
      var i :| 0 <= i < |init| && init[i] == origin;
      assert (init + [e])[i] == init[i] && (init + [e])[|init|] == e;
    }
  }

  lemma {:induction false} RowIdsAreDistinct(wf: Workflow, w: World, event: Value, events: seq<Event>)
    requires RowKeepingRegistry(wf.registry) && FreshUuids(events)
    ensures var rows := Rows(Exec(wf, w, Begin(wf, w, event), events).ctx); DistinctIds(rows) && IdsFrom(rows, events)
    decreases |events|
  {
    if events != [] {
      var init, e := events[..|events| - 1], events[|events| - 1];
      assert events == init + [e];
      RowIdsAreDistinct(wf, w, event, init);
      var m := Exec(wf, w, Begin(wf, w, event), init);
      StepAddsOwnId(wf, w, m, init, e);
    }
  }

  lemma StepAddsOwnId(wf: Workflow, w: World, m: Machine, init: seq<Event>, e: Event)
    requires RowKeepingRegistry(wf.registry) && FreshUuids(init + [e])
    requires DistinctIds(Rows(m.ctx)) && IdsFrom(Rows(m.ctx), init)
    ensures var rows := Rows(Advance(wf, w, m, e).ctx); DistinctIds(rows) && IdsFrom(rows, init + [e])
  {
    var n := Advance(wf, w, m, e);
    if e.Tick? && m.status.AtNode? {
      PassOutline(wf, w, m, e);
      if m.status.at in wf.registry && !Stopped(m, n) {
        DispatchAddsRow(wf.registry[m.status.at], m.ctx, w, e.uuid);
        NewRowIsDistinct(Rows(m.ctx), init, e, Rows(n.ctx)[|Rows(m.ctx)|]);
        assert Rows(n.ctx) == Rows(m.ctx) + [Rows(n.ctx)[|Rows(m.ctx)|]];
      }
    } else if e.Continue? && m.status.Suspended? {
      assert Rows(n.ctx) == Rows(m.ctx);
    }
  }

  /** One process shows a stretch of the run's snapshots. */
  ghost predicate ShowsStretch(p: Process, emitted: seq<Context>) {
    exists a, b :: 0 <= a <= b <= |emitted| && p.snapshots == emitted[a..b]
  }

  /**
   * For the engine's own runs nothing more need be assumed than fresh identifiers: whatever stretches of
   * its snapshots earlier processes forwarded, and however much of that was written, one drained forwarder
   * of a last stretch leaves exactly that snapshot's ledger in the table.
   */
  lemma {:induction false} RunsAreDeliveredExactly(wf: Workflow, w: World, event: Value, events: seq<Event>,
                                                   runId: string, history: seq<Process>, a: nat, b: nat, ok: nat -> bool, store: Store)
    requires RowKeepingRegistry(wf.registry) && FreshUuids(events)
    requires var m := Exec(wf, w, Begin(wf, w, event), events);
             && a < b <= |m.emitted| && (forall p :: p in history ==> ShowsStretch(p, m.emitted[..b]))
             && forall r :: r in Rows(m.ctx) ==> r.id !in store.rows
    requires forall n :: ok(n)
    ensures var emitted := Exec(wf, w, Begin(wf, w, event), events).emitted;
            var after := WriteAll(AfterProcesses(store, runId, history), Forwarded(runId, emitted[a..b]), ok);
            && TableIs(after.rows, store.rows, Rows(emitted[b - 1]))
            && runId in after.snapshots && after.snapshots[runId] == emitted[b - 1]
            && forall id :: id != runId ==> SameSnapshot(store, after, id)
  {
    var m := Exec(wf, w, Begin(wf, w, event), events);
    RunIsDeliverable(wf, w, event, events, history, a, b, store);
    TableHoldsExactlyTheLedger(store, runId, history, m.emitted[a..b], ok, store.rows);
  }

  /** What delivery asks of the snapshots a process forwards, and of the processes before it. */
  ghost predicate Deliverable(snapshots: seq<Context>, final: Context, history: seq<Process>, rows: map<Uuid, Invocation>) {
    && snapshots != [] && Ordered(snapshots) && snapshots[|snapshots| - 1] == final
    && DistinctIds(Rows(final)) && TableFrom(rows, rows, Rows(final))
    && forall p :: p in history ==> ShowsPrefixes(p, Rows(final))
  }

  lemma {:induction false} RunIsDeliverable(wf: Workflow, w: World, event: Value, events: seq<Event>,
                                            history: seq<Process>, a: nat, b: nat, store: Store)
    requires RowKeepingRegistry(wf.registry) && FreshUuids(events)
    requires var m := Exec(wf, w, Begin(wf, w, event), events);
             && a < b <= |m.emitted| && (forall p :: p in history ==> ShowsStretch(p, m.emitted[..b]))
             && forall r :: r in Rows(m.ctx) ==> r.id !in store.rows
    ensures var emitted := Exec(wf, w, Begin(wf, w, event), events).emitted;
            Deliverable(emitted[a..b], emitted[b - 1], history, store.rows)
  {
    var m := Exec(wf, w, Begin(wf, w, event), events);
    EveryRunKeepsRows(wf, w, event, events);
    RowIdsAreDistinct(wf, w, event, events);
    HistoryShowsPrefixes(m, history, b);
    FinalLedgerIsDistinct(m, b);
    StretchIsOrdered(m, a, b);
  }

  lemma HistoryShowsPrefixes(m: Machine, history: seq<Process>, b: nat)
    requires SnapshotsOrdered(m) && 0 < b <= |m.emitted|
    requires forall p :: p in history ==> ShowsStretch(p, m.emitted[..b])
    ensures forall p :: p in history ==> ShowsPrefixes(p, Rows(m.emitted[b - 1]))
  {
    forall p | p in history
      ensures ShowsPrefixes(p, Rows(m.emitted[b - 1]))
    {
      StretchShowsPrefixes(m, p, b);
    }
  }

  lemma FinalLedgerIsDistinct(m: Machine, b: nat)
    requires SnapshotsOrdered(m) && DistinctIds(Rows(m.ctx)) && 0 < b <= |m.emitted|
    ensures DistinctIds(Rows(m.emitted[b - 1])) && forall r :: r in Rows(m.emitted[b - 1]) ==> r in Rows(m.ctx)
  {
    assert Rows(m.emitted[b - 1]) <= Rows(m.ctx);
    PrefixOfDistinct(Rows(m.emitted[b - 1]), Rows(m.ctx));
  }

  lemma PrefixOfDistinct(rows: seq<Invocation>, all: seq<Invocation>)
    requires rows <= all && DistinctIds(all)
    ensures DistinctIds(rows) && forall r :: r in rows ==> r in all
  {
  }

  lemma StretchIsOrdered(m: Machine, a: nat, b: nat)
    requires SnapshotsOrdered(m) && a <= b <= |m.emitted|
    ensures Ordered(m.emitted[a..b])
  {
    forall i, j | 0 <= i <= j < b - a
      ensures Rows(m.emitted[a..b][i]) <= Rows(m.emitted[a..b][j])
    {
      assert Rows(m.emitted[a + i]) <= Rows(m.emitted[a + j]);
    }
  }

  lemma StretchShowsPrefixes(m: Machine, p: Process, b: nat)
    requires SnapshotsOrdered(m) && 0 < b <= |m.emitted| && ShowsStretch(p, m.emitted[..b])
    ensures ShowsPrefixes(p, Rows(m.emitted[b - 1]))
  {
    var x, y :| 0 <= x <= y <= b && p.snapshots == m.emitted[..b][x..y];
    assert p.snapshots == m.emitted[x..y];
    StretchIsOrdered(m, x, y);
    StretchIsBelow(m, x, y, b);
  }

  lemma StretchIsBelow(m: Machine, x: nat, y: nat, b: nat)
    requires SnapshotsOrdered(m) && x <= y <= b && 0 < b <= |m.emitted|
    ensures forall c :: c in m.emitted[x..y] ==> Rows(c) <= Rows(m.emitted[b - 1])
  {
    forall c | c in m.emitted[x..y]
      ensures Rows(c) <= Rows(m.emitted[b - 1])
    {
      var i :| x <= i < y && m.emitted[i] == c;
    }
  }
}
