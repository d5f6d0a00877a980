/**
 * The fallback restore, which rebuilds a budget ledger from a context without a ledger snapshot: exactly how
 * much it loses to repeated visits, and how much it counts that was never folded into the true spend.
 */
module LossyRestores {
  import opened Json
  import opened Contexts
  import opened Budgets
  import opened Suspensions
  import opened Nodes
  import opened Schemas
  import opened TaskContexts
  import opened Workflows
  import opened Runs
  import opened Accounts
  import Guarantees

  /** What one identity adds to the rebuilt ledger. */
  function Contribution(c: Context, i: Id): Spend { AllOf(c).At(i) }

  /** A node keeps its own run record, reports no negative cost, and leaves alone what other nodes report. */
  ghost predicate LeavesOthersStep(nodes: set<Id>, name: Id, before: Context, after: Context) {
    && (forall k :: k in nodes && k != name ==> Contribution(after, k) == Contribution(before, k))
    && Contribution(after, name).cost >= 0.0
    && (name in before.nodeRuns ==> name in after.nodeRuns)
  }

  /** What it files under names that belong to no node is its own affair. */
  ghost predicate LeavesOthers(nodes: set<Id>, node: Node) {
    forall c :: node.process(c).Done? ==> LeavesOthersStep(nodes, node.name, c, node.process(c).ctx)
  }

  ghost predicate ConsiderateRegistry(registry: Registry) {
    KeyedByName(registry) && forall k :: k in registry ==> LeavesOthers(registry.Keys, registry[k])
  }

  /** A node that, besides, files nothing under any other name at all. */
  ghost predicate OwnEntries(node: Node) {
    forall c :: node.process(c).Done? ==>
      && (forall k :: k != node.name ==> Contribution(node.process(c).ctx, k) == Contribution(c, k))
      && Contribution(node.process(c).ctx, node.name).cost >= 0.0
      && (node.name in c.nodeRuns ==> node.name in node.process(c).ctx.nodeRuns)
  }

  ghost predicate OwnRegistry(registry: Registry) {
    KeyedByName(registry) && forall k :: k in registry ==> OwnEntries(registry[k])
  }

  // ----- The rebuilt ledger as one sum -----

  lemma {:induction false} TotalAdds(keys: set<Id>, f: Measure, g: Measure, h: Measure)
    requires forall k :: h.At(k).tokens == f.At(k).tokens + g.At(k).tokens && h.At(k).cost == f.At(k).cost + g.At(k).cost
    ensures Total(keys, h).tokens == Total(keys, f).tokens + Total(keys, g).tokens
    ensures Total(keys, h).cost == Total(keys, f).cost + Total(keys, g).cost
    decreases keys
  {
    if keys != {} {
      var k :| k in keys;
      TotalSplit(keys, f, k);
      TotalSplit(keys, g, k);
      TotalSplit(keys, h, k);
      TotalAdds(keys - {k}, f, g, h);
    }
  }

  lemma {:induction false} TwoSumsAreOne(a: set<Id>, b: set<Id>, keys: set<Id>, f: Measure, g: Measure, h: Measure)
    requires a <= keys && b <= keys
    requires forall k :: k !in a ==> IsFree(f.At(k))
    requires forall k :: k !in b ==> IsFree(g.At(k))
    requires forall k :: h.At(k).tokens == f.At(k).tokens + g.At(k).tokens && h.At(k).cost == f.At(k).cost + g.At(k).cost
    ensures Total(keys, h).tokens == Total(a, f).tokens + Total(b, g).tokens
    ensures Total(keys, h).cost == Total(a, f).cost + Total(b, g).cost
  {
    TotalExtends(a, keys, f);
    TotalExtends(b, keys, g);
    TotalAdds(keys, f, g, h);
  }

  lemma ContributionIsSum(c: Context, k: Id)
    ensures k !in c.nodeRuns ==> IsFree(UsageOf(c).At(k))
    ensures k !in c.nodes ==> IsFree(OutputOf(c).At(k))
    ensures AllOf(c).At(k).tokens == UsageOf(c).At(k).tokens + OutputOf(c).At(k).tokens
    ensures AllOf(c).At(k).cost == UsageOf(c).At(k).cost + OutputOf(c).At(k).cost
  {
  }

  lemma {:induction false} LossyIsOneSum(c: Context, keys: set<Id>)
    requires c.nodeRuns.Keys <= keys && c.nodes.Keys <= keys
    ensures Spent(LossyRestore(c)).tokens == Total(keys, AllOf(c)).tokens
    ensures Spent(LossyRestore(c)).cost == Total(keys, AllOf(c)).cost
  {
    forall k {
      ContributionIsSum(c, k);
    }
    TwoSumsAreOne(c.nodeRuns.Keys, c.nodes.Keys, keys, UsageOf(c), OutputOf(c), AllOf(c));
    CostFree(c.nodeRuns.Keys, c);
  }

  lemma {:induction false} CostFree(keys: set<Id>, c: Context)
    ensures Total(keys, UsageOf(c)).cost == 0.0
    decreases keys
  {
    if keys != {} {
      var k :| k in keys;
      TotalSplit(keys, UsageOf(c), k);
      CostFree(keys - {k}, c);
    }
  }

  // ----- What later visits overwrite -----

  /** What an identity's most recent visit spent. */
  function Latest(trace: seq<Visit>, i: Id): Spend {
    if trace == [] then NoSpend
    else if trace[|trace| - 1].identity == i then trace[|trace| - 1].spend
    else Latest(trace[..|trace| - 1], i)
  }

  /** Spend of every visit that a later visit of the same identity overwrote. */
  function Overwritten(trace: seq<Visit>): Spend {
    if trace == [] then NoSpend
    else
      var init := trace[..|trace| - 1];
      var lost, before := Overwritten(init), Latest(init, trace[|trace| - 1].identity);
      Spend(lost.tokens + before.tokens, lost.cost + before.cost)
  }

  /** Each node's name contributes exactly its latest visit, and the rest of the ledger is exactly what was overwritten. */
  ghost predicate Accounted(nodes: set<Id>, m: Machine) {
    && (forall i :: i in nodes ==> Contribution(m.ctx, i) == Latest(m.trace, i))
    && (forall k :: 0 <= k < |m.trace| ==> m.trace[k].spend.cost >= 0.0)
    && m.ledger.totalTokens == Total(nodes, AllOf(m.ctx)).tokens + Overwritten(m.trace).tokens
    && m.ledger.totalCost == Total(nodes, AllOf(m.ctx)).cost + Overwritten(m.trace).cost
  }

  lemma SameEntriesSameContribution(a: Context, b: Context, i: Id)
    requires i in a.nodes <==> i in b.nodes
    requires i in a.nodes ==> a.nodes[i] == b.nodes[i]
    requires NodeUsage(a, i) == NodeUsage(b, i)
    ensures Contribution(a, i) == Contribution(b, i)
  {
  }

  /** A visit replaces one identity's contribution by what the walk folded in for it. */
  lemma DispatchReplacesOne(nodes: set<Id>, node: Node, c: Context, w: World, uuid: Uuid)
    requires LeavesOthers(nodes, node)
    requires !Dispatch(node, c, w, uuid).failed
    ensures var after := Dispatch(node, c, w, uuid).after;
            && (forall k :: k in nodes && k != node.name ==> Contribution(after, k) == Contribution(c, k))
            && Contribution(after, node.name) == SpendOf(after, node.name)
            && Contribution(after, node.name).cost >= 0.0
  {
    var pre := EnterRunning(c, node.name);
    var out := node.process(pre).ctx;
    var after := Dispatch(node, c, w, uuid).after;
    assert LeavesOthersStep(nodes, node.name, pre, out);
    forall k
      ensures Contribution(pre, k) == Contribution(c, k)
      ensures Contribution(after, k) == Contribution(out, k)
    {
      SameEntriesSameContribution(pre, c, k);
      SameEntriesSameContribution(after, out, k);
    }
    ContributionIsSpend(after, node.name);
  }

  lemma ContributionIsSpend(c: Context, i: Id)
    requires i in c.nodeRuns
    ensures Contribution(c, i) == SpendOf(c, i)
  {
  }

  lemma {:induction false} TotalAfterReplacing(nodes: set<Id>, c: Context, after: Context, id: Id)
    requires id in nodes && forall k :: k in nodes && k != id ==> Contribution(after, k) == Contribution(c, k)
    ensures Total(nodes, AllOf(after)).tokens + Contribution(c, id).tokens ==
            Total(nodes, AllOf(c)).tokens + Contribution(after, id).tokens
    ensures Total(nodes, AllOf(after)).cost + Contribution(c, id).cost ==
            Total(nodes, AllOf(c)).cost + Contribution(after, id).cost
  {
    assert forall k :: k in nodes && k != id ==> AllOf(c).At(k) == Contribution(c, k) == Contribution(after, k);
    TotalReplace(nodes, AllOf(c), AllOf(after), id);
  }

  lemma VisitKeepsAccount(wf: Workflow, w: World, m: Machine, a: Machine, uuid: Uuid)
    requires m.status.AtNode? && m.status.at in wf.registry && ConsiderateRegistry(wf.registry)
    requires Accounted(wf.registry.Keys, m) && a == AfterDispatch(wf, w, m, m.status.at, uuid)
    requires !Dispatch(wf.registry[m.status.at], m.ctx, w, uuid).failed
    ensures Accounted(wf.registry.Keys, a)
  {
    var id, nodes := m.status.at, wf.registry.Keys;
    DispatchReplacesOne(nodes, wf.registry[id], m.ctx, w, uuid);
    TotalAfterReplacing(nodes, m.ctx, a.ctx, id);
    assert a.trace[..|m.trace|] == m.trace;
    assert Last(a).spend == SpendOf(a.ctx, id);
    assert Contribution(m.ctx, id) == Latest(m.trace, id);
  }

  /** Run records without usage and anything else the sums do not read may change. */
  lemma SameAccount(nodes: set<Id>, m: Machine, n: Machine)
    requires Accounted(nodes, m)
    requires n.ctx.nodes == m.ctx.nodes && forall i :: NodeUsage(n.ctx, i) == NodeUsage(m.ctx, i)
    requires n.trace == m.trace && Spent(n.ledger) == Spent(m.ledger)
    ensures Accounted(nodes, n)
  {
    forall i
      ensures AllOf(n.ctx).At(i) == AllOf(m.ctx).At(i) && Contribution(n.ctx, i) == Contribution(m.ctx, i)
    {
      SameEntriesSameContribution(n.ctx, m.ctx, i);
    }
    TotalAgrees(nodes, AllOf(n.ctx), AllOf(m.ctx));
  }

  /** Nothing the run is seeded with under a node's name reports spend. */
  ghost predicate SeedsAreFree(wf: Workflow) {
    forall i :: i in wf.registry ==> IsFree(Contribution(Context(Null, wf.seeded, EmptyMetadata, map[]), i))
  }

  lemma PassKeepsAccount(wf: Workflow, w: World, m: Machine, e: Event)
    requires ConsiderateRegistry(wf.registry)
    requires e.Tick? && m.status.AtNode? && Accounted(wf.registry.Keys, m)
    ensures var n := Advance(wf, w, m, e); n.status == NodeFailed || Accounted(wf.registry.Keys, n)
  {
    var n := Advance(wf, w, m, e);
    PassOutline(wf, w, m, e);
    if Stopped(m, n) || m.status.at !in wf.registry {
      SameAccount(wf.registry.Keys, m, n);
    } else if n.status != NodeFailed {
      var a := AfterDispatch(wf, w, m, m.status.at, e.uuid);
      VisitKeepsAccount(wf, w, m, a, e.uuid);
      assert n == Proceed(w, a);
      SameAccount(wf.registry.Keys, a, n);
    }
  }

  lemma ResumeKeepsAccount(wf: Workflow, w: World, m: Machine)
    requires m.status.Suspended? && StoredExactly(w, m) && Accounted(wf.registry.Keys, m)
    ensures Accounted(wf.registry.Keys, Resumed(wf, w, m))
  {
    ResumeRestoresExactly(wf, w, m);
    SameAccount(wf.registry.Keys, m, Resumed(wf, w, m));
  }

  lemma BeginIsAccounted(wf: Workflow, w: World, event: Value)
    requires SeedsAreFree(wf)
    ensures Accounted(wf.registry.Keys, Begin(wf, w, event))
  {
    var m, nodes := Begin(wf, w, event), wf.registry.Keys;
    var seeds := Context(Null, wf.seeded, EmptyMetadata, map[]);
    forall i | i in nodes
      ensures IsFree(AllOf(m.ctx).At(i)) && Contribution(m.ctx, i) == Latest(m.trace, i)
    {
      assert IsFree(Contribution(seeds, i));
      assert NodeUsage(m.ctx, i).None?;
    }
    assert forall k :: k in nodes - {} ==> IsFree(AllOf(m.ctx).At(k));
    TotalExtends({}, nodes, AllOf(m.ctx));
  }

  lemma {:induction false} EveryRunIsAccounted(wf: Workflow, w: World, event: Value, events: seq<Event>)
    requires ConsiderateRegistry(wf.registry) && SeedsAreFree(wf)
    ensures var m := Exec(wf, w, Begin(wf, w, event), events); m.status == NodeFailed || Accounted(wf.registry.Keys, m)
    decreases |events|
  {
    if events == [] {
      BeginIsAccounted(wf, w, event);
    } else {
      var init, e := events[..|events| - 1], events[|events| - 1];
      EveryRunIsAccounted(wf, w, event, init);
      EveryRunKeepsAccount(wf, w, event, init);
      var m := Exec(wf, w, Begin(wf, w, event), init);
      if e.Tick? && m.status.AtNode? {
        PassKeepsAccount(wf, w, m, e);
      } else if e.Continue? && m.status.Suspended? {
        ResumeKeepsAccount(wf, w, m);
      }
    }
  }

  lemma {:induction false} OverwrittenIsNonNegative(trace: seq<Visit>)
    requires forall k :: 0 <= k < |trace| ==> trace[k].spend.cost >= 0.0
    ensures Overwritten(trace).cost >= 0.0
    ensures forall i :: Latest(trace, i).cost >= 0.0
    ensures (forall j, k :: 0 <= j < k < |trace| ==> trace[j].identity != trace[k].identity) ==> Overwritten(trace) == NoSpend
    ensures forall i :: (forall k :: 0 <= k < |trace| ==> trace[k].identity != i) ==> Latest(trace, i) == NoSpend
  {
    if trace != [] {
      var init := trace[..|trace| - 1];
      OverwrittenIsNonNegative(init);
      assert forall k :: 0 <= k < |init| ==> init[k] == trace[k];
    }
  }

  // ----- The difference -----

  function Reported(c: Context): set<Id> { c.nodes.Keys + c.nodeRuns.Keys }

  /** What a context reports under names that belong to no node: inner steps, seeded entries and the like. */
  ghost function Foreign(wf: Workflow, c: Context): Spend { Total(Reported(c) - wf.registry.Keys, AllOf(c)) }

  lemma {:induction false} TotalOfBoth(a: set<Id>, b: set<Id>, f: Measure)
    requires a !! b
    ensures Total(a + b, f).tokens == Total(a, f).tokens + Total(b, f).tokens
    ensures Total(a + b, f).cost == Total(a, f).cost + Total(b, f).cost
    decreases b
  {
    if b == {} {
      assert a + b == a;
    } else {
      var k :| k in b;
      TotalOfBoth(a, b - {k}, f);
      TotalSplit(b, f, k);
      TotalSplit(a + b, f, k);
      assert a + b - {k} == a + (b - {k});
    }
  }

  /** The rebuilt ledger counts what is under nodes' names and what is not. */
  lemma {:induction false} RestoreSplits(wf: Workflow, c: Context)
    ensures Spent(LossyRestore(c)).tokens == Total(wf.registry.Keys, AllOf(c)).tokens + Foreign(wf, c).tokens
    ensures Spent(LossyRestore(c)).cost == Total(wf.registry.Keys, AllOf(c)).cost + Foreign(wf, c).cost
  {
    var nodes, foreign := wf.registry.Keys, Reported(c) - wf.registry.Keys;
    LossyIsOneSum(c, nodes + foreign);
    TotalOfBoth(nodes, foreign, AllOf(c));
  }

  /**
   * At any suspension the rebuilt ledger and the live one differ by two amounts, exactly: it lacks the spend
   * that repeated visits overwrote, and it has the spend reported under names that belong to no node, which
   * the walk never folded in.  So it is no more than the live one if and only if the second is no more than
   * the first.
   */
  lemma {:induction false} LossyRestoreIsOffBy(wf: Workflow, w: World, event: Value, events: seq<Event>)
    requires ConsiderateRegistry(wf.registry) && SeedsAreFree(wf)
    requires Exec(wf, w, Begin(wf, w, event), events).status.Suspended?
    ensures var m := Exec(wf, w, Begin(wf, w, event), events);
            var rebuilt, foreign, lost := LossyRestore(m.ctx), Foreign(wf, m.ctx), Overwritten(m.trace);
            && m.ledger.totalTokens + foreign.tokens == rebuilt.totalTokens + lost.tokens
            && m.ledger.totalCost + foreign.cost == rebuilt.totalCost + lost.cost
            && (rebuilt.totalTokens <= m.ledger.totalTokens <==> foreign.tokens <= lost.tokens)
            && (rebuilt.totalCost <= m.ledger.totalCost <==> foreign.cost <= lost.cost)
  {
    EveryRunIsAccounted(wf, w, event, events);
    RestoreSplits(wf, Exec(wf, w, Begin(wf, w, event), events).ctx);
  }

  // ----- A resume whose marker stores no spend -----

  predicate CanResume(c: Context) { c.metadata.suspension.Some? && c.metadata.suspension.value.resumeAt.Some? }

  /** Everything a context reports, under whatever name. */
  ghost function ReportedSpend(c: Context): Spend { Total(Reported(c), AllOf(c)) }

  /** A resume takes the spend its marker stores, and where it stores none rebuilds it from the context's reports. */
  lemma ResumeStartsFrom(wf: Workflow, w: World, m: Machine)
    requires CanResume(m.ctx)
    ensures var stored, n := m.ctx.metadata.suspension.value.ledger, Resumed(wf, w, m);
            match stored
            case Some(s) => Spent(n.ledger) == Spend(s.totalTokens, s.totalCost) && !n.ledger.unknownCost
            case None =>
              && Spent(n.ledger).tokens == ReportedSpend(m.ctx).tokens
              && Spent(n.ledger).cost == ReportedSpend(m.ctx).cost
              && (n.ledger.unknownCost <==> exists i :: i in m.ctx.nodes && NodeCost(m.ctx, i).None?)
  {
    LossyIsOneSum(m.ctx, Reported(m.ctx));
  }

  /** So the first boundary after such a resume halts it if and only if what the context reports has reached a cap. */
  lemma ResumeHaltsAtReportedSpend(wf: Workflow, w: World, m: Machine, e: Event)
    requires CanResume(m.ctx) && m.ctx.metadata.suspension.value.ledger.None? && e.Tick? && !e.cancelled
    ensures Advance(wf, w, Resumed(wf, w, m), e).status == BudgetHalted <==> !BelowCaps(w.budget, ReportedSpend(m.ctx))
  {
    ResumeStartsFrom(wf, w, m);
    Guarantees.BoundaryHaltsAtCap(wf, w, Resumed(wf, w, m), e);
  }

  /** The same suspension, as stored by a version of the marker that kept no spend. */
  function WithoutStoredSpend(m: Machine): Machine
    requires m.ctx.metadata.suspension.Some?
  {
    m.(ctx := WithSuspension(m.ctx, Some(m.ctx.metadata.suspension.value.(ledger := None))))
  }

  /** Over runs: such a resume starts from the live spend, less what was overwritten, plus what was foreign. */
  lemma {:induction false} ResumeWithoutSpendIsOffBy(wf: Workflow, w: World, event: Value, events: seq<Event>)
    requires ConsiderateRegistry(wf.registry) && SeedsAreFree(wf)
    requires Exec(wf, w, Begin(wf, w, event), events).status.Suspended?
    ensures var m := Exec(wf, w, Begin(wf, w, event), events);
            && m.ctx.metadata.suspension.Some?
            && var resumed := Resumed(wf, w, WithoutStoredSpend(m)).ledger;
               var foreign, lost := Foreign(wf, m.ctx), Overwritten(m.trace);
               && resumed.totalTokens + lost.tokens == m.ledger.totalTokens + foreign.tokens
               && resumed.totalCost + lost.cost == m.ledger.totalCost + foreign.cost
  {
    var m := Exec(wf, w, Begin(wf, w, event), events);
    EveryRunKeepsAccount(wf, w, event, events);
    LossyRestoreIsOffBy(wf, w, event, events);
    SameReportsSameRestore(m.ctx, WithoutStoredSpend(m).ctx);
  }

  lemma SameReportsSameRestore(a: Context, b: Context)
    requires a.nodes == b.nodes && a.nodeRuns == b.nodeRuns
    ensures Spent(LossyRestore(a)) == Spent(LossyRestore(b))
  {
    forall i
      ensures AllOf(a).At(i) == AllOf(b).At(i)
    {
      SameEntriesSameContribution(a, b, i);
    }
    LossyIsOneSum(a, Reported(a));
    LossyIsOneSum(b, Reported(a));
    TotalAgrees(Reported(a), AllOf(a), AllOf(b));
  }

  // ----- Without foreign entries -----

  ghost predicate NoSeedsSpend(wf: Workflow) {
    forall i :: IsFree(Contribution(Context(Null, wf.seeded, EmptyMetadata, map[]), i))
  }

  ghost predicate ForeignFree(wf: Workflow, c: Context) { forall k :: k !in wf.registry ==> IsFree(Contribution(c, k)) }

  lemma OwnersAreConsiderate(registry: Registry)
    requires OwnRegistry(registry)
    ensures ConsiderateRegistry(registry)
  {
    forall k | k in registry
      ensures LeavesOthers(registry.Keys, registry[k])
    {
      assert OwnEntries(registry[k]);
    }
  }

  lemma DispatchKeepsForeign(wf: Workflow, node: Node, c: Context, w: World, uuid: Uuid)
    requires OwnEntries(node) && node.name in wf.registry && ForeignFree(wf, c)
    ensures ForeignFree(wf, Dispatch(node, c, w, uuid).after)
  {
    var pre, after := EnterRunning(c, node.name), Dispatch(node, c, w, uuid).after;
    forall k | k !in wf.registry
      ensures IsFree(Contribution(after, k))
    {
      SameEntriesSameContribution(pre, c, k);
      if node.process(pre).Done? {
        SameEntriesSameContribution(after, node.process(pre).ctx, k);
      } else {
        SameEntriesSameContribution(after, pre, k);
      }
    }
  }

  lemma SameForeign(wf: Workflow, c: Context, after: Context)
    requires ForeignFree(wf, c) && after.nodes == c.nodes && forall i :: NodeUsage(after, i) == NodeUsage(c, i)
    ensures ForeignFree(wf, after)
  {
    forall k | k !in wf.registry
      ensures IsFree(Contribution(after, k))
    {
      SameEntriesSameContribution(after, c, k);
    }
  }

  lemma EventKeepsForeign(wf: Workflow, w: World, m: Machine, e: Event)
    requires OwnRegistry(wf.registry) && ForeignFree(wf, m.ctx)
    ensures ForeignFree(wf, Advance(wf, w, m, e).ctx)
  {
    var n := Advance(wf, w, m, e);
    if e.Tick? && m.status.AtNode? {
      PassOutline(wf, w, m, e);
      if Stopped(m, n) || m.status.at !in wf.registry {
        SameForeign(wf, m.ctx, n.ctx);
      } else {
        DispatchKeepsForeign(wf, wf.registry[m.status.at], m.ctx, w, e.uuid);
        SameForeign(wf, Dispatch(wf.registry[m.status.at], m.ctx, w, e.uuid).after, n.ctx);
      }
    } else {
      SameForeign(wf, m.ctx, n.ctx);
    }
  }

  lemma {:induction false} NothingForeign(wf: Workflow, w: World, event: Value, events: seq<Event>)
    requires OwnRegistry(wf.registry) && NoSeedsSpend(wf)
    ensures ForeignFree(wf, Exec(wf, w, Begin(wf, w, event), events).ctx)
    decreases |events|
  {
    if events == [] {
      SameForeign(wf, Context(Null, wf.seeded, EmptyMetadata, map[]), Begin(wf, w, event).ctx);
    } else {
      NothingForeign(wf, w, event, events[..|events| - 1]);
      EventKeepsForeign(wf, w, Exec(wf, w, Begin(wf, w, event), events[..|events| - 1]), events[|events| - 1]);
    }
  }

  lemma FreeForeignIsNothing(wf: Workflow, c: Context)
    requires ForeignFree(wf, c)
    ensures Foreign(wf, c) == NoSpend
  {
    var foreign := Reported(c) - wf.registry.Keys;
    assert forall k :: k in foreign - {} ==> IsFree(AllOf(c).At(k));
    TotalExtends({}, foreign, AllOf(c));
  }

  /**
   * So where nodes and seeds report nothing under foreign names the rebuilt ledger is a lower bound, and it
   * is exact when no identity was dispatched twice.
   */
  lemma {:induction false} LossyRestoreIsALowerBound(wf: Workflow, w: World, event: Value, events: seq<Event>)
    requires OwnRegistry(wf.registry) && NoSeedsSpend(wf)
    requires Exec(wf, w, Begin(wf, w, event), events).status.Suspended?
    ensures var m := Exec(wf, w, Begin(wf, w, event), events);
            var rebuilt := LossyRestore(m.ctx);
            && m.ledger.totalTokens == rebuilt.totalTokens + Overwritten(m.trace).tokens
            && m.ledger.totalCost == rebuilt.totalCost + Overwritten(m.trace).cost
            && rebuilt.totalTokens <= m.ledger.totalTokens
            && rebuilt.totalCost <= m.ledger.totalCost
            && ((forall j, k :: 0 <= j < k < |m.trace| ==> m.trace[j].identity != m.trace[k].identity) ==>
                  Spent(rebuilt) == Spent(m.ledger))
  {
    OwnersAreConsiderate(wf.registry);
    EveryRunIsAccounted(wf, w, event, events);
    LossyRestoreIsOffBy(wf, w, event, events);
    NothingForeign(wf, w, event, events);
    FreeForeignIsNothing(wf, Exec(wf, w, Begin(wf, w, event), events).ctx);
    OverwrittenIsNonNegative(Exec(wf, w, Begin(wf, w, event), events).trace);
  }

  // ----- With them -----

  /** A node that reports usage under an inner step's name only, and asks to be suspended. */
  function InnerSpender(name: Id, inner: Id, tokens: nat): Node {
    Node(name,
         (c: Context) => Done(c.(
           nodeRuns := c.nodeRuns[inner := PendingRun.(status := Running, usage := Some(Usage(Some(tokens), None, "model")))],
           metadata := c.metadata.(suspension := Some(Request(c.metadata.suspension, None))))),
         None)
  }

  function InnerSpending(tokens: nat): Workflow {
    Workflow(map["A" := InnerSpender("A", "step", tokens)],
             Schema("inner", "A", map["A" := NodeConfig("A", ["B"]), "B" := NodeConfig("B", [])]), map[])
  }

  /** There the rebuilt ledger has all the tokens the live one never counted. */
  lemma {:induction false} RebuiltExceedsLive(w: World, event: Value, tokens: nat)
    requires w.budget.None?
    ensures var m := Exec(InnerSpending(tokens), w, Begin(InnerSpending(tokens), w, event), [Tick(false, false, 0)]);
            m.status == Suspended("B") && m.ledger.totalTokens == 0 && LossyRestore(m.ctx).totalTokens == tokens
  {
    var wf, e := InnerSpending(tokens), Tick(false, false, 0);
    var m0 := Begin(wf, w, event);
    ExecSnoc(wf, w, m0, [], e);
    assert [] + [e] == [e];
    var a := AfterDispatch(wf, w, m0, "A", 0);
    assert "A"[0] != "B"[0] && "A"[0] != "s"[0] && "step"[0] == 's' && "A"[0] == 'A' && "B"[0] == 'B';
    assert a.trace[|a.trace| - 1].next == Some("B");
    var m := Advance(wf, w, m0, e);
    assert m == Proceed(w, a);
    assert m.ctx.nodes == map[] && m.ctx.nodeRuns.Keys == {"A", "B", "step"};
    OnlyOneReports(m.ctx, "step", tokens);
  }

  lemma OnlyOneReports(c: Context, k: Id, tokens: nat)
    requires k in c.nodeRuns && c.nodes == map[]
    requires forall i :: i in c.nodeRuns ==> UsageTokens(c.nodeRuns[i].usage) == if i == k then tokens else 0
    ensures LossyRestore(c).totalTokens == tokens
  {
    TotalSplit(c.nodeRuns.Keys, UsageOf(c), k);
    TotalExtends({}, c.nodeRuns.Keys - {k}, UsageOf(c));
  }
}
