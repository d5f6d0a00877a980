/** Spend accounting: the per-run ledger, the cap check, and the two ways a ledger is restored. */
module Budgets {
  import opened Json
  import opened Contexts

  datatype Budget = Budget(maxTokens: Option<nat>, maxCost: Option<real>)

  datatype Decision = Allow | Halt(reason: HaltReason)

  datatype Spend = Spend(tokens: nat, cost: real)

  datatype Ledger = Ledger(totalTokens: nat, totalCost: real, unknownCost: bool)

  const NoSpend := Spend(0, 0.0)

  const EmptyLedger := Ledger(0, 0.0, false)

  predicate IsFree(s: Spend) { s.tokens == 0 && s.cost == 0.0 }

  function Spent(l: Ledger): Spend { Spend(l.totalTokens, l.totalCost) }

  function UsageTokens(u: Option<Usage>): nat {
    if u.Some? then OrZero(u.value.inputTokens) + OrZero(u.value.outputTokens) else 0
  }

  /** A node's dollar cost, out of its own output entry. */
  function NodeCost(ctx: Context, identity: Id): Option<real> {
    if identity in ctx.nodes then AsF64(Get(ctx.nodes[identity], "cost_usd")) else None
  }

  /** A node's two cache-token channels, summed; absent when neither key is there. */
  function NodeCacheTokens(ctx: Context, identity: Id): Option<nat> {
    if identity !in ctx.nodes then None else
      var read := AsU64(Get(ctx.nodes[identity], "cache_read_input_tokens"));
      var creation := AsU64(Get(ctx.nodes[identity], "cache_creation_input_tokens"));
      if read.None? && creation.None? then None else Some(OrZero(read) + OrZero(creation))
  }

  function NodeUsage(ctx: Context, identity: Id): Option<Usage> {
    if identity in ctx.nodeRuns then ctx.nodeRuns[identity].usage else None
  }

  function RecordedSpend(usage: Option<Usage>, cost: Option<real>, cache: Option<nat>): Spend {
    Spend(UsageTokens(usage) + OrZero(cache), OrFree(cost))
  }

  /** What the walk folds in for a node that just succeeded: nothing unless it has a run record. */
  function SpendOf(ctx: Context, identity: Id): Spend {
    if identity in ctx.nodeRuns
    then RecordedSpend(ctx.nodeRuns[identity].usage, NodeCost(ctx, identity), NodeCacheTokens(ctx, identity))
    else NoSpend
  }

  function EvaluateBudget(budget: Option<Budget>, tokens: nat, cost: real): Decision {
    match budget
    case None => Allow
    case Some(b) =>
      if b.maxTokens.Some? && tokens >= b.maxTokens.value then Halt(TotalTokens(tokens, b.maxTokens.value))
      else if b.maxCost.Some? && cost >= b.maxCost.value then Halt(CostUsd(cost, b.maxCost.value))
      else Allow
  }

  function Check(l: Ledger, budget: Option<Budget>): Decision {
    EvaluateBudget(budget, l.totalTokens, l.totalCost)
  }

  predicate BelowCaps(budget: Option<Budget>, s: Spend) {
    budget.Some? ==>
      && (budget.value.maxTokens.Some? ==> s.tokens < budget.value.maxTokens.value)
      && (budget.value.maxCost.Some? ==> s.cost < budget.value.maxCost.value)
  }

  /** The exact restore, from the totals a suspension marker carries. */
  function FromParts(tokens: nat, cost: real): Ledger { Ledger(tokens, cost, false) }

  /** The gate is open exactly below every configured cap, and a halt stays a halt under more spend. */
  lemma CheckIsMonotone(l: Ledger, budget: Option<Budget>, s: Spend, later: Ledger)
    requires s.cost >= 0.0
    requires later.totalTokens == l.totalTokens + s.tokens && later.totalCost == l.totalCost + s.cost
    ensures Check(l, budget).Allow? <==> BelowCaps(budget, Spent(l))
    ensures Check(l, budget).Halt? ==> Check(later, budget).Halt?
    ensures Check(l, budget).Halt? && Check(l, budget).reason.TotalTokens? ==>
              Check(later, budget).Halt? && Check(later, budget).reason.TotalTokens?
    ensures budget.Some? && budget.value.maxTokens.Some? && budget.value.maxTokens.value <= l.totalTokens ==>
              Check(l, budget) == Halt(TotalTokens(l.totalTokens, budget.value.maxTokens.value))
  {
  }

  // ----- Sums over the (unordered) identities of a context -----

  /** Which of a context's figures are summed: its runs' usage, its outputs' cache and cost, or all. */
  datatype Measure = UsageOf(ctx: Context) | OutputOf(ctx: Context) | AllOf(ctx: Context) {
    function At(i: Id): Spend {
      match this
      case UsageOf(_) => Spend(UsageTokens(NodeUsage(ctx, i)), 0.0)
      case OutputOf(_) => Spend(OrZero(NodeCacheTokens(ctx, i)), OrFree(NodeCost(ctx, i)))
      case AllOf(_) => Spend(UsageTokens(NodeUsage(ctx, i)) + OrZero(NodeCacheTokens(ctx, i)), OrFree(NodeCost(ctx, i)))
    }
  }

  ghost function Pick(keys: set<Id>): (k: Id)
    requires keys != {}
    ensures k in keys
  {
    var k :| k in keys;
    k
  }

  ghost function Total(keys: set<Id>, f: Measure): Spend
    decreases keys
  {
    if keys == {} then NoSpend
    else
      var first, rest := f.At(Pick(keys)), Total(keys - {Pick(keys)}, f);
      Spend(first.tokens + rest.tokens, first.cost + rest.cost)
  }

  lemma {:induction false} TotalSplit(keys: set<Id>, f: Measure, x: Id)
    requires x in keys
    ensures Total(keys, f).tokens == f.At(x).tokens + Total(keys - {x}, f).tokens
    ensures Total(keys, f).cost == f.At(x).cost + Total(keys - {x}, f).cost
    decreases keys
  {
    var k := Pick(keys);
    if k != x {
      var rest := keys - {k} - {x};
      assert rest == keys - {x} - {k};
      TotalSplit(keys - {k}, f, x);
      TotalSplit(keys - {x}, f, k);
    }
  }

  lemma {:induction false} TotalAgrees(keys: set<Id>, f: Measure, g: Measure)
    requires forall k :: k in keys ==> f.At(k) == g.At(k)
    ensures Total(keys, f) == Total(keys, g)
    decreases keys
  {
    if keys != {} {
      var k := Pick(keys);
      TotalSplit(keys, g, k);
      TotalAgrees(keys - {k}, f, g);
    }
  }

  /** Keys that spend nothing do not change the sum. */
  lemma {:induction false} TotalExtends(keys: set<Id>, more: set<Id>, f: Measure)
    requires keys <= more
    requires forall k :: k in more - keys ==> IsFree(f.At(k))
    ensures Total(more, f) == Total(keys, f)
    decreases more
  {
    if more <= keys {
      assert more == keys;
    } else {
      var k :| k in more && k !in keys;
      TotalSplit(more, f, k);
      TotalExtends(keys, more - {k}, f);
    }
  }

  lemma {:induction false} TotalNonNegative(keys: set<Id>, f: Measure)
    requires forall k :: k in keys ==> f.At(k).cost >= 0.0
    ensures Total(keys, f).cost >= 0.0
    decreases keys
  {
    if keys != {} {
      var k :| k in keys;
      TotalSplit(keys, f, k);
      TotalNonNegative(keys - {k}, f);
    }
  }

  /** Replacing one key's value moves the sum by exactly the difference. */
  lemma {:induction false} TotalReplace(keys: set<Id>, f: Measure, g: Measure, x: Id)
    requires forall k :: k in keys && k != x ==> f.At(k) == g.At(k)
    requires x in keys
    ensures Total(keys, f).tokens + g.At(x).tokens == Total(keys, g).tokens + f.At(x).tokens
    ensures Total(keys, f).cost + g.At(x).cost == Total(keys, g).cost + f.At(x).cost
  {
    TotalSplit(keys, f, x);
    TotalSplit(keys, g, x);
    TotalAgrees(keys - {x}, f, g);
  }

  ghost predicate AnyUnknown(ctx: Context, keys: set<Id>) {
    exists i :: i in keys && NodeCost(ctx, i).None?
  }

  /** The lossy restore: per identity, only what its latest run left behind. */
  ghost function LossyRestore(ctx: Context): Ledger {
    var usage, outputs := Total(ctx.nodeRuns.Keys, UsageOf(ctx)), Total(ctx.nodes.Keys, OutputOf(ctx));
    Ledger(usage.tokens + outputs.tokens, outputs.cost, AnyUnknown(ctx, ctx.nodes.Keys))
  }

  /** `BudgetLedger`: accumulated spend, updated in place after each completed node. */
  class BudgetLedger {
    var totalTokens: nat
    var totalCost: real
    var unknownCost: bool

    function View(): Ledger
      reads this
    {
      Ledger(totalTokens, totalCost, unknownCost)
    }

    constructor (l: Ledger)
      ensures View() == l
    {
      totalTokens, totalCost, unknownCost := l.totalTokens, l.totalCost, l.unknownCost;
    }

    method Record(usage: Option<Usage>, cost: Option<real>, cache: Option<nat>)
      modifies this
      ensures totalTokens == old(totalTokens) + RecordedSpend(usage, cost, cache).tokens
      ensures totalCost == old(totalCost) + RecordedSpend(usage, cost, cache).cost
      ensures unknownCost == old(unknownCost)
    {
      if usage.Some? {
        totalTokens := totalTokens + (OrZero(usage.value.inputTokens) + OrZero(usage.value.outputTokens));
      }
      if cache.Some? {
        totalTokens := totalTokens + cache.value;
      }
      if cost.Some? {
        totalCost := totalCost + cost.value;
      }
    }

    /** Rebuild from a context that carries no ledger snapshot. */
    constructor FromContext(ctx: Context)
      ensures View() == LossyRestore(ctx)
    {
      var usage := SumUsage(ctx);
      var cache, cost, unknown := SumOutputs(ctx);
      totalTokens, totalCost, unknownCost := usage + cache, cost, unknown;
    }
  }

  /** Token usage over every node run, visited in any order. */
  method SumUsage(ctx: Context) returns (tokens: nat)
    ensures tokens == Total(ctx.nodeRuns.Keys, UsageOf(ctx)).tokens
  {
    ghost var f := UsageOf(ctx);
    var runs := ctx.nodeRuns.Keys;
    tokens := 0;
    while runs != {}
      invariant runs <= ctx.nodeRuns.Keys
      invariant tokens + Total(runs, f).tokens == Total(ctx.nodeRuns.Keys, f).tokens
      decreases runs
    {
      var i :| i in runs;
      TotalSplit(runs, f, i);
      runs := runs - {i};
      tokens := tokens + UsageTokens(ctx.nodeRuns[i].usage);
    }
  }

  /** Cache tokens and dollars over every output entry; a missing cost only raises the flag. */
  method SumOutputs(ctx: Context) returns (cache: nat, cost: real, unknown: bool)
    ensures cache == Total(ctx.nodes.Keys, OutputOf(ctx)).tokens
    ensures cost == Total(ctx.nodes.Keys, OutputOf(ctx)).cost
    ensures unknown <==> AnyUnknown(ctx, ctx.nodes.Keys)
  {
    ghost var f := OutputOf(ctx);
    var outputs := ctx.nodes.Keys;
    cache, cost, unknown := 0, 0.0, false;
    while outputs != {}
      invariant outputs <= ctx.nodes.Keys
      invariant cache + Total(outputs, f).tokens == Total(ctx.nodes.Keys, f).tokens
      invariant cost + Total(outputs, f).cost == Total(ctx.nodes.Keys, f).cost
      invariant unknown <==> AnyUnknown(ctx, ctx.nodes.Keys - outputs)
      decreases outputs
    {
      var i :| i in outputs;
      TotalSplit(outputs, f, i);
      outputs := outputs - {i};
      var reported, tokens := NodeCost(ctx, i), NodeCacheTokens(ctx, i);
      unknown := unknown || reported.None?;
      cost := cost + OrFree(reported);
      cache := cache + OrZero(tokens);
    }
    assert ctx.nodes.Keys - {} == ctx.nodes.Keys;
  }

  // ----- Campaign ledger -----

  datatype Step = Step(cost: Option<real>, tokens: nat)

  /** Spend of a whole chain of steps; a step of unknown cost adds tokens but no dollars. */
  function ChainSpend(steps: seq<Step>): Spend {
    if steps == [] then NoSpend
    else
      var s := steps[|steps| - 1];
      var before := ChainSpend(steps[..|steps| - 1]);
      Spend(before.tokens + s.tokens, before.cost + OrFree(s.cost))
  }

  /** A chain's spend is additive, and one step spends its tokens and its cost, if that is known. */
  lemma {:induction false} ChainSpendAdds(a: seq<Step>, b: seq<Step>)
    ensures ChainSpend(a + b).tokens == ChainSpend(a).tokens + ChainSpend(b).tokens
    ensures ChainSpend(a + b).cost == ChainSpend(a).cost + ChainSpend(b).cost
    ensures |b| == 1 ==> ChainSpend(b).tokens == b[0].tokens && ChainSpend(b).cost == if b[0].cost.Some? then b[0].cost.value else 0.0
  {
    if b == [] {
      assert a + b == a;
    } else {
      assert (a + b)[..|a + b| - 1] == a + b[..|b| - 1];
      ChainSpendAdds(a, b[..|b| - 1]);
    }
  }

  /** A halt names the spend it saw and the cap it reached, and the cost only while tokens are below theirs. */
  lemma HaltNamesFigures(budget: Option<Budget>, tokens: nat, cost: real)
    ensures match EvaluateBudget(budget, tokens, cost)
            case Allow => BelowCaps(budget, Spend(tokens, cost))
            case Halt(TotalTokens(spent, limit)) =>
              budget.Some? && spent == tokens && budget.value.maxTokens == Some(limit) && tokens >= limit
            case Halt(CostUsd(spent, limit)) =>
              && budget.Some? && spent == cost && budget.value.maxCost == Some(limit) && cost >= limit
              && (budget.value.maxTokens.Some? ==> tokens < budget.value.maxTokens.value)
  {
  }

  class CampaignLedger {
    var totalTokens: nat
    var totalCost: real
    var unknownCost: bool
    ghost var steps: seq<Step>

    ghost predicate Valid()
      reads this
    {
      && totalTokens == ChainSpend(steps).tokens
      && totalCost == ChainSpend(steps).cost
      && (unknownCost <==> exists s :: s in steps && s.cost.None?)
    }

    constructor ()
      ensures Valid() && steps == []
    {
      totalTokens, totalCost, unknownCost, steps := 0, 0.0, false, [];
    }

    method RecordStep(cost: Option<real>, tokens: nat)
      requires Valid()
      modifies this
      ensures Valid() && steps == old(steps) + [Step(cost, tokens)]
    {
      ghost var before := steps;
      steps := steps + [Step(cost, tokens)];
      assert steps[..|steps| - 1] == before;
      totalTokens := totalTokens + tokens;
      if cost.Some? {
        totalCost := totalCost + cost.value;
      } else {
        unknownCost := true;
      }
    }

    /** The block-boundary gate, decided on the whole chain's recorded spend. */
    method CheckStep(budget: Option<Budget>) returns (d: Decision)
      requires Valid()
      ensures d.Allow? <==> BelowCaps(budget, ChainSpend(steps))
    {
      d := EvaluateBudget(budget, totalTokens, totalCost);
    }
  }
}
