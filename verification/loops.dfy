/**
 * The bounded-loop combinator: a guard router, an increment router that owns the counter, and the
 * back-edge between them; workflows built from such clusters; and what one dispatch does in them.
 */
module Loops {
  import opened Json
  import opened Contexts
  import opened Budgets
  import opened Suspensions
  import opened Orders
  import opened Graphs
  import opened Nodes
  import opened Schemas
  import opened TaskContexts
  import opened Workflows
  import opened Runs
  import Validation

  // ----- Building a cluster -----

  datatype LoopSpec = LoopSpec(prefix: string, maxIterations: nat, exitPredicate: Context -> bool, bodyEntry: Id, exitTo: Id)

  const U32: nat := 0x1_0000_0000

  const GuardBase: Id := "LoopGuardRouterNode"
  const IncrementBase: Id := "LoopIncrementNode"

  function GuardId(spec: LoopSpec): Id { spec.prefix + "Guard" }

  function IncrementId(spec: LoopSpec): Id { spec.prefix + "Increment" }

  /** The stored counter; absent or malformed reads as zero. */
  function Iterations(c: Context, increment: Id): nat {
    if increment in c.nodes then OrZero(AsU64(Get(c.nodes[increment], "iterations"))) else 0
  }

  /** The counter is truncated to 32 bits and then counted up without wrapping. */
  function SoFar(completed: nat): nat {
    var narrow := completed % U32;
    if narrow == U32 - 1 then narrow else narrow + 1
  }

  predicate Exits(spec: LoopSpec, c: Context) {
    SoFar(Iterations(c, IncrementId(spec))) >= spec.maxIterations || spec.exitPredicate(c)
  }

  function RouteGuard(spec: LoopSpec, c: Context): Option<Id> {
    Some(if Exits(spec, c) then spec.exitTo else IncrementId(spec))
  }

  function Bump(spec: LoopSpec, c: Context): Context {
    var bumped := Iterations(c, IncrementId(spec)) + 1;
    c.(nodes := c.nodes[IncrementId(spec) := Obj(map["iterations" := Int(bumped)])])
  }

  function GuardNode(spec: LoopSpec): Node {
    WithIdentity(Node(GuardBase, (c: Context) => Done(c), Some((c: Context) => RouteGuard(spec, c))), GuardId(spec))
  }

  function IncrementNode(spec: LoopSpec): Node {
    WithIdentity(Node(IncrementBase, (c: Context) => Done(Bump(spec, c)), Some((c: Context) => Some(spec.bodyEntry))),
                 IncrementId(spec))
  }

  datatype LoopCluster = LoopCluster(guard: Id, increment: Id, nodes: seq<Node>, connections: map<Id, NodeConfig>)

  function BuildLoop(spec: LoopSpec): LoopCluster {
    var guard, increment := GuardId(spec), IncrementId(spec);
    LoopCluster(guard, increment, [GuardNode(spec), IncrementNode(spec)],
                map[guard := NodeConfig(guard, [increment, spec.exitTo]),
                    increment := NodeConfig(increment, [spec.bodyEntry])])
  }

  /** No two clusters with different prefixes share an identity, and none uses a base name. */
  lemma IdentitiesAreDistinct(a: LoopSpec, b: LoopSpec)
    ensures GuardId(a) != IncrementId(b)
    ensures GuardId(a) == GuardId(b) <==> a.prefix == b.prefix
    ensures IncrementId(a) == IncrementId(b) <==> a.prefix == b.prefix
    ensures GuardId(a) != GuardBase && GuardId(a) != IncrementBase
    ensures IncrementId(a) != GuardBase && IncrementId(a) != IncrementBase
  {
    var g, h, i, j := GuardId(a), GuardId(b), IncrementId(a), IncrementId(b);
    assert g[|g| - 1] == 'd' && h[|h| - 1] == 'd' && i[|i| - 1] == 't' && j[|j| - 1] == 't';
    assert GuardBase[|GuardBase| - 1] == 'e' && IncrementBase[|IncrementBase| - 1] == 'e';
    assert g[..|g| - 5] == a.prefix && h[..|h| - 5] == b.prefix;
    assert i[..|i| - 9] == a.prefix && j[..|j| - 9] == b.prefix;
  }

  // ----- A workflow whose only routers are loop clusters -----

  predicate IsIncrement(specs: seq<LoopSpec>, k: Id) { exists i :: 0 <= i < |specs| && IncrementId(specs[i]) == k }

  predicate IsGuard(specs: seq<LoopSpec>, k: Id) { exists i :: 0 <= i < |specs| && GuardId(specs[i]) == k }

  /** The node's only output is filed under its own name. */
  ghost predicate OwnOutput(node: Node) {
    forall c :: node.process(c).Done? ==> SameElsewhere(node.name, c, node.process(c).ctx)
  }

  predicate SameElsewhere(name: Id, a: Context, b: Context) {
    a.nodes - {name} == b.nodes - {name}
  }

  ghost predicate Installed(wf: Workflow, spec: LoopSpec) {
    var cluster := BuildLoop(spec);
    && (forall n :: n in cluster.nodes ==> n.name in wf.registry && wf.registry[n.name] == n)
    && (forall k :: k in cluster.connections ==> k in wf.schema.nodes && wf.schema.nodes[k] == cluster.connections[k])
  }

  /** An ordinary node: no router, keeps its frame, writes its own output only, under an unreserved name. */
  ghost predicate Ordinary(node: Node) {
    node.router.None? && Framed(node) && OwnOutput(node) && node.name != GuardBase && node.name != IncrementBase
  }

  ghost predicate DistinctPrefixes(specs: seq<LoopSpec>) {
    forall i, j :: 0 <= i < j < |specs| ==> specs[i].prefix != specs[j].prefix
  }

  ghost predicate LoopWorkflow(wf: Workflow, specs: seq<LoopSpec>) {
    && DistinctPrefixes(specs)
    && (forall i :: 0 <= i < |specs| ==> specs[i].maxIterations < U32 && Installed(wf, specs[i]))
    && KeyedByName(wf.registry)
    && (forall k :: k in wf.registry && !IsGuard(specs, k) && !IsIncrement(specs, k) ==> Ordinary(wf.registry[k]))
    && GuardBase !in wf.seeded && IncrementBase !in wf.seeded
    && (forall i :: 0 <= i < |specs| ==> IncrementId(specs[i]) !in wf.seeded)
    && TargetsDeclared(wf.schema)
  }

  /** An increment is entered from its own guard, on the way to continue, and from nowhere else. */
  ghost predicate OnlyGuardsEnter(schema: Schema, specs: seq<LoopSpec>) {
    forall i :: 0 <= i < |specs| ==>
      && schema.startNode != IncrementId(specs[i])
      && specs[i].exitTo != IncrementId(specs[i])
      && forall u :: Edge(Validation.DeclaredGraph(schema), u, IncrementId(specs[i])) ==> u == GuardId(specs[i])
  }

  // ----- One dispatch of each kind of node -----

  predicate BaseNamesFree(c: Context) { GuardBase !in c.nodes && IncrementBase !in c.nodes }

  lemma ClusterNodesAreFramed(spec: LoopSpec)
    ensures Framed(GuardNode(spec)) && Framed(IncrementNode(spec))
    ensures GuardNode(spec).name == GuardId(spec) && IncrementNode(spec).name == IncrementId(spec)
  {
    var g, n := GuardNode(spec), IncrementNode(spec);
    forall c
      ensures FramedStep(c, g.process(c).ctx) && FramedStep(c, n.process(c).ctx)
    {
    }
  }

  /** The guard changes no output and routes by the counter and the predicate. */
  lemma GuardDispatch(spec: LoopSpec, c: Context, w: World, uuid: Uuid)
    requires BaseNamesFree(c)
    ensures var d := Dispatch(GuardNode(spec), c, w, uuid);
            && !d.failed && d.after.nodes == c.nodes
            && GuardNode(spec).router.Some? && GuardNode(spec).router.value(d.after) == RouteGuard(spec, d.after)
  {
    var pre := EnterRunning(c, GuardId(spec));
    assert GuardNode(spec).process(pre) == Done(pre.(nodes := Relabel(pre.nodes, GuardBase, GuardId(spec))));
  }

  /** The increment adds one to its own counter and routes back to the body. */
  lemma IncrementDispatch(spec: LoopSpec, c: Context, w: World, uuid: Uuid)
    requires BaseNamesFree(c)
    ensures var d := Dispatch(IncrementNode(spec), c, w, uuid);
            && !d.failed && d.after.nodes == Bump(spec, c).nodes
            && IncrementNode(spec).router.Some? && IncrementNode(spec).router.value(d.after) == Some(spec.bodyEntry)
  {
    IdentitiesAreDistinct(spec, spec);
    var pre := EnterRunning(c, IncrementId(spec));
    var out := Bump(spec, pre);
    assert IncrementNode(spec).process(pre) == Done(out.(nodes := Relabel(out.nodes, IncrementBase, IncrementId(spec))));
  }

  /** An ordinary node touches no other entry, whether it succeeds or fails. */
  lemma OrdinaryDispatch(node: Node, c: Context, w: World, uuid: Uuid)
    requires Ordinary(node)
    ensures SameElsewhere(node.name, c, Dispatch(node, c, w, uuid).after)
  {
    var pre := EnterRunning(c, node.name);
    if node.process(pre).Done? {
      assert SameElsewhere(node.name, pre, node.process(pre).ctx);
    }
  }

  lemma BumpCounts(spec: LoopSpec, c: Context)
    ensures Iterations(Bump(spec, c), IncrementId(spec)) == Iterations(c, IncrementId(spec)) + 1
    ensures forall k :: k != IncrementId(spec) ==> Iterations(Bump(spec, c), k) == Iterations(c, k)
    ensures Bump(spec, c) == c.(nodes := c.nodes[IncrementId(spec) := Obj(map["iterations" := Int(Iterations(Bump(spec, c), IncrementId(spec)))])])
  {
  }

  lemma SameElsewhereSameCounts(name: Id, a: Context, b: Context)
    requires SameElsewhere(name, a, b)
    ensures forall k :: k != name ==> (k in a.nodes <==> k in b.nodes) && Iterations(a, k) == Iterations(b, k)
  {
    forall k | k != name
      ensures (k in a.nodes <==> k in b.nodes) && Iterations(a, k) == Iterations(b, k)
    {
      assert k in a.nodes <==> k in a.nodes - {name};
      assert k in b.nodes <==> k in b.nodes - {name};
      if k in a.nodes {
        assert (a.nodes - {name})[k] == a.nodes[k] && (b.nodes - {name})[k] == b.nodes[k];
      }
    }
  }

  /** Of all counters, a dispatch moves at most the dispatched increment's own, by one. */
  ghost predicate CountersStep(specs: seq<LoopSpec>, at: Id, c: Context, after: Context) {
    forall i :: 0 <= i < |specs| ==>
      Iterations(after, IncrementId(specs[i])) ==
      Iterations(c, IncrementId(specs[i])) + (if at == IncrementId(specs[i]) then 1 else 0)
  }

  /** A dispatch leads along a declared connection, and a guard's by its own rule. */
  ghost predicate RouteStep(wf: Workflow, specs: seq<LoopSpec>, at: Id, d: Dispatched)
    requires at in wf.registry && at in wf.schema.nodes
  {
    var next := Successor(wf, wf.registry[at], at, d.after);
    && (next.Some? ==> next.value in wf.schema.nodes[at].connections)
    && forall i :: 0 <= i < |specs| && at == GuardId(specs[i]) ==> !d.failed && next == RouteGuard(specs[i], d.after)
  }

  ghost predicate LoopStep(wf: Workflow, specs: seq<LoopSpec>, at: Id, c: Context, d: Dispatched)
    requires at in wf.registry && at in wf.schema.nodes
  {
    BaseNamesFree(d.after) && CountersStep(specs, at, c, d.after) && RouteStep(wf, specs, at, d)
  }

  lemma NotAnIncrement(specs: seq<LoopSpec>, i: nat)
    requires DistinctPrefixes(specs) && i < |specs|
    ensures forall j :: 0 <= j < |specs| ==> GuardId(specs[i]) != IncrementId(specs[j])
    ensures forall j :: 0 <= j < |specs| ==> GuardId(specs[j]) != IncrementId(specs[i])
    ensures forall j :: 0 <= j < |specs| && GuardId(specs[i]) == GuardId(specs[j]) ==> j == i
    ensures forall j :: 0 <= j < |specs| && IncrementId(specs[i]) == IncrementId(specs[j]) ==> j == i
  {
    forall j | 0 <= j < |specs|
      ensures GuardId(specs[i]) != IncrementId(specs[j]) && GuardId(specs[j]) != IncrementId(specs[i])
      ensures GuardId(specs[i]) == GuardId(specs[j]) ==> j == i
      ensures IncrementId(specs[i]) == IncrementId(specs[j]) ==> j == i
    {
      IdentitiesAreDistinct(specs[i], specs[j]);
      IdentitiesAreDistinct(specs[j], specs[i]);
    }
  }

  lemma GuardStep(wf: Workflow, specs: seq<LoopSpec>, i: nat, c: Context, w: World, uuid: Uuid)
    requires DistinctPrefixes(specs) && i < |specs| && Installed(wf, specs[i]) && BaseNamesFree(c)
    ensures var at := GuardId(specs[i]);
            at in wf.registry && at in wf.schema.nodes && LoopStep(wf, specs, at, c, Dispatch(wf.registry[at], c, w, uuid))
  {
    InstalledNodes(wf, specs[i]);
    GuardDispatch(specs[i], c, w, uuid);
    NotAnIncrement(specs, i);
    var d := Dispatch(GuardNode(specs[i]), c, w, uuid);
    SameOutputsSameCounts(c, d.after);
    assert CountersStep(specs, GuardId(specs[i]), c, d.after);
  }

  lemma IncrementStep(wf: Workflow, specs: seq<LoopSpec>, i: nat, c: Context, w: World, uuid: Uuid)
    requires DistinctPrefixes(specs) && i < |specs| && Installed(wf, specs[i]) && BaseNamesFree(c)
    ensures var at := IncrementId(specs[i]);
            at in wf.registry && at in wf.schema.nodes && LoopStep(wf, specs, at, c, Dispatch(wf.registry[at], c, w, uuid))
  {
    InstalledNodes(wf, specs[i]);
    IncrementDispatch(specs[i], c, w, uuid);
    IdentitiesAreDistinct(specs[i], specs[i]);
    NotAnIncrement(specs, i);
    var d := Dispatch(IncrementNode(specs[i]), c, w, uuid);
    IncrementCounters(specs, i, c, d.after);
  }

  lemma IncrementCounters(specs: seq<LoopSpec>, i: nat, c: Context, after: Context)
    requires DistinctPrefixes(specs) && i < |specs| && after.nodes == Bump(specs[i], c).nodes
    ensures CountersStep(specs, IncrementId(specs[i]), c, after)
  {
    BumpCounts(specs[i], c);
    SameOutputsSameCounts(Bump(specs[i], c), after);
    NotAnIncrement(specs, i);
  }

  lemma SameOutputsSameCounts(a: Context, b: Context)
    requires a.nodes == b.nodes
    ensures forall k :: Iterations(a, k) == Iterations(b, k)
  {
  }

  lemma OrdinaryStep(wf: Workflow, specs: seq<LoopSpec>, at: Id, c: Context, w: World, uuid: Uuid)
    requires at in wf.registry && wf.registry[at].name == at && Ordinary(wf.registry[at])
    requires at in wf.schema.nodes && BaseNamesFree(c)
    requires !IsGuard(specs, at) && !IsIncrement(specs, at)
    ensures LoopStep(wf, specs, at, c, Dispatch(wf.registry[at], c, w, uuid))
  {
    var d := Dispatch(wf.registry[at], c, w, uuid);
    OrdinaryDispatch(wf.registry[at], c, w, uuid);
    SameElsewhereSameCounts(at, c, d.after);
    assert CountersStep(specs, at, c, d.after);
  }

  lemma LoopDispatch(wf: Workflow, specs: seq<LoopSpec>, at: Id, c: Context, w: World, uuid: Uuid)
    requires LoopWorkflow(wf, specs) && at in wf.registry && at in wf.schema.nodes && BaseNamesFree(c)
    ensures LoopStep(wf, specs, at, c, Dispatch(wf.registry[at], c, w, uuid))
  {
    if IsGuard(specs, at) {
      var i :| 0 <= i < |specs| && GuardId(specs[i]) == at;
      GuardStep(wf, specs, i, c, w, uuid);
    } else if IsIncrement(specs, at) {
      var i :| 0 <= i < |specs| && IncrementId(specs[i]) == at;
      IncrementStep(wf, specs, i, c, w, uuid);
    } else {
      OrdinaryStep(wf, specs, at, c, w, uuid);
    }
  }

  lemma LoopRegistryIsFramed(wf: Workflow, specs: seq<LoopSpec>)
    requires LoopWorkflow(wf, specs)
    ensures FramedRegistry(wf.registry)
  {
    forall k | k in wf.registry
      ensures Framed(wf.registry[k])
    {
      if IsGuard(specs, k) {
        var i :| 0 <= i < |specs| && GuardId(specs[i]) == k;
        InstalledNodes(wf, specs[i]);
        ClusterNodesAreFramed(specs[i]);
      } else if IsIncrement(specs, k) {
        var i :| 0 <= i < |specs| && IncrementId(specs[i]) == k;
        InstalledNodes(wf, specs[i]);
        ClusterNodesAreFramed(specs[i]);
      }
    }
  }

  lemma InstalledNodes(wf: Workflow, spec: LoopSpec)
    requires Installed(wf, spec)
    ensures GuardId(spec) in wf.registry && wf.registry[GuardId(spec)] == GuardNode(spec)
    ensures IncrementId(spec) in wf.registry && wf.registry[IncrementId(spec)] == IncrementNode(spec)
    ensures GuardId(spec) in wf.schema.nodes && wf.schema.nodes[GuardId(spec)].connections == [IncrementId(spec), spec.exitTo]
    ensures IncrementId(spec) in wf.schema.nodes && wf.schema.nodes[IncrementId(spec)].connections == [spec.bodyEntry]
  {
    var cluster := BuildLoop(spec);
    assert cluster.nodes[0] == GuardNode(spec) && cluster.nodes[1] == IncrementNode(spec);
    IdentitiesAreDistinct(spec, spec);
    assert GuardId(spec) in cluster.connections && IncrementId(spec) in cluster.connections;
  }
}
