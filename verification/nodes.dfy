/** Nodes as arbitrary context transformers, their registry, and the identity wrapper. */
module Nodes {
  import opened Json
  import opened Contexts
  import opened Suspensions

  /** A failing node hands back no context: only a message, its sessions, and its own result. */
  datatype NodeError = NodeError(message: string, sessions: seq<Session>, nodeResult: Option<Value>)

  datatype Outcome = Done(ctx: Context) | Fault(error: NodeError)

  /** `router` is present exactly for nodes that choose their successor at run time. */
  datatype Node = Node(name: Id, process: Context -> Outcome, router: Option<Context -> Option<Id>>)

  type Registry = map<Id, Node>

  predicate IsRouter(registry: Registry, identity: Id) {
    identity in registry && registry[identity].router.Some?
  }

  ghost predicate KeyedByName(registry: Registry) {
    forall k :: k in registry ==> registry[k].name == k
  }

  class NodeRegistry {
    var nodes: Registry

    ghost predicate Valid()
      reads this
    {
      KeyedByName(nodes)
    }

    constructor ()
      ensures Valid() && nodes == map[]
    {
      nodes := map[];
    }

    /** A node is filed under its own name, replacing an earlier node of that name. */
    method Register(node: Node)
      requires Valid()
      modifies this
      ensures Valid()
      ensures nodes == old(nodes)[node.name := node]
    {
      var key := node.name;
      nodes := nodes[key := node];
    }
  }

  // ----- What a node is allowed to touch -----

  /** Same run records and statuses: only usage and the like may differ. */
  predicate SameStatuses(a: map<Id, NodeRun>, b: map<Id, NodeRun>) {
    a.Keys == b.Keys && forall k :: k in a ==> a[k].status == b[k].status
  }

  /** A node leaves to the engine what the engine owns: statuses, the dispatch ledger, the stop markers. */
  ghost predicate FramedStep(before: Context, after: Context) {
    && SameStatuses(before.nodeRuns, after.nodeRuns)
    && after.metadata.invocations == before.metadata.invocations
    && after.metadata.cancelled == before.metadata.cancelled
    && after.metadata.budgetHalt == before.metadata.budgetHalt
    && after.metadata.runId == before.metadata.runId
    && OnlyRequests(before.metadata.suspension, after.metadata.suspension)
  }

  ghost predicate Framed(node: Node) {
    forall c :: node.process(c).Done? ==> FramedStep(c, node.process(c).ctx)
  }

  /** All that the dispatch ledger asks of a node: to leave its rows alone. */
  ghost predicate KeepsRows(node: Node) {
    forall c :: node.process(c).Done? ==> node.process(c).ctx.metadata.invocations == c.metadata.invocations
  }

  ghost predicate RowKeepingRegistry(registry: Registry) {
    KeyedByName(registry) && forall k :: k in registry ==> KeepsRows(registry[k])
  }

  ghost predicate FramedRegistry(registry: Registry) {
    KeyedByName(registry) && forall k :: k in registry ==> Framed(registry[k])
  }

  // ----- Identity override -----

  /** The single output the inner node filed under its default identity is moved to the new one. */
  function Relabel(nodes: map<Id, Value>, from: Id, to: Id): map<Id, Value> {
    if from != to && from in nodes then (nodes - {from})[to := nodes[from]] else nodes
  }

  function WithIdentity(inner: Node, identity: Id): Node {
    Node(identity,
         c => match inner.process(c)
              case Fault(e) => Fault(e)
              case Done(out) => Done(out.(nodes := Relabel(out.nodes, inner.name, identity))),
         inner.router)
  }

  /** The node succeeds and files one output, under its own name. */
  ghost predicate WritesDefaultOnly(node: Node, c: Context) {
    var r := node.process(c);
    && r.Done?
    && node.name in r.ctx.nodes
    && forall k :: k != node.name ==>
         (k in r.ctx.nodes <==> k in c.nodes) && (k in c.nodes ==> r.ctx.nodes[k] == c.nodes[k])
  }

  /**
   * Two instances of one node type, run one after the other: when the type writes only under its
   * default name, each output survives under its own identity and nothing is left under the default.
   */
  lemma InstancesAreIndependent(inner: Node, a: Id, b: Id, c: Context)
    requires a != b && a != inner.name && b != inner.name
    requires forall x :: WritesDefaultOnly(inner, x)
    ensures WritesDefaultOnly(inner, c)
    ensures WithIdentity(inner, a).process(c).Done?
    ensures WritesDefaultOnly(inner, WithIdentity(inner, a).process(c).ctx)
    ensures WithIdentity(inner, b).process(WithIdentity(inner, a).process(c).ctx).Done?
    ensures var first := WithIdentity(inner, a).process(c).ctx;
            var second := WithIdentity(inner, b).process(first).ctx;
            && a in second.nodes && second.nodes[a] == inner.process(c).ctx.nodes[inner.name]
            && b in second.nodes && second.nodes[b] == inner.process(first).ctx.nodes[inner.name]
            && inner.name !in second.nodes
  {
    var first := WithIdentity(inner, a).process(c).ctx;
    var out := inner.process(c).ctx;
    assert first.nodes == Relabel(out.nodes, inner.name, a);
    assert WritesDefaultOnly(inner, first);
    var final := inner.process(first).ctx;
    assert WithIdentity(inner, b).process(first).ctx.nodes == Relabel(final.nodes, inner.name, b);
  }

  /** The inner node leaves the entry under its default identity as it found it. */
  predicate LeavesDefaultAlone(inner: Node, c: Context) {
    var r := inner.process(c);
    && r.Done?
    && (inner.name in r.ctx.nodes <==> inner.name in c.nodes)
    && (inner.name in c.nodes ==> r.ctx.nodes[inner.name] == c.nodes[inner.name])
  }

  /**
   * An inner node that does not touch its default entry still loses whatever another node filed there: the
   * wrapper adds nothing to what the inner node does exactly when there is no such entry, and otherwise
   * moves it to its own identity, over whatever stood there.
   */
  lemma RelabelStealsForeignEntry(inner: Node, identity: Id, c: Context)
    requires identity != inner.name && LeavesDefaultAlone(inner, c)
    ensures WithIdentity(inner, identity).process(c) == inner.process(c) <==> inner.name !in c.nodes
    ensures inner.name in c.nodes ==>
              var r, out := WithIdentity(inner, identity).process(c), inner.process(c).ctx;
              r == Done(out.(nodes := (out.nodes - {inner.name})[identity := c.nodes[inner.name]]))
  {
    if inner.name in c.nodes {
      assert inner.name !in WithIdentity(inner, identity).process(c).ctx.nodes;
    }
  }
}
