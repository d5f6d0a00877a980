/** The declared graph: which node starts the walk and each node's outbound connections. */
module Schemas {
  import opened Json
  import opened Contexts

  datatype NodeConfig = NodeConfig(identity: Id, connections: seq<Id>)

  datatype Schema = Schema(workflowType: string, startNode: Id, nodes: map<Id, NodeConfig>)

  /** The first connection; only routers look past it. */
  function NextAfter(schema: Schema, identity: Id): Option<Id> {
    if identity in schema.nodes && schema.nodes[identity].connections != []
    then Some(schema.nodes[identity].connections[0])
    else None
  }

  ghost predicate TargetsDeclared(schema: Schema) {
    && schema.startNode in schema.nodes
    && forall u, v :: u in schema.nodes && v in schema.nodes[u].connections ==> v in schema.nodes
  }
}
