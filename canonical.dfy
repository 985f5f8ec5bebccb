/**
 * The canonical records the format adapters convert to and from: an agent and
 * a permission set. Only the fields the adapters read and write are modelled;
 * metadata is a plain string-keyed map read with a None default.
 */
module Canonical {
  import opened Values

  datatype CanonicalAgent = CanonicalAgent(
    name: Value,
    description: Value,
    instructions: string,
    tools: seq<Value>,
    model: Option<string>,
    sourceFormat: string,
    metadata: map<string, Value>)

  datatype CanonicalPermission = CanonicalPermission(allow: Value, deny: Value, ask: Value, sourceFormat: string)

  /** What `to_canonical` returns and `from_canonical` accepts. */
  datatype CanonicalObject = AgentConfig(agent: CanonicalAgent) | PermissionConfig(permission: CanonicalPermission)

  /** `agent.get_metadata(key)`: None (here Null) when absent. */
  function GetMetadata(a: CanonicalAgent, key: string): Value
  {
    Get(a.metadata, key, Null)
  }
}
