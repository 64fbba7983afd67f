/** Identifiers and result types shared by every service model. */
module Common {
  // Generated UUIDs are modelled as numbers; only equality and order matter.
  type CredId = nat
  type OpId = nat
  type NodeId = nat
  type EventId = nat
  type Time = int

  datatype Option<+T> = None | Some(value: T)

  /** Internal stands for a failure that is neither a rejection nor a known refusal. */
  datatype Error = Conflict | Gap | Capacity | NotFound | Internal

  datatype Result<+T> = Ok(value: T) | Err(error: Error)

  datatype Kind = Provision | Revoke
  datatype Presence = Present | Absent
  datatype Role = Primary | Failover
  datatype ReadyStatus = FullyReady | DegradedReady

  /** The state a node must reach for an operation of this kind. */
  function Want(kind: Kind): Presence {
    if kind == Provision then Present else Absent
  }

  datatype Endpoint = Endpoint(node: NodeId, role: Role)

  lemma SubsetSize<T>(a: set<T>, b: set<T>)
    requires a <= b
    ensures |a| <= |b|
  {
    assert b == a + (b - a);
  }
}
