// The older flow service: admins see all flows, everybody else only their own;
// public flows get no exception, and a refused flow reads as a missing one.
module LegacyFlowService {
  import opened Wrappers
  import opened Models

  /** `list_flows`: the table as it came, filtered by ownership unless the user is an admin. */
  function ListFlows(table: seq<FlowRecord>, user: UserRecord): (r: seq<FlowRecord>)
    ensures forall f :: f in r <==> f in table && (user.role == Admin || f.createdBy == user.id)
    ensures user.role == Admin ==> r == table
  {
    if table == [] then []
    else
      var rest := ListFlows(table[1..], user);
      assert table == [table[0]] + table[1..];
      if user.role == Admin || table[0].createdBy == user.id then [table[0]] + rest else rest
  }

  /** `get_flow_by_id`: the first row with that id, when the user is an admin or its creator; None otherwise. */
  function GetFlowById(table: seq<FlowRecord>, flowId: string, user: UserRecord): (r: Option<FlowRecord>)
    ensures (forall f :: f in table ==> f.id != flowId) ==> r.None?
    ensures r.Some? ==> r.value in table && r.value.id == flowId && (user.role == Admin || r.value.createdBy == user.id)
  {
    match Lookup(table, flowId)
    case None => None
    case Some(f) => if user.role != Admin && f.createdBy != user.id then None else Some(f)
  }

  function Lookup(table: seq<FlowRecord>, flowId: string): (r: Option<FlowRecord>)
    ensures r.Some? ==> r.value in table && r.value.id == flowId
    ensures r.None? <==> forall f :: f in table ==> f.id != flowId
  {
    if table == [] then None
    else if table[0].id == flowId then Some(table[0])
    else Lookup(table[1..], flowId)
  }

  /** A public flow of another user stays hidden from a regular user. */
  lemma NoPublicException(f: FlowRecord, user: UserRecord)
    requires f.visibility == Public && f.createdBy != user.id && user.role == RegularUser
    ensures GetFlowById([f], f.id, user).None?
    ensures ListFlows([f], user) == []
  {
    assert f in [f];
  }

  /** The owner, or an admin, gets a flow whose id is unique in the table. */
  lemma VisibleFlowReturned(table: seq<FlowRecord>, f: FlowRecord, user: UserRecord)
    requires f in table && (user.role == Admin || f.createdBy == user.id)
    requires forall g :: g in table && g.id == f.id ==> g == f
    ensures GetFlowById(table, f.id, user) == Some(f)
  {
  }
}
