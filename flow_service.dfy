// The flow service over the repository: listing maps the repository's page
// one to one, and a single flow is refused unless it is the user's, public,
// or asked for by an admin.
module FlowService {
  import opened Wrappers
  import opened Models
  import opened FlowRepository

  datatype FlowError = FlowNotFound(flowId: string) | FlowAccessDenied(flowId: string)

  function Message(e: FlowError): string
  {
    match e
    case FlowNotFound(id) => "Flow " + id + " not found"
    case FlowAccessDenied(id) => "Access denied to flow " + id
  }

  /** Whether the service hands a flow to a user. */
  predicate MayRead(f: FlowRecord, user: UserRecord)
  {
    user.role == Admin || f.createdBy == user.id || f.visibility == Public
  }

  /** `list_flows`: the repository's page, read as flows. */
  function ListFlows(table: seq<StoredFlow>, user: UserRecord, skip: Option<int>, limit: Option<int>): (r: seq<FlowRecord>)
    ensures var page := FlowRepository.ListFlows(table, user, skip, limit);
      |r| == |page| && forall k :: 0 <= k < |r| ==> r[k] == page[k].flow
  {
    var page := FlowRepository.ListFlows(table, user, skip, limit);
    seq(|page|, k requires 0 <= k < |page| => page[k].flow)
  }

  /** Every listed flow is one of the table's and one the user may read, and a page holds at most the normalised limit. */
  lemma ListedFlowsAreReadable(table: seq<StoredFlow>, user: UserRecord, skip: Option<int>, limit: Option<int>)
    ensures |ListFlows(table, user, skip, limit)| <= NormalizeLimit(limit)
    ensures forall f :: f in ListFlows(table, user, skip, limit) ==>
      MayRead(f, user) && exists x :: x in table && x.flow == f
  {
    var page := FlowRepository.ListFlows(table, user, skip, limit);
    var r := ListFlows(table, user, skip, limit);
    ListedAreVisible(table, user, skip, limit);
    forall f | f in r
      ensures MayRead(f, user) && exists x :: x in table && x.flow == f
    {
      var k :| 0 <= k < |r| && r[k] == f;
      assert page[k] in page;
    }
  }

  /** `get_flow_by_id`. */
  function GetFlowById(table: seq<StoredFlow>, flowId: string, user: UserRecord): (r: Result<FlowRecord, FlowError>)
    ensures GetById(table, flowId).None? ==> r == Err(FlowNotFound(flowId))
    ensures GetById(table, flowId).Some? ==>
      (r.Ok? <==> MayRead(GetById(table, flowId).value, user))
    ensures GetById(table, flowId).Some? && r.Err? ==> r.error == FlowAccessDenied(flowId)
    ensures r.Ok? ==> r.value.id == flowId
  {
    match GetById(table, flowId)
    case None => Err(FlowNotFound(flowId))
    case Some(f) =>
      if user.role != Admin && f.createdBy != user.id && f.visibility != Public then Err(FlowAccessDenied(flowId))
      else Ok(f)
  }

  /** The single-flow rule and the listing filter agree: a flow can be read exactly when the repository lists it for the user. */
  lemma ReadRuleMatchesListing(f: FlowRecord, user: UserRecord)
    ensures MayRead(f, user) <==> Visible(f, user)
  {
  }
}
