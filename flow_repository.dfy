// The flow repository: pagination parameters are normalised, then the visible
// flows are ordered newest first (ties broken by the larger id) and sliced.
module FlowRepository {
  import opened Wrappers
  import opened Text
  import opened Models

  /** The upper bound on a page. The repository imports MAX_FLOW_LIST_LIMIT from app/constants.py, which defines only MAX_RUN_LIST_LIMIT (200); the bound is taken as 200, the maximum the service documents. */
  const MaxFlowListLimit := 200
  const DefaultLimit := 100

  /** A flow together with its creation time. */
  datatype StoredFlow = StoredFlow(flow: FlowRecord, createdAt: int)

  /** `max(0, int(skip or 0))`. */
  function NormalizeSkip(skip: Option<int>): (r: nat)
    ensures skip.None? ==> r == 0
    ensures skip.Some? ==> r == (if skip.value < 0 then 0 else skip.value)
  {
    if skip.None? || skip.value <= 0 then 0 else skip.value
  }

  /** `max(1, min(int(limit or 100), MAX_FLOW_LIST_LIMIT))`: None and 0 give 100, negatives 1, and large values the maximum. */
  function NormalizeLimit(limit: Option<int>): (r: nat)
    ensures 1 <= r <= MaxFlowListLimit
    ensures limit.None? || limit.value == 0 ==> r == DefaultLimit
    ensures limit.Some? && limit.value < 0 ==> r == 1
    ensures limit.Some? && 0 < limit.value <= MaxFlowListLimit ==> r == limit.value
    ensures limit.Some? && limit.value > MaxFlowListLimit ==> r == MaxFlowListLimit
  {
    var l := if limit.None? || limit.value == 0 then DefaultLimit else limit.value;
    var capped := if l < MaxFlowListLimit then l else MaxFlowListLimit;
    if capped < 1 then 1 else capped
  }

  /** The repository's filter: admins see everything, other users their own flows and the public ones. */
  predicate Visible(f: FlowRecord, user: UserRecord)
  {
    user.role == Admin || f.createdBy == user.id || f.visibility == Public
  }

  function Filter(xs: seq<StoredFlow>, user: UserRecord): (r: seq<StoredFlow>)
    ensures forall x :: x in r <==> x in xs && Visible(x.flow, user)
    ensures |r| <= |xs|
  {
    if xs == [] then []
    else (if Visible(xs[0].flow, user) then [xs[0]] else []) + Filter(xs[1..], user)
  }

  /** `created_at DESC, id DESC`: `a` may come before `b`. */
  predicate Newer(a: StoredFlow, b: StoredFlow)
  {
    a.createdAt > b.createdAt || (a.createdAt == b.createdAt && LexLeq(b.flow.id, a.flow.id))
  }

  lemma NewerTotal(a: StoredFlow, b: StoredFlow)
    ensures Newer(a, b) || Newer(b, a)
  {
    LexLeqTotal(a.flow.id, b.flow.id);
  }

  lemma NewerTransitive(a: StoredFlow, b: StoredFlow, c: StoredFlow)
    requires Newer(a, b) && Newer(b, c)
    ensures Newer(a, c)
  {
    if a.createdAt == b.createdAt == c.createdAt {
      LexLeqTransitive(c.flow.id, b.flow.id, a.flow.id);
    }
  }

  predicate Ordered(xs: seq<StoredFlow>)
  {
    forall i, j :: 0 <= i < j < |xs| ==> Newer(xs[i], xs[j])
  }

  function Insert(x: StoredFlow, xs: seq<StoredFlow>): (r: seq<StoredFlow>)
    ensures multiset(r) == multiset(xs) + multiset{x}
    ensures |r| == |xs| + 1
  {
    if xs == [] then [x]
    else if Newer(x, xs[0]) then [x] + xs
    else
      assert xs == [xs[0]] + xs[1..];
      [xs[0]] + Insert(x, xs[1..])
  }

  lemma {:induction false} InsertOrdered(x: StoredFlow, xs: seq<StoredFlow>)
    requires Ordered(xs)
    ensures Ordered(Insert(x, xs))
  {
    if xs != [] {
      if Newer(x, xs[0]) {
        forall j | 0 < j < |xs|
          ensures Newer(x, xs[j])
        {
          NewerTransitive(x, xs[0], xs[j]);
        }
      } else {
        NewerTotal(x, xs[0]);
        assert Ordered(xs[1..]) by {
          forall i, j | 0 <= i < j < |xs[1..]|
            ensures Newer(xs[1..][i], xs[1..][j])
          {
            assert xs[1..][i] == xs[i + 1] && xs[1..][j] == xs[j + 1];
          }
        }
        InsertOrdered(x, xs[1..]);
        var r := Insert(x, xs[1..]);
        forall k | 0 <= k < |r|
          ensures Newer(xs[0], r[k])
        {
          assert r[k] in multiset(r);
          if r[k] != x {
            assert r[k] in multiset(xs[1..]);
            assert r[k] in xs[1..];
          }
        }
      }
    }
  }

  /** The ORDER BY of the query, as an insertion sort. */
  function Order(xs: seq<StoredFlow>): (r: seq<StoredFlow>)
    ensures multiset(r) == multiset(xs)
    ensures Ordered(r)
  {
    if xs == [] then []
    else
      assert xs == [xs[0]] + xs[1..];
      InsertOrdered(xs[0], Order(xs[1..]));
      Insert(xs[0], Order(xs[1..]))
  }

  /** OFFSET `skip` LIMIT `limit`. */
  function Page<T>(xs: seq<T>, skip: nat, limit: nat): (r: seq<T>)
    ensures |r| <= limit
    ensures forall k :: 0 <= k < |r| ==> skip + k < |xs| && r[k] == xs[skip + k]
  {
    var lo := if skip < |xs| then skip else |xs|;
    var hi := if skip + limit < |xs| then skip + limit else |xs|;
    xs[lo..hi]
  }

  /** `list_flows`. */
  function ListFlows(table: seq<StoredFlow>, user: UserRecord, skip: Option<int>, limit: Option<int>): seq<StoredFlow>
  {
    Page(Order(Filter(table, user)), NormalizeSkip(skip), NormalizeLimit(limit))
  }

  /** A missing, zero or negative offset all give the first page, and normalising an offset twice changes nothing. */
  lemma NonPositiveSkipIsFirstPage(table: seq<StoredFlow>, user: UserRecord, skip: int, limit: Option<int>)
    ensures skip <= 0 ==> ListFlows(table, user, Some(skip), limit) == ListFlows(table, user, None, limit)
    ensures NormalizeSkip(Some(NormalizeSkip(Some(skip)))) == NormalizeSkip(Some(skip))
    ensures skip > 0 ==> ListFlows(table, user, Some(skip), limit) == Page(Order(Filter(table, user)), skip, NormalizeLimit(limit))
  {
  }

  /** A page holds at most the normalised limit of visible flows of the table, newest first. */
  lemma ListedAreVisible(table: seq<StoredFlow>, user: UserRecord, skip: Option<int>, limit: Option<int>)
    ensures var r := ListFlows(table, user, skip, limit);
      && |r| <= NormalizeLimit(limit) <= MaxFlowListLimit
      && Ordered(r)
      && (forall x :: x in r ==> x in table && Visible(x.flow, user))
  {
    var o := Order(Filter(table, user));
    var r := ListFlows(table, user, skip, limit);
    forall x | x in r
      ensures x in table && Visible(x.flow, user)
    {
      assert x in multiset(o);
    }
  }

  /** A page that reaches past the end holds every visible flow: admins see all, others their own and the public ones. */
  lemma FirstPageIsComplete(table: seq<StoredFlow>, user: UserRecord, limit: Option<int>)
    requires |table| <= NormalizeLimit(limit)
    ensures forall x :: x in ListFlows(table, user, None, limit) <==> x in table && Visible(x.flow, user)
  {
    var o := Order(Filter(table, user));
    assert ListFlows(table, user, None, limit) == o;
    forall x
      ensures x in o <==> x in Filter(table, user)
    {
      assert x in o <==> x in multiset(o);
      assert x in Filter(table, user) <==> x in multiset(Filter(table, user));
    }
  }

  /** Pages whose ranges do not meet share no position of the order, so with distinct rows they share no flow. */
  lemma PagesDisjoint(xs: seq<StoredFlow>, skip1: nat, skip2: nat, limit: nat)
    requires skip1 + limit <= skip2
    requires forall i, j :: 0 <= i < j < |xs| ==> xs[i] != xs[j]
    ensures forall x :: x in Page(xs, skip1, limit) ==> x !in Page(xs, skip2, limit)
  {
    var p1, p2 := Page(xs, skip1, limit), Page(xs, skip2, limit);
    forall x | x in p1
      ensures x !in p2
    {
      var a :| 0 <= a < |p1| && p1[a] == x;
      forall b | 0 <= b < |p2|
        ensures p2[b] != x
      {
        assert p2[b] == xs[skip2 + b] && x == xs[skip1 + a] && skip1 + a < skip2 + b;
      }
    }
  }

  /** `get_by_id`: the flow with that id, if any. */
  function GetById(table: seq<StoredFlow>, flowId: string): (r: Option<FlowRecord>)
    ensures r.Some? ==> r.value.id == flowId && exists x :: x in table && x.flow == r.value
    ensures r.None? ==> forall x :: x in table ==> x.flow.id != flowId
  {
    if table == [] then None
    else if table[0].flow.id == flowId then Some(table[0].flow)
    else GetById(table[1..], flowId)
  }
}
