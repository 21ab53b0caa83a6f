// Reconciling the registry's manifests with the flows table: a manifest whose
// key has no row creates a public flow; a row with that key is made public and
// takes the manifest's name, description and configuration.
module FlowSync {
  import opened Wrappers
  import opened Text
  import opened Json
  import opened Models
  import opened FlowRegistry

  /** `uuid.UUID(s)` (the canonical form, or None when `s` does not parse) and `uuid5(NAMESPACE_URL, seed)`. */
  datatype UuidOracle = UuidOracle(parse: string -> Option<string>, derive: string -> string)

  const MissingIdentity := "Flow manifest must define at least one of 'id' or 'key'"

  /** `_manifest_to_uuid`: an id that parses as a UUID is used as it is; otherwise the UUID is derived from the id, or from the key when the id is empty; with neither it raises ValueError. */
  function ManifestToUuid(m: Manifest, u: UuidOracle): (r: Result<string, string>)
    ensures r.Ok? <==> m.id != "" || m.key != ""
    ensures r.Err? ==> r.error == MissingIdentity
    ensures m.id != "" && u.parse(m.id).Some? ==> r == Ok(u.parse(m.id).value)
    ensures m.id != "" && u.parse(m.id).None? ==> r == Ok(u.derive(m.id))
    ensures m.id == "" && m.key != "" ==> r == Ok(u.derive(m.key))
  {
    if m.id != "" && u.parse(m.id).Some? then Ok(u.parse(m.id).value)
    else
      var seed := if m.id != "" then m.id else m.key;
      if seed == "" then Err(MissingIdentity) else Ok(u.derive(seed))
  }

  /** `_pick_default_owner`: an admin's id when there is an admin, else a user's id, else None. */
  function PickDefaultOwner(users: seq<UserRecord>): (r: Option<string>)
    ensures r.Some? <==> |users| > 0
    ensures (exists i :: 0 <= i < |users| && users[i].role == Admin) ==>
      exists i :: 0 <= i < |users| && users[i].role == Admin && r == Some(users[i].id)
    ensures r.Some? ==> exists i :: 0 <= i < |users| && r.value == users[i].id
  {
    match FirstAdmin(users, 0)
    case Some(i) => Some(users[i].id)
    case None => if |users| > 0 then Some(users[0].id) else None
  }

  /** The first admin at or after position `i`. */
  function FirstAdmin(users: seq<UserRecord>, i: nat): (r: Option<nat>)
    requires i <= |users|
    ensures r.Some? ==> i <= r.value < |users| && users[r.value].role == Admin
    ensures r.None? ==> forall j :: i <= j < |users| ==> users[j].role != Admin
    decreases |users| - i
  {
    if i == |users| then None
    else if users[i].role == Admin then Some(i)
    else FirstAdmin(users, i + 1)
  }

  /** `_resolve_owner`: the explicit owner when given, else the default one. */
  function ResolveOwner(ownerId: Option<string>, users: seq<UserRecord>): (r: Option<string>)
    ensures ownerId.Some? ==> r == ownerId
    ensures ownerId.None? ==> r == PickDefaultOwner(users)
  {
    if ownerId.Some? then ownerId else PickDefaultOwner(users)
  }

  /** The owner is the explicit one or a known user, an admin whenever there is one; there is none only with no explicit owner and no users. */
  lemma ResolvedOwnerIsKnown(ownerId: Option<string>, users: seq<UserRecord>)
    ensures ResolveOwner(ownerId, users).None? <==> ownerId.None? && |users| == 0
    ensures ResolveOwner(ownerId, users).Some? ==>
      ResolveOwner(ownerId, users) == ownerId || exists i :: 0 <= i < |users| && ResolveOwner(ownerId, users).value == users[i].id
    ensures ownerId.None? && (exists i :: 0 <= i < |users| && users[i].role == Admin) ==>
      exists i :: 0 <= i < |users| && users[i].role == Admin && ResolveOwner(ownerId, users) == Some(users[i].id)
  {
  }

  /** A flow agrees with a manifest: it is public and has the manifest's name, description and configuration. */
  predicate Matches(f: FlowRecord, m: Manifest)
  {
    f.visibility == Public && f.name == m.name && f.description == m.description && f.config == m.config
  }

  /** The flow, whether it was created, and whether an existing one changed. */
  datatype Reconciled = Reconciled(flow: FlowRecord, created: bool, changed: bool)

  /** `_reconcile_flow` on values: the manifest's UUID is resolved first (and its failure raises even for an existing row); a missing row is created public, owned by `owner`; an existing row is forced public and takes the manifest's fields, and `changed` says whether that altered it. */
  function ReconcileSpec(m: Manifest, f: Option<FlowRecord>, owner: string, u: UuidOracle): (r: Result<Reconciled, string>)
    ensures r.Err? <==> ManifestToUuid(m, u).Err?
    ensures r.Err? ==> r.error == MissingIdentity
    ensures r.Ok? && f.None? ==>
      r.value == Reconciled(FlowRecord(ManifestToUuid(m, u).value, m.key, m.name, m.description, m.config, Public, owner), true, false)
    ensures r.Ok? && f.Some? ==> !r.value.created
    ensures r.Ok? && f.Some? ==>
      var g := r.value.flow;
      && g.id == f.value.id && g.key == f.value.key && g.createdBy == f.value.createdBy
      && g.visibility == Public && g.name == m.name && g.description == m.description && g.config == m.config
    ensures r.Ok? && f.Some? ==> (r.value.changed <==> r.value.flow != f.value)
  {
    match ManifestToUuid(m, u)
    case Err(e) => Err(e)
    case Ok(id) =>
      match f
      case None => Ok(Reconciled(FlowRecord(id, m.key, m.name, m.description, m.config, Public, owner), true, false))
      case Some(prev) =>
        var changed := prev.visibility != Public || prev.name != m.name || prev.description != m.description || prev.config != m.config;
        Ok(Reconciled(prev.(visibility := Public, name := m.name, description := m.description, config := m.config), false, changed))
  }

  /** A flow ORM object; `_reconcile_flow` assigns its fields in place. */
  class FlowRow {
    var id: string
    var key: string
    var name: string
    var description: Option<string>
    var config: Dict
    var visibility: FlowVisibility
    var createdBy: string

    function Snap(): FlowRecord
      reads this
    {
      FlowRecord(id, key, name, description, config, visibility, createdBy)
    }

    constructor (r: FlowRecord)
      ensures Snap() == r
    {
      id, key, name, description, config, visibility, createdBy :=
        r.id, r.key, r.name, r.description, r.config, r.visibility, r.createdBy;
    }
  }

  /** `_reconcile_flow`: creates a row, or updates `flow` field by field with a `changed` flag. */
  method ReconcileFlow(m: Manifest, flow: FlowRow?, owner: string, u: UuidOracle)
    returns (err: Option<string>, row: FlowRow?, created: bool, changed: bool)
    modifies flow
    ensures var spec := ReconcileSpec(m, if flow == null then None else Some(old(flow.Snap())), owner, u);
      && (spec.Err? ==> err == Some(spec.error) && (flow != null ==> flow.Snap() == old(flow.Snap())))
      && (spec.Ok? ==> err.None? && row != null && row.Snap() == spec.value.flow
                       && created == spec.value.created && changed == spec.value.changed)
    ensures err.None? && flow != null ==> row == flow
    ensures err.None? && flow == null ==> row != null && fresh(row)
  {
    var uuid := ManifestToUuid(m, u);
    if uuid.Err? {
      return Some(uuid.error), null, false, false;
    }
    if flow == null {
      row := new FlowRow(FlowRecord(uuid.value, m.key, m.name, m.description, m.config, Public, owner));
      return None, row, true, false;
    }
    changed := false;
    if flow.visibility != Public {
      flow.visibility := Public;
      changed := true;
    }
    if flow.name != m.name {
      flow.name := m.name;
      changed := true;
    }
    if flow.description != m.description {
      flow.description := m.description;
      changed := true;
    }
    if flow.config != m.config {
      flow.config := m.config;
      changed := true;
    }
    return None, flow, false, changed;
  }

  /** The key map and the counters during a sync. */
  datatype SyncState = SyncState(db: map<string, FlowRecord>, created: nat, updated: nat)

  /** One manifest of the loop: the reconciled flow replaces the key's entry; a created flow counts as created, else a changed one as updated. */
  function Step(m: Manifest, s: SyncState, owner: string, u: UuidOracle): Result<SyncState, string>
  {
    match ReconcileSpec(m, if m.key in s.db then Some(s.db[m.key]) else None, owner, u)
    case Err(e) => Err(e)
    case Ok(rc) =>
      Ok(SyncState(s.db[m.key := rc.flow], s.created + (if rc.created then 1 else 0),
                   s.updated + (if !rc.created && rc.changed then 1 else 0)))
  }

  /** The loop from manifest `i` on; the first error aborts it. */
  function SyncFrom(ms: seq<Manifest>, i: nat, s: SyncState, owner: string, u: UuidOracle): Result<SyncState, string>
    requires i <= |ms|
    decreases |ms| - i
  {
    if i == |ms| then Ok(s)
    else match Step(ms[i], s, owner, u)
      case Err(e) => Err(e)
      case Ok(t) => SyncFrom(ms, i + 1, t, owner, u)
  }

  /** What a sync leaves in the database and reports. */
  datatype SyncOutcome = SyncOutcome(db: map<string, FlowRecord>, created: nat, updated: nat, committed: bool)

  /** `sync_flows_from_registry` on values, over the flows table keyed by `key`. */
  function SyncSpec(ms: seq<Manifest>, db: map<string, FlowRecord>, ownerId: Option<string>,
                    users: seq<UserRecord>, u: UuidOracle): Result<SyncOutcome, string>
  {
    if |ms| == 0 then Ok(SyncOutcome(db, 0, 0, false))
    else match ResolveOwner(ownerId, users)
      case None => Ok(SyncOutcome(db, 0, 0, false))
      case Some(owner) =>
        match SyncFrom(ms, 0, SyncState(db, 0, 0), owner, u)
        case Err(e) => Err(e)
        case Ok(s) => Ok(SyncOutcome(s.db, s.created, s.updated, s.created + s.updated > 0))
  }

  /** No manifests, or no owner to be found, and nothing happens. */
  lemma EarlyReturns(ms: seq<Manifest>, db: map<string, FlowRecord>, ownerId: Option<string>, users: seq<UserRecord>, u: UuidOracle)
    ensures |ms| == 0 ==> SyncSpec(ms, db, ownerId, users, u) == Ok(SyncOutcome(db, 0, 0, false))
    ensures ownerId.None? && users == [] ==> SyncSpec(ms, db, ownerId, users, u) == Ok(SyncOutcome(db, 0, 0, false))
  {
  }

  /** A loop that counted nothing changed nothing. */
  lemma {:induction false} UncountedIsUnchanged(ms: seq<Manifest>, i: nat, s: SyncState, owner: string, u: UuidOracle)
    requires i <= |ms|
    requires SyncFrom(ms, i, s, owner, u).Ok?
    ensures var t := SyncFrom(ms, i, s, owner, u).value;
      t.created == s.created && t.updated == s.updated ==> t.db == s.db
    ensures SyncFrom(ms, i, s, owner, u).value.created >= s.created
    ensures SyncFrom(ms, i, s, owner, u).value.updated >= s.updated
    decreases |ms| - i
  {
    if i < |ms| {
      var t := Step(ms[i], s, owner, u).value;
      UncountedIsUnchanged(ms, i + 1, t, owner, u);
      var m := ms[i];
      if m.key in s.db {
        var rc := ReconcileSpec(m, Some(s.db[m.key]), owner, u).value;
        if !rc.changed {
          assert s.db[m.key := rc.flow] == s.db;
        }
      }
    }
  }

  /** The commit happens exactly when something was created or updated, and what is committed is the loop's key map; without a commit that map equals the table as it was. */
  lemma CommitIffCounted(ms: seq<Manifest>, db: map<string, FlowRecord>, ownerId: Option<string>, users: seq<UserRecord>, u: UuidOracle)
    requires SyncSpec(ms, db, ownerId, users, u).Ok?
    ensures var o := SyncSpec(ms, db, ownerId, users, u).value;
      (o.committed <==> o.created + o.updated > 0) && (!o.committed ==> o.db == db)
  {
    if |ms| > 0 && ResolveOwner(ownerId, users).Some? {
      UncountedIsUnchanged(ms, 0, SyncState(db, 0, 0), ResolveOwner(ownerId, users).value, u);
    }
  }

  /** No two manifests share a key. */
  predicate DistinctKeys(ms: seq<Manifest>)
  {
    forall i, j :: 0 <= i < j < |ms| ==> ms[i].key != ms[j].key
  }

  /** After the loop every manifest from `i` on has a matching flow, and keys no manifest names keep their entry. */
  lemma {:induction false} SyncMatches(ms: seq<Manifest>, i: nat, s: SyncState, owner: string, u: UuidOracle)
    requires i <= |ms| && DistinctKeys(ms)
    requires SyncFrom(ms, i, s, owner, u).Ok?
    ensures var t := SyncFrom(ms, i, s, owner, u).value;
      && (forall j :: i <= j < |ms| ==> ms[j].key in t.db && Matches(t.db[ms[j].key], ms[j]))
      && (forall k :: (forall j :: i <= j < |ms| ==> ms[j].key != k) ==> (k in t.db <==> k in s.db) && (k in s.db ==> t.db[k] == s.db[k]))
      && (forall j :: i <= j < |ms| ==> ManifestToUuid(ms[j], u).Ok?)
    decreases |ms| - i
  {
    if i < |ms| {
      var t := Step(ms[i], s, owner, u).value;
      SyncMatches(ms, i + 1, t, owner, u);
      assert Matches(t.db[ms[i].key], ms[i]);
      assert forall j :: i + 1 <= j < |ms| ==> ms[j].key != ms[i].key;
    }
  }

  /** A pass over flows that already match every manifest counts nothing and changes nothing. */
  lemma {:induction false} MatchingPassIsQuiet(ms: seq<Manifest>, i: nat, s: SyncState, owner: string, u: UuidOracle)
    requires i <= |ms|
    requires forall j :: i <= j < |ms| ==> ms[j].key in s.db && Matches(s.db[ms[j].key], ms[j]) && ManifestToUuid(ms[j], u).Ok?
    ensures SyncFrom(ms, i, s, owner, u) == Ok(s)
    decreases |ms| - i
  {
    if i < |ms| {
      var m := ms[i];
      var rc := ReconcileSpec(m, Some(s.db[m.key]), owner, u).value;
      assert rc.flow == s.db[m.key];
      assert s.db[m.key := rc.flow] == s.db;
      MatchingPassIsQuiet(ms, i + 1, s, owner, u);
    }
  }

  /** Re-running a sync of manifests with distinct keys on what the first run left creates, updates and commits nothing. */
  lemma SyncIdempotent(ms: seq<Manifest>, db: map<string, FlowRecord>, ownerId: Option<string>, users: seq<UserRecord>, u: UuidOracle)
    requires DistinctKeys(ms)
    requires SyncSpec(ms, db, ownerId, users, u).Ok?
    ensures var o := SyncSpec(ms, db, ownerId, users, u).value;
      SyncSpec(ms, o.db, ownerId, users, u) == Ok(SyncOutcome(o.db, 0, 0, false))
  {
    if |ms| > 0 && ResolveOwner(ownerId, users).Some? {
      var owner := ResolveOwner(ownerId, users).value;
      var o := SyncSpec(ms, db, ownerId, users, u).value;
      SyncMatches(ms, 0, SyncState(db, 0, 0), owner, u);
      MatchingPassIsQuiet(ms, 0, SyncState(o.db, 0, 0), owner, u);
    }
  }

  /** The registry lists manifests with distinct keys, so syncing its listing is idempotent. */
  lemma RegistryKeysDistinct(r: Registry)
    requires r.Valid()
    ensures DistinctKeys(r.ListFlows())
  {
    var ms := r.ListFlows();
    forall i, j | 0 <= i < j < |ms|
      ensures ms[i].key != ms[j].key
    {
      var a, b := r.order[i], r.order[j];
      assert a != b;
      assert ms[i] == r.byId[a] && ms[j] == r.byId[b];
      assert r.byId[a].id == a && r.byId[b].id == b;
    }
  }

  /** A key repeated within one batch creates one flow, which the second manifest then updates. */
  lemma RepeatedKeyCreatesOnce(a: Manifest, b: Manifest, db: map<string, FlowRecord>, owner: string, u: UuidOracle)
    requires a.key == b.key && a.key !in db
    requires ManifestToUuid(a, u).Ok? && ManifestToUuid(b, u).Ok?
    ensures var t := SyncFrom([a, b], 0, SyncState(db, 0, 0), owner, u);
      && t.Ok? && t.value.created == 1 && t.value.db.Keys == db.Keys + {a.key}
      && Matches(t.value.db[a.key], b)
  {
    var s1 := Step(a, SyncState(db, 0, 0), owner, u).value;
    var s2 := Step(b, s1, owner, u).value;
    assert SyncFrom([a, b], 0, SyncState(db, 0, 0), owner, u) == SyncFrom([a, b], 1, s1, owner, u);
    assert SyncFrom([a, b], 1, s1, owner, u) == SyncFrom([a, b], 2, s2, owner, u);
  }

  /** The flows of the table by key, later rows overriding earlier ones. */
  function IndexByKey(rows: seq<FlowRow>): (r: map<string, FlowRow>)
    reads set x | x in rows
    ensures forall k :: k in r ==> r[k] in rows && r[k].key == k
  {
    if rows == [] then map[]
    else
      var last := rows[|rows| - 1];
      IndexByKey(rows[..|rows| - 1])[last.key := last]
  }

  /** The values of a key map of rows. */
  function Snapshots(m: map<string, FlowRow>): (r: map<string, FlowRecord>)
    reads m.Values
    ensures r.Keys == m.Keys
  {
    map k | k in m :: m[k].Snap()
  }

  /** The report of a sync that did not raise. */
  datatype SyncReport = SyncReport(created: nat, updated: nat, committed: bool)

  /** The body of the sync loop for one manifest: the key's row is reconciled, a created row enters the key map, and the matching counter goes up. */
  method SyncManifest(m: Manifest, flows: map<string, FlowRow>, created: nat, updated: nat, owner: string, u: UuidOracle)
    returns (err: Option<string>, flows': map<string, FlowRow>, created': nat, updated': nat)
    requires forall k :: k in flows ==> flows[k].key == k
    modifies flows.Values
    ensures forall k :: k in flows' ==> flows'[k].key == k
    ensures forall k :: k in flows' ==> flows'[k] in flows.Values || fresh(flows'[k])
    ensures var step := Step(m, SyncState(old(Snapshots(flows)), created, updated), owner, u);
      && (step.Err? ==> err == Some(step.error))
      && (step.Ok? ==> err.None? && step.value == SyncState(Snapshots(flows'), created', updated'))
  {
    flows', created', updated' := flows, created, updated;
    ghost var before := Snapshots(flows);
    var current: FlowRow? := if m.key in flows then flows[m.key] else null;
    assert current != null ==> current.Snap() == before[m.key];
    var row, isCreated, isUpdated;
    err, row, isCreated, isUpdated := ReconcileFlow(m, current, owner, u);
    if err.Some? {
      return;
    }
    if isCreated && row != null {
      flows' := flows[m.key := row];
      created' := created + 1;
    } else if isUpdated {
      updated' := updated + 1;
    }
    assert m.key in flows' && flows'[m.key] == row;
    forall k | k in flows' && k != m.key
      ensures flows'[k].Snap() == before[k]
    {
      assert flows'[k] != current;
    }
    SnapshotsAfterOne(flows', before, m.key, row);
  }

  /** A key map whose rows all read as before, except the one under `key`. */
  lemma SnapshotsAfterOne(flows: map<string, FlowRow>, before: map<string, FlowRecord>, key: string, row: FlowRow)
    requires key in flows && flows[key] == row
    requires flows.Keys == before.Keys + {key}
    requires forall k :: k in flows && k != key ==> flows[k].Snap() == before[k]
    ensures Snapshots(flows) == before[key := row.Snap()]
  {
    var r := Snapshots(flows);
    assert r.Keys == before[key := row.Snap()].Keys;
  }

  /** `sync_flows_from_registry` over the fetched rows: `flows` is the key map at the end, whose rows are the ones committed. */
  method SyncFlowsFromRegistry(ms: seq<Manifest>, rows: seq<FlowRow>, ownerId: Option<string>, users: seq<UserRecord>, u: UuidOracle)
    returns (r: Result<SyncReport, string>, flows: map<string, FlowRow>)
    modifies set x | x in rows
    ensures var spec := SyncSpec(ms, old(Snapshots(IndexByKey(rows))), ownerId, users, u);
      && (spec.Err? ==> r == Err(spec.error))
      && (spec.Ok? ==> r == Ok(SyncReport(spec.value.created, spec.value.updated, spec.value.committed))
                       && Snapshots(flows) == spec.value.db)
  {
    ghost var db := Snapshots(IndexByKey(rows));
    flows := IndexByKey(rows);
    if |ms| == 0 {
      return Ok(SyncReport(0, 0, false)), flows;
    }
    var resolved := ResolveOwner(ownerId, users);
    if resolved.None? {
      return Ok(SyncReport(0, 0, false)), flows;
    }
    var owner := resolved.value;
    var created, updated := 0, 0;
    var i := 0;
    while i < |ms|
      invariant 0 <= i <= |ms|
      invariant forall k :: k in flows ==> flows[k].key == k
      invariant forall k :: k in flows ==> flows[k] in rows || fresh(flows[k])
      invariant SyncFrom(ms, i, SyncState(Snapshots(flows), created, updated), owner, u)
                == SyncFrom(ms, 0, SyncState(db, 0, 0), owner, u)
    {
      ghost var pre := SyncState(Snapshots(flows), created, updated);
      SyncFromStep(ms, i, pre, owner, u);
      var err;
      err, flows, created, updated := SyncManifest(ms[i], flows, created, updated, owner, u);
      if err.Some? {
        return Err(err.value), flows;
      }
      i := i + 1;
    }
    r := Ok(SyncReport(created, updated, created + updated > 0));
  }

  /** SyncFrom takes one manifest at a time. */
  lemma SyncFromStep(ms: seq<Manifest>, i: nat, s: SyncState, owner: string, u: UuidOracle)
    requires i < |ms|
    ensures Step(ms[i], s, owner, u).Err? ==> SyncFrom(ms, i, s, owner, u) == Err(Step(ms[i], s, owner, u).error)
    ensures Step(ms[i], s, owner, u).Ok? ==> SyncFrom(ms, i, s, owner, u) == SyncFrom(ms, i + 1, Step(ms[i], s, owner, u).value, owner, u)
  {
  }
}
