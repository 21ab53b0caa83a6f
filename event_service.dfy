// The event service: it stores run events through its repository, looks
// them up by id, lists a run's checkpoint payloads, and picks the most recent
// checkpoint that has not expired.
module EventService {
  import opened Wrappers
  import opened Json

  /** The event types the emitters use. */
  datatype EventType =
    | StatusEvent | ErrorEvent | StepStartEvent | StepEndEvent | CheckpointEvent
    | PromptEvent | LogEvent | ArtifactEvent | ScreenshotEvent | RunContinuedEvent

  /** A stored event; `id` is the identifier the database gives it. */
  datatype EventRecord = EventRecord(id: string, runId: string, eventType: EventType, message: Option<string>, payload: Dict)

  const NoGetSuffix := "' object has no attribute 'get'"

  function NotFound(id: string): string
  {
    "Event " + id + " not found"
  }

  /** The payload actually stored: a missing payload becomes the empty dictionary. */
  function StoredPayload(payload: Option<Dict>): (r: Dict)
    ensures payload.None? ==> r == map[]
    ensures payload.Some? ==> r == payload.value
  {
    match payload
    case None => map[]
    case Some(p) => p
  }

  /** What is stored is what the readers see: a stored checkpoint event yields its payload's `checkpoint` entry, and one stored without a payload yields nothing. */
  lemma StoredPayloadFeedsCheckpoints(id: string, runId: string, message: Option<string>, payload: Option<Dict>)
    ensures RunCheckpoints([EventRecord(id, runId, CheckpointEvent, message, StoredPayload(payload))])
         == (if payload.Some? && "checkpoint" in payload.value then [payload.value["checkpoint"]] else [])
    ensures StoredPayload(Some(StoredPayload(payload))) == StoredPayload(payload)
  {
    var e := EventRecord(id, runId, CheckpointEvent, message, StoredPayload(payload));
    assert [e][1..] == [];
  }

  /** Looking an event up by its identifier: the first one stored, or EventNotFoundError. */
  function FindEvent(events: seq<EventRecord>, id: string): (r: Result<EventRecord, string>)
    ensures r.Ok? ==> r.value in events && r.value.id == id
    ensures r.Err? <==> forall k :: 0 <= k < |events| ==> events[k].id != id
    ensures r.Err? ==> r.error == NotFound(id)
  {
    if events == [] then Err(NotFound(id))
    else if events[0].id == id then Ok(events[0])
    else FindEvent(events[1..], id)
  }

  /** The keyword parameters `create_event` declares. */
  const CreateEventKeywords := {"run_id", "event_type", "message", "payload"}
  const UnexpectedKeywordPrefix := "EventService.create_event() got an unexpected keyword argument '"

  /** Python's binding of keyword arguments to `create_event`: a keyword it does not declare raises TypeError. */
  function BindCreateEvent(passed: seq<string>): (r: Result<(), string>)
    ensures r.Ok? <==> forall k :: 0 <= k < |passed| ==> passed[k] in CreateEventKeywords
  {
    if passed == [] then Ok(())
    else if passed[0] !in CreateEventKeywords then Err(UnexpectedKeywordPrefix + passed[0] + "'")
    else BindCreateEvent(passed[1..])
  }

  /** The keywords both event emitters pass to `create_event`, in order. */
  const EmitterKeywords := ["run_id", "event_type", "message", "payload", "session"]

  /** The emitters' call as written cannot bind: `session` is not a parameter of `create_event`. */
  lemma SessionKeywordRejected()
    ensures BindCreateEvent(EmitterKeywords) == Err(UnexpectedKeywordPrefix + "session'")
  {
    assert BindCreateEvent(EmitterKeywords) == BindCreateEvent(["event_type", "message", "payload", "session"]);
    assert BindCreateEvent(["event_type", "message", "payload", "session"]) == BindCreateEvent(["message", "payload", "session"]);
    assert BindCreateEvent(["message", "payload", "session"]) == BindCreateEvent(["payload", "session"]);
    assert BindCreateEvent(["payload", "session"]) == BindCreateEvent(["session"]);
    assert "session" !in CreateEventKeywords;
    assert UnexpectedKeywordPrefix + "session" + "'" == UnexpectedKeywordPrefix + "session'";
  }

  /** The repository: the events stored so far, in insertion order. */
  class EventStore {
    var events: seq<EventRecord>

    constructor ()
      ensures events == []
    {
      events := [];
    }

    /** `create_event`: a missing payload is stored as {}; a repository failure is re-raised and stores nothing. */
    method CreateEvent(runId: string, eventType: EventType, message: Option<string>, payload: Option<Dict>,
                       id: string, failure: Option<string>) returns (r: Result<EventRecord, string>)
      modifies this
      ensures failure.Some? ==> r == Err(failure.value) && events == old(events)
      ensures failure.None? ==> r == Ok(EventRecord(id, runId, eventType, message, StoredPayload(payload)))
      ensures failure.None? ==> events == old(events) + [r.value]
    {
      if failure.Some? {
        return Err(failure.value);
      }
      var record := EventRecord(id, runId, eventType, message, StoredPayload(payload));
      events := events + [record];
      r := Ok(record);
    }

    /** `get_event_by_id`. */
    function GetEventById(id: string): (r: Result<EventRecord, string>)
      reads this
      ensures r.Ok? ==> r.value in events && r.value.id == id
      ensures r.Err? <==> forall k :: 0 <= k < |events| ==> events[k].id != id
    {
      FindEvent(events, id)
    }
  }

  /** A stored event is found again by its identifier when no earlier event has the same one. */
  lemma CreatedIsFound(events: seq<EventRecord>, record: EventRecord)
    requires forall k :: 0 <= k < |events| ==> events[k].id != record.id
    ensures FindEvent(events + [record], record.id) == Ok(record)
  {
    if events != [] {
      assert (events + [record])[1..] == events[1..] + [record];
      CreatedIsFound(events[1..], record);
    }
  }

  /** `get_run_checkpoints` over the repository's answer: the `checkpoint` entries of the payloads that have one, in that order. */
  function RunCheckpoints(fetched: seq<EventRecord>): (r: seq<Value>)
    ensures |r| <= |fetched|
    ensures forall k :: 0 <= k < |fetched| && "checkpoint" in fetched[k].payload ==> fetched[k].payload["checkpoint"] in r
    ensures forall c :: c in r ==> exists k :: 0 <= k < |fetched| && "checkpoint" in fetched[k].payload && fetched[k].payload["checkpoint"] == c
  {
    if fetched == [] then []
    else
      var rest := RunCheckpoints(fetched[1..]);
      assert forall k :: 1 <= k < |fetched| ==> fetched[k] == fetched[1..][k - 1];
      if "checkpoint" in fetched[0].payload then [fetched[0].payload["checkpoint"]] + rest else rest
  }

  /** A `created_at` sort key as Python compares it: integers, booleans and floats by value, strings by code points; any other value cannot be ordered. */
  datatype SortKey = NumberKey(x: real) | TextKey(t: string) | Unordered(v: Value)

  /** The sort key, `created_at` with 0 when absent. */
  function KeyOf(c: Dict): (k: SortKey)
    ensures "created_at" !in c ==> k == NumberKey(0.0)
    ensures "created_at" in c && c["created_at"].Str? ==> k == TextKey(c["created_at"].s)
    ensures "created_at" in c && c["created_at"].Float? ==> k == NumberKey(c["created_at"].f)
    ensures k.Unordered? <==> "created_at" in c && !(c["created_at"].Num? || c["created_at"].Bool? || c["created_at"].Float? || c["created_at"].Str?)
  {
    match GetOr(c, "created_at", Num(0))
    case Num(n) => NumberKey(n as real)
    case Bool(b) => NumberKey(if b then 1.0 else 0.0)
    case Float(f) => NumberKey(f)
    case Str(t) => TextKey(t)
    case v => Unordered(v)
  }

  /** `a >= b` for two keys of the same kind; among other pairs only a key and itself are related. */
  predicate KeyGeq(a: SortKey, b: SortKey)
  {
    a == b || (a.NumberKey? && b.NumberKey? && a.x >= b.x) || (a.TextKey? && b.TextKey? && Text.LexLeq(b.t, a.t))
  }

  /** Every key is a number, or every key is a string: the lists Python can sort by `created_at`. */
  predicate OneKind(xs: seq<Dict>)
  {
    (forall d :: d in xs ==> KeyOf(d).NumberKey?) || (forall d :: d in xs ==> KeyOf(d).TextKey?)
  }

  lemma KeyGeqTotal(a: SortKey, b: SortKey)
    requires (a.NumberKey? && b.NumberKey?) || (a.TextKey? && b.TextKey?)
    ensures KeyGeq(a, b) || KeyGeq(b, a)
  {
    if a.TextKey? {
      Text.LexLeqTotal(a.t, b.t);
    }
  }

  lemma KeyGeqTransitive(a: SortKey, b: SortKey, c: SortKey)
    requires KeyGeq(a, b) && KeyGeq(b, c)
    ensures KeyGeq(a, c)
  {
    if a != b && b != c && a.TextKey? && b.TextKey? && c.TextKey? {
      Text.LexLeqTransitive(c.t, b.t, a.t);
    }
  }

  const UnorderableKeys := "'<' not supported between instances"

  /** The sort key is read from every element first, so an element that is not a dictionary raises. */
  function AsDicts(cs: seq<Value>): (r: Result<seq<Dict>, string>)
    ensures r.Ok? <==> forall k :: 0 <= k < |cs| ==> cs[k].Obj?
    ensures r.Ok? ==> |r.value| == |cs| && forall k :: 0 <= k < |cs| ==> r.value[k] == cs[k].fields
  {
    if cs == [] then Ok([])
    else if !cs[0].Obj? then Err("'" + TypeName(cs[0]) + NoGetSuffix)
    else
      match AsDicts(cs[1..])
      case Err(e) => Err(e)
      case Ok(ds) => Ok([cs[0].fields] + ds)
  }

  predicate Descending(xs: seq<Dict>)
  {
    forall i, j :: 0 <= i < j < |xs| ==> KeyGeq(KeyOf(xs[i]), KeyOf(xs[j]))
  }

  /** Puts `c` after every element whose key is at least its own, which keeps equal keys in input order. */
  function Insert(c: Dict, xs: seq<Dict>): (r: seq<Dict>)
    ensures multiset(r) == multiset(xs) + multiset{c}
    ensures |r| == |xs| + 1
    ensures forall d :: d in r ==> d in xs || d == c
  {
    if xs == [] then [c]
    else if KeyGeq(KeyOf(xs[0]), KeyOf(c)) then
      assert xs == [xs[0]] + xs[1..];
      [xs[0]] + Insert(c, xs[1..])
    else
      [c] + xs
  }

  lemma DescendingTail(xs: seq<Dict>)
    requires xs != [] && Descending(xs)
    ensures Descending(xs[1..])
    ensures forall d :: d in xs[1..] ==> KeyGeq(KeyOf(xs[0]), KeyOf(d))
  {
    var t := xs[1..];
    forall i, j | 0 <= i < j < |t|
      ensures KeyGeq(KeyOf(t[i]), KeyOf(t[j]))
    {
      assert t[i] == xs[i + 1] && t[j] == xs[j + 1];
    }
    forall d | d in t
      ensures KeyGeq(KeyOf(xs[0]), KeyOf(d))
    {
      var j :| 0 <= j < |t| && t[j] == d;
      assert xs[j + 1] == d;
    }
  }

  lemma DescendingCons(x: Dict, ys: seq<Dict>)
    requires Descending(ys)
    requires forall d :: d in ys ==> KeyGeq(KeyOf(x), KeyOf(d))
    ensures Descending([x] + ys)
  {
    var r := [x] + ys;
    forall i, j | 0 <= i < j < |r|
      ensures KeyGeq(KeyOf(r[i]), KeyOf(r[j]))
    {
      assert r[j] == ys[j - 1];
      assert ys[j - 1] in ys;
      if i > 0 {
        assert r[i] == ys[i - 1];
      }
    }
  }

  lemma {:induction false} InsertDescending(c: Dict, xs: seq<Dict>)
    requires Descending(xs) && OneKind([c] + xs)
    ensures Descending(Insert(c, xs))
  {
    if xs == [] {
      assert Insert(c, xs) == [c];
    } else {
      DescendingTail(xs);
      assert xs[0] in [c] + xs && c in [c] + xs;
      assert forall d :: d in [c] + xs[1..] ==> d in [c] + xs;
      if KeyGeq(KeyOf(xs[0]), KeyOf(c)) {
        var tail := Insert(c, xs[1..]);
        InsertDescending(c, xs[1..]);
        forall d | d in tail
          ensures KeyGeq(KeyOf(xs[0]), KeyOf(d))
        {
          if d != c {
            assert d in xs[1..];
          }
        }
        DescendingCons(xs[0], tail);
        assert Insert(c, xs) == [xs[0]] + tail;
      } else {
        KeyGeqTotal(KeyOf(xs[0]), KeyOf(c));
        forall d | d in xs
          ensures KeyGeq(KeyOf(c), KeyOf(d))
        {
          if d != xs[0] {
            assert d in xs[1..];
            KeyGeqTransitive(KeyOf(c), KeyOf(xs[0]), KeyOf(d));
          }
        }
        DescendingCons(c, xs);
        assert Insert(c, xs) == [c] + xs;
      }
    }
  }

  /** A stable sort by descending key; the order is meaningful when the keys are of one kind. */
  function SortDesc(xs: seq<Dict>): (r: seq<Dict>)
    ensures multiset(r) == multiset(xs)
    ensures OneKind(xs) ==> Descending(r)
  {
    if xs == [] then []
    else
      assert xs == xs[..|xs| - 1] + [xs[|xs| - 1]];
      var init := xs[..|xs| - 1];
      var sorted := SortDesc(init);
      if OneKind(xs) then
        assert forall d :: d in init ==> d in xs;
        assert forall d :: d in [xs[|xs| - 1]] + sorted ==> d in xs by {
          forall d | d in sorted ensures d in xs {
            assert d in multiset(sorted);
          }
        }
        InsertDescending(xs[|xs| - 1], sorted);
        Insert(xs[|xs| - 1], sorted)
      else
        Insert(xs[|xs| - 1], sorted)
  }

  /** `sorted(..., key=lambda x: x.get("created_at", 0), reverse=True)`: a stable sort, newest first. Python compares keys only when there are two or more, and a pair of keys it cannot compare raises TypeError. */
  function SortByCreated(xs: seq<Dict>): (r: Result<seq<Dict>, string>)
    ensures r.Ok? <==> |xs| <= 1 || OneKind(xs)
    ensures r.Err? ==> r.error == UnorderableKeys
    ensures r.Ok? ==> multiset(r.value) == multiset(xs) && Descending(r.value)
  {
    if |xs| <= 1 then Ok(xs)
    else if OneKind(xs) then Ok(SortDesc(xs))
    else Err(UnorderableKeys)
  }

  /** Sorting keeps exactly the same elements. */
  lemma SortedMembers(xs: seq<Dict>)
    ensures forall d :: d in xs <==> d in SortDesc(xs)
  {
    var r := SortDesc(xs);
    forall d
      ensures d in xs <==> d in r
    {
      assert d in xs <==> d in multiset(xs);
      assert d in r <==> d in multiset(r);
    }
  }

  /** A checkpoint has not expired when its `expires_at` is a string that parses and lies strictly after now; anything else (absent, not a string, unparsable) is skipped. */
  predicate Unexpired(c: Dict, now: int, parse: string -> Option<int>)
  {
    var e := Get(c, "expires_at");
    Truthy(e) && e.Str? && parse(e.s).Some? && parse(e.s).value > now
  }

  /** The first element of `xs[i..]` that has not expired. */
  function FirstUnexpired(xs: seq<Dict>, i: nat, now: int, parse: string -> Option<int>): (r: Option<Dict>)
    requires i <= |xs|
    ensures r.Some? ==> r.value in xs[i..] && Unexpired(r.value, now, parse)
    ensures r.None? <==> forall k :: i <= k < |xs| ==> !Unexpired(xs[k], now, parse)
    decreases |xs| - i
  {
    if i == |xs| then None
    else if Unexpired(xs[i], now, parse) then Some(xs[i])
    else FirstUnexpired(xs, i + 1, now, parse)
  }

  /** `get_active_checkpoint` as a value. */
  function ActiveSpec(fetched: seq<EventRecord>, now: int, parse: string -> Option<int>): (r: Result<Option<Dict>, string>)
    ensures r.Err? <==> AsDicts(RunCheckpoints(fetched)).Err? || SortByCreated(AsDicts(RunCheckpoints(fetched)).value).Err?
  {
    match AsDicts(RunCheckpoints(fetched))
    case Err(e) => Err(e)
    case Ok(ds) =>
      match SortByCreated(ds)
      case Err(e) => Err(e)
      case Ok(sorted) => Ok(FirstUnexpired(sorted, 0, now, parse))
  }

  /** `get_active_checkpoint`: scan the checkpoints newest first and return the first one that has not expired. */
  method GetActiveCheckpoint(fetched: seq<EventRecord>, now: int, parse: string -> Option<int>)
    returns (r: Result<Option<Dict>, string>)
    ensures r == ActiveSpec(fetched, now, parse)
  {
    var checkpoints := AsDicts(RunCheckpoints(fetched));
    if checkpoints.Err? {
      return Err(checkpoints.error);
    }
    var byCreated := SortByCreated(checkpoints.value);
    if byCreated.Err? {
      return Err(byCreated.error);
    }
    var found := ScanUnexpired(byCreated.value, now, parse);
    return Ok(found);
  }

  /** The loop of `get_active_checkpoint`: the first checkpoint, in the given order, whose `expires_at` parses and lies after now. */
  method ScanUnexpired(sorted: seq<Dict>, now: int, parse: string -> Option<int>) returns (r: Option<Dict>)
    ensures r == FirstUnexpired(sorted, 0, now, parse)
  {
    var i := 0;
    while i < |sorted|
      invariant 0 <= i <= |sorted|
      invariant FirstUnexpired(sorted, i, now, parse) == FirstUnexpired(sorted, 0, now, parse)
    {
      var c := sorted[i];
      var e := Get(c, "expires_at");
      if Truthy(e) && e.Str? {
        var expiresAt := parse(e.s);
        if expiresAt.Some? && expiresAt.value > now {
          return Some(c);
        }
      }
      i := i + 1;
    }
    return None;
  }

  /** In a list sorted newest first, the first unexpired element is at least as new as every unexpired one. */
  lemma {:induction false} FirstUnexpiredIsNewest(xs: seq<Dict>, i: nat, now: int, parse: string -> Option<int>)
    requires i <= |xs| && Descending(xs)
    ensures var r := FirstUnexpired(xs, i, now, parse);
      r.Some? ==> forall k :: i <= k < |xs| && Unexpired(xs[k], now, parse) ==> KeyGeq(KeyOf(r.value), KeyOf(xs[k]))
    decreases |xs| - i
  {
    if i < |xs| && !Unexpired(xs[i], now, parse) {
      FirstUnexpiredIsNewest(xs, i + 1, now, parse);
    }
  }

  /** The active checkpoint is one of the run's checkpoints, has not expired, and no unexpired checkpoint has a later `created_at`; it is None exactly when every checkpoint has expired. Keys that cannot be ordered against each other raise. */
  lemma ActiveIsNewestUnexpired(fetched: seq<EventRecord>, now: int, parse: string -> Option<int>)
    requires AsDicts(RunCheckpoints(fetched)).Ok?
    ensures var ds := AsDicts(RunCheckpoints(fetched)).value;
      ActiveSpec(fetched, now, parse).Err? <==> |ds| >= 2 && !OneKind(ds)
    ensures var ds := AsDicts(RunCheckpoints(fetched)).value;
      var r := ActiveSpec(fetched, now, parse);
      && (r.Ok? && r.value.Some? ==> r.value.value in ds && Unexpired(r.value.value, now, parse))
      && (r.Ok? && r.value.Some? ==> forall d :: d in ds && Unexpired(d, now, parse) ==> KeyGeq(KeyOf(r.value.value), KeyOf(d)))
      && (r.Ok? ==> (r.value.None? <==> forall d :: d in ds ==> !Unexpired(d, now, parse)))
  {
    var ds := AsDicts(RunCheckpoints(fetched)).value;
    if SortByCreated(ds).Ok? {
      var sorted := SortByCreated(ds).value;
      assert forall d :: d in ds <==> d in sorted by {
        forall d ensures d in ds <==> d in sorted {
          assert d in ds <==> d in multiset(ds);
          assert d in sorted <==> d in multiset(sorted);
        }
      }
      FirstUnexpiredIsNewest(sorted, 0, now, parse);
      assert sorted[0..] == sorted;
      forall d | d in sorted
        ensures exists j :: 0 <= j < |sorted| && sorted[j] == d
      {
      }
    }
  }

  /** Equal keys keep their order: inserting behind elements with the same key appends. */
  lemma {:induction false} InsertEqualKeys(c: Dict, xs: seq<Dict>)
    requires forall d :: d in xs ==> KeyOf(d) == KeyOf(c)
    ensures Insert(c, xs) == xs + [c]
  {
    if xs != [] {
      var h, tl := xs[0], xs[1..];
      assert h in xs;
      assert forall d :: d in tl ==> d in xs;
      InsertEqualKeys(c, tl);
      InsertBehind(c, xs);
      ConsSnoc(xs, c);
    }
  }

  /** An element whose key is at least c's stays in front of it. */
  lemma InsertBehind(c: Dict, xs: seq<Dict>)
    requires xs != [] && KeyGeq(KeyOf(xs[0]), KeyOf(c))
    ensures Insert(c, xs) == [xs[0]] + Insert(c, xs[1..])
  {
  }

  lemma ConsSnoc<T>(xs: seq<T>, c: T)
    requires xs != []
    ensures [xs[0]] + (xs[1..] + [c]) == xs + [c]
  {
    assert xs == [xs[0]] + xs[1..];
  }

  /** When no checkpoint carries a `created_at` (the emitters write none), every key is 0 and the sort keeps the repository's order. */
  lemma {:induction false} SortKeepsOrderWithoutCreatedAt(xs: seq<Dict>)
    requires forall d :: d in xs ==> "created_at" !in d
    ensures SortDesc(xs) == xs
  {
    if xs != [] {
      var init, c := xs[..|xs| - 1], xs[|xs| - 1];
      assert forall d :: d in init ==> d in xs;
      SortKeepsOrderWithoutCreatedAt(init);
      assert c in xs;
      InsertEqualKeys(c, init);
      SortDescSnoc(xs);
      SnocParts(xs);
    }
  }

  lemma SnocParts<T>(xs: seq<T>)
    requires xs != []
    ensures xs == xs[..|xs| - 1] + [xs[|xs| - 1]]
  {
  }

  /** One step of SortDesc: the last element is inserted into the sorted front. */
  lemma SortDescSnoc(xs: seq<Dict>)
    requires xs != []
    ensures SortDesc(xs) == Insert(xs[|xs| - 1], SortDesc(xs[..|xs| - 1]))
  {
  }

  /** So for checkpoints without `created_at`, the active checkpoint is the first unexpired one in the repository's order. */
  lemma ActiveInStoreOrder(fetched: seq<EventRecord>, now: int, parse: string -> Option<int>)
    requires AsDicts(RunCheckpoints(fetched)).Ok?
    requires forall d :: d in AsDicts(RunCheckpoints(fetched)).value ==> "created_at" !in d
    ensures ActiveSpec(fetched, now, parse) == Ok(FirstUnexpired(AsDicts(RunCheckpoints(fetched)).value, 0, now, parse))
  {
    var ds := AsDicts(RunCheckpoints(fetched)).value;
    SortKeepsOrderWithoutCreatedAt(ds);
    assert forall d :: d in ds ==> KeyOf(d).NumberKey?;
  }
}
