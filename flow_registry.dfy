// The flow registry: manifests loaded in file order into a by-id and a by-key
// dictionary, where a manifest whose id or key is already taken is ignored.
module FlowRegistry {
  import opened Wrappers
  import opened Text
  import opened Json

  /** A validated manifest. */
  datatype Manifest = Manifest(id: string, name: string, key: string, description: Option<string>, config: Dict)

  /** The registry's two dictionaries, and the ids in insertion order (the order Python's dict keeps). */
  datatype Catalog = Catalog(byId: map<string, Manifest>, byKey: map<string, Manifest>, order: seq<string>)

  const EmptyCatalog := Catalog(map[], map[], [])

  /** Both dictionaries hold the same manifests, each under its own id and its own key. */
  ghost predicate Consistent(c: Catalog)
  {
    && NoDuplicates(c.order)
    && (forall id :: id in c.byId <==> id in c.order)
    && (forall id :: id in c.byId ==> c.byId[id].id == id && c.byId[id].key in c.byKey && c.byKey[c.byId[id].key] == c.byId[id])
    && (forall k :: k in c.byKey ==> c.byKey[k].key == k && c.byKey[k].id in c.byId && c.byId[c.byKey[k].id] == c.byKey[k])
  }

  /** One parsed manifest file: a manifest whose id or key is already present is ignored. */
  function Add(c: Catalog, m: Manifest): (r: Catalog)
    ensures r == c <==> (m.id in c.byId || m.key in c.byKey)
    ensures r != c ==> m.id in r.byId && r.byId[m.id] == m && m.key in r.byKey && r.byKey[m.key] == m
    ensures forall id :: id in c.byId ==> id in r.byId && r.byId[id] == c.byId[id]
    ensures forall k :: k in c.byKey ==> k in r.byKey && r.byKey[k] == c.byKey[k]
  {
    if m.id in c.byId || m.key in c.byKey then c
    else Catalog(c.byId[m.id := m], c.byKey[m.key := m], c.order + [m.id])
  }

  lemma AddConsistent(c: Catalog, m: Manifest)
    requires Consistent(c)
    ensures Consistent(Add(c, m))
  {
    if !(m.id in c.byId || m.key in c.byKey) {
      var r := Add(c, m);
      assert forall i, j :: 0 <= i < j < |r.order| ==> r.order[i] != r.order[j] by {
        forall i, j | 0 <= i < j < |r.order|
          ensures r.order[i] != r.order[j]
        {
          if j == |c.order| {
            assert r.order[i] == c.order[i];
            assert c.order[i] in c.byId;
          }
        }
      }
    }
  }

  /** Loading a sequence of files in order; a file that fails to parse (None) is skipped. */
  function LoadFrom(c: Catalog, files: seq<Option<Manifest>>, i: nat): Catalog
    requires i <= |files|
    decreases |files| - i
  {
    if i == |files| then c
    else LoadFrom(if files[i].Some? then Add(c, files[i].value) else c, files, i + 1)
  }

  /** `_load_all_manifests`: nothing when the directory is missing. */
  function LoadSpec(c: Catalog, dirExists: bool, files: seq<Option<Manifest>>): Catalog
  {
    if dirExists then LoadFrom(c, files, 0) else c
  }

  /** Loading keeps every entry already present, so the first manifest with an id or a key wins; and every parsed manifest ends up stored or blocked by an entry with its id or key. */
  lemma {:induction false} LoadKeepsFirst(c: Catalog, files: seq<Option<Manifest>>, i: nat)
    requires i <= |files|
    ensures var r := LoadFrom(c, files, i);
      && (forall id :: id in c.byId ==> id in r.byId && r.byId[id] == c.byId[id])
      && (forall k :: k in c.byKey ==> k in r.byKey && r.byKey[k] == c.byKey[k])
      && (forall j :: i <= j < |files| && files[j].Some? ==> files[j].value.id in r.byId || files[j].value.key in r.byKey)
    decreases |files| - i
  {
    if i < |files| {
      var next := if files[i].Some? then Add(c, files[i].value) else c;
      LoadKeepsFirst(next, files, i + 1);
    }
  }

  lemma {:induction false} LoadConsistent(c: Catalog, files: seq<Option<Manifest>>, i: nat)
    requires i <= |files| && Consistent(c)
    ensures Consistent(LoadFrom(c, files, i))
    decreases |files| - i
  {
    if i < |files| {
      if files[i].Some? {
        AddConsistent(c, files[i].value);
      }
      LoadConsistent(if files[i].Some? then Add(c, files[i].value) else c, files, i + 1);
    }
  }

  /** A later manifest with an id already loaded does not replace the first. */
  lemma FirstWins(a: Manifest, b: Manifest)
    requires a.id == b.id
    ensures var r := LoadFrom(EmptyCatalog, [Some(a), Some(b)], 0); a.id in r.byId && r.byId[a.id] == a
  {
    var files := [Some(a), Some(b)];
    var first := Add(EmptyCatalog, a);
    assert first != EmptyCatalog by { assert |first.order| == 1; }
    assert LoadFrom(EmptyCatalog, files, 0) == LoadFrom(first, files, 1);
    LoadKeepsFirst(first, files, 1);
  }

  class Registry {
    var byId: map<string, Manifest>
    var byKey: map<string, Manifest>
    var order: seq<string>

    function Abs(): Catalog
      reads this
    {
      Catalog(byId, byKey, order)
    }

    ghost predicate Valid()
      reads this
    {
      Consistent(Abs())
    }

    /** The registry of a flows directory whose manifest files, in glob order, parse to `files`. */
    constructor (dirExists: bool, files: seq<Option<Manifest>>)
      ensures Valid()
      ensures Abs() == LoadSpec(EmptyCatalog, dirExists, files)
    {
      byId, byKey, order := map[], map[], [];
      new;
      LoadAll(dirExists, files);
    }

    /** `_load_all_manifests`. */
    method LoadAll(dirExists: bool, files: seq<Option<Manifest>>)
      requires Valid()
      modifies this
      ensures Valid()
      ensures Abs() == LoadSpec(old(Abs()), dirExists, files)
    {
      if !dirExists {
        return;
      }
      ghost var start := Abs();
      var i := 0;
      while i < |files|
        invariant 0 <= i <= |files|
        invariant Valid()
        invariant LoadFrom(Abs(), files, i) == LoadFrom(start, files, 0)
      {
        LoadOne(files[i]);
        i := i + 1;
      }
    }

    /** One pass of the loading loop: a manifest that parsed is registered unless its id or key is taken. */
    method LoadOne(file: Option<Manifest>)
      requires Valid()
      modifies this
      ensures Valid()
      ensures Abs() == if file.Some? then Add(old(Abs()), file.value) else old(Abs())
    {
      if file.Some? {
        var m := file.value;
        AddConsistent(Abs(), m);
        if m.id !in byId && m.key !in byKey {
          byId, byKey, order := byId[m.id := m], byKey[m.key := m], order + [m.id];
        }
      }
    }

    /** `get_manifest`. */
    function GetManifest(flowId: string): (r: Option<Manifest>)
      reads this
      ensures r.Some? <==> flowId in byId
      ensures r.Some? ==> r.value == byId[flowId]
    {
      if flowId in byId then Some(byId[flowId]) else None
    }

    /** `get_manifest_by_key`. */
    function GetManifestByKey(flowKey: string): (r: Option<Manifest>)
      reads this
      ensures r.Some? <==> flowKey in byKey
      ensures r.Some? ==> r.value == byKey[flowKey]
    {
      if flowKey in byKey then Some(byKey[flowKey]) else None
    }

    /** `list_flows`: the by-id values, in insertion order. */
    function ListFlows(): (r: seq<Manifest>)
      reads this
      requires Valid()
      ensures |r| == |order|
      ensures forall i :: 0 <= i < |r| ==> r[i] == byId[order[i]]
      ensures forall id :: id in byId ==> byId[id] in r
    {
      var ids, manifests := order, byId;
      seq(|ids|, i requires 0 <= i < |ids| && ids[i] in manifests => manifests[ids[i]])
    }

    /** `reload_manifests`: both dictionaries are cleared before loading again. */
    method ReloadManifests(dirExists: bool, files: seq<Option<Manifest>>)
      requires Valid()
      modifies this
      ensures Valid()
      ensures Abs() == LoadSpec(EmptyCatalog, dirExists, files)
    {
      byId, byKey, order := map[], map[], [];
      LoadAll(dirExists, files);
    }
  }

  /** A missing flows directory gives an empty registry. */
  lemma MissingDirectoryIsEmpty(files: seq<Option<Manifest>>)
    ensures LoadSpec(EmptyCatalog, false, files) == EmptyCatalog
  {
  }

  /** Loading is consistent from any consistent start, in particular from the empty registry. */
  lemma LoadSpecConsistent(c: Catalog, dirExists: bool, files: seq<Option<Manifest>>)
    requires Consistent(c)
    ensures Consistent(LoadSpec(c, dirExists, files))
  {
    if dirExists {
      LoadConsistent(c, files, 0);
    }
  }
}
