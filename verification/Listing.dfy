/**
 Listing the resources of an owner: the cache with indexes kept up to date change by change, and the
 controller that looks owners up in them. A lookup agrees with a scan of the whole cache.
 */
module Listing {
  import opened Wrappers
  import opened Objects

  type Key = string

  /** The values a resource is found under in an index. */
  type IndexFunc = Resource -> seq<string>

  const OWNER_UID := "owner-uid"
  const OWNER_NAME := "owner-name"

  function Owners(r: Resource): seq<OwnerRef> {
    if r.meta.Some? then r.meta.value.owners else []
  }

  function OwnerKeysOf(owners: seq<OwnerRef>, key: OwnerRef -> string): seq<string> {
    seq(|owners|, i requires 0 <= i < |owners| => key(owners[i]))
  }

  /** The index keys of the owners, in order; a resource without metadata is an error. */
  method OwnerKeys(r: Resource, key: OwnerRef -> string) returns (keys: Option<seq<string>>)
    ensures keys == if r.meta.None? then None else Some(OwnerKeysOf(r.meta.value.owners, key))
    ensures r.meta.Some? ==>
              && |keys.value| == |r.meta.value.owners|
              && forall i | 0 <= i < |keys.value| :: keys.value[i] == key(r.meta.value.owners[i])
  {
    if r.meta.None? {
      return None;
    }
    var orefs := r.meta.value.owners;
    var found: seq<string> := [];
    for i := 0 to |orefs|
      invariant found == OwnerKeysOf(orefs[..i], key)
    {
      found := found + [key(orefs[i])];
    }
    assert orefs[..|orefs|] == orefs;
    return Some(found);
  }

  function OwnerUIDs(): IndexFunc {
    r => OwnerKeysOf(Owners(r), (o: OwnerRef) => o.uid)
  }

  function OwnerNames(): IndexFunc {
    r => OwnerKeysOf(Owners(r), (o: OwnerRef) => o.name)
  }

  function OwnerIndexers(): map<string, IndexFunc> {
    map[OWNER_UID := OwnerUIDs(), OWNER_NAME := OwnerNames()]
  }

  // The specification

  /** The owner reference that makes a resource owned; empty names and uids match all. */
  predicate Matches(o: OwnerRef, name: string, uid: string) {
    (uid == "" || uid == o.uid) && (name == "" || name == o.name)
  }

  predicate Owned(namespace: string, name: string, uid: string, r: Resource) {
    && r.meta.Some?
    && (namespace == "" || r.meta.value.namespace == namespace)
    && ((name == "" && uid == "") || exists o :: o in r.meta.value.owners && Matches(o, name, uid))
  }

  /** The resources of the controller's kind that are owned, out of the whole cache. */
  ghost function Scan(
    items: map<Key, Resource>, kind: string, namespace: string, name: string, uid: string
  ): set<Resource> {
    set k | k in items && items[k].kind == kind && Owned(namespace, name, uid, items[k]) :: items[k]
  }

  /** An owner index has a resource under the uids, or the names, of its owners, and nothing else. */
  lemma OwnerValuesIff(r: Resource, value: string)
    ensures value in OwnerUIDs()(r) <==> r.meta.Some? && exists o :: o in r.meta.value.owners && o.uid == value
    ensures value in OwnerNames()(r) <==> r.meta.Some? && exists o :: o in r.meta.value.owners && o.name == value
  {
    var owners := Owners(r);
    assert forall i | 0 <= i < |owners| :: OwnerUIDs()(r)[i] == owners[i].uid && OwnerNames()(r)[i] == owners[i].name;
    if o :| o in owners && o.uid == value {
      var i :| 0 <= i < |owners| && owners[i] == o;
      assert OwnerUIDs()(r)[i] == value;
    }
    if o :| o in owners && o.name == value {
      var i :| 0 <= i < |owners| && owners[i] == o;
      assert OwnerNames()(r)[i] == value;
    }
  }

  /** A namespace restricts the result to the resources in it. */
  lemma ScanOfNamespace(items: map<Key, Resource>, kind: string, namespace: string, name: string, uid: string)
    requires namespace != ""
    ensures Scan(items, kind, namespace, name, uid) ==
            set r | r in Scan(items, kind, "", name, uid) && r.meta.Some? && r.meta.value.namespace == namespace
  {
  }

  /** Without name and uid, all of the kind is listed; with one of them, what its owner index has under it. */
  lemma ScanOfOwner(items: map<Key, Resource>, kind: string, name: string, uid: string)
    ensures Scan(items, kind, "", "", "") ==
            set k | k in items && items[k].kind == kind && items[k].meta.Some? :: items[k]
    ensures uid != "" ==>
              Scan(items, kind, "", "", uid) ==
              set k | k in items && items[k].kind == kind && uid in OwnerUIDs()(items[k]) :: items[k]
    ensures name != "" ==>
              Scan(items, kind, "", name, "") ==
              set k | k in items && items[k].kind == kind && name in OwnerNames()(items[k]) :: items[k]
  {
    forall r: Resource ensures Owned("", "", uid, r) <==> r.meta.Some? && (uid == "" || uid in OwnerUIDs()(r)) {
      OwnerValuesIff(r, uid);
    }
    forall r: Resource ensures Owned("", name, "", r) <==> r.meta.Some? && (name == "" || name in OwnerNames()(r)) {
      OwnerValuesIff(r, name);
    }
  }

  /** With both, a single owner reference has both. */
  lemma ScanOfBoth(items: map<Key, Resource>, kind: string, name: string, uid: string)
    requires name != "" && uid != ""
    ensures Scan(items, kind, "", name, uid) ==
            set k | k in items && items[k].kind == kind
                    && items[k].meta.Some? && OwnerRef(name, uid) in items[k].meta.value.owners :: items[k]
  {
    forall r: Resource | r.meta.Some?
      ensures Owned("", name, uid, r) <==> OwnerRef(name, uid) in r.meta.value.owners
    {
      assert Matches(OwnerRef(name, uid), name, uid);
    }
  }

  // The cache

  /** Where an index has resources: the keys by value. */
  type Index = map<string, set<Key>>

  function Posting(index: Index, value: string): set<Key> {
    if value in index then index[value] else {}
  }

  /** The cache of client-go with its indexes. */
  class Indexer {
    const indexers: map<string, IndexFunc>
    var items: map<Key, Resource>
    var indices: map<string, Index>

    /** Resources are stored under their keys, and each index has them under their values exactly. */
    ghost predicate Valid()
      reads this
    {
      && indices.Keys == indexers.Keys
      && (forall k | k in items :: items[k].meta.Some? && KeyOf(items[k].meta.value) == k)
      && (forall n | n in indexers :: Indexes(indices[n], indexers[n], items))
    }

    constructor (indexers: map<string, IndexFunc>)
      ensures Valid() && items == map[] && this.indexers == indexers
    {
      this.indexers := indexers;
      items := map[];
      indices := map n | n in indexers :: map[];
    }

    /** Adds or updates a resource; one without metadata has no key and is an error. */
    method Put(r: Resource) returns (ok: bool)
      requires Valid()
      modifies this
      ensures Valid() && ok == r.meta.Some?
      ensures items == if ok then old(items)[KeyOf(r.meta.value) := r] else old(items)
    {
      if r.meta.None? {
        return false;
      }
      var k := KeyOf(r.meta.value);
      UpdateIndices(k, if k in items then Some(items[k]) else None, Some(r));
      items := items[k := r];
      return true;
    }

    method Delete(k: Key)
      requires Valid()
      modifies this
      ensures Valid() && items == old(items) - {k}
    {
      if k in items {
        UpdateIndices(k, Some(items[k]), None);
        items := items - {k};
      }
    }

    /** Moves the key, in each index, from the values of the old resource to those of the new one. */
    method UpdateIndices(k: Key, before: Option<Resource>, after: Option<Resource>)
      requires Valid() && before == if k in items then Some(items[k]) else None
      modifies this`indices
      ensures indices.Keys == indexers.Keys
      ensures forall n | n in indexers ::
                Indexes(indices[n], indexers[n], if after.Some? then items[k := after.value] else items - {k})
    {
      ghost var next := if after.Some? then items[k := after.value] else items - {k};
      var names := indexers.Keys;
      while names != {}
        invariant names <= indexers.Keys == indices.Keys
        invariant forall n | n in names :: indices[n] == old(indices)[n]
        invariant forall n | n in indexers && n !in names :: Indexes(indices[n], indexers[n], next)
        decreases names
      {
        var n :| n in names;
        var index := Reindex(indices[n], indexers[n], items, k, before, after);
        indices := indices[n := index];
        names := names - {n};
      }
    }

    /** The resources under a value of an index, each once; none if the index is not registered. */
    method ByIndex(name: string, value: string) returns (found: Option<seq<Resource>>)
      requires Valid()
      ensures found.Some? <==> name in indexers
      ensures found.Some? ==>
                multiset(found.value) ==
                multiset(set k | k in items && value in indexers[name](items[k]) :: items[k])
    {
      if name !in indexers {
        return None;
      }
      var keys := Posting(indices[name], value);
      assert keys == set k | k in items && value in indexers[name](items[k]);
      var results := Collect(keys);
      assert (set k | k in keys :: items[k]) == (set k | k in items && value in indexers[name](items[k]) :: items[k]);
      return Some(results);
    }

    method List() returns (found: seq<Resource>)
      requires Valid()
      ensures multiset(found) == multiset(set k | k in items :: items[k])
    {
      found := Collect(items.Keys);
      assert (set k | k in items.Keys :: items[k]) == (set k | k in items :: items[k]);
    }

    /** The resources under some keys, in any order. */
    method Collect(keys: set<Key>) returns (found: seq<Resource>)
      requires Valid() && keys <= items.Keys
      ensures multiset(found) == multiset(set k | k in keys :: items[k])
    {
      found := [];
      var rest := keys;
      ghost var seen: set<Key> := {};
      while rest != {}
        invariant rest <= keys && seen == keys - rest
        invariant multiset(found) == multiset(set k | k in seen :: items[k])
        decreases rest
      {
        var k :| k in rest;
        assert items[k] !in (set j | j in seen :: items[j]);
        assert (set j | j in seen + {k} :: items[j]) == (set j | j in seen :: items[j]) + {items[k]};
        found, rest, seen := found + [items[k]], rest - {k}, seen + {k};
      }
      assert seen == keys;
    }
  }

  ghost predicate Indexes(index: Index, f: IndexFunc, items: map<Key, Resource>) {
    forall v, k :: k in Posting(index, v) <==> k in items && v in f(items[k])
  }

  method Reindex(
    index: Index, f: IndexFunc, ghost items: map<Key, Resource>, k: Key,
    before: Option<Resource>, after: Option<Resource>
  ) returns (r: Index)
    requires Indexes(index, f, items) && before == if k in items then Some(items[k]) else None
    ensures Indexes(r, f, if after.Some? then items[k := after.value] else items - {k})
  {
    r := index;
    if before.Some? {
      r := Remove(r, f(before.value), k);
    }
    assert Indexes(r, f, items - {k});
    if after.Some? {
      r := Insert(r, f(after.value), k);
    }
  }

  method Remove(index: Index, values: seq<string>, k: Key) returns (r: Index)
    ensures forall v :: Posting(r, v) == if v in values then Posting(index, v) - {k} else Posting(index, v)
  {
    r := index;
    for i := 0 to |values|
      invariant forall v :: Posting(r, v) == if v in values[..i] then Posting(index, v) - {k} else Posting(index, v)
    {
      var left := Posting(r, values[i]) - {k};
      if left == {} {
        r := r - {values[i]};
      } else {
        r := r[values[i] := left];
      }
    }
  }

  method Insert(index: Index, values: seq<string>, k: Key) returns (r: Index)
    ensures forall v :: Posting(r, v) == if v in values then Posting(index, v) + {k} else Posting(index, v)
  {
    r := index;
    for i := 0 to |values|
      invariant forall v :: Posting(r, v) == if v in values[..i] then Posting(index, v) + {k} else Posting(index, v)
    {
      r := r[values[i] := Posting(r, values[i]) + {k}];
    }
  }

  // The controller

  /** The owner indexes that are registered have each resource under each of its owners. */
  ghost predicate CoverOwners(indexers: map<string, IndexFunc>) {
    && (OWNER_UID in indexers ==> forall r: Resource, o | o in Owners(r) :: o.uid in indexers[OWNER_UID](r))
    && (OWNER_NAME in indexers ==> forall r: Resource, o | o in Owners(r) :: o.name in indexers[OWNER_NAME](r))
  }

  /** Any part of the owner indexers does, along with any other index. */
  lemma OwnerIndexersCover(indexers: map<string, IndexFunc>)
    requires forall n | n in OwnerIndexers() && n in indexers :: indexers[n] == OwnerIndexers()[n]
    ensures CoverOwners(indexers)
  {
    assert OWNER_UID in OwnerIndexers() && OWNER_NAME in OwnerIndexers();
    forall r: Resource, o | o in Owners(r) ensures o.uid in OwnerUIDs()(r) && o.name in OwnerNames()(r) {
      var i :| 0 <= i < |Owners(r)| && Owners(r)[i] == o;
      assert OwnerUIDs()(r)[i] == o.uid && OwnerNames()(r)[i] == o.name;
    }
  }

  ghost function Kept(values: seq<Resource>, keep: Resource -> bool): seq<Resource> {
    if values == [] then []
    else Kept(values[..|values| - 1], keep) + if keep(values[|values| - 1]) then [values[|values| - 1]] else []
  }

  lemma {:induction false} KeptCount(values: seq<Resource>, keep: Resource -> bool, r: Resource)
    ensures multiset(Kept(values, keep))[r] == if keep(r) then multiset(values)[r] else 0
  {
    if values != [] {
      KeptCount(values[..|values| - 1], keep, r);
      assert values == values[..|values| - 1] + [values[|values| - 1]];
    }
  }

  lemma KeptIsSet(values: seq<Resource>, all: set<Resource>, keep: Resource -> bool)
    requires multiset(values) == multiset(all)
    ensures multiset(Kept(values, keep)) == multiset(set r | r in all && keep(r))
  {
    forall r ensures multiset(Kept(values, keep))[r] == multiset(set r | r in all && keep(r))[r] {
      KeptCount(values, keep, r);
    }
  }

  lemma SetOfValues(values: seq<Resource>, all: set<Resource>)
    requires multiset(values) == multiset(all)
    ensures (forall v :: v in values <==> v in all) && (forall v :: multiset(values)[v] <= 1)
  {
    assert forall v :: v in values <==> v in multiset(values);
  }

  lemma ValuesOnce(values: seq<Resource>)
    requires forall v :: multiset(values)[v] <= 1
    ensures multiset(values) == multiset(set v | v in values)
  {
    forall v ensures multiset(values)[v] == multiset(set v | v in values)[v] {
      assert v in values <==> v in multiset(values);
    }
  }

  /** Out of candidates that contain all that is owned, re-filtering keeps what the scan finds. */
  lemma ScanOfCandidates(
    items: map<Key, Resource>, all: set<Resource>, kind: string, namespace: string, name: string, uid: string
  )
    requires all <= set k | k in items :: items[k]
    ensures var keep := set r | r in all && r.kind == kind && Owned(namespace, name, uid, r);
            && keep <= Scan(items, kind, namespace, name, uid)
            && ((forall k | k in items && Owned("", name, uid, items[k]) :: items[k] in all)
                  ==> keep == Scan(items, kind, namespace, name, uid))
  {
    assert forall r :: Owned(namespace, name, uid, r) ==> Owned("", name, uid, r);
  }

  class Controller {
    const kind: string
    const indexer: Indexer

    constructor (kind: string, indexer: Indexer)
      ensures this.kind == kind && this.indexer == indexer
    {
      this.kind, this.indexer := kind, indexer;
    }

    /** The candidates: part of the cache, with all of it that is owned by the name and the uid. */
    method Lookup(name: string, uid: string) returns (values: seq<Resource>)
      requires indexer.Valid()
      ensures forall v :: multiset(values)[v] <= 1
      ensures forall v | v in values :: exists k :: k in indexer.items && indexer.items[k] == v
      ensures CoverOwners(indexer.indexers) ==>
                forall k | k in indexer.items && Owned("", name, uid, indexer.items[k]) :: indexer.items[k] in values
    {
      ghost var items := indexer.items;
      if uid != "" {
        var found := indexer.ByIndex(OWNER_UID, uid);
        if found.Some? {
          SetOfValues(found.value, set k | k in items && uid in indexer.indexers[OWNER_UID](items[k]) :: items[k]);
          return found.value;
        }
      }
      if name != "" {
        var found := indexer.ByIndex(OWNER_NAME, name);
        if found.Some? {
          SetOfValues(found.value, set k | k in items && name in indexer.indexers[OWNER_NAME](items[k]) :: items[k]);
          return found.value;
        }
      }
      values := indexer.List();
      SetOfValues(values, set k | k in items :: items[k]);
    }

    /** Whether a resource is owned. */
    method Owner(namespace: string, name: string, uid: string, r: Resource) returns (owned: bool)
      ensures owned == Owned(namespace, name, uid, r)
    {
      if r.meta.None? {
        return false;
      }
      if namespace != "" && r.meta.value.namespace != namespace {
        return false;
      }
      if name == "" && uid == "" {
        return true;
      }
      var orefs := r.meta.value.owners;
      for i := 0 to |orefs|
        invariant forall o | o in orefs[..i] :: !Matches(o, name, uid)
      {
        if (uid == "" || uid == orefs[i].uid) && (name == "" || name == orefs[i].name) {
          assert orefs[i] in r.meta.value.owners && Matches(orefs[i], name, uid);
          return true;
        }
      }
      return false;
    }

    /**
     Lists resources of an owner, each once, and with proper owner indexes, or none, all of them: those
     a scan of the whole cache would find.
     */
    method List(namespace: string, name: string, uid: string) returns (results: seq<Resource>)
      requires indexer.Valid()
      ensures multiset(results) <= multiset(Scan(indexer.items, kind, namespace, name, uid))
      ensures CoverOwners(indexer.indexers) ==>
                multiset(results) == multiset(Scan(indexer.items, kind, namespace, name, uid))
    {
      var values := Lookup(name, uid);
      ghost var all := set v | v in values;
      ValuesOnce(values);
      ghost var keep := (r: Resource) => r.kind == kind && Owned(namespace, name, uid, r);
      results := [];
      for i := 0 to |values|
        invariant results == Kept(values[..i], keep)
      {
        var owned := Owner(namespace, name, uid, values[i]);
        assert values[..i + 1][..i] == values[..i];
        if values[i].kind == kind && owned {
          results := results + [values[i]];
        }
      }
      assert values[..|values|] == values;
      KeptIsSet(values, all, keep);
      assert (set r | r in all && keep(r)) == set r | r in all && r.kind == kind && Owned(namespace, name, uid, r);
      ScanOfCandidates(indexer.items, all, kind, namespace, name, uid);
    }

    /** Lists the resources under a value of an index, none if the index is not registered. */
    method ListByIndex(index: string, value: string) returns (results: seq<Resource>)
      requires indexer.Valid()
      ensures multiset(results) ==
              if index !in indexer.indexers then multiset{}
              else
                multiset(set k | k in indexer.items && indexer.items[k].kind == kind
                                 && value in indexer.indexers[index](indexer.items[k]) :: indexer.items[k])
    {
      var found := indexer.ByIndex(index, value);
      results := [];
      if found.None? {
        return;
      }
      var values := found.value;
      ghost var items, f := indexer.items, indexer.indexers[index];
      ghost var all := set k | k in items && value in f(items[k]) :: items[k];
      ghost var keep := (r: Resource) => r.kind == kind;
      for i := 0 to |values|
        invariant results == Kept(values[..i], keep)
      {
        assert values[..i + 1][..i] == values[..i];
        if values[i].kind == kind {
          results := results + [values[i]];
        }
      }
      assert values[..|values|] == values;
      KeptIsSet(values, all, keep);
      assert (set r | r in all && keep(r))
             == set k | k in items && items[k].kind == kind && value in f(items[k]) :: items[k];
    }
  }
}
