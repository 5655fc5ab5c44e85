/**
 The tracker of a controller's own writes: a mark suppresses the one update that echoes it.

 The tracker keeps one entry per key and evicts expired entries lazily. Over every sequence of calls
 it answers as if it looked back over all of them (`DropsIff`): the entries are only a cache.
 */
module Tracker {
  import opened Wrappers
  import opened Objects
  import opened Filters

  type Time = int

  const DEFAULT_TTL: Time := 5 * 60 * 1_000_000_000

  datatype Entry = Entry(version: string, at: Time)

  type Entries = map<string, Entry>

  /** A call to the tracker; a call without an object or its metadata is ignored. */
  datatype Call =
    | Mark(namespace: string, name: string, version: string, at: Time)
    | Event(op: Op, namespace: string, name: string, version: string, at: Time)
    | Ignored(at: Time)
  {
    predicate On(k: string) { !Ignored? && TrackKey(namespace, name) == k }
  }

  function TrackKey(namespace: string, name: string): string {
    namespace + "/" + name
  }

  /** The entries after a call, and whether the event passes. */
  function Step(ttl: Time, entries: Entries, c: Call): (Entries, bool) {
    match c
    case Ignored(_) => (entries, true)
    case Mark(namespace, name, version, at) => (entries[TrackKey(namespace, name) := Entry(version, at)], true)
    case Event(OpAdd, _, _, _, _) => (entries, true)
    case Event(OpDelete, namespace, name, _, _) => (entries - {TrackKey(namespace, name)}, true)
    case Event(OpUpdate, namespace, name, version, at) =>
      var k := TrackKey(namespace, name);
      if k !in entries then (entries, true)
      else if at - entries[k].at > ttl then (entries - {k}, true)
      else if entries[k].version == version then (entries - {k}, false)
      else (entries, true)
  }

  class SelfWriteTracker {
    var entries: Entries
    const ttl: Time

    constructor (ttl: Time)
      ensures entries == map[] && this.ttl == (if ttl <= 0 then 300_000_000_000 else ttl)
    {
      entries, this.ttl := map[], if ttl <= 0 then DEFAULT_TTL else ttl;
    }

    method Mark(obj: Option<Meta>, now: Time)
      modifies this
      ensures entries == Step(ttl, old(entries), MarkCall(obj, now)).0
    {
      if obj.None? {
        return;
      }
      entries := entries[TrackKey(obj.value.namespace, obj.value.name) := Entry(obj.value.version, now)];
    }

    method Filter(op: Op, obj: Option<Resource>, now: Time) returns (pass: bool)
      modifies this
      ensures (entries, pass) == Step(ttl, old(entries), EventCall(op, obj, now))
    {
      if op == OpDelete {
        var meta := MetaOf(obj);
        if meta.Some? {
          entries := entries - {TrackKey(meta.value.namespace, meta.value.name)};
        }
        return true;
      }
      if op != OpUpdate {
        return true;
      }
      var meta := MetaOf(obj);
      if meta.None? {
        return true;
      }
      var k := TrackKey(meta.value.namespace, meta.value.name);
      if k !in entries {
        return true;
      }
      if now - entries[k].at > ttl {
        entries := entries - {k};
        return true;
      }
      if entries[k].version == meta.value.version {
        entries := entries - {k};
        return false;
      }
      return true;
    }
  }

  function MarkCall(obj: Option<Meta>, now: Time): Call {
    if obj.None? then Ignored(now) else Mark(obj.value.namespace, obj.value.name, obj.value.version, now)
  }

  function EventCall(op: Op, obj: Option<Resource>, now: Time): Call {
    var meta := MetaOf(obj);
    if meta.None? then Ignored(now)
    else Event(op, meta.value.namespace, meta.value.name, meta.value.version, now)
  }

  // Histories

  function After(ttl: Time, calls: seq<Call>): Entries {
    if calls == [] then map[] else Step(ttl, After(ttl, calls[..|calls| - 1]), calls[|calls| - 1]).0
  }

  predicate Dropped(ttl: Time, calls: seq<Call>, i: nat)
    requires i < |calls|
  {
    !Step(ttl, After(ttl, calls[..i]), calls[i]).1
  }

  predicate Monotone(calls: seq<Call>) {
    forall i, j | 0 <= i < j < |calls| :: calls[i].at <= calls[j].at
  }

  /** The call settles anew what is tracked for `k`: a mark, a delete, or a dropped echo. */
  predicate Resets(ttl: Time, calls: seq<Call>, i: nat, k: string)
    requires i < |calls|
  {
    calls[i].On(k) && (calls[i].Mark? || calls[i].op == OpDelete || Dropped(ttl, calls, i))
  }

  /** Call `j` is the latest resetting call for `k`, and a mark. */
  predicate Live(ttl: Time, calls: seq<Call>, j: nat, k: string) {
    && j < |calls| && calls[j].Mark? && calls[j].On(k)
    && forall g | j < g < |calls| :: !Resets(ttl, calls, g, k)
  }

  lemma LivePrefix(ttl: Time, calls: seq<Call>, j: nat, k: string)
    requires calls != []
    ensures var n := |calls| - 1;
            Live(ttl, calls, j, k) <==>
            if Resets(ttl, calls, n, k) then j == n && calls[n].Mark? else Live(ttl, calls[..n], j, k)
  {
    var n := |calls| - 1;
    forall g | 0 <= g < n ensures Resets(ttl, calls, g, k) == Resets(ttl, calls[..n], g, k) {
      assert calls[..n][..g] == calls[..g];
    }
  }

  /**
   An entry is that of the live mark. A live mark without an entry was evicted, and has expired for
   good, because the clock does not go back.
   */
  lemma {:induction false} EntriesAreLive(ttl: Time, calls: seq<Call>, k: string)
    requires Monotone(calls)
    ensures k in After(ttl, calls) ==>
              exists j: nat :: Live(ttl, calls, j, k) && After(ttl, calls)[k] == Entry(calls[j].version, calls[j].at)
    ensures forall j: nat | Live(ttl, calls, j, k) ::
              if k in After(ttl, calls) then After(ttl, calls)[k] == Entry(calls[j].version, calls[j].at)
              else calls[|calls| - 1].at - calls[j].at > ttl
  {
    if calls != [] {
      var n := |calls| - 1;
      EntriesAreLive(ttl, calls[..n], k);
      forall j: nat
        ensures Live(ttl, calls, j, k) <==>
                if Resets(ttl, calls, n, k) then j == n && calls[n].Mark? else Live(ttl, calls[..n], j, k)
      {
        LivePrefix(ttl, calls, j, k);
      }
    }
  }

  /**
   With a clock that does not go back, an event is dropped exactly when it is an update whose key was
   last reset by a mark with the same version, at most the time to live ago.
   */
  lemma DropsIff(ttl: Time, calls: seq<Call>, i: nat)
    requires Monotone(calls) && i < |calls|
    ensures Dropped(ttl, calls, i) <==>
            && calls[i].Event? && calls[i].op == OpUpdate
            && exists j: nat ::
                 && Live(ttl, calls[..i], j, TrackKey(calls[i].namespace, calls[i].name))
                 && calls[j].version == calls[i].version && calls[i].at - calls[j].at <= ttl
  {
    if calls[i].Event? {
      EntriesAreLive(ttl, calls[..i], TrackKey(calls[i].namespace, calls[i].name));
    }
  }

  // Objects

  /** A call to the tracker as the controller makes it. */
  datatype Use =
    | Marked(written: Option<Meta>, at: Time)
    | Filtered(op: Op, seen: Option<Resource>, at: Time)
  {
    /** The metadata of the object that the call is about, if there is any. */
    function About(): Option<Meta> {
      match this
      case Marked(written, _) => written
      case Filtered(_, seen, _) => if seen.Some? then seen.value.meta else None
    }

    /** It is about an object with this namespace and name, put together with a slash. */
    predicate Names(m: Meta) {
      About().Some? && About().value.namespace + "/" + About().value.name == m.namespace + "/" + m.name
    }
  }

  /** The calls that the methods make of them. */
  function Calls(uses: seq<Use>): seq<Call> {
    seq(|uses|, i requires 0 <= i < |uses| =>
      match uses[i]
      case Marked(written, at) => MarkCall(written, at)
      case Filtered(op, seen, at) => EventCall(op, seen, at))
  }

  /** Use `i` is an event that does not pass. */
  predicate Suppressed(ttl: Time, uses: seq<Use>, i: nat)
    requires i < |uses|
  {
    !Step(ttl, After(ttl, Calls(uses[..i])), Calls(uses)[i]).1
  }

  /** Use `i` settles anew what is tracked for the object: a mark, a delete, or a suppressed echo. */
  predicate Settles(ttl: Time, uses: seq<Use>, i: nat, m: Meta)
    requires i < |uses|
  {
    uses[i].Names(m) && (uses[i].Marked? || uses[i].op == OpDelete || Suppressed(ttl, uses, i))
  }

  /** Use `j` marks a write of the object, and nothing settles it anew from then on before `i`. */
  predicate LastWrite(ttl: Time, uses: seq<Use>, j: nat, i: nat, m: Meta)
    requires i <= |uses|
  {
    && j < i && uses[j].Marked? && uses[j].Names(m)
    && forall g | j < g < i :: !Settles(ttl, uses, g, m)
  }

  lemma LastWriteIsLive(ttl: Time, uses: seq<Use>, j: nat, i: nat, m: Meta)
    requires i <= |uses|
    ensures LastWrite(ttl, uses, j, i, m) <==> Live(ttl, Calls(uses)[..i], j, TrackKey(m.namespace, m.name))
  {
    var k, calls := TrackKey(m.namespace, m.name), Calls(uses)[..i];
    forall g: nat | g < i ensures calls[g].On(k) <==> uses[g].Names(m) {
    }
    forall g: nat | g < i ensures Settles(ttl, uses, g, m) == Resets(ttl, calls, g, k) {
      assert Calls(uses[..g]) == calls[..g];
    }
  }

  /**
   A write is suppressed exactly: an event is dropped if and only if it is the update of an object whose
   last mark, after every delete and every echo dropped, is that of the same version, at most the time
   to live ago.
   */
  lemma SuppressedIff(ttl: Time, uses: seq<Use>, i: nat)
    requires i < |uses| && forall g, h | 0 <= g < h < |uses| :: uses[g].at <= uses[h].at
    ensures Suppressed(ttl, uses, i) <==>
            && uses[i].Filtered? && uses[i].op == OpUpdate && uses[i].About().Some?
            && exists j: nat ::
                 && LastWrite(ttl, uses, j, i, uses[i].About().value)
                 && uses[j].written.value.version == uses[i].About().value.version
                 && uses[i].at - uses[j].at <= ttl
  {
    var calls := Calls(uses);
    DropsIff(ttl, calls, i);
    assert Calls(uses[..i]) == calls[..i];
    if uses[i].About().Some? {
      var m := uses[i].About().value;
      forall j: nat ensures LastWrite(ttl, uses, j, i, m) == Live(ttl, calls[..i], j, TrackKey(m.namespace, m.name)) {
        LastWriteIsLive(ttl, uses, j, i, m);
      }
    }
  }

  // One mark, one drop

  function Marks(calls: seq<Call>, k: string): nat {
    if calls == [] then 0
    else Marks(calls[..|calls| - 1], k) + if calls[|calls| - 1].Mark? && calls[|calls| - 1].On(k) then 1 else 0
  }

  function Drops(ttl: Time, calls: seq<Call>, k: string): nat {
    if calls == [] then 0
    else
      var n := |calls| - 1;
      Drops(ttl, calls[..n], k) + if calls[n].On(k) && Dropped(ttl, calls, n) then 1 else 0
  }

  /** Each mark pays for one dropped update of its key at most. */
  lemma {:induction false} DropsBoundedByMarks(ttl: Time, calls: seq<Call>, k: string)
    ensures Drops(ttl, calls, k) + (if k in After(ttl, calls) then 1 else 0) <= Marks(calls, k)
  {
    if calls != [] {
      DropsBoundedByMarks(ttl, calls[..|calls| - 1], k);
    }
  }

  /** The history of writes of one resource, marked one after the other, and their echoes in order. */
  ghost predicate WritesThenEchoes(calls: seq<Call>, namespace: string, name: string, versions: seq<string>) {
    var n := |versions|;
    && |calls| == 2 * n && Monotone(calls)
    && (forall i, j | 0 <= i < j < n :: versions[i] != versions[j])
    && (forall i | 0 <= i < n :: calls[i] == Mark(namespace, name, versions[i], calls[i].at))
    && (forall i | 0 <= i < n :: calls[n + i] == Event(OpUpdate, namespace, name, versions[i], calls[n + i].at))
  }

  lemma {:induction false} EntryOfLastWrite(
    ttl: Time, calls: seq<Call>, namespace: string, name: string, versions: seq<string>, i: nat
  )
    requires WritesThenEchoes(calls, namespace, name, versions)
    requires versions != [] && |versions| <= i < |calls|
    requires calls[|calls| - 1].at - calls[|versions| - 1].at <= ttl
    ensures var n, k := |versions|, TrackKey(namespace, name);
            && k in After(ttl, calls[..i])
            && After(ttl, calls[..i])[k] == Entry(versions[n - 1], calls[n - 1].at)
    decreases i
  {
    assert calls[..i][..i - 1] == calls[..i - 1];
    if i > |versions| {
      EntryOfLastWrite(ttl, calls, namespace, name, versions, i - 1);
      assert calls[i - 1] == Event(OpUpdate, namespace, name, versions[i - 1 - |versions|], calls[i - 1].at);
    }
  }

  /** Of the echoes of writes marked in a row, within the time to live, exactly the last is dropped. */
  lemma LastEchoDropped(
    ttl: Time, calls: seq<Call>, namespace: string, name: string, versions: seq<string>, i: nat
  )
    requires WritesThenEchoes(calls, namespace, name, versions) && i < |calls| && calls[i].Event?
    requires calls[|calls| - 1].at - calls[|versions| - 1].at <= ttl
    ensures Dropped(ttl, calls, i) <==> calls[i].version == versions[|versions| - 1]
  {
    var n := |versions|;
    assert i >= n;
    EntryOfLastWrite(ttl, calls, namespace, name, versions, i);
    assert calls[i] == Event(OpUpdate, namespace, name, versions[i - n], calls[i].at);
    assert calls[i].at <= calls[|calls| - 1].at;
  }

  // Non-interference

  /** The calls about one resource. */
  function Only(calls: seq<Call>, namespace: string, name: string): seq<Call> {
    if calls == [] then []
    else
      var c := calls[|calls| - 1];
      Only(calls[..|calls| - 1], namespace, name)
      + if !c.Ignored? && c.namespace == namespace && c.name == name then [c] else []
  }

  /**
   Two resources share a key exactly when they are the same, or the namespace of one goes on from the
   namespace of the other with a slash, and its name makes up for the difference.
   */
  lemma KeysCollideIff(ns1: string, name1: string, ns2: string, name2: string)
    requires |ns1| <= |ns2|
    ensures TrackKey(ns1, name1) == TrackKey(ns2, name2) <==>
            || (ns1 == ns2 && name1 == name2)
            || (exists mid: string :: ns2 == ns1 + "/" + mid && name1 == mid + "/" + name2)
  {
    var k1, k2 := TrackKey(ns1, name1), TrackKey(ns2, name2);
    if k1 == k2 && |ns1| == |ns2| {
      assert ns1 == k1[..|ns1|] == k2[..|ns2|] == ns2;
      assert name1 == k1[|ns1| + 1..] == k2[|ns2| + 1..] == name2;
    } else if k1 == k2 {
      var mid := ns2[|ns1| + 1..];
      assert ns2 == k2[..|ns2|] == k1[..|ns2|];
      assert ns2[..|ns1|] == k1[..|ns1|] == ns1;
      assert ns2[|ns1|] == k1[|ns1|] == '/';
      assert ns2 == ns1 + "/" + mid;
      assert name1 == k1[|ns1| + 1..] == k2[|ns1| + 1..] == mid + "/" + name2;
    } else {
      assert forall mid: string :: ns1 + "/" + (mid + "/" + name2) == ns1 + "/" + mid + "/" + name2;
    }
  }

  lemma KeyIsInjective(ns1: string, name1: string, ns2: string, name2: string)
    requires '/' !in ns1 && '/' !in ns2 && TrackKey(ns1, name1) == TrackKey(ns2, name2)
    ensures ns1 == ns2 && name1 == name2
  {
    if |ns1| <= |ns2| {
      KeysCollideIff(ns1, name1, ns2, name2);
    } else {
      KeysCollideIff(ns2, name2, ns1, name1);
    }
  }

  lemma {:induction false} OnlyKeepsEntry(ttl: Time, calls: seq<Call>, namespace: string, name: string)
    requires '/' !in namespace && forall c | c in calls :: c.Ignored? || '/' !in c.namespace
    ensures var k, all, own := TrackKey(namespace, name), After(ttl, calls), After(ttl, Only(calls, namespace, name));
            (k in all <==> k in own) && (k in all ==> all[k] == own[k])
  {
    if calls != [] {
      var n := |calls| - 1;
      var c, before := calls[n], Only(calls[..n], namespace, name);
      OnlyKeepsEntry(ttl, calls[..n], namespace, name);
      assert c in calls;
      if !c.Ignored? && TrackKey(c.namespace, c.name) == TrackKey(namespace, name) {
        KeyIsInjective(c.namespace, c.name, namespace, name);
        assert (before + [c])[..|before|] == before;
        assert After(ttl, before + [c]) == Step(ttl, After(ttl, before), c).0;
      } else {
        assert before + [] == before;
      }
    }
  }

  /** Without slashes in namespaces, a resource is answered as if it were the only one tracked. */
  lemma ResourcesDoNotInterfere(ttl: Time, calls: seq<Call>, c: Call)
    requires !c.Ignored? && '/' !in c.namespace
    requires forall d | d in calls :: d.Ignored? || '/' !in d.namespace
    ensures Step(ttl, After(ttl, calls), c).1 == Step(ttl, After(ttl, Only(calls, c.namespace, c.name)), c).1
  {
    OnlyKeepsEntry(ttl, calls, c.namespace, c.name);
  }

  /** A call about the resource stands in the history of the resource, after what came before it. */
  lemma {:induction false} OnlyAt(calls: seq<Call>, namespace: string, name: string, i: nat)
    requires i < |calls| && !calls[i].Ignored? && calls[i].namespace == namespace && calls[i].name == name
    ensures var own, before := Only(calls, namespace, name), Only(calls[..i], namespace, name);
            |before| < |own| && own[..|before|] == before && own[|before|] == calls[i]
    decreases |calls|
  {
    var n := |calls| - 1;
    if i < n {
      OnlyAt(calls[..n], namespace, name, i);
      assert calls[..n][..i] == calls[..i];
    }
  }

  /**
   Of the echoes of writes to a resource marked in a row, within the time to live, exactly the last is
   dropped, whatever calls about other resources come in between.
   */
  lemma OnlyLastEchoDropped(
    ttl: Time, calls: seq<Call>, namespace: string, name: string, versions: seq<string>, i: nat
  )
    requires '/' !in namespace && forall c | c in calls :: c.Ignored? || '/' !in c.namespace
    requires WritesThenEchoes(Only(calls, namespace, name), namespace, name, versions) && versions != []
    requires var own := Only(calls, namespace, name); own[|own| - 1].at - own[|versions| - 1].at <= ttl
    requires i < |calls| && calls[i].Event? && calls[i].namespace == namespace && calls[i].name == name
    ensures Dropped(ttl, calls, i) <==> calls[i].version == versions[|versions| - 1]
  {
    var before := Only(calls[..i], namespace, name);
    OnlyAt(calls, namespace, name, i);
    ResourcesDoNotInterfere(ttl, calls[..i], calls[i]);
    LastEchoDropped(ttl, Only(calls, namespace, name), namespace, name, versions, |before|);
  }

  /** With a slash, they can: the mark of one resource swallows the update of another. */
  lemma SlashInterferes()
    ensures var c := Event(OpUpdate, "a", "b/c", "1", 0);
            && Only([Mark("a/b", "c", "1", 0)], "a", "b/c") == []
            && !Step(1, After(1, [Mark("a/b", "c", "1", 0)]), c).1
            && Step(1, After(1, []), c).1
  {
    assert TrackKey("a/b", "c") == TrackKey("a", "b/c");
    var m := Mark("a/b", "c", "1", 0);
    assert [m][..0] == [];
    assert After(1, [m]) == Step(1, map[], m).0;
  }
}
