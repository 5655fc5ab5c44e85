/** Cached resources, the objects events deliver, and the keys made of them. */
module Objects {
  import opened Wrappers

  datatype OwnerRef = OwnerRef(name: string, uid: string)

  datatype Meta = Meta(namespace: string, name: string, version: string, owners: seq<OwnerRef>)

  /** A resource of some kind; not every one provides object metadata. */
  datatype Resource = Resource(kind: string, meta: Option<Meta>)

  /** What an event hands over: a resource, the tombstone of a missed deletion, or anything else. */
  datatype Any = Nil | Object(resource: Resource) | Tombstone(key: string, obj: Any) | Foreign

  /** The resource, unwrapping tombstones however deep. */
  function Unwrap(obj: Any): Option<Resource> {
    match obj
    case Object(r) => Some(r)
    case Tombstone(_, inner) => Unwrap(inner)
    case _ => None
  }

  function MetaOf(r: Option<Resource>): Option<Meta> {
    if r.Some? then r.value.meta else None
  }

  function KeyOf(m: Meta): string {
    if m.namespace == "" then m.name else m.namespace + "/" + m.name
  }

  /** The key of an added or updated object; none is an error. */
  function MetaNamespaceKey(obj: Any): Option<string> {
    if obj.Object? && obj.resource.meta.Some? then Some(KeyOf(obj.resource.meta.value)) else None
  }

  /** The key of a deleted object; a tombstone knows its key. */
  function DeletionKey(obj: Any): Option<string> {
    if obj.Tombstone? then Some(obj.key) else MetaNamespaceKey(obj)
  }

  // Keys

  /** Namespace and name out of a key, split at its first slash; without one, there is no namespace. */
  function SplitKey(key: string): (string, string) {
    if '/' !in key then ("", key)
    else if key[0] == '/' then ("", key[1..])
    else
      var (namespace, name) := SplitKey(key[1..]);
      ([key[0]] + namespace, name)
  }

  lemma {:induction false} SplitJoined(namespace: string, name: string)
    ensures var (before, after) := SplitKey(namespace + "/" + name);
            (before == namespace && after == name <==> '/' !in namespace) && '/' !in before
  {
    var key := namespace + "/" + name;
    assert key[|namespace|] == '/';
    if namespace == "" {
      assert key[1..] == name;
    } else if key[0] != '/' {
      SplitJoined(namespace[1..], name);
      assert key[1..] == namespace[1..] + "/" + name;
      assert namespace == [key[0]] + namespace[1..];
    } else {
      assert '/' in namespace;
    }
  }

  /** A key tells namespace and name, exactly without a slash in the namespace, or without both. */
  lemma KeyRoundTripIff(m: Meta)
    ensures SplitKey(KeyOf(m)) == (m.namespace, m.name)
            <==> '/' !in m.namespace && (m.namespace == "" ==> '/' !in m.name)
  {
    if m.namespace != "" {
      SplitJoined(m.namespace, m.name);
    } else if '/' in m.name {
      SplitShortens(m.name);
    }
  }

  lemma {:induction false} SplitShortens(key: string)
    requires '/' in key
    ensures |SplitKey(key).0| + |SplitKey(key).1| < |key|
  {
    if key[0] != '/' {
      SplitShortens(key[1..]);
    }
  }

  /**
   All events of a resource have the key the cache has it under, a deletion observed late by a tombstone
   with that key too, and every other object is without a key.
   */
  lemma EventsShareKey(kind: string, m: Meta, inner: Any, obj: Any)
    ensures var seen := Object(Resource(kind, Some(m)));
            && MetaNamespaceKey(seen) == DeletionKey(seen) == DeletionKey(Tombstone(KeyOf(m), inner)) == Some(KeyOf(m))
    ensures MetaNamespaceKey(obj).None? <==> !obj.Object? || obj.resource.meta.None?
    ensures DeletionKey(obj).None? <==> !obj.Tombstone? && MetaNamespaceKey(obj).None?
  {
  }

  /** The object in a nest of tombstones with the given keys. */
  function Buried(keys: seq<string>, obj: Any): Any {
    if keys == [] then obj else Tombstone(keys[0], Buried(keys[1..], obj))
  }

  /** Tombstones, however deep, show the resource in them, and hold none otherwise. */
  lemma {:induction false} TombstonesAreTransparent(keys: seq<string>, r: Resource)
    ensures Unwrap(Buried(keys, Object(r))) == Some(r)
    ensures Unwrap(Buried(keys, Nil)) == Unwrap(Buried(keys, Foreign)) == None
  {
    if keys != [] {
      TombstonesAreTransparent(keys[1..], r);
    }
  }

  // Bytes

  type Byte = x: int | 0 <= x < 256

  /** The bytes of a character. */
  function Encode(c: int): seq<Byte>
    requires 0 <= c < 0x11_0000
  {
    if c < 0x80 then [c]
    else if c < 0x800 then [0xC0 + c / 0x40, 0x80 + c % 0x40]
    else if c < 0x1_0000 then [0xE0 + c / 0x1000, 0x80 + c / 0x40 % 0x40, 0x80 + c % 0x40]
    else [0xF0 + c / 0x4_0000, 0x80 + c / 0x1000 % 0x40, 0x80 + c / 0x40 % 0x40, 0x80 + c % 0x40]
  }

  /** The bytes of a string in UTF-8. */
  function Utf8(s: string): seq<Byte> {
    if s == "" then [] else Encode(s[0] as int) + Utf8(s[1..])
  }

  /** The character that some bytes start with, as a decoder of UTF-8 reads it. */
  function Decode(bytes: seq<int>): int {
    if bytes == [] then -1
    else if bytes[0] < 0x80 then bytes[0]
    else if bytes[0] < 0xE0 && |bytes| > 1 then Continued(bytes[0] - 0xC0, bytes[1])
    else if bytes[0] < 0xF0 && |bytes| > 2 then Continued(Continued(bytes[0] - 0xE0, bytes[1]), bytes[2])
    else if |bytes| > 3 then Continued(Continued(Continued(bytes[0] - 0xF0, bytes[1]), bytes[2]), bytes[3])
    else -1
  }

  /** Six more bits of a character. */
  function Continued(high: int, b: int): int {
    high * 0x40 + b - 0x80
  }

  lemma EncodeRoundTrip(c: int, rest: seq<Byte>)
    requires 0 <= c < 0x11_0000
    ensures Decode(Encode(c) + rest) == c
  {
    assert c / 0x1000 == c / 0x40 / 0x40 && c / 0x4_0000 == c / 0x1000 / 0x40;
  }

  /** No two strings have the same bytes. */
  lemma {:induction false} Utf8IsInjective(s: string, t: string)
    requires Utf8(s) == Utf8(t)
    ensures s == t
  {
    if s != "" && t != "" {
      var c, d := s[0] as int, t[0] as int;
      EncodeRoundTrip(c, Utf8(s[1..]));
      EncodeRoundTrip(d, Utf8(t[1..]));
      assert s[0] == t[0];
      assert Utf8(s)[|Encode(c)|..] == Utf8(s[1..]) && Utf8(t)[|Encode(c)|..] == Utf8(t[1..]);
      Utf8IsInjective(s[1..], t[1..]);
      assert s == [s[0]] + s[1..] && t == [t[0]] + t[1..];
    }
  }

  lemma {:induction false} Utf8Concat(s: string, t: string)
    ensures Utf8(s + t) == Utf8(s) + Utf8(t)
  {
    if s == "" {
      assert s + t == t;
    } else {
      var first, rest := Encode(s[0] as int), Utf8(s[1..]);
      Utf8Concat(s[1..], t);
      assert (s + t)[1..] == s[1..] + t;
      assert first + (rest + Utf8(t)) == (first + rest) + Utf8(t);
    }
  }
}
