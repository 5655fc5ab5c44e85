/** The delays applied to events: the debounce, and the jitter that spreads the periodic re-sync. */
module Delays {
  import opened Objects

  const WORD := 0x1_0000_0000_0000_0000
  const SIGN := 0x8000_0000_0000_0000
  const FNV_OFFSET := 14695981039346656037
  const FNV_PRIME := 1099511628211

  /** An unsigned 64-bit integer. */
  type Word = x: int | 0 <= x < WORD

  function Pow2(n: nat): nat {
    if n == 0 then 1 else 2 * Pow2(n - 1)
  }

  /** The exclusive or of the lowest bits. */
  function Xor(a: nat, b: nat, bits: nat): (r: nat)
    ensures r < Pow2(bits)
  {
    if bits == 0 then 0 else 2 * Xor(a / 2, b / 2, bits - 1) + if a % 2 == b % 2 then 0 else 1
  }

  lemma ByteBits()
    ensures Pow2(8) == 256
  {
    assert Pow2(4) == 16;
  }

  /** The exclusive or of a word and a byte. */
  function XorByte(hash: Word, b: Byte): Word {
    ByteBits();
    hash / 256 * 256 + Xor(hash % 256, b, 8)
  }

  function Mix(hash: Word, b: Byte): Word {
    XorByte(hash, b) * FNV_PRIME % WORD
  }

  /** The 64-bit FNV-1a hash. */
  function Fnv1a(bytes: seq<Byte>): Word {
    if bytes == [] then FNV_OFFSET else Mix(Fnv1a(bytes[..|bytes| - 1]), bytes[|bytes| - 1])
  }

  /** Without its sign bit, what a mask of all the other bits leaves. */
  function Masked(x: Word): Word {
    if x < SIGN then x else x - SIGN
  }

  /** The conversion to a signed 64-bit integer. */
  function Signed(x: Word): int {
    if x < SIGN then x else x - WORD
  }

  /** The remainder of a division truncated toward zero. */
  function Remainder(a: int, b: int): int
    requires b > 0
  {
    if a >= 0 then a % b else -(-a % b)
  }

  datatype Delay = Delay(debounce: int, resync: int) {
    /** The offset of a key, given by its bytes. */
    function JitterOf(key: seq<Byte>): int {
      if resync <= 0 then 0 else Remainder(Signed(Masked(Fnv1a(key))), resync)
    }

    method Jitter(key: seq<Byte>) returns (offset: int)
      ensures offset == JitterOf(key)
    {
      if resync <= 0 {
        return 0;
      }
      var hash: Word := FNV_OFFSET;
      for i := 0 to |key|
        invariant hash == Fnv1a(key[..i])
      {
        assert key[..i + 1][..i] == key[..i];
        hash := Mix(hash, key[i]);
      }
      assert key[..|key|] == key;
      offset := Remainder(Signed(Masked(hash)), resync);
    }

    function DelayOf(key: seq<Byte>, replay: bool): int {
      if replay && resync > 0 then JitterOf(key) else debounce
    }

    method Choose(key: seq<Byte>, replay: bool) returns (delay: int)
      ensures delay == DelayOf(key, replay)
      ensures if replay && resync > 0 then delay == JitterOf(key) else delay == debounce
    {
      if replay && resync > 0 {
        delay := Jitter(key);
      } else {
        delay := debounce;
      }
    }
  }

  // The window

  /**
   The jitter is the hash without its sign bit, modulo the window, in which it lies for every key:
   without the mask, it would be negative for some. There is none without a window.
   */
  lemma JitterInWindow(d: Delay, key: seq<Byte>)
    ensures d.resync <= 0 ==> d.JitterOf(key) == 0
    ensures d.resync > 0 ==> d.JitterOf(key) == Fnv1a(key) % SIGN % d.resync && 0 <= d.JitterOf(key) < d.resync
  {
    var hash := Fnv1a(key);
    assert hash % SIGN == Masked(hash);
  }

  // The hash

  /** Bit `i` of a number. */
  predicate Bit(x: nat, i: nat) {
    if i == 0 then x % 2 == 1 else Bit(x / 2, i - 1)
  }

  lemma {:induction false} XorBits(a: nat, b: nat, bits: nat, i: nat)
    requires i < bits
    ensures Bit(Xor(a, b, bits), i) <==> Bit(a, i) != Bit(b, i)
  {
    if i > 0 {
      XorBits(a / 2, b / 2, bits - 1, i - 1);
    }
  }

  lemma XorOfA(a: nat, b: nat)
    requires a == 0x25 && b == 0x61
    ensures Xor(a, b, 8) == 0x44
  {
    assert Xor(0x2, 0x6, 4) == 0x4;
  }

  lemma XorOfB(a: nat, b: nat)
    requires a == 0x8c && b == 0x62
    ensures Xor(a, b, 8) == 0xee
  {
    assert Xor(0x8, 0x6, 4) == 0xe;
  }

  lemma MixOf(hash: Word, b: Byte, low: nat)
    requires Xor(hash % 256, b, 8) == low
    ensures Mix(hash, b) == (hash / 256 * 256 + low) * FNV_PRIME % WORD
  {
  }

  lemma MixOfA(hash: Word, b: Byte)
    requires hash == 0xcbf29ce484222325 && b == 0x61
    ensures Mix(hash, b) == 0xaf63dc4c8601ec8c
  {
    XorOfA(hash % 256, b);
    MixOf(hash, b, 0x44);
  }

  lemma MixOfB(hash: Word, b: Byte)
    requires hash == 0xaf63dc4c8601ec8c && b == 0x62
    ensures Mix(hash, b) == 0x089c4407b545986a
  {
    XorOfB(hash % 256, b);
    MixOf(hash, b, 0xee);
  }

  lemma HashOfMore(bytes: seq<Byte>, b: Byte)
    ensures Fnv1a(bytes + [b]) == Mix(Fnv1a(bytes), b)
  {
    assert (bytes + [b])[..|bytes|] == bytes;
  }

  /** The published hashes of the empty string, of "a", and of "ab". */
  lemma PublishedHashes()
    ensures Fnv1a(Utf8("")) == 0xcbf29ce484222325
    ensures Fnv1a(Utf8("a")) == 0xaf63dc4c8601ec8c && Fnv1a(Utf8("ab")) == 0x089c4407b545986a
  {
    HashOfMore([], 0x61);
    HashOfMore([0x61], 0x62);
    assert Utf8("a") == [] + [0x61 as Byte] == [0x61];
    assert Utf8("ab") == [0x61] + Utf8("b") && Utf8("b") == [0x62];
    MixOfA(FNV_OFFSET, 0x61);
    MixOfB(0xaf63dc4c8601ec8c, 0x62);
  }

  // The spread

  // The prime has an inverse, 14886173955864302971, and the product of the two is one more than
  // 887285111055 times the word.

  lemma PrimeIsInjective(x: Word, y: Word)
    requires x * FNV_PRIME % WORD == y * FNV_PRIME % WORD
    ensures x == y
  {
    var d, k := x - y, x * FNV_PRIME / WORD - y * FNV_PRIME / WORD;
    assert d * FNV_PRIME == k * WORD;
    var q := k * 14886173955864302971 - d * 887285111055;
    assert d == q * WORD;
  }

  lemma {:induction false} XorSeparates(h: nat, i: nat, a: nat, b: nat, bits: nat)
    requires h < Pow2(bits) && i < Pow2(bits) && a < Pow2(bits) && b < Pow2(bits)
    requires (h == i && a != b) || (h != i && a == b)
    ensures Xor(h, a, bits) != Xor(i, b, bits)
  {
    if (h / 2 == i / 2 && a / 2 != b / 2) || (h / 2 != i / 2 && a / 2 == b / 2) {
      XorSeparates(h / 2, i / 2, a / 2, b / 2, bits - 1);
    }
  }

  lemma DigitsSeparate(x: nat, y: nat, r: nat, t: nat)
    requires r < 256 && t < 256 && (x != y || r != t)
    ensures x * 256 + r != y * 256 + t
  {
  }

  lemma XorByteSeparates(h: Word, i: Word, a: Byte, b: Byte)
    requires (h == i && a != b) || (h != i && a == b)
    ensures XorByte(h, a) != XorByte(i, b)
  {
    ByteBits();
    if h % 256 != i % 256 || a != b {
      XorSeparates(h % 256, i % 256, a, b, 8);
    } else {
      assert h / 256 != i / 256;
    }
    DigitsSeparate(h / 256, i / 256, Xor(h % 256, a, 8), Xor(i % 256, b, 8));
  }

  lemma MixSeparates(h: Word, i: Word, a: Byte, b: Byte)
    requires (h == i && a != b) || (h != i && a == b)
    ensures Mix(h, a) != Mix(i, b)
  {
    XorByteSeparates(h, i, a, b);
    if Mix(h, a) == Mix(i, b) {
      PrimeIsInjective(XorByte(h, a), XorByte(i, b));
    }
  }

  /** Keys that differ in a single byte, wherever it is, have different hashes. */
  lemma {:induction false} HashSeparates(before: seq<Byte>, a: Byte, b: Byte, after: seq<Byte>)
    requires a != b
    ensures Fnv1a(before + [a] + after) != Fnv1a(before + [b] + after)
  {
    var n := |after| - 1;
    if after == [] {
      assert (before + [a] + after)[..|before|] == before == (before + [b] + after)[..|before|];
      MixSeparates(Fnv1a(before), Fnv1a(before), a, b);
    } else {
      HashSeparates(before, a, b, after[..n]);
      assert (before + [a] + after)[..|before| + |after|] == before + [a] + after[..n];
      assert (before + [b] + after)[..|before| + |after|] == before + [b] + after[..n];
      MixSeparates(Fnv1a(before + [a] + after[..n]), Fnv1a(before + [b] + after[..n]), after[n], after[n]);
    }
  }

  /** So keys that differ in one ASCII character have different hashes. */
  lemma KeysSeparate(before: string, c: char, d: char, after: string)
    requires c != d && c < 0x80 as char && d < 0x80 as char
    ensures Fnv1a(Utf8(before + [c] + after)) != Fnv1a(Utf8(before + [d] + after))
  {
    Utf8Concat(before + [c], after);
    Utf8Concat(before, [c]);
    Utf8Concat(before + [d], after);
    Utf8Concat(before, [d]);
    assert Utf8([c]) == [c as int] && Utf8([d]) == [d as int];
    HashSeparates(Utf8(before), c as int, d as int, Utf8(after));
  }
}
