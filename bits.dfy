/** The bit-level reader both converters use (`bitstring.ConstBitStream`): reads
    of `uint:n`, `int:n` and `bool` tokens, most significant bit first, from a
    byte payload; a read past the end fails (bitstring raises ReadError). */
module Bits {
  import opened Values

  newtype byte = x: int | 0 <= x < 256

  function Pow2(n: nat): (r: nat)
    ensures r >= 1
  {
    if n == 0 then 1 else 2 * Pow2(n - 1)
  }

  /** Bit i of the payload; bit 0 is the most significant bit of the first byte. */
  function BitAt(bytes: seq<byte>, i: nat): bool
    requires i < 8 * |bytes|
  {
    (bytes[i / 8] as int / Pow2(7 - i % 8)) % 2 == 1
  }

  function BitValue(b: bool): nat { if b then 1 else 0 }

  /** The `uint:n` token at bit position pos: n bits read as an unsigned
      big-endian number. */
  function UintAt(bytes: seq<byte>, pos: nat, n: nat): (r: nat)
    requires pos + n <= 8 * |bytes|
    ensures r < Pow2(n)
  {
    if n == 0 then 0 else 2 * UintAt(bytes, pos, n - 1) + BitValue(BitAt(bytes, pos + n - 1))
  }

  /** The `int:n` token at bit position pos: the same n bits read as a two's
      complement number. */
  function IntAt(bytes: seq<byte>, pos: nat, n: nat): (r: int)
    requires 1 <= n && pos + n <= 8 * |bytes|
    ensures -(Pow2(n - 1) as int) <= r < Pow2(n - 1)
  {
    var u := UintAt(bytes, pos, n);
    if u >= Pow2(n - 1) then u - Pow2(n) else u
  }

  /** The first bit carries weight 2^(n-1). */
  lemma {:induction false} UintAtHead(bytes: seq<byte>, pos: nat, n: nat)
    requires 1 <= n && pos + n <= 8 * |bytes|
    ensures UintAt(bytes, pos, n) == BitValue(BitAt(bytes, pos)) * Pow2(n - 1) + UintAt(bytes, pos + 1, n - 1)
  {
    if n > 1 {
      UintAtHead(bytes, pos, n - 1);
    }
  }

  /** The sign of an `int:n` token is its first bit. */
  lemma IntAtSign(bytes: seq<byte>, pos: nat, n: nat)
    requires 1 <= n && pos + n <= 8 * |bytes|
    ensures IntAt(bytes, pos, n) < 0 <==> BitAt(bytes, pos)
  {
    UintAtHead(bytes, pos, n);
  }

  lemma MulSmall(d: int, x: int)
    requires d > 0 && -d < d * x < d
    ensures x == 0
  {
  }

  /** Division is determined by quotient and remainder. */
  lemma DivUnique(b: int, d: int, q: int, r: int)
    requires d > 0 && b == d * q + r && 0 <= r < d
    ensures b / d == q
  {
    var q' := b / d;
    assert b == d * q' + b % d;
    assert d * (q' - q) == r - b % d;
    MulSmall(d, q' - q);
  }

  lemma DivTwice(b: nat, p: nat)
    requires p >= 1
    ensures b / (2 * p) == (b / p) / 2
  {
    var q := b / p;
    var r := b % p;
    assert b == p * q + r;
    var q2 := q / 2;
    var s := q % 2;
    assert q == 2 * q2 + s;
    assert p * q == (2 * p) * q2 + p * s;
    assert 0 <= p * s <= p by {
      if s == 1 { assert p * s == p; } else { assert p * s == 0; }
    }
    DivUnique(b, 2 * p, q2, p * s + r);
  }

  /** The first m bits of a byte are its value shifted right by 8 - m. */
  lemma {:induction false} UintAtBytePrefix(bytes: seq<byte>, k: nat, m: nat)
    requires k < |bytes| && m <= 8
    ensures UintAt(bytes, 8 * k, m) == bytes[k] as int / Pow2(8 - m)
  {
    var b := bytes[k] as int;
    if m == 0 {
      assert Pow2(8) == 256;
    } else {
      UintAtBytePrefix(bytes, k, m - 1);
      var i := 8 * k + m - 1;
      assert i / 8 == k && i % 8 == m - 1;
      var p := Pow2(8 - m);
      assert Pow2(8 - (m - 1)) == 2 * p;
      DivTwice(b, p);
      var q := b / p;
      assert q == 2 * (q / 2) + q % 2;
    }
  }

  /** A byte-aligned `uint:8` token is the byte itself. */
  lemma UintAtByte(bytes: seq<byte>, k: nat)
    requires k < |bytes|
    ensures UintAt(bytes, 8 * k, 8) == bytes[k] as int
  {
    UintAtBytePrefix(bytes, k, 8);
  }

  /** A read cursor over a fixed payload. */
  class BitStream {
    const bytes: seq<byte>
    var pos: nat

    ghost predicate Valid()
      reads this
    {
      pos <= 8 * |bytes|
    }

    /** `len(stream)`, in bits */
    function Len(): nat
    {
      8 * |bytes|
    }

    /** `len(stream) - stream.bitpos` */
    function Remaining(): (r: nat)
      reads this
      requires Valid()
      ensures pos + r == Len()
    {
      Len() - pos
    }

    constructor(payload: seq<byte>)
      ensures Valid() && bytes == payload && pos == 0
    {
      bytes := payload;
      pos := 0;
    }

    /** `stream.read("uint:n")`, or None (ReadError) when fewer than n bits remain. */
    method ReadUint(n: nat) returns (r: Option<nat>)
      requires Valid()
      modifies this
      ensures Valid()
      ensures old(pos) + n <= Len() ==> r == Some(UintAt(bytes, old(pos), n)) && pos == old(pos) + n
      ensures old(pos) + n > Len() ==> r == None && pos == old(pos)
    {
      if pos + n > 8 * |bytes| {
        return None;
      }
      var start := pos;
      var acc := 0;
      var k := 0;
      while k < n
        invariant k <= n && pos == start + k
        invariant acc == UintAt(bytes, start, k)
      {
        acc := 2 * acc + BitValue(BitAt(bytes, pos));
        pos := pos + 1;
        k := k + 1;
      }
      return Some(acc);
    }

    /** `stream.read("int:n")` */
    method ReadInt(n: nat) returns (r: Option<int>)
      requires Valid() && n >= 1
      modifies this
      ensures Valid()
      ensures old(pos) + n <= Len() ==> r == Some(IntAt(bytes, old(pos), n)) && pos == old(pos) + n
      ensures old(pos) + n > Len() ==> r == None && pos == old(pos)
    {
      var u := ReadUint(n);
      if u.None? {
        return None;
      }
      var half := Pow2(n - 1);
      if u.value >= half {
        return Some(u.value - 2 * half);
      }
      return Some(u.value);
    }

    /** `stream.read("bool")` */
    method ReadBool() returns (r: Option<bool>)
      requires Valid()
      modifies this
      ensures Valid()
      ensures old(pos) < Len() ==> r == Some(BitAt(bytes, old(pos))) && pos == old(pos) + 1
      ensures old(pos) >= Len() ==> r == None && pos == old(pos)
    {
      var u := ReadUint(1);
      if u.None? {
        return None;
      }
      assert UintAt(bytes, old(pos), 1) == BitValue(BitAt(bytes, old(pos)));
      return Some(u.value == 1);
    }
  }
}
