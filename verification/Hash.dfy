/** internal/tools/hash/hasher.go: a cumulative FNV-1 digest of JSON texts. */
module Hash {
  import opened Arithmetic
  import Json

  type Word = w: int | 0 <= w < WORD
  type Byte = b: int | 0 <= b < 0x100

  const FNV_OFFSET: Word := 14695981039346656037
  const FNV_PRIME: Word := 1099511628211

  function Utf8Char(c: char): seq<Byte>
  {
    var n := c as int;
    if n < 0x80 then [n]
    else if n < 0x800 then [0xC0 + n / 0x40, 0x80 + n % 0x40]
    else if n < 0x1_0000 then
      [0xE0 + n / 0x1000, 0x80 + n / 0x40 % 0x40, 0x80 + n % 0x40]
    else
      [0xF0 + n / 0x4_0000, 0x80 + n / 0x1000 % 0x40, 0x80 + n / 0x40 % 0x40,
       0x80 + n % 0x40]
  }

  function Utf8(t: string): seq<Byte>
  {
    if t == "" then [] else Utf8Char(t[0]) + Utf8(t[1..])
  }

  function Xor(a: nat, b: nat, bits: nat): (x: nat)
    ensures x < Pow2(bits)
  {
    if bits == 0 then 0 else (a + b) % 2 + 2 * Xor(a / 2, b / 2, bits - 1)
  }

  /** One byte of FNV-1: multiply modulo 2^64, then exclusive-or into the low byte. */
  function Mix(h: Word, b: Byte): Word
  {
    var m := h * FNV_PRIME % WORD;
    assert Pow2(8) == 0x100;
    m - m % 0x100 + Xor(m % 0x100, b, 8)
  }

  function Absorb(h: Word, bytes: seq<Byte>): Word
    decreases |bytes|
  {
    if bytes == [] then h else Absorb(Mix(h, bytes[0]), bytes[1..])
  }

  /** The digest of a text hashed from a fresh hasher. */
  function Digest(text: string): Word
  {
    Absorb(FNV_OFFSET, Utf8(text))
  }

  lemma {:induction false} AbsorbConcat(h: Word, a: seq<Byte>, b: seq<Byte>)
    ensures Absorb(h, a + b) == Absorb(Absorb(h, a), b)
    decreases |a|
  {
    if a == [] {
      assert a + b == b;
    } else {
      assert (a + b)[1..] == a[1..] + b;
      AbsorbConcat(Mix(h, a[0]), a[1..], b);
    }
  }

  lemma {:induction false} Utf8Concat(a: string, b: string)
    ensures Utf8(a + b) == Utf8(a) + Utf8(b)
  {
    if a == "" {
      assert a + b == b;
    } else {
      assert (a + b)[1..] == a[1..] + b;
      Utf8Concat(a[1..], b);
    }
  }

  /** The running digest after more values: each is marshalled and written. */
  function SumFrom(h: Word, vs: seq<Json.Value>): Word
    decreases |vs|
  {
    if vs == [] then h else SumFrom(Absorb(h, Utf8(Json.Encode(vs[0]))), vs[1..])
  }

  /** The digest of the values `vs`, summed by one fresh hasher. */
  function DigestOf(vs: seq<Json.Value>): Word
  {
    SumFrom(FNV_OFFSET, vs)
  }

  lemma {:induction false} SumConcat(h: Word, a: seq<Json.Value>, b: seq<Json.Value>)
    ensures SumFrom(h, a + b) == SumFrom(SumFrom(h, a), b)
    decreases |a|
  {
    if a == [] {
      assert a + b == b;
    } else {
      assert (a + b)[1..] == a[1..] + b;
      SumConcat(Absorb(h, Utf8(Json.Encode(a[0]))), a[1..], b);
    }
  }

  lemma DigestConcat(a: seq<Json.Value>, b: seq<Json.Value>)
    ensures DigestOf(a + b) == SumFrom(DigestOf(a), b)
  {
    SumConcat(FNV_OFFSET, a, b);
  }

  lemma {:induction false} SumIsAbsorb(h: Word, vs: seq<Json.Value>)
    ensures SumFrom(h, vs) == Absorb(h, Utf8(Json.EncodeStream(vs)))
    decreases |vs|
  {
    if vs != [] {
      var first, rest := Json.Encode(vs[0]), Json.EncodeStream(vs[1..]);
      SumIsAbsorb(Absorb(h, Utf8(first)), vs[1..]);
      Utf8Concat(first, rest);
      AbsorbConcat(h, Utf8(first), Utf8(rest));
    }
  }

  /** Only the concatenated text matters, not how it was cut into values and calls. */
  lemma DigestOfStream(vs: seq<Json.Value>)
    ensures DigestOf(vs) == Digest(Json.EncodeStream(vs))
  {
    SumIsAbsorb(FNV_OFFSET, vs);
  }

  /** The running hash; `values` are the values summed since it was created. */
  class ObjectHash {
    var sum: Word
    ghost var values: seq<Json.Value>

    ghost predicate Valid()
      reads this
    {
      sum == DigestOf(values)
    }

    constructor ()
      ensures Valid() && values == []
    {
      sum, values := FNV_OFFSET, [];
    }

    /** Cumulative: however the values are split over calls, the digest is that of all of them. */
    method SumHash(vs: seq<Json.Value>)
      requires Valid()
      modifies this
      ensures Valid() && values == old(values) + vs
    {
      var h := sum;
      for i := 0 to |vs|
        invariant unchanged(this)
        invariant SumFrom(h, vs[i..]) == SumFrom(sum, vs)
      {
        assert vs[i..][1..] == vs[i + 1..];
        h := Write(h, Utf8(Json.Encode(vs[i])));
      }
      assert vs[|vs|..] == [];
      DigestConcat(values, vs);
      sum, values := h, values + vs;
    }

    function GetHash(): Word
      reads this
    {
      sum
    }
  }

  method Write(h: Word, bytes: seq<Byte>) returns (r: Word)
    ensures r == Absorb(h, bytes)
  {
    r := h;
    for i := 0 to |bytes|
      invariant Absorb(r, bytes[i..]) == Absorb(h, bytes)
    {
      r := Mix(r, bytes[i]);
      assert bytes[i..][1..] == bytes[i + 1..];
    }
  }
}
