/** What the digest tells apart: one step of FNV-1 loses nothing. */
module HashFacts {
  import opened Arithmetic
  import opened Hash

  lemma Parity(x: nat, y: nat, y': nat)
    requires (x + y) % 2 == (x + y') % 2
    ensures y % 2 == y' % 2
  {
  }

  lemma Halves(x: nat, x': nat)
    requires x % 2 == x' % 2 && x / 2 == x' / 2
    ensures x == x'
  {
  }

  /** With one argument fixed, exclusive-or tells the values of the other apart. */
  lemma {:induction false} XorInjective(a: nat, b: nat, b': nat, bits: nat)
    requires b < Pow2(bits) && b' < Pow2(bits) && Xor(a, b, bits) == Xor(a, b', bits)
    ensures b == b'
    decreases bits
  {
    if bits > 0 {
      var x, x' := Xor(a / 2, b / 2, bits - 1), Xor(a / 2, b' / 2, bits - 1);
      assert Xor(a, b, bits) == (a + b) % 2 + 2 * x && Xor(a, b', bits) == (a + b') % 2 + 2 * x';
      assert x == x';
      Parity(a, b, b');
      XorInjective(a / 2, b / 2, b' / 2, bits - 1);
      Halves(b, b');
    }
  }

  lemma {:induction false} XorCommutes(a: nat, b: nat, bits: nat)
    ensures Xor(a, b, bits) == Xor(b, a, bits)
    decreases bits
  {
    if bits > 0 {
      XorCommutes(a / 2, b / 2, bits - 1);
    }
  }

  /** The prime is odd, so it has an inverse modulo 2^64. */
  const INVERSE: int := 14886173955864302971

  function Scaled(h: Word): Word
  {
    h * FNV_PRIME % WORD
  }

  lemma ScaledInjective(h: Word, h': Word)
    requires Scaled(h) == Scaled(h')
    ensures h == h'
  {
    Undone(h);
    Undone(h');
  }

  lemma Undone(h: Word)
    ensures Scaled(h) * INVERSE % WORD == h
  {
    var x, k := h * FNV_PRIME, h * FNV_PRIME / WORD;
    var m := x % WORD;
    assert x == m + k * WORD;
    assert FNV_PRIME * INVERSE == 1 + 887285111055 * WORD;
    var n := h * 887285111055 - k * INVERSE;
    assert m * INVERSE == h + n * WORD by {
      assert m * INVERSE == (x - k * WORD) * INVERSE == x * INVERSE - (k * INVERSE) * WORD;
      assert x * INVERSE == h * (FNV_PRIME * INVERSE) == h + (h * 887285111055) * WORD;
    }
    Remainder(h, n);
  }

  lemma Remainder(h: Word, n: int)
    ensures (h + n * WORD) % WORD == h
  {
  }

  lemma MixParts(h: Word, b: Byte)
    ensures Pow2(8) == 0x100
    ensures Mix(h, b) == (Scaled(h) - Scaled(h) % 0x100) + Xor(Scaled(h) % 0x100, b, 8)
  {
    hide Xor;
    assert Pow2(8) == 0x100;
  }

  lemma HighPart(m: nat)
    ensures (m - m % 0x100) % 0x100 == 0 && m - m % 0x100 >= 0
  {
  }

  /** One step loses neither the running digest nor the byte. */
  lemma MixInjective(h: Word, b: Byte, h': Word, b': Byte)
    requires Mix(h, b) == Mix(h', b')
    ensures h == h' <==> b == b'
  {
    hide Mix;
    hide Xor;
    hide Scaled;
    hide Pow2;
    MixParts(h, b);
    MixParts(h', b');
    var m, m' := Scaled(h), Scaled(h');
    var low, low' := m % 0x100, m' % 0x100;
    HighPart(m);
    HighPart(m');
    SameParts(m - low, Xor(low, b, 8), m' - low', Xor(low', b', 8));
    if b == b' {
      XorCommutes(low, b, 8);
      XorCommutes(low', b, 8);
      XorInjective(b, low, low', 8);
      assert m == (m - low) + low == (m' - low') + low' == m';
      ScaledInjective(h, h');
    }
    if h == h' {
      XorInjective(low, b, b', 8);
    }
  }

  lemma SameParts(high: nat, low: nat, high': nat, low': nat)
    requires high % 0x100 == 0 && high' % 0x100 == 0 && low < 0x100 && low' < 0x100
    requires high + low == high' + low'
    ensures high == high' && low == low'
  {
  }

  lemma {:induction false} AbsorbInjective(h: Word, h': Word, bytes: seq<Byte>)
    requires Absorb(h, bytes) == Absorb(h', bytes)
    ensures h == h'
    decreases |bytes|
  {
    hide Mix;
    if bytes != [] {
      AbsorbInjective(Mix(h, bytes[0]), Mix(h', bytes[0]), bytes[1..]);
      MixInjective(h, bytes[0], h', bytes[0]);
    }
  }

  /** Wherever a single byte changes, so does the digest. */
  lemma OneByteSeen(h: Word, before: seq<Byte>, b: Byte, b': Byte, after: seq<Byte>)
    requires b != b'
    ensures Absorb(h, before + [b] + after) != Absorb(h, before + [b'] + after)
  {
    hide Mix;
    var mid := Absorb(h, before);
    AbsorbConcat(h, before + [b], after);
    AbsorbConcat(h, before + [b'], after);
    AbsorbConcat(h, before, [b]);
    AbsorbConcat(h, before, [b']);
    assert [b][1..] == [] && [b'][1..] == [];
    assert Absorb(mid, [b]) == Mix(mid, b) && Absorb(mid, [b']) == Mix(mid, b');
    if Absorb(h, before + [b] + after) == Absorb(h, before + [b'] + after) {
      AbsorbInjective(Mix(mid, b), Mix(mid, b'), after);
      MixInjective(mid, b, mid, b');
    }
  }

  /** So a text has another digest when one ASCII character is replaced by another. */
  lemma OneCharSeen(before: string, c: char, c': char, after: string)
    requires c != c' && c < 128 as char && c' < 128 as char
    ensures Digest(before + [c] + after) != Digest(before + [c'] + after)
  {
    OneCharEncoded(before, c, after);
    OneCharEncoded(before, c', after);
    OneByteSeen(FNV_OFFSET, Utf8(before), c as int, c' as int, Utf8(after));
  }

  lemma OneCharEncoded(before: string, c: char, after: string)
    requires c < 128 as char
    ensures Utf8(before + [c] + after) == Utf8(before) + [c as int] + Utf8(after)
  {
    Utf8Concat(before + [c], after);
    Utf8Concat(before, [c]);
    assert [c][1..] == "";
    assert Utf8([c]) == [c as int];
  }

  // ---- the bytes of a text ----

  /** How many bytes a character takes, read off the first. */
  function Length(first: Byte): nat
  {
    if first < 0x80 then 1 else if first < 0xE0 then 2 else if first < 0xF0 then 3 else 4
  }

  /** The character that some bytes stand for (RFC 3629, section 3). */
  function CodePoint(bytes: seq<Byte>): int
    requires bytes != [] && |bytes| == Length(bytes[0])
  {
    var first, rest := bytes[0] as int, seq(|bytes| - 1, i requires 0 <= i < |bytes| - 1 => bytes[i + 1] as int - 0x80);
    match |bytes|
    case 1 => first
    case 2 => (first - 0xC0) * 0x40 + rest[0]
    case 3 => (first - 0xE0) * 0x1000 + rest[0] * 0x40 + rest[1]
    case _ => (first - 0xF0) * 0x4_0000 + rest[0] * 0x1000 + rest[1] * 0x40 + rest[2]
  }

  lemma Digits(n: nat)
    ensures n == n / 0x40 * 0x40 + n % 0x40
    ensures n == n / 0x1000 * 0x1000 + n / 0x40 % 0x40 * 0x40 + n % 0x40
    ensures n == n / 0x4_0000 * 0x4_0000 + n / 0x1000 % 0x40 * 0x1000 + n / 0x40 % 0x40 * 0x40 + n % 0x40
  {
    assert n / 0x40 == n / 0x1000 * 0x40 + n / 0x40 % 0x40;
    assert n / 0x1000 == n / 0x4_0000 * 0x40 + n / 0x1000 % 0x40;
  }

  lemma CharDecodes(c: char)
    ensures var bytes := Utf8Char(c);
            bytes != [] && |bytes| == Length(bytes[0]) && CodePoint(bytes) == c as int
  {
    Digits(c as int);
    CharLength(c);
  }

  lemma CharLength(c: char)
    ensures Utf8Char(c) != [] && |Utf8Char(c)| == Length(Utf8Char(c)[0])
  {
    var n := c as int;
    assert n / 0x40 < 0x20 <==> n < 0x800;
    assert n / 0x1000 < 0x10 <==> n < 0x1_0000;
  }

  /** Texts with the same bytes are the same. */
  lemma {:induction false} Utf8Injective(a: string, b: string)
    requires Utf8(a) == Utf8(b)
    ensures a == b
    decreases |a|
  {
    hide Utf8Char;
    hide CodePoint;
    if a != "" && b != "" {
      CharDecodes(a[0]);
      CharDecodes(b[0]);
      var x, y := Utf8Char(a[0]), Utf8Char(b[0]);
      assert Utf8(a) == x + Utf8(a[1..]) && Utf8(b) == y + Utf8(b[1..]);
      assert Utf8(a)[0] == x[0] && Utf8(b)[0] == y[0];
      assert x == Utf8(a)[..|x|] && y == Utf8(b)[..|y|];
      assert Utf8(a[1..]) == Utf8(a)[|x|..] && Utf8(b[1..]) == Utf8(b)[|y|..];
      Utf8Injective(a[1..], b[1..]);
      assert a == [a[0]] + a[1..] && b == [b[0]] + b[1..];
    } else if a != "" {
      CharDecodes(a[0]);
    } else if b != "" {
      CharDecodes(b[0]);
    }
  }

  /** The published digest of the single letter "a" (FNV-1, 64 bits). */
  lemma KnownDigest()
    ensures Digest("a") == 0xaf63bd4c8601b7be
  {
    hide Mix;
    hide Xor;
    hide Scaled;
    OneCharEncoded("", 'a', "");
    assert "" + ['a'] + "" == "a" && Utf8("a") == [0x61];
    assert [0x61 as Byte][1..] == [];
    MixParts(FNV_OFFSET, 0x61);
    ScaledOffset();
    XorKnown();
  }

  lemma ScaledOffset()
    ensures Scaled(FNV_OFFSET) == 0xaf63bd4c8601b7df
  {
  }

  lemma XorKnown()
    ensures Xor(0xdf, 0x61, 8) == 0xbe
  {
    assert Xor(0x1, 0x0, 1) == 1;
    assert Xor(0x3, 0x1, 2) == 2;
    assert Xor(0x6, 0x3, 3) == 5;
    assert Xor(0xd, 0x6, 4) == 0xb;
    assert Xor(0x1b, 0xc, 5) == 0x17;
    assert Xor(0x37, 0x18, 6) == 0x2f;
    assert Xor(0x6f, 0x30, 7) == 0x5f;
  }
}
