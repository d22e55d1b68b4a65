/**
 * The text `encoding/json` writes for the values that enter a digest, as far as RFC 8259 matters:
 * strings are quoted and escaped, arrays and objects are bracketed. Object members come in the order
 * the encoder emits them.
 */
module Json {

  datatype Value =
    | Null
    | Bool(b: bool)
    | Number(literal: string)
    | String(s: string)
    | Array(items: seq<Value>)
    | Object(members: seq<Member>)

  datatype Member = Member(name: string, value: Value)

  /** The characters a number literal is made of (RFC 8259, section 6). */
  predicate NumberChar(c: char)
  {
    '0' <= c <= '9' || c in "+-.eE"
  }

  ghost predicate Valid(v: Value)
  {
    match v
    case Number(l) => l != "" && l[0] !in "+.eE" && forall i :: 0 <= i < |l| ==> NumberChar(l[i])
    case Array(items) => forall i :: 0 <= i < |items| ==> Valid(items[i])
    case Object(ms) => forall i :: 0 <= i < |ms| ==> Valid(ms[i].value)
    case _ => true
  }

  function HexDigit(n: nat): char
    requires n < 16
  {
    if n < 10 then ('0' as int + n) as char else ('a' as int + n - 10) as char
  }

  function HexValue(c: char): int
  {
    if '0' <= c <= '9' then c as int - '0' as int else c as int - 'a' as int + 10
  }

  /** The escapes that are a backslash and one letter. */
  function ShortEscape(c: char): string
  {
    if c == '\"' then "\"" else if c == '\\' then "\\" else if c == '\n' then "n"
    else if c == '\r' then "r" else if c == '\t' then "t"
    else if c == '\U{8}' then "b" else if c == '\U{C}' then "f" else ""
  }

  predicate HexEscaped(c: char)
  {
    c < ' ' || c == '<' || c == '>' || c == '&' || c == '\U{2028}' || c == '\U{2029}'
  }

  function Hex4(n: nat): string
    requires n < 0x1_0000
  {
    [HexDigit(n / 0x1000), HexDigit(n / 0x100 % 0x10), HexDigit(n / 0x10 % 0x10), HexDigit(n % 0x10)]
  }

  /** Quotes, backslashes, control characters and HTML-sensitive characters are escaped. */
  function EscapeChar(c: char): (e: string)
    ensures e != "" && e[0] != '\"'
  {
    if ShortEscape(c) != "" then "\\" + ShortEscape(c)
    else if HexEscaped(c) then "\\u" + Hex4(c as int)
    else [c]
  }

  function EscapeChars(s: string): string
  {
    if s == "" then "" else EscapeChar(s[0]) + EscapeChars(s[1..])
  }

  function Quote(s: string): string
  {
    "\"" + EscapeChars(s) + "\""
  }

  function Encode(v: Value): (t: string)
    ensures Valid(v) ==> t != ""
    decreases v, 0
  {
    match v
    case Null => "null"
    case Bool(b) => if b then "true" else "false"
    case Number(l) => l
    case String(s) => Quote(s)
    case Array(items) => "[" + EncodeItems(items) + "]"
    case Object(ms) => "{" + EncodeMembers(ms) + "}"
  }

  function EncodeItems(items: seq<Value>): string
    decreases items, 1
  {
    if items == [] then ""
    else if |items| == 1 then Encode(items[0])
    else Encode(items[0]) + "," + EncodeItems(items[1..])
  }

  function EncodeMembers(ms: seq<Member>): string
    decreases ms, 1
  {
    if ms == [] then ""
    else if |ms| == 1 then EncodeMember(ms[0])
    else EncodeMember(ms[0]) + "," + EncodeMembers(ms[1..])
  }

  function EncodeMember(m: Member): string
    decreases m, 0
  {
    Quote(m.name) + ":" + Encode(m.value)
  }

  /** Values of a stream: what `SumHash` writes, one text after the other with nothing in between. */
  function EncodeStream(vs: seq<Value>): string
  {
    if vs == [] then "" else Encode(vs[0]) + EncodeStream(vs[1..])
  }

  // ---- no encoding is a prefix of another ----

  /** `rest` can follow `v` without becoming part of it. */
  ghost predicate Ends(v: Value, rest: string)
  {
    v.Number? ==> rest == "" || !NumberChar(rest[0])
  }

  lemma HexInverse(n: nat)
    requires n < 16
    ensures HexValue(HexDigit(n)) == n
  {
  }

  lemma Hex4Digits(n: nat)
    requires n < 0x1_0000
    ensures n == 0x1000 * (n / 0x1000) + 0x100 * (n / 0x100 % 0x10) + 0x10 * (n / 0x10 % 0x10) + n % 0x10
  {
    assert n / 0x100 == 0x10 * (n / 0x1000) + n / 0x100 % 0x10;
    assert n / 0x10 == 0x10 * (n / 0x100) + n / 0x10 % 0x10;
  }

  lemma Hex4Value(n: nat)
    requires n < 0x1_0000
    ensures var h := Hex4(n);
            n == 0x1000 * HexValue(h[0]) + 0x100 * HexValue(h[1]) + 0x10 * HexValue(h[2]) + HexValue(h[3])
  {
    Hex4Digits(n);
    HexInverse(n / 0x1000);
    HexInverse(n / 0x100 % 0x10);
    HexInverse(n / 0x10 % 0x10);
    HexInverse(n % 0x10);
  }

  lemma Hex4Injective(m: nat, n: nat)
    requires m < 0x1_0000 && n < 0x1_0000 && Hex4(m) == Hex4(n)
    ensures m == n
  {
    Hex4Value(m);
    Hex4Value(n);
  }

  lemma EscapeShape(c: char)
    ensures var e := EscapeChar(c);
            if ShortEscape(c) != "" then |e| == 2 && e[0] == '\\' && [e[1]] == ShortEscape(c) && e[1] != 'u'
            else if HexEscaped(c) then |e| == 6 && e[0] == '\\' && e[1] == 'u' && e[2..] == Hex4(c as int)
            else e == [c] && c != '\\'
  {
  }

  lemma EscapeCharPrefixFree(c: char, d: char, r: string, t: string)
    requires EscapeChar(c) + r == EscapeChar(d) + t
    ensures c == d && r == t
  {
    EscapeShape(c);
    EscapeShape(d);
    var e, f := EscapeChar(c), EscapeChar(d);
    var x, y := e + r, f + t;
    assert x[0] == e[0] && y[0] == f[0];
    if e[0] == '\\' {
      assert x[1] == e[1] && y[1] == f[1];
      if e[1] == 'u' {
        assert e[2..] == x[2..6] && f[2..] == y[2..6];
        Hex4Injective(c as int, d as int);
      } else {
        ShortEscapeInjective(c, d);
      }
    }
    assert r == x[|e|..] && t == y[|f|..];
  }

  lemma ShortEscapeInjective(c: char, d: char)
    requires ShortEscape(c) == ShortEscape(d) != ""
    ensures c == d
  {
    assert ShortEscape(c)[0] == ShortEscape(d)[0];
  }

  // Encodings followed by a given text.

  /** A quoted string after its opening quote. */
  function Closing(s: string, r: string): (t: string)
    ensures t != "" && (t[0] == '\"' <==> s == "")
  {
    if s == "" then "\"" + r else EscapeChar(s[0]) + Closing(s[1..], r)
  }

  lemma {:induction false} ClosingPrefixFree(a: string, b: string, r: string, t: string)
    requires Closing(a, r) == Closing(b, t)
    ensures a == b && r == t
  {
    if a == "" {
      assert r == Closing(a, r)[1..] && t == Closing(b, t)[1..];
    } else {
      EscapeCharPrefixFree(a[0], b[0], Closing(a[1..], r), Closing(b[1..], t));
      ClosingPrefixFree(a[1..], b[1..], r, t);
      assert a == [a[0]] + a[1..] && b == [b[0]] + b[1..];
    }
  }

  /** The longest prefix of `x` made of number characters. */
  function TakeNumber(x: string): string
  {
    if x == "" || !NumberChar(x[0]) then "" else [x[0]] + TakeNumber(x[1..])
  }

  lemma {:induction false} TakeNumberIs(l: string, r: string)
    requires forall i :: 0 <= i < |l| ==> NumberChar(l[i])
    requires r == "" || !NumberChar(r[0])
    ensures TakeNumber(l + r) == l
  {
    if l == "" {
      assert l + r == r;
    } else {
      assert (l + r)[1..] == l[1..] + r;
      TakeNumberIs(l[1..], r);
    }
  }

  /** The first character of an encoding tells its kind. */
  function Kind(v: Value): int
  {
    match v
    case Null => 0
    case Bool(b) => if b then 1 else 2
    case Number(_) => 3
    case String(_) => 4
    case Array(_) => 5
    case Object(_) => 6
  }

  function KindOf(c: char): int
  {
    if c == 'n' then 0 else if c == 't' then 1 else if c == 'f' then 2 else if c == '\"' then 4
    else if c == '[' then 5 else if c == '{' then 6 else 3
  }

  function Then(v: Value, r: string): (t: string)
    ensures Valid(v) ==> t != "" && t[0] !in "],}" && KindOf(t[0]) == Kind(v)
    decreases v, 0
  {
    match v
    case Null => "null" + r
    case Bool(b) => (if b then "true" else "false") + r
    case Number(l) => l + r
    case String(s) => "\"" + Closing(s, r)
    case Array(items) => "[" + ItemsThen(items, r)
    case Object(ms) => "{" + MembersThen(ms, r)
  }

  function ItemsThen(items: seq<Value>, r: string): string
    decreases items, 1
  {
    if items == [] then "]" + r else Then(items[0], MoreItems(items[1..], r))
  }

  function MoreItems(items: seq<Value>, r: string): (t: string)
    ensures t != "" && t[0] == if items == [] then ']' else ','
    decreases items, 2
  {
    if items == [] then "]" + r else "," + ItemsThen(items, r)
  }

  function MembersThen(ms: seq<Member>, r: string): (t: string)
    ensures t != "" && t[0] == if ms == [] then '}' else '\"'
    decreases ms, 1
  {
    if ms == [] then "}" + r else MemberThen(ms[0], MoreMembers(ms[1..], r))
  }

  function MemberThen(m: Member, r: string): (t: string)
    ensures t != "" && t[0] == '\"'
    decreases m, 0
  {
    "\"" + Closing(m.name, ":" + Then(m.value, r))
  }

  function MoreMembers(ms: seq<Member>, r: string): (t: string)
    ensures t != "" && t[0] == if ms == [] then '}' else ','
    decreases ms, 2
  {
    if ms == [] then "}" + r else "," + MembersThen(ms, r)
  }

  lemma TailsEqual(c: string, a: string, b: string)
    requires c + a == c + b
    ensures a == b
  {
    assert a == (c + a)[|c|..] && b == (c + b)[|c|..];
  }

  /** Two encodings that start the same text are the same encoding of the same value. */
  lemma {:induction false} EncodePrefixFree(a: Value, b: Value, r: string, t: string)
    requires Valid(a) && Valid(b) && Ends(a, r) && Ends(b, t)
    requires Then(a, r) == Then(b, t)
    ensures a == b && r == t
    decreases a, 0
  {
    match a {
      case Null => TailsEqual("null", r, t);
      case Bool(v) => TailsEqual(if v then "true" else "false", r, t);
      case Number(l) =>
        TakeNumberIs(l, r);
        TakeNumberIs(b.literal, t);
        TailsEqual(l, r, t);
      case String(s) =>
        TailsEqual("\"", Closing(s, r), Closing(b.s, t));
        ClosingPrefixFree(s, b.s, r, t);
      case Array(items) =>
        TailsEqual("[", ItemsThen(items, r), ItemsThen(b.items, t));
        ItemsPrefixFree(items, b.items, r, t);
      case Object(ms) =>
        TailsEqual("{", MembersThen(ms, r), MembersThen(b.members, t));
        MembersPrefixFree(ms, b.members, r, t);
    }
  }

  lemma {:induction false} ItemsPrefixFree(a: seq<Value>, b: seq<Value>, r: string, t: string)
    requires Valid(Array(a)) && Valid(Array(b))
    requires ItemsThen(a, r) == ItemsThen(b, t)
    ensures a == b && r == t
    decreases a, 1
  {
    if a == [] {
      TailsEqual("]", r, t);
    } else {
      EncodePrefixFree(a[0], b[0], MoreItems(a[1..], r), MoreItems(b[1..], t));
      if |a| > 1 {
        TailsEqual(",", ItemsThen(a[1..], r), ItemsThen(b[1..], t));
        ItemsPrefixFree(a[1..], b[1..], r, t);
      } else {
        TailsEqual("]", r, t);
      }
      assert a == [a[0]] + a[1..] && b == [b[0]] + b[1..];
    }
  }

  lemma {:induction false} MemberPrefixFree(a: Member, b: Member, r: string, t: string)
    requires Valid(a.value) && Valid(b.value) && Ends(a.value, r) && Ends(b.value, t)
    requires MemberThen(a, r) == MemberThen(b, t)
    ensures a == b && r == t
    decreases a, 0
  {
    var u, v := ":" + Then(a.value, r), ":" + Then(b.value, t);
    TailsEqual("\"", Closing(a.name, u), Closing(b.name, v));
    ClosingPrefixFree(a.name, b.name, u, v);
    TailsEqual(":", Then(a.value, r), Then(b.value, t));
    EncodePrefixFree(a.value, b.value, r, t);
  }

  lemma {:induction false} MembersPrefixFree(a: seq<Member>, b: seq<Member>, r: string, t: string)
    requires Valid(Object(a)) && Valid(Object(b))
    requires MembersThen(a, r) == MembersThen(b, t)
    ensures a == b && r == t
    decreases a, 1
  {
    if a == [] {
      TailsEqual("}", r, t);
    } else {
      var x, y := a[1..], b[1..];
      MemberPrefixFree(a[0], b[0], MoreMembers(x, r), MoreMembers(y, t));
      MorePrefixFree(x, y, r, t);
      assert a == [a[0]] + x && b == [b[0]] + y;
    }
  }

  lemma {:induction false} MorePrefixFree(a: seq<Member>, b: seq<Member>, r: string, t: string)
    requires Valid(Object(a)) && Valid(Object(b))
    requires MoreMembers(a, r) == MoreMembers(b, t)
    ensures a == b && r == t
    decreases a, 2
  {
    if a == [] {
      TailsEqual("}", r, t);
    } else {
      TailsEqual(",", MembersThen(a, r), MembersThen(b, t));
      MembersPrefixFree(a, b, r, t);
    }
  }

  /** The values `SumHash` receives: anything but a bare number, which nothing would delimit. */
  ghost predicate Delimited(vs: seq<Value>)
  {
    forall i :: 0 <= i < |vs| ==> Valid(vs[i]) && !vs[i].Number?
  }

  function StreamThen(vs: seq<Value>, r: string): string
  {
    if vs == [] then r else Then(vs[0], StreamThen(vs[1..], r))
  }

  lemma {:induction false} StreamPrefixFree(a: seq<Value>, b: seq<Value>)
    requires Delimited(a) && Delimited(b)
    requires StreamThen(a, "") == StreamThen(b, "")
    ensures a == b
  {
    if a != [] && b != [] {
      EncodePrefixFree(a[0], b[0], StreamThen(a[1..], ""), StreamThen(b[1..], ""));
      StreamPrefixFree(a[1..], b[1..]);
      assert a == [a[0]] + a[1..] && b == [b[0]] + b[1..];
    }
  }

  // The continuation forms are the encodings.

  lemma {:induction false} ClosingIs(s: string, r: string)
    ensures Closing(s, r) == EscapeChars(s) + ("\"" + r)
  {
    if s == "" {
      assert Closing(s, r) == "" + ("\"" + r);
    } else {
      ClosingIs(s[1..], r);
      Assoc(EscapeChar(s[0]), EscapeChars(s[1..]), "\"" + r);
    }
  }

  lemma Assoc(a: string, b: string, c: string)
    ensures a + b + c == a + (b + c)
  {
  }

  lemma QuoteThenIs(s: string, r: string)
    ensures "\"" + Closing(s, r) == Quote(s) + r
  {
    ClosingIs(s, r);
    Assoc("\"", EscapeChars(s), "\"" + r);
    Assoc("\"" + EscapeChars(s), "\"", r);
  }

  lemma {:induction false} ThenIs(v: Value, r: string)
    ensures Then(v, r) == Encode(v) + r
    decreases v, 0
  {
    match v {
      case Null =>
      case Bool(b) =>
      case Number(l) =>
      case String(s) => QuoteThenIs(s, r);
      case Array(items) =>
        ItemsThenIs(items, r);
        Assoc("[", EncodeItems(items), "]" + r);
        Assoc("[" + EncodeItems(items), "]", r);
      case Object(ms) =>
        MembersThenIs(ms, r);
        Assoc("{", EncodeMembers(ms), "}" + r);
        Assoc("{" + EncodeMembers(ms), "}", r);
    }
  }

  lemma {:induction false} ItemsThenIs(items: seq<Value>, r: string)
    ensures ItemsThen(items, r) == EncodeItems(items) + ("]" + r)
    decreases items, 1
  {
    if items == [] {
      assert ItemsThen(items, r) == "" + ("]" + r);
    } else {
      ThenIs(items[0], MoreItems(items[1..], r));
      if |items| > 1 {
        ItemsThenIs(items[1..], r);
        Assoc4(Encode(items[0]), ",", EncodeItems(items[1..]), "]" + r);
      }
    }
  }

  lemma Assoc4(a: string, b: string, c: string, d: string)
    ensures a + b + c + d == a + (b + (c + d))
  {
    Assoc(a + b, c, d);
    Assoc(a, b, c + d);
  }

  lemma {:induction false} MemberThenIs(m: Member, r: string)
    ensures MemberThen(m, r) == EncodeMember(m) + r
    decreases m, 0
  {
    QuoteThenIs(m.name, ":" + Then(m.value, r));
    ThenIs(m.value, r);
    Assoc4(Quote(m.name), ":", Encode(m.value), r);
  }

  lemma {:induction false} MembersThenIs(ms: seq<Member>, r: string)
    ensures MembersThen(ms, r) == EncodeMembers(ms) + ("}" + r)
    decreases ms, 1
  {
    if ms == [] {
      assert MembersThen(ms, r) == "" + ("}" + r);
    } else {
      MemberThenIs(ms[0], MoreMembers(ms[1..], r));
      if |ms| > 1 {
        MembersThenIs(ms[1..], r);
        Assoc4(EncodeMember(ms[0]), ",", EncodeMembers(ms[1..]), "}" + r);
      }
    }
  }

  lemma {:induction false} StreamThenIs(vs: seq<Value>)
    ensures StreamThen(vs, "") == EncodeStream(vs)
  {
    if vs != [] {
      StreamThenIs(vs[1..]);
      ThenIs(vs[0], EncodeStream(vs[1..]));
    }
  }

  /** A stream without separators is still uniquely decodable. */
  lemma StreamDecodable(a: seq<Value>, b: seq<Value>)
    requires Delimited(a) && Delimited(b)
    ensures EncodeStream(a) == EncodeStream(b) <==> a == b
  {
    StreamThenIs(a);
    StreamThenIs(b);
    if EncodeStream(a) == EncodeStream(b) {
      StreamPrefixFree(a, b);
    }
  }

  /** With bare numbers it would not be: 1 then 2 reads like 12. */
  lemma NumbersAmbiguous()
    ensures EncodeStream([Number("1"), Number("2")]) == EncodeStream([Number("12")])
  {
    assert [Number("1"), Number("2")][1..] == [Number("2")];
  }
}
