/** UTF-8 as `str` stores it. A `string` here is a sequence of Unicode scalar values, as in Rust. */
module Utf8 {
  import opened Common

  /** The four six-bit digits of a scalar value, most significant first. */
  function Digits(x: int): (d: (int, int, int, int))
    requires 0 <= x < 0x11_0000
    ensures 0 <= d.0 <= 4 && 0 <= d.1 < 0x40 && 0 <= d.2 < 0x40 && 0 <= d.3 < 0x40
    ensures x == Compose(d.0, d.1, d.2, d.3)
  {
    var y := x / 0x40;
    var z := y / 0x40;
    (z / 0x40, z % 0x40, y % 0x40, x % 0x40)
  }

  function Compose(d0: int, d1: int, d2: int, d3: int): int {
    d0 * 0x4_0000 + d1 * 0x1000 + d2 * 0x40 + d3
  }

  lemma DigitsUnique(x: int, d0: int, d1: int, d2: int, d3: int)
    requires 0 <= x < 0x11_0000 && 0 <= d0 <= 4 && 0 <= d1 < 0x40 && 0 <= d2 < 0x40 && 0 <= d3 < 0x40
    requires x == Compose(d0, d1, d2, d3)
    ensures Digits(x) == (d0, d1, d2, d3)
  {
    var (e0, e1, e2, e3) := Digits(x);
    SameQuotient((d0 * 0x40 + d1) * 0x40 + d2, d3, (e0 * 0x40 + e1) * 0x40 + e2, e3);
    SameQuotient(d0 * 0x40 + d1, d2, e0 * 0x40 + e1, e2);
    SameQuotient(d0, d1, e0, e1);
  }

  lemma SameQuotient(q: int, r: int, q': int, r': int)
    requires 0 <= r < 0x40 && 0 <= r' < 0x40 && q * 0x40 + r == q' * 0x40 + r'
    ensures q == q' && r == r'
  {
  }

  function EncodeChar(c: char): (b: seq<Byte>)
    ensures 1 <= |b| <= 4
    ensures 0 in b <==> c as int == 0
  {
    var x := c as int;
    var (d0, d1, d2, d3) := Digits(x);
    if x < 0x80 then [x]
    else if x < 0x800 then [0xC0 + d2, 0x80 + d3]
    else if x < 0x1_0000 then [0xE0 + d1, 0x80 + d2, 0x80 + d3]
    else [0xF0 + d0, 0x80 + d1, 0x80 + d2, 0x80 + d3]
  }

  function Encode(s: string): seq<Byte> {
    if s == [] then [] else EncodeChar(s[0]) + Encode(s[1..])
  }

  predicate Tail(b: Byte) {
    0x80 <= b <= 0xBF
  }

  datatype First = First(scalar: char, length: nat)

  /** The first character of a byte string, by the grammar of section 4 of RFC 3629. */
  function DecodeFirst(b: seq<Byte>): (r: Option<First>)
    ensures r.Some? ==> 1 <= r.value.length <= |b|
  {
    if |b| >= 1 && b[0] <= 0x7F then
      Some(First(b[0] as char, 1))
    else if |b| >= 2 && 0xC2 <= b[0] <= 0xDF && Tail(b[1]) then
      Some(First(Compose(0, 0, b[0] - 0xC0, b[1] - 0x80) as char, 2))
    else if && |b| >= 3 && 0xE0 <= b[0] <= 0xEF && Tail(b[1]) && Tail(b[2])
            && (b[0] == 0xE0 ==> 0xA0 <= b[1]) && (b[0] == 0xED ==> b[1] <= 0x9F) then
      Some(First(Compose(0, b[0] - 0xE0, b[1] - 0x80, b[2] - 0x80) as char, 3))
    else if && |b| >= 4 && 0xF0 <= b[0] <= 0xF4 && Tail(b[1]) && Tail(b[2]) && Tail(b[3])
            && (b[0] == 0xF0 ==> 0x90 <= b[1]) && (b[0] == 0xF4 ==> b[1] <= 0x8F) then
      Some(First(Compose(b[0] - 0xF0, b[1] - 0x80, b[2] - 0x80, b[3] - 0x80) as char, 4))
    else
      None
  }

  /** `str::from_utf8`. */
  function Decode(b: seq<Byte>): Option<string>
    decreases |b|
  {
    if b == [] then Some([])
    else
      match DecodeFirst(b)
      case None => None
      case Some(first) =>
        match Decode(b[first.length..])
        case None => None
        case Some(rest) => Some([first.scalar] + rest)
  }

  lemma FirstOfTwo(d2: int, d3: int, rest: seq<Byte>)
    requires 2 <= d2 < 0x20 && 0 <= d3 < 0x40
    ensures DecodeFirst([0xC0 + d2, 0x80 + d3] + rest) == Some(First(Compose(0, 0, d2, d3) as char, 2))
  {
  }

  lemma FirstOfThree(d1: int, d2: int, d3: int, rest: seq<Byte>)
    requires 0 <= d1 < 0x10 && 0 <= d2 < 0x40 && 0 <= d3 < 0x40
    requires (d1 == 0 ==> d2 >= 0x20) && (d1 == 0xD ==> d2 < 0x20)
    ensures DecodeFirst([0xE0 + d1, 0x80 + d2, 0x80 + d3] + rest) == Some(First(Compose(0, d1, d2, d3) as char, 3))
  {
    var b: seq<Byte> := [0xE0 + d1, 0x80 + d2, 0x80 + d3] + rest;
    assert b[0] == 0xE0 + d1 && b[1] == 0x80 + d2 && b[2] == 0x80 + d3;
  }

  lemma FirstOfFour(d0: int, d1: int, d2: int, d3: int, rest: seq<Byte>)
    requires 0 <= d0 <= 4 && 0 <= d1 < 0x40 && 0 <= d2 < 0x40 && 0 <= d3 < 0x40
    requires (d0 == 0 ==> d1 >= 0x10) && (d0 == 4 ==> d1 < 0x10)
    ensures DecodeFirst([0xF0 + d0, 0x80 + d1, 0x80 + d2, 0x80 + d3] + rest)
         == Some(First(Compose(d0, d1, d2, d3) as char, 4))
  {
    var b: seq<Byte> := [0xF0 + d0, 0x80 + d1, 0x80 + d2, 0x80 + d3] + rest;
    assert b[0] == 0xF0 + d0 && b[1] == 0x80 + d1 && b[2] == 0x80 + d2 && b[3] == 0x80 + d3;
  }

  lemma FirstOfEncoded(c: char, rest: seq<Byte>)
    ensures DecodeFirst(EncodeChar(c) + rest) == Some(First(c, |EncodeChar(c)|))
  {
    var x := c as int;
    var (d0, d1, d2, d3) := Digits(x);
    if x >= 0x1_0000 {
      FirstOfFour(d0, d1, d2, d3, rest);
    } else if x >= 0x800 {
      FirstOfThree(d1, d2, d3, rest);
    } else if x >= 0x80 {
      FirstOfTwo(d2, d3, rest);
    }
  }

  lemma EncodeOfDigits(c: char, d0: int, d1: int, d2: int, d3: int)
    requires 0 <= d0 <= 4 && 0 <= d1 < 0x40 && 0 <= d2 < 0x40 && 0 <= d3 < 0x40 && c as int == Compose(d0, d1, d2, d3)
    ensures d0 > 0 || d1 >= 0x10 ==> EncodeChar(c) == [0xF0 + d0, 0x80 + d1, 0x80 + d2, 0x80 + d3]
    ensures d0 == 0 && d1 < 0x10 && (d1 > 0 || d2 >= 0x20) ==> EncodeChar(c) == [0xE0 + d1, 0x80 + d2, 0x80 + d3]
    ensures d0 == 0 && d1 == 0 && 2 <= d2 < 0x20 ==> EncodeChar(c) == [0xC0 + d2, 0x80 + d3]
  {
    DigitsUnique(c as int, d0, d1, d2, d3);
  }

  lemma FirstIsEncoded(b: seq<Byte>)
    requires DecodeFirst(b).Some?
    ensures var first := DecodeFirst(b).value; b[..first.length] == EncodeChar(first.scalar)
  {
    var first := DecodeFirst(b).value;
    if first.length == 2 {
      EncodeOfDigits(first.scalar, 0, 0, b[0] - 0xC0, b[1] - 0x80);
    } else if first.length == 3 {
      EncodeOfDigits(first.scalar, 0, b[0] - 0xE0, b[1] - 0x80, b[2] - 0x80);
    } else if first.length == 4 {
      EncodeOfDigits(first.scalar, b[0] - 0xF0, b[1] - 0x80, b[2] - 0x80, b[3] - 0x80);
    }
  }

  /** The decoder accepts exactly the encodings, and inverts the encoder. */
  lemma {:induction false} DecodeExactly(b: seq<Byte>, s: string)
    ensures Decode(b) == Some(s) <==> b == Encode(s)
    decreases |b| + |s|
  {
    if b == Encode(s) && s != [] {
      FirstOfEncoded(s[0], Encode(s[1..]));
      assert b[|EncodeChar(s[0])|..] == Encode(s[1..]);
      DecodeExactly(b[|EncodeChar(s[0])|..], s[1..]);
      assert [s[0]] + s[1..] == s;
    }
    if Decode(b) == Some(s) && b != [] {
      var first := DecodeFirst(b).value;
      FirstIsEncoded(b);
      DecodeExactly(b[first.length..], s[1..]);
      assert b == b[..first.length] + b[first.length..];
    }
  }

  lemma {:induction false} EncodeConcat(s: string, t: string)
    ensures Encode(s + t) == Encode(s) + Encode(t)
  {
    if s == [] {
      assert s + t == t;
    } else {
      assert (s + t)[1..] == s[1..] + t;
      EncodeConcat(s[1..], t);
    }
  }

  lemma Regroup(whole: seq<Byte>, n: nat, a: seq<Byte>, b: seq<Byte>)
    requires n <= |whole| && whole[..n] == a + b
    ensures whole == a + (b + whole[n..])
  {
    assert whole == whole[..n] + whole[n..];
  }

  lemma EncodedPrefixStep(s: string, t: string, n: nat)
    requires n <= |Encode(s)| && Encode(s)[..n] == Encode(t) && t != []
    ensures var k := |EncodeChar(t[0])|;
            s != [] && s[0] == t[0] && k <= n <= k + |Encode(s[1..])| && Encode(s[1..])[..n - k] == Encode(t[1..])
  {
    var rest := Encode(s)[n..];
    Regroup(Encode(s), n, EncodeChar(t[0]), Encode(t[1..]));
    SameFirst(s[0], Encode(s[1..]), t[0], Encode(t[1..]) + rest);
  }

  /** A prefix of an encoding is itself an encoding only when it stops between two characters. */
  lemma {:induction false} EncodedPrefix(s: string, t: string, n: nat)
    requires n <= |Encode(s)| && Encode(s)[..n] == Encode(t)
    ensures t <= s
  {
    if t != [] {
      EncodedPrefixStep(s, t, n);
      EncodedPrefix(s[1..], t[1..], n - |EncodeChar(t[0])|);
    }
  }

  lemma SameFirst(c: char, rest: seq<Byte>, c': char, rest': seq<Byte>)
    requires EncodeChar(c) + rest == EncodeChar(c') + rest'
    ensures c == c' && rest == rest'
  {
    FirstOfEncoded(c, rest);
    FirstOfEncoded(c', rest');
    var k := |EncodeChar(c)|;
    assert rest == (EncodeChar(c) + rest)[k..];
    assert rest' == (EncodeChar(c') + rest')[k..];
  }

  lemma {:induction false} NulOnlyFromNul(s: string)
    ensures 0 in Encode(s) <==> 0 as char in s
  {
    if s != [] {
      NulOnlyFromNul(s[1..]);
      assert s == [s[0]] + s[1..];
      assert 0 in Encode(s) <==> 0 in EncodeChar(s[0]) || 0 in Encode(s[1..]);
    }
  }

  lemma {:induction false} EncodeAscii(s: string)
    requires forall i | 0 <= i < |s| :: s[i] as int < 0x80
    ensures |Encode(s)| == |s| && forall i | 0 <= i < |s| :: Encode(s)[i] == s[i] as int
  {
    if s != [] {
      EncodeAscii(s[1..]);
    }
  }
}
