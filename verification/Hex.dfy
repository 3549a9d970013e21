/** Hexadecimal digits, as the map-key codec and the serial-number matchers read and print them. */
module Hex {
  import opened Common

  /** The value of one base-16 digit in either letter case. */
  function Value(b: int): (v: Option<Byte>)
    ensures v.Some? ==> v.value < 16 && 0 <= b < 0x80
  {
    if '0' as int <= b <= '9' as int then Some(b - '0' as int)
    else if 'a' as int <= b <= 'f' as int then Some(b - 'a' as int + 10)
    else if 'A' as int <= b <= 'F' as int then Some(b - 'A' as int + 10)
    else None
  }

  predicate IsDigit(c: char) {
    Value(c as int).Some?
  }

  function Digit(d: Byte, upper: bool): (c: char)
    requires d < 16
    ensures Value(c as int) == Some(d)
  {
    if d < 10 then ('0' as int + d) as char
    else ((if upper then 'A' else 'a') as int + d - 10) as char
  }

  function Nibble(b: Byte, high: bool): (d: Byte)
    ensures d < 16
  {
    if high then b / 16 else b % 16
  }

  /** Two digits per byte, high half first. */
  function Print(bytes: seq<Byte>, upper: bool): (s: string)
    ensures |s| == 2 * |bytes|
  {
    seq(2 * |bytes|, j requires 0 <= j < 2 * |bytes| => Digit(Nibble(bytes[j / 2], j % 2 == 0), upper))
  }

  /** `u8::from_str_radix(_, 16)` on two bytes: two digits, or a plus sign and one digit. */
  function ParsePair(hi: int, lo: int): Option<Byte> {
    if hi == '+' as int then Value(lo)
    else match (Value(hi), Value(lo))
      case (Some(h), Some(l)) => Some(16 * h + l)
      case _ => None
  }

  /** Byte `i` is printed in places `2 * i` and `2 * i + 1`. */
  lemma PrintAt(bytes: seq<Byte>, upper: bool, i: nat)
    requires i < |bytes|
    ensures Print(bytes, upper)[2 * i] == Digit(Nibble(bytes[i], true), upper)
    ensures Print(bytes, upper)[2 * i + 1] == Digit(Nibble(bytes[i], false), upper)
  {
    assert (2 * i) / 2 == i && (2 * i + 1) / 2 == i;
  }

  lemma PairOfDigits(hi: int, lo: int, b: Byte, upper: bool)
    requires hi == Digit(Nibble(b, true), upper) as int && lo == Digit(Nibble(b, false), upper) as int
    ensures ParsePair(hi, lo) == Some(b)
  {
  }
}

/** Maps keyed by byte arrays, stored with keys such as "0x001122aabbcc". */
module HexKeyMap {
  import opened Common
  import opened Hex
  import Utf8

  /** The array length is fixed per map type. */
  type Key = seq<Byte>

  datatype Error = MissingPrefix | WrongLength | BadDigits | SliceInsideCharacter

  datatype Result<+T> = Ok(value: T) | Err(error: Error)

  datatype Entry<+T> = Entry(key: string, value: T)

  const PREFIX := "0x"

  function PrintKey(k: Key): (s: string)
    ensures |s| == 2 + 2 * |k|
  {
    PREFIX + Print(k, false)
  }

  predicate CharBoundary(bytes: seq<Byte>, i: nat) {
    i >= |bytes| || !Utf8.Tail(bytes[i])
  }

  /** Pair `i`: slicing inside a character stops the reader before the digits are looked at. */
  function ParsePairAt(digits: seq<Byte>, i: nat): Result<Byte>
    requires 2 * i + 1 < |digits|
  {
    if !CharBoundary(digits, 2 * i) || !CharBoundary(digits, 2 * i + 2) then Err(SliceInsideCharacter)
    else match ParsePair(digits[2 * i], digits[2 * i + 1])
      case None => Err(BadDigits)
      case Some(b) => Ok(b)
  }

  /** The first `n` pairs of digits after the prefix; the first bad pair decides the error. */
  function ParsePairs(digits: seq<Byte>, n: nat): (r: Result<Key>)
    requires 2 * n <= |digits|
    ensures r.Ok? ==> |r.value| == n
  {
    if n == 0 then Ok([])
    else
      var init := ParsePairs(digits, n - 1);
      if init.Err? then init
      else match ParsePairAt(digits, n - 1)
        case Err(e) => Err(e)
        case Ok(b) => Ok(init.value + [b])
  }

  /** One key, over the bytes of the string, as the visitor reads it. */
  function ParseKey(n: nat, key: string): (r: Result<Key>)
    ensures r.Ok? ==> |r.value| == n
  {
    var bytes := Utf8.Encode(key);
    if |bytes| < 2 || bytes[0] != '0' as int || bytes[1] != 'x' as int then Err(MissingPrefix)
    else if |bytes| - 2 != 2 * n then Err(WrongLength)
    else ParsePairs(bytes[2..], n)
  }

  /** Entries are inserted one after the other; the first unreadable key ends the visit. */
  ghost function Parsed<T>(n: nat, entries: seq<Entry<T>>): Result<map<Key, T>> {
    if entries == [] then Ok(map[])
    else
      var last := entries[|entries| - 1];
      match Parsed(n, entries[..|entries| - 1])
      case Err(e) => Err(e)
      case Ok(m) =>
        match ParseKey(n, last.key)
        case Err(e) => Err(e)
        case Ok(k) => Ok(m[k := last.value])
  }

  lemma {:induction false} ErrorPersists<T>(n: nat, entries: seq<Entry<T>>, k: nat)
    requires k <= |entries| && Parsed(n, entries[..k]).Err?
    ensures Parsed(n, entries) == Parsed(n, entries[..k])
  {
    if k < |entries| {
      assert entries[..|entries| - 1][..k] == entries[..k];
      ErrorPersists(n, entries[..|entries| - 1], k);
    } else {
      assert entries[..k] == entries;
    }
  }

  lemma {:induction false} PairErrorPersists(digits: seq<Byte>, k: nat, n: nat)
    requires k <= n && 2 * n <= |digits| && ParsePairs(digits, k).Err?
    ensures ParsePairs(digits, n) == ParsePairs(digits, k)
  {
    if k < n {
      PairErrorPersists(digits, k, n - 1);
    }
  }

  /** The body of the visitor for one key: checks the shape, then fills `arr` pair by pair. */
  method ReadKey(n: nat, key: string) returns (r: Result<Key>)
    ensures r == ParseKey(n, key)
  {
    var bytes := Utf8.Encode(key);
    if |bytes| < 2 || bytes[0] != '0' as int || bytes[1] != 'x' as int {
      return Err(MissingPrefix);
    }
    var s := bytes[2..];
    if |s| != 2 * n {
      return Err(WrongLength);
    }
    var arr := new Byte[n];
    for i := 0 to n
      invariant ParsePairs(s, i) == Ok(arr[..i])
    {
      var pair := ParsePairAt(s, i);
      if pair.Err? {
        PairErrorPersists(s, i + 1, n);
        return Err(pair.error);
      }
      arr[i] := pair.value;
      assert arr[..i + 1] == arr[..i] + [pair.value];
    }
    assert arr[..n] == arr[..];
    r := Ok(arr[..]);
  }

  /** `visit_map`: reads every entry in turn and collects the values. */
  method VisitMap<T>(n: nat, entries: seq<Entry<T>>) returns (r: Result<map<Key, T>>)
    ensures r == Parsed(n, entries)
  {
    var values: map<Key, T> := map[];
    for e := 0 to |entries|
      invariant Parsed(n, entries[..e]) == Ok(values)
    {
      assert entries[..e + 1][..e] == entries[..e];
      var key := ReadKey(n, entries[e].key);
      if key.Err? {
        ErrorPersists(n, entries, e + 1);
        return Err(key.error);
      }
      values := values[key.value := entries[e].value];
    }
    assert entries[..|entries|] == entries;
    r := Ok(values);
  }

  // ---- Round trip ----

  predicate SpellsByte(digits: seq<Byte>, i: nat, b: Byte)
    requires 2 * i + 1 < |digits|
  {
    && digits[2 * i] == Digit(Nibble(b, true), false) as int
    && digits[2 * i + 1] == Digit(Nibble(b, false), false) as int
  }

  /** The bytes `digits` spell the digits of `k`. */
  ghost predicate Spells(digits: seq<Byte>, k: Key) {
    |digits| == 2 * |k| && forall i | 0 <= i < |k| :: SpellsByte(digits, i, k[i])
  }

  lemma BytesOfPrintedKey(k: Key)
    ensures var bytes := Utf8.Encode(PrintKey(k));
            |bytes| == 2 + 2 * |k| && bytes[0] == '0' as int && bytes[1] == 'x' as int && Spells(bytes[2..], k)
  {
    PrintsLowerCase(k);
    Utf8.EncodeAscii(PrintKey(k));
    forall i | 0 <= i < |k|
      ensures SpellsByte(Utf8.Encode(PrintKey(k))[2..], i, k[i])
    {
      PrintedAt(k, i);
    }
  }

  lemma PrintedAt(k: Key, i: nat)
    requires i < |k|
    ensures PrintKey(k)[2 + 2 * i] == Digit(Nibble(k[i], true), false)
    ensures PrintKey(k)[3 + 2 * i] == Digit(Nibble(k[i], false), false)
  {
    PrintAt(k, false, i);
  }

  lemma {:induction false} PairsOfSpelledKey(digits: seq<Byte>, k: Key, n: nat)
    requires Spells(digits, k) && n <= |k|
    ensures ParsePairs(digits, n) == Ok(k[..n])
  {
    if n > 0 {
      PairsOfSpelledKey(digits, k, n - 1);
      assert SpellsByte(digits, n - 1, k[n - 1]);
      PairOfDigits(digits[2 * n - 2], digits[2 * n - 1], k[n - 1], false);
      assert n < |k| ==> SpellsByte(digits, n, k[n]);
      assert k[..n] == k[..n - 1] + [k[n - 1]];
    }
  }

  /** A printed key reads back as itself. */
  lemma KeyRoundTrip(k: Key)
    ensures ParseKey(|k|, PrintKey(k)) == Ok(k)
  {
    BytesOfPrintedKey(k);
    PairsOfSpelledKey(Utf8.Encode(PrintKey(k))[2..], k, |k|);
    assert k[..|k|] == k;
  }

  /** One order in which the hash map may hand out its entries. */
  ghost predicate Enumerates<T>(order: seq<(Key, T)>, m: map<Key, T>) {
    && (forall i | 0 <= i < |order| :: order[i].0 in m && m[order[i].0] == order[i].1)
    && (forall i, j | 0 <= i < j < |order| :: order[i].0 != order[j].0)
    && (forall k | k in m :: exists i :: 0 <= i < |order| && order[i].0 == k)
  }

  function Printed<T>(order: seq<(Key, T)>): seq<Entry<T>> {
    seq(|order|, i requires 0 <= i < |order| => Entry(PrintKey(order[i].0), order[i].1))
  }

  lemma PrintedLast<T>(order: seq<(Key, T)>)
    requires order != []
    ensures var last := order[|order| - 1];
            Printed(order) == Printed(order[..|order| - 1]) + [Entry(PrintKey(last.0), last.1)]
  {
  }

  /** Serialising takes the entries in whatever order the map yields them. */
  method Serialize<T>(m: map<Key, T>) returns (out: seq<Entry<T>>)
    ensures exists order :: Enumerates(order, m) && out == Printed(order)
  {
    out := [];
    ghost var order: seq<(Key, T)> := [];
    ghost var done: map<Key, T> := map[];
    var todo := m.Keys;
    while todo != {}
      invariant todo <= m.Keys && done.Keys == m.Keys - todo
      invariant forall k | k in done :: done[k] == m[k]
      invariant Enumerates(order, done)
      invariant out == Printed(order)
    {
      var k :| k in todo;
      EnumerateOneMore(order, done, k, m[k]);
      out := out + [Entry(PrintKey(k), m[k])];
      order := order + [(k, m[k])];
      done := done[k := m[k]];
      todo := todo - {k};
    }
    assert done == m;
  }

  lemma EnumerateOneMore<T>(order: seq<(Key, T)>, m: map<Key, T>, k: Key, value: T)
    requires Enumerates(order, m) && k !in m
    ensures Enumerates(order + [(k, value)], m[k := value])
  {
    var longer := order + [(k, value)];
    var m' := m[k := value];
    forall q | q in m'
      ensures exists i :: 0 <= i < |longer| && longer[i].0 == q
    {
      if q == k {
        assert longer[|order|].0 == q;
      } else {
        var i :| 0 <= i < |order| && order[i].0 == q;
        assert longer[i].0 == q;
      }
    }
  }

  lemma EnumerateOneLess<T>(order: seq<(Key, T)>, m: map<Key, T>)
    requires Enumerates(order, m) && order != []
    ensures var last := order[|order| - 1];
            && Enumerates(order[..|order| - 1], m - {last.0})
            && m == (m - {last.0})[last.0 := last.1]
  {
    var last := order[|order| - 1];
    var init := order[..|order| - 1];
    forall k | k in m - {last.0}
      ensures exists i :: 0 <= i < |init| && init[i].0 == k
    {
      var i :| 0 <= i < |order| && order[i].0 == k;
      assert init[i].0 == k;
    }
  }

  lemma ParsedOneMore<T>(n: nat, entries: seq<Entry<T>>, m: map<Key, T>, last: Entry<T>, k: Key)
    requires Parsed(n, entries) == Ok(m) && ParseKey(n, last.key) == Ok(k)
    ensures Parsed(n, entries + [last]) == Ok(m[k := last.value])
  {
    assert (entries + [last])[..|entries|] == entries;
  }

  lemma {:induction false} ParsedPrinted<T>(n: nat, order: seq<(Key, T)>, m: map<Key, T>)
    requires Enumerates(order, m) && forall k | k in m :: |k| == n
    ensures Parsed(n, Printed(order)) == Ok(m)
  {
    if order == [] {
      assert m == map[];
    } else {
      var k := order[|order| - 1].0;
      var init := order[..|order| - 1];
      EnumerateOneLess(order, m);
      ParsedPrinted(n, init, m - {k});
      KeyRoundTrip(k);
      ParsedOneMore(n, Printed(init), m - {k}, Entry(PrintKey(k), order[|order| - 1].1), k);
      PrintedLast(order);
    }
  }

  /** Every map comes back from every order of its printed entries, whose keys never collide. */
  lemma MapRoundTrip<T>(n: nat, order: seq<(Key, T)>, m: map<Key, T>)
    requires Enumerates(order, m) && forall k | k in m :: |k| == n
    ensures Parsed(n, Printed(order)) == Ok(m)
    ensures forall i, j | 0 <= i < j < |order| :: Printed(order)[i].key != Printed(order)[j].key
  {
    ParsedPrinted(n, order, m);
    forall i, j | 0 <= i < j < |order|
      ensures Printed(order)[i].key != Printed(order)[j].key
    {
      KeyRoundTrip(order[i].0);
      KeyRoundTrip(order[j].0);
    }
  }

  predicate LowerCaseDigit(c: char) {
    '0' <= c <= '9' || 'a' <= c <= 'f'
  }

  /**
   * The reader is more liberal than the printer (upper case, and a plus sign in place of a leading zero):
   * among the keys it accepts, printing gives back exactly those written in lower-case digits.
   */
  lemma PrintInvertsParseExactly(n: nat, key: string)
    requires ParseKey(n, key).Ok?
    ensures PrintKey(ParseKey(n, key).value) == key <==>
            forall i | 2 <= i < |key| :: LowerCaseDigit(key[i])
  {
    PrintsLowerCase(ParseKey(n, key).value);
    if forall i | 2 <= i < |key| :: LowerCaseDigit(key[i]) {
      LowerCaseKeyIsPrinted(n, key);
    }
  }

  lemma PrefixIsPrinted(k: Key, key: string, j: nat)
    requires |key| >= 2 && key[..2] == PREFIX && j < 2
    ensures PrintKey(k)[j] == key[j]
  {
    assert key[j] == key[..2][j] == PREFIX[j];
  }

  lemma LowerCaseKeyIsPrinted(n: nat, key: string)
    requires ParseKey(n, key).Ok? && forall i | 2 <= i < |key| :: LowerCaseDigit(key[i])
    ensures PrintKey(ParseKey(n, key).value) == key
  {
    var k := ParseKey(n, key).value;
    AcceptedPrefix(n, key);
    Utf8.EncodeAscii(key);
    forall j | 0 <= j < |key|
      ensures PrintKey(k)[j] == key[j]
    {
      if j < 2 {
        PrefixIsPrinted(k, key, j);
      } else {
        var i := (j - 2) / 2;
        LowerCasePair(n, key, i);
        assert j == 2 + 2 * i || j == 3 + 2 * i;
      }
    }
  }

  lemma PrintsLowerCase(k: Key)
    ensures forall j | 2 <= j < |PrintKey(k)| :: LowerCaseDigit(PrintKey(k)[j])
  {
    forall j | 2 <= j < |PrintKey(k)|
      ensures LowerCaseDigit(PrintKey(k)[j])
    {
      PrintedAt(k, (j - 2) / 2);
    }
  }

  lemma LowerCaseDigits(hi: char, lo: char, b: Byte)
    requires LowerCaseDigit(hi) && LowerCaseDigit(lo) && ParsePair(hi as int, lo as int) == Some(b)
    ensures hi == Digit(Nibble(b, true), false) && lo == Digit(Nibble(b, false), false)
  {
  }

  lemma LowerCasePair(n: nat, key: string, i: nat)
    requires ParseKey(n, key).Ok? && i < n && |key| == |Utf8.Encode(key)|
    requires forall j | 0 <= j < |key| :: Utf8.Encode(key)[j] == key[j] as int
    requires LowerCaseDigit(key[2 + 2 * i]) && LowerCaseDigit(key[3 + 2 * i])
    ensures var s := PrintKey(ParseKey(n, key).value); s[2 + 2 * i] == key[2 + 2 * i] && s[3 + 2 * i] == key[3 + 2 * i]
  {
    var k := ParseKey(n, key).value;
    AcceptedPair(Utf8.Encode(key)[2..], n, i);
    LowerCaseDigits(key[2 + 2 * i], key[3 + 2 * i], k[i]);
    PrintedAt(k, i);
  }

  lemma AcceptedPrefix(n: nat, key: string)
    requires ParseKey(n, key).Ok?
    ensures |key| >= 2 && key[..2] == PREFIX
  {
    assert key != [];
    assert Utf8.Encode(key)[0] == Utf8.EncodeChar(key[0])[0];
    assert key[0] == '0' && Utf8.EncodeChar(key[0]) == [0x30];
    assert Utf8.Encode(key)[1] == Utf8.Encode(key[1..])[0] == Utf8.EncodeChar(key[1])[0];
  }

  lemma {:induction false} AcceptedPair(digits: seq<Byte>, n: nat, i: nat)
    requires i < n && 2 * n <= |digits| && ParsePairs(digits, n).Ok?
    ensures ParsePair(digits[2 * i], digits[2 * i + 1]) == Some(ParsePairs(digits, n).value[i])
  {
    if i < n - 1 {
      AcceptedPair(digits, n - 1, i);
    }
  }
}

/** The two independent tests that relate a USB serial number to a device UUID. */
module UsbSerial {
  import opened Common
  import opened Hex

  /** `chars().filter(is_ascii_hexdigit).collect()`. */
  function Clean(s: string): (r: string)
    ensures forall i | 0 <= i < |r| :: IsDigit(r[i])
  {
    if s == [] then []
    else if IsDigit(s[0]) then [s[0]] + Clean(s[1..])
    else Clean(s[1..])
  }

  /** Cleaning keeps exactly the hexadecimal digits, in either case, each where it stood among the others. */
  lemma {:induction false} CleanKeepsDigits(before: string, c: char, after: string)
    ensures Clean("") == ""
    ensures Clean(before + [c] + after) ==
            Clean(before)
            + (if '0' <= c <= '9' || 'a' <= c <= 'f' || 'A' <= c <= 'F' then [c] else []) + Clean(after)
  {
    var s := before + [c] + after;
    if before == [] {
      assert s[1..] == after;
    } else {
      assert s[1..] == before[1..] + [c] + after;
      CleanKeepsDigits(before[1..], c, after);
    }
  }

  function AsciiLower(c: char): char {
    if 'A' <= c <= 'Z' then (c as int + 32) as char else c
  }

  predicate EqIgnoreAsciiCase(a: string, b: string) {
    |a| == |b| && forall i | 0 <= i < |a| :: AsciiLower(a[i]) == AsciiLower(b[i])
  }

  /** The firmware module's test: print the UUID in upper case and compare without regard to case. */
  predicate FirmwareAccepts(serial: string, uuid: Uuid) {
    EqIgnoreAsciiCase(Clean(serial), Print(uuid, true))
  }

  lemma SameDigit(c: char, d: Byte)
    requires d < 16 && IsDigit(c)
    ensures Value(c as int) == Some(d) <==> AsciiLower(c) == AsciiLower(Digit(d, true))
  {
  }

  lemma SamePair(hi: char, lo: char, b: Byte)
    requires IsDigit(hi) && IsDigit(lo)
    ensures ParsePair(hi as int, lo as int) == Some(b) <==>
            && AsciiLower(hi) == AsciiLower(Digit(Nibble(b, true), true))
            && AsciiLower(lo) == AsciiLower(Digit(Nibble(b, false), true))
  {
    SameDigit(hi, Nibble(b, true));
    SameDigit(lo, Nibble(b, false));
  }

  /** Two digits of the serial number spell byte `b`. */
  predicate PairIs(clean: string, i: nat, b: Byte)
    requires 2 * i + 1 < |clean|
  {
    ParsePair(clean[2 * i] as int, clean[2 * i + 1] as int) == Some(b)
  }

  lemma SamePairAt(clean: string, uuid: Uuid, i: nat)
    requires |clean| == 12 && i < 6 && IsDigit(clean[2 * i]) && IsDigit(clean[2 * i + 1])
    ensures PairIs(clean, i, uuid[i]) <==>
            && AsciiLower(clean[2 * i]) == AsciiLower(Print(uuid, true)[2 * i])
            && AsciiLower(clean[2 * i + 1]) == AsciiLower(Print(uuid, true)[2 * i + 1])
  {
    PrintAt(uuid, true, i);
    SamePair(clean[2 * i], clean[2 * i + 1], uuid[i]);
  }

  lemma PairGivesPlace(clean: string, uuid: Uuid, j: nat)
    requires |clean| == 12 && j < 12 && forall i | 0 <= i < 12 :: IsDigit(clean[i])
    requires PairIs(clean, j / 2, uuid[j / 2])
    ensures AsciiLower(clean[j]) == AsciiLower(Print(uuid, true)[j])
  {
    SamePairAt(clean, uuid, j / 2);
    assert j == 2 * (j / 2) || j == 2 * (j / 2) + 1;
  }

  lemma PlacesGivePair(clean: string, uuid: Uuid, i: nat)
    requires |clean| == 12 && i < 6 && (forall j | 0 <= j < 12 :: IsDigit(clean[j]))
    requires EqIgnoreAsciiCase(clean, Print(uuid, true))
    ensures PairIs(clean, i, uuid[i])
  {
    SamePairAt(clean, uuid, i);
  }

  lemma AcceptsPairwise(clean: string, uuid: Uuid)
    requires |clean| == 12 && forall i | 0 <= i < 12 :: IsDigit(clean[i])
    ensures EqIgnoreAsciiCase(clean, Print(uuid, true)) <==> forall i | 0 <= i < 6 :: PairIs(clean, i, uuid[i])
  {
    if EqIgnoreAsciiCase(clean, Print(uuid, true)) {
      forall i | 0 <= i < 6
        ensures PairIs(clean, i, uuid[i])
      {
        PlacesGivePair(clean, uuid, i);
      }
    }
    if forall i | 0 <= i < 6 :: PairIs(clean, i, uuid[i]) {
      forall j | 0 <= j < 12
        ensures AsciiLower(clean[j]) == AsciiLower(Print(uuid, true)[j])
      {
        var i := j / 2;
        assert PairIs(clean, i, uuid[i]);
        PairGivesPlace(clean, uuid, j);
      }
    }
  }

  /** Reads a UUID out of a serial number: exactly the one UUID, if any, that the firmware module accepts for it. */
  method UuidFromUsbSerial(serial: Option<string>) returns (r: Option<Uuid>)
    ensures forall u: Uuid :: r == Some(u) <==> serial.Some? && FirmwareAccepts(serial.value, u)
  {
    if serial.None? {
      return None;
    }
    var clean := Clean(serial.value);
    if |clean| != 12 {
      return None;
    }
    var uuid := new Byte[6];
    for i := 0 to 6
      invariant forall j | 0 <= j < i :: PairIs(clean, j, uuid[j])
    {
      var pair := ParsePair(clean[2 * i] as int, clean[2 * i + 1] as int);
      uuid[i] := pair.value;
    }
    forall u: Uuid
      ensures uuid[..] == u <==> FirmwareAccepts(serial.value, u)
    {
      AcceptsPairwise(clean, u);
      assert uuid[..] == u <==> forall i | 0 <= i < 6 :: uuid[i] == u[i];
    }
    r := Some(uuid[..]);
  }

  datatype UsbDevice = UsbDevice(vid: U16, pid: U16, serial: Option<string>)

  predicate Carries(d: UsbDevice, uuid: Uuid) {
    d.serial.Some? && FirmwareAccepts(d.serial.value, uuid)
  }

  /**
   * Looking a device up for flashing: the first device of that kind carrying the UUID,
   * failing that the first device of that kind, failing that nothing.
   */
  method FindDeviceByUuid(uuid: Uuid, vid: U16, pid: U16, scan: seq<UsbDevice>) returns (r: Option<UsbDevice>)
    ensures r.None? <==> forall d | d in scan :: !(d.vid == vid && d.pid == pid)
    ensures r.Some? ==>
              exists i :: && 0 <= i < |scan| && r == Some(scan[i]) && scan[i].vid == vid && scan[i].pid == pid
                          && (forall j | 0 <= j < |scan| && scan[j].vid == vid && scan[j].pid == pid ::
                                if Carries(scan[i], uuid) then j < i ==> !Carries(scan[j], uuid)
                                else i <= j && !Carries(scan[j], uuid))
  {
    var fallback := |scan|;
    for i := 0 to |scan|
      invariant forall j | 0 <= j < i && scan[j].vid == vid && scan[j].pid == pid ::
                  fallback <= j && !Carries(scan[j], uuid)
      invariant 0 <= fallback <= |scan| && (fallback < i || fallback == |scan|)
      invariant fallback < |scan| ==> scan[fallback].vid == vid && scan[fallback].pid == pid
    {
      if scan[i].vid == vid && scan[i].pid == pid {
        if Carries(scan[i], uuid) {
          return Some(scan[i]);
        }
        if fallback == |scan| {
          fallback := i;
        }
      }
    }
    return if fallback < |scan| then Some(scan[fallback]) else None;
  }
}
