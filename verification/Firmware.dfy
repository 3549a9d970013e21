/** Choosing the firmware to offer to a device. */
module Firmware {
  import opened Common

  /** Hashes and sizes of the files play no part in the choice, so only their names are kept. */
  datatype FirmwareEntry = FirmwareEntry(version: string, files: set<string>, released: string)

  type Manifest = map<string, seq<FirmwareEntry>>

  function Split(s: string, separator: char): (parts: seq<string>)
    ensures |parts| >= 1
  {
    if s == [] then [[]]
    else
      var rest := Split(s[1..], separator);
      if s[0] == separator then [[]] + rest
      else [[s[0]] + rest[0]] + rest[1..]
  }

  function Decimal(s: string): (r: Option<nat>) {
    if s == [] then Some(0)
    else
      var last := s[|s| - 1];
      match Decimal(s[..|s| - 1])
      case None => None
      case Some(n) => if '0' <= last <= '9' then Some(10 * n + (last as int - '0' as int)) else None
  }

  /** `str::parse::<u16>`: an optional plus sign, at least one digit, no overflow. */
  function ParseU16(s: string): (r: Option<U16>) {
    var digits := if s != [] && s[0] == '+' then s[1..] else s;
    if digits == [] then None
    else match Decimal(digits)
      case Some(n) => if n < 0x1_0000 then Some(n) else None
      case None => None
  }

  function VersionParts(e: FirmwareEntry): Option<Version> {
    var parts := Split(e.version, '.');
    if |parts| != 3 then None
    else match (ParseU16(parts[0]), ParseU16(parts[1]), ParseU16(parts[2]))
      case (Some(a), Some(b), Some(c)) => Some(Version(a, b, c))
      case _ => None
  }

  predicate Compatible(device: Version, manifest: Version) {
    if device.major == 0 && manifest.major == 0 then device.minor == manifest.minor
    else device.major == manifest.major
  }

  predicate Newer(device: Version, manifest: Version) {
    if manifest.major != device.major then manifest.major > device.major
    else if manifest.minor != device.minor then manifest.minor > device.minor
    else manifest.patch > device.patch
  }

  /** The field-by-field test is the lexicographic order, hence a strict total order. */
  lemma NewerIsStrictTotalOrder(a: Version, b: Version, c: Version)
    ensures Newer(a, b) <==> a.Less(b)
    ensures !Newer(a, a)
    ensures Newer(a, b) && Newer(b, c) ==> Newer(a, c)
    ensures a == b || Newer(a, b) || Newer(b, a)
  {
  }

  lemma CompatibleIsEquivalence(a: Version, b: Version, c: Version)
    ensures Compatible(a, a)
    ensures Compatible(a, b) ==> Compatible(b, a)
    ensures Compatible(a, b) && Compatible(b, c) ==> Compatible(a, c)
  {
  }

  predicate Offered(device: Version, e: FirmwareEntry) {
    match VersionParts(e)
    case Some(v) => Compatible(device, v) && Newer(device, v)
    case None => false
  }

  /** What the manifest promises: versions that can be read appear newest first. */
  ghost predicate NewestFirst(entries: seq<FirmwareEntry>) {
    forall i, j | 0 <= i < j < |entries| && VersionParts(entries[i]).Some? && VersionParts(entries[j]).Some? ::
      !Newer(VersionParts(entries[i]).value, VersionParts(entries[j]).value)
  }

  /** `r` is the first entry on offer, or none is. */
  ghost predicate IsChoice(entries: seq<FirmwareEntry>, device: Version, r: Option<FirmwareEntry>) {
    match r
    case None => forall e | e in entries :: !Offered(device, e)
    case Some(e) =>
      exists i :: 0 <= i < |entries| && entries[i] == e && Offered(device, e) &&
                  forall j | 0 <= j < i :: !Offered(device, entries[j])
  }

  function EntriesFor(manifest: Manifest, deviceType: string): seq<FirmwareEntry> {
    if deviceType in manifest then manifest[deviceType] else []
  }

  method FindCompatibleFirmware(manifest: Manifest, deviceType: string, device: Version)
    returns (r: Option<FirmwareEntry>)
    ensures IsChoice(EntriesFor(manifest, deviceType), device, r)
  {
    if deviceType !in manifest {
      return None;
    }
    var firmwares := manifest[deviceType];
    for i := 0 to |firmwares|
      invariant forall j | 0 <= j < i :: !Offered(device, firmwares[j])
    {
      var version := VersionParts(firmwares[i]);
      if version.Some? {
        if Compatible(device, version.value) && Newer(device, version.value) {
          return Some(firmwares[i]);
        }
      }
    }
    r := None;
  }

  /** The first match is the greatest version on offer, and there is none exactly when nothing is on offer. */
  lemma ChoiceIsGreatest(entries: seq<FirmwareEntry>, device: Version, r: Option<FirmwareEntry>)
    requires NewestFirst(entries) && IsChoice(entries, device, r)
    ensures r.None? <==> forall e | e in entries :: !Offered(device, e)
    ensures r.Some? ==> r.value in entries && Offered(device, r.value)
    ensures r.Some? ==> forall e | e in entries && Offered(device, e) ::
                          !Newer(VersionParts(r.value).value, VersionParts(e).value)
  {
    if r.Some? {
      var i :| && 0 <= i < |entries| && entries[i] == r.value
               && forall j | 0 <= j < i :: !Offered(device, entries[j]);
      forall e | e in entries && Offered(device, e)
        ensures !Newer(VersionParts(r.value).value, VersionParts(e).value)
      {
        var j :| 0 <= j < |entries| && entries[j] == e;
        assert j >= i;
      }
    }
  }

  /** A device that installs what it was offered is offered nothing more from the same list. */
  lemma NoSecondOffer(entries: seq<FirmwareEntry>, device: Version, e: FirmwareEntry, r: Option<FirmwareEntry>)
    requires NewestFirst(entries) && IsChoice(entries, device, Some(e))
    requires IsChoice(entries, VersionParts(e).value, r)
    ensures r == None
  {
    ChoiceIsGreatest(entries, device, Some(e));
    if r.Some? {
      var installed := VersionParts(e).value;
      var next := VersionParts(r.value).value;
      CompatibleIsEquivalence(device, installed, next);
      NewerIsStrictTotalOrder(device, installed, next);
      assert Offered(device, r.value);
    }
  }

  /** Equal major numbers are compatible, but with major number 0 each minor number stands alone. */
  lemma CompatibleExactly(device: Version, manifest: Version)
    ensures Compatible(device, manifest) <==>
            device.major == manifest.major && (device.minor == manifest.minor || device.major > 0)
  {
  }

  /** A number in decimal, without leading zeros. */
  function Printed(n: nat): (s: string)
    ensures s != [] && forall c | c in s :: '0' <= c <= '9'
    decreases n
  {
    (if n < 10 then [] else Printed(n / 10)) + [('0' as int + n % 10) as char]
  }

  lemma {:induction false} PrintedReads(n: nat)
    ensures Decimal(Printed(n)) == Some(n)
    decreases n
  {
    var s := Printed(n);
    var init := if n < 10 then [] else Printed(n / 10);
    assert s[..|s| - 1] == init;
    if n >= 10 {
      PrintedReads(n / 10);
    }
  }

  lemma ParsesDigits(s: string)
    requires s != [] && forall c | c in s :: '0' <= c <= '9'
    ensures ParseU16(s) == match Decimal(s)
                           case Some(n) => if n < 0x1_0000 then Some(n) else None
                           case None => None
  {
    assert s[0] in s;
  }

  lemma PrintedParses(n: U16)
    ensures ParseU16(Printed(n)) == Some(n) && '.' !in Printed(n)
  {
    PrintedReads(n);
    ParsesDigits(Printed(n));
  }

  /** Every printed version reads back as itself. */
  lemma VersionRoundTrip(e: FirmwareEntry, v: Version)
    requires e.version == Printed(v.major) + "." + Printed(v.minor) + "." + Printed(v.patch)
    ensures VersionParts(e) == Some(v)
  {
    PrintedParses(v.major);
    PrintedParses(v.minor);
    PrintedParses(v.patch);
    VersionOfThreeParts(e, Printed(v.major), Printed(v.minor), Printed(v.patch));
  }

  lemma {:induction false} SplitAt(a: string, rest: string, separator: char)
    requires separator !in a
    ensures Split(a, separator) == [a]
    ensures Split(a + [separator] + rest, separator) == [a] + Split(rest, separator)
  {
    var s := a + [separator] + rest;
    if a == [] {
      assert s[1..] == rest;
    } else {
      SplitAt(a[1..], rest, separator);
      assert s[1..] == a[1..] + [separator] + rest;
      assert [a[0]] + a[1..] == a;
    }
  }

  lemma {:induction false} SplitCounts(s: string, separator: char)
    ensures |Split(s, separator)| == multiset(s)[separator] + 1
  {
    if s != [] {
      assert s == [s[0]] + s[1..];
      SplitCounts(s[1..], separator);
    }
  }

  /** Text without exactly two dots is no version. */
  lemma VersionHasTwoDots(e: FirmwareEntry)
    ensures VersionParts(e).Some? ==> multiset(e.version)['.'] == 2
  {
    SplitCounts(e.version, '.');
  }

  /** A version reads as three numbers exactly between two dots. */
  lemma VersionOfThreeParts(e: FirmwareEntry, a: string, b: string, c: string)
    requires '.' !in a && '.' !in b && '.' !in c
    requires e.version == a + "." + b + "." + c
    ensures VersionParts(e) ==
            if ParseU16(a).Some? && ParseU16(b).Some? && ParseU16(c).Some?
            then Some(Version(ParseU16(a).value, ParseU16(b).value, ParseU16(c).value)) else None
  {
    assert e.version == a + ['.'] + (b + ['.'] + c);
    SplitAt(a, b + ['.'] + c, '.');
    SplitAt(b, c, '.');
    SplitAt(c, [], '.');
  }
}
