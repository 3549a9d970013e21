/**
 * The `Device` record, its 33-byte name buffer, and its trip over the wire
 * (`common::device::Device` -> `proto::Device` -> `common::device::Device`).
 */
module DeviceWire {
  import opened Common
  import opened Utf8

  const MAX_NAME := 32

  function Zeros(n: nat): seq<Byte> {
    seq(n, _ => 0)
  }

  /** The buffer built from a name: at most 32 bytes, cut wherever byte 32 falls, then zeros. */
  function NameBytes(s: string): NameBuffer {
    var bytes := Encode(s);
    var len := if |bytes| < MAX_NAME then |bytes| else MAX_NAME;
    bytes[..len] + Zeros(NAME_LENGTH - len)
  }

  /** The position of the first NUL, or the length. */
  function NulIndex(b: seq<Byte>): (n: nat)
    ensures n <= |b| && 0 !in b[..n]
    ensures n < |b| ==> b[n] == 0
  {
    if b == [] || b[0] == 0 then 0
    else
      var n := 1 + NulIndex(b[1..]);
      assert b[..n] == [b[0]] + b[1..][..n - 1];
      n
  }

  /** The readable name of a buffer; bytes that are not UTF-8 read as the empty name. */
  function Name(buffer: NameBuffer): string {
    match Decode(buffer[..NulIndex(buffer)])
    case Some(s) => s
    case None => ""
  }

  predicate NulFree(s: string) {
    0 as char !in s
  }

  /** The number of whole characters of `s` that end exactly at byte `n`, if some do. */
  ghost predicate Boundary(s: string, k: int, n: nat) {
    0 <= k <= |s| && |Encode(s[..k])| == n
  }

  lemma NulIndexOfPadded(b: seq<Byte>, n: nat)
    requires 0 !in b && n > 0
    ensures NulIndex(b + Zeros(n)) == |b|
  {
    var padded := b + Zeros(n);
    assert padded[|b|] == 0 && forall j | 0 <= j < |b| :: padded[j] == b[j] && b[j] in b;
    assert forall i | |b| < i <= |padded| :: padded[..i][|b|] == 0;
  }

  lemma EncodeTake(s: string, k: nat)
    requires k <= |s|
    ensures |Encode(s[..k])| <= |Encode(s)| && Encode(s)[..|Encode(s[..k])|] == Encode(s[..k])
  {
    assert s == s[..k] + s[k..];
    EncodeConcat(s[..k], s[k..]);
  }

  /** The bytes of a name that the buffer keeps. */
  function Cut(s: string): seq<Byte> {
    if |Encode(s)| < MAX_NAME then Encode(s) else Encode(s)[..MAX_NAME]
  }

  lemma BufferHoldsCut(s: string)
    requires NulFree(s)
    ensures NameBytes(s)[..NulIndex(NameBytes(s))] == Cut(s)
  {
    var cut := Cut(s);
    NulOnlyFromNul(s);
    assert NameBytes(s) == cut + Zeros(NAME_LENGTH - |cut|);
    NulIndexOfPadded(cut, NAME_LENGTH - |cut|);
  }

  lemma DecodedCut(s: string, k: nat)
    requires Boundary(s, k, |Cut(s)|)
    ensures Decode(Cut(s)) == Some(s[..k])
  {
    EncodeTake(s, k);
    DecodeExactly(Cut(s), s[..k]);
  }

  lemma CutInside(s: string)
    ensures Decode(Cut(s)).Some? ==> exists k :: Boundary(s, k, |Cut(s)|)
  {
    if Decode(Cut(s)).Some? {
      var t := Decode(Cut(s)).value;
      DecodeExactly(Cut(s), t);
      assert Encode(s)[..|Cut(s)|] == Cut(s);
      EncodedPrefix(s, t, |Cut(s)|);
      assert s[..|t|] == t;
      assert Boundary(s, |t|, |Cut(s)|);
    }
  }

  /** Reading back a buffer: the whole characters if the cut falls between two, else nothing. */
  lemma NameOfCut(s: string)
    requires NulFree(s)
    ensures var n := if |Encode(s)| < MAX_NAME then |Encode(s)| else MAX_NAME;
            && (forall k :: Boundary(s, k, n) ==> Name(NameBytes(s)) == s[..k])
            && ((forall k :: !Boundary(s, k, n)) ==> Name(NameBytes(s)) == "")
  {
    BufferHoldsCut(s);
    CutInside(s);
    forall k | Boundary(s, k, |Cut(s)|)
      ensures Name(NameBytes(s)) == s[..k]
    {
      DecodedCut(s, k);
    }
  }

  /** Names of at most 32 bytes without NUL survive the buffer. */
  lemma NameRoundTrip(s: string)
    requires NulFree(s) && |Encode(s)| <= MAX_NAME
    ensures Name(NameBytes(s)) == s
  {
    NameOfCut(s);
    assert s[..|s|] == s;
    assert Boundary(s, |s|, |Encode(s)|);
  }

  lemma NameIsNulFree(b: NameBuffer)
    ensures NulFree(Name(b)) && |Encode(Name(b))| <= NAME_LENGTH
    ensures Name(b) != "" ==> Encode(Name(b)) == b[..NulIndex(b)]
  {
    var prefix := b[..NulIndex(b)];
    if Decode(prefix).Some? {
      DecodeExactly(prefix, Decode(prefix).value);
    }
    NulOnlyFromNul(Name(b));
  }

  lemma FullNameEndsInNonzero(b: NameBuffer)
    ensures NulIndex(b) == NAME_LENGTH <==> 0 !in b
    ensures NulIndex(b) == NAME_LENGTH ==> b[MAX_NAME] != 0
  {
    assert b[..NAME_LENGTH] == b;
    assert b[MAX_NAME] in b;
  }

  /** A buffer is unchanged by reading and rebuilding exactly when it was built from a NUL-free name that fits. */
  lemma RebuildIsIdentityExactly(b: NameBuffer)
    ensures NameBytes(Name(b)) == b <==>
            exists s: string :: NulFree(s) && |Encode(s)| <= MAX_NAME && b == NameBytes(s)
  {
    NameIsNulFree(b);
    FullNameEndsInNonzero(b);
    forall s: string | NulFree(s) && |Encode(s)| <= MAX_NAME && b == NameBytes(s)
      ensures NameBytes(Name(b)) == b
    {
      NameRoundTrip(s);
    }
  }

  /**
   * Rebuilding twice equals rebuilding once, except for a full 33-byte name without NUL
   * whose last character takes more than one byte: the first rebuild cuts that character,
   * the second reads the damaged buffer as empty.
   */
  lemma RebuildIsIdempotentExactly(b: NameBuffer)
    ensures var s := Name(b); var once := NameBytes(s);
            NameBytes(Name(once)) == once <==>
            (|Encode(s)| <= MAX_NAME || |EncodeChar(s[|s| - 1])| == 1)
  {
    var s := Name(b);
    NameIsNulFree(b);
    if |Encode(s)| <= MAX_NAME {
      NameRoundTrip(s);
    } else {
      var k := |s| - 1;
      assert s == s[..k] + [s[k]];
      EncodeConcat(s[..k], [s[k]]);
      assert Encode([s[k]]) == EncodeChar(s[k]) + Encode([]);
      NameOfCut(s);
      if |EncodeChar(s[k])| == 1 {
        assert Boundary(s, k, MAX_NAME);
        assert s[..k] == Name(NameBytes(s));
        EncodeTake(s, k);
        assert NameBytes(s[..k]) == NameBytes(s);
      } else {
        forall j | Boundary(s, j, MAX_NAME)
          ensures false
        {
          LongerPrefixEncodesLonger(s, j, k);
        }
        assert NameBytes(s)[0] == Encode(s)[0];
        assert Encode(s)[0] != 0 by { NulOnlyFromNul(s); }
        assert NameBytes("")[0] == 0;
      }
    }
  }

  lemma LongerPrefixEncodesLonger(s: string, j: nat, k: nat)
    requires j <= |s| && k == |s| - 1
    ensures j <= k ==> |Encode(s[..j])| <= |Encode(s[..k])|
    ensures j > k ==> s[..j] == s
  {
    if j <= k {
      assert s[..k][..j] == s[..j];
      EncodeTake(s[..k], j);
    }
  }

  /** Buffers built by `name_bytes`, whatever the name, are stable after one trip. */
  lemma RebuildIsIdempotentOnBuilt(s: string)
    ensures var once := NameBytes(Name(NameBytes(s))); NameBytes(Name(once)) == once
  {
    var b := NameBytes(s);
    NameIsNulFree(b);
    FullNameEndsInNonzero(b);
    RebuildIsIdempotentExactly(b);
  }

  // ---- The wire form ----

  datatype ProtoVersion = ProtoVersion(major: U32, minor: U32, patch: U32)

  datatype ProtoDevice = ProtoDevice(
    uuid: seq<Byte>,
    transport: int,
    firmwareVersion: Option<ProtoVersion>,
    capabilities: bv32,
    eventsTransport: int,
    eventsConnected: bool,
    productId: U32,
    name: string)

  function ToProto(d: Device): ProtoDevice {
    ProtoDevice(
      d.uuid,
      match d.transport { case Usb => 0 case UsbMux => 1 case UdpMux => 2 },
      if d.firmwareVersion == UNKNOWN_VERSION then None
      else Some(ProtoVersion(d.firmwareVersion.major, d.firmwareVersion.minor, d.firmwareVersion.patch)),
      d.capabilities.bits as bv32,
      match d.eventsTransport { case Wired => 0 case Bluetooth => 1 },
      d.eventsConnected,
      d.productId,
      Name(d.name))
  }

  function ToU16(x: U32): U16 {
    x % 0x1_0000
  }

  /** Longer byte strings lose their end, shorter ones are padded with zeros. */
  function ToUuid(bytes: seq<Byte>): Uuid {
    var len := if |bytes| < 6 then |bytes| else 6;
    bytes[..len] + Zeros(6 - len)
  }

  /** `None` stands for the panic on an enumerator the schema does not define. */
  function FromProto(p: ProtoDevice): Option<Device> {
    if !(0 <= p.transport <= 2) || !(0 <= p.eventsTransport <= 1) then None
    else Some(Device(
      ToUuid(p.uuid),
      if p.transport == 0 then Usb else if p.transport == 1 then UsbMux else UdpMux,
      Capabilities((p.capabilities & 0xFF) as bv8),
      match p.firmwareVersion {
        case Some(v) => Version(ToU16(v.major), ToU16(v.minor), ToU16(v.patch))
        case None => UNKNOWN_VERSION
      },
      if p.eventsTransport == 0 then Wired else Bluetooth,
      p.eventsConnected,
      ToU16(p.productId),
      NameBytes(p.name)))
  }

  /** Every field but the name arrives unchanged, and the name arrives rebuilt. */
  lemma WireCarries(d: Device)
    ensures FromProto(ToProto(d)) == Some(d.(name := NameBytes(Name(d.name))))
  {
    assert ToUuid(d.uuid) == d.uuid;
    var bits := d.capabilities.bits;
    assert ((bits as bv32) & 0xFF) as bv8 == bits;
  }

  function RoundTrip(d: Device): (r: Device)
    ensures FromProto(ToProto(d)) == Some(r)
  {
    WireCarries(d);
    FromProto(ToProto(d)).value
  }

  /** The wire is the identity on exactly the devices whose name is a NUL-free name that fits. */
  lemma WireIsIdentityExactly(d: Device)
    ensures RoundTrip(d) == d <==>
            exists s: string :: NulFree(s) && |Encode(s)| <= MAX_NAME && d.name == NameBytes(s)
  {
    WireCarries(d);
    RebuildIsIdentityExactly(d.name);
  }

  /** Enumerators go by their place in the schema. */
  lemma EnumeratorNumbers(d: Device)
    ensures var p := ToProto(d);
            && 0 <= p.transport < 3 && [Usb, UsbMux, UdpMux][p.transport] == d.transport
            && 0 <= p.eventsTransport < 2 && [Wired, Bluetooth][p.eventsTransport] == d.eventsTransport
  {
  }

  /** A second trip changes nothing for any device whose name was built by `name_bytes`. */
  lemma WireIsIdempotent(d: Device, s: string)
    requires d.name == NameBytes(s)
    ensures RoundTrip(RoundTrip(d)) == RoundTrip(d)
    ensures NulFree(s) && |Encode(s)| > MAX_NAME && (forall k :: !Boundary(s, k, MAX_NAME)) ==>
              Name(RoundTrip(d).name) == ""
  {
    WireCarries(d);
    WireCarries(RoundTrip(d));
    RebuildIsIdempotentOnBuilt(s);
    if NulFree(s) && |Encode(s)| > MAX_NAME && forall k :: !Boundary(s, k, MAX_NAME) {
      NameOfCut(s);
      NameRoundTrip("");
    }
  }

  /** The messages a device sends itself over: everything in range, and a name that fits the buffer. */
  predicate Normal(p: ProtoDevice) {
    && |p.uuid| == 6
    && p.firmwareVersion != Some(ProtoVersion(0, 0, 0))
    && (p.firmwareVersion.Some? ==>
          var v := p.firmwareVersion.value; v.major < 0x1_0000 && v.minor < 0x1_0000 && v.patch < 0x1_0000)
    && p.capabilities < 0x100
    && p.productId < 0x1_0000
    && NulFree(p.name) && |Encode(p.name)| <= MAX_NAME
  }

  lemma NameFitsExactly(s: string)
    ensures Name(NameBytes(s)) == s <==> NulFree(s) && |Encode(s)| <= MAX_NAME
  {
    if NulFree(s) && |Encode(s)| <= MAX_NAME {
      NameRoundTrip(s);
    }
    NameIsNulFree(NameBytes(s));
    FullNameEndsInNonzero(NameBytes(s));
  }

  lemma NarrowExactly(x: bv32)
    ensures ((x & 0xFF) as bv8) as bv32 == x <==> x < 0x100
  {
  }

  function FirmwareBack(v: Option<ProtoVersion>): Option<ProtoVersion> {
    match v
    case None => None
    case Some(w) =>
      if ToU16(w.major) == 0 && ToU16(w.minor) == 0 && ToU16(w.patch) == 0 then None
      else Some(ProtoVersion(ToU16(w.major), ToU16(w.minor), ToU16(w.patch)))
  }

  lemma FirmwareExactly(v: Option<ProtoVersion>)
    ensures FirmwareBack(v) == v <==>
            && v != Some(ProtoVersion(0, 0, 0))
            && (v.Some? ==> v.value.major < 0x1_0000 && v.value.minor < 0x1_0000 && v.value.patch < 0x1_0000)
  {
  }

  /** What comes back, field by field. */
  function Back(p: ProtoDevice): ProtoDevice {
    ProtoDevice(ToUuid(p.uuid), p.transport, FirmwareBack(p.firmwareVersion), ((p.capabilities & 0xFF) as bv8) as bv32,
                p.eventsTransport, p.eventsConnected, ToU16(p.productId), Name(NameBytes(p.name)))
  }

  lemma ComesBack(p: ProtoDevice)
    requires FromProto(p).Some?
    ensures ToProto(FromProto(p).value) == Back(p)
  {
  }

  lemma SixBytesExactly(b: seq<Byte>)
    ensures ToUuid(b) == b <==> |b| == 6
  {
    assert |b| == 6 ==> b[..6] + Zeros(0) == b;
  }

  lemma UnchangedExactly(p: ProtoDevice)
    ensures Back(p) == p <==> Normal(p)
  {
    SixBytesExactly(p.uuid);
    FirmwareExactly(p.firmwareVersion);
    NameFitsExactly(p.name);
    NarrowExactly(p.capabilities);
  }

  /** An understood device goes back out as it came in exactly when it is normal. */
  lemma KeptExactly(p: ProtoDevice)
    requires FromProto(p).Some?
    ensures ToProto(FromProto(p).value) == p <==> Normal(p)
  {
    ComesBack(p);
    UnchangedExactly(p);
  }
}
