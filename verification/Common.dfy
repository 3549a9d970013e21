/** Values shared by every component: machine integers, versions and the published `Device` record. */
module Common {

  datatype Option<+T> = None | Some(value: T)

  type Byte = x: int | 0 <= x < 0x100
  type U16 = x: int | 0 <= x < 0x1_0000
  type U32 = x: int | 0 <= x < 0x1_0000_0000
  const U32_MAX: U32 := 0xFFFF_FFFF

  /** Six identifying bytes; BLE addresses have the same shape. */
  type Uuid = s: seq<Byte> | |s| == 6 witness [0, 0, 0, 0, 0, 0]

  /** `[major, minor, patch]`, compared the way arrays are: lexicographically. */
  datatype Version = Version(major: U16, minor: U16, patch: U16) {
    predicate Less(other: Version) {
      || major < other.major
      || (major == other.major && minor < other.minor)
      || (major == other.major && minor == other.minor && patch < other.patch)
    }
  }

  const UNKNOWN_VERSION := Version(0, 0, 0)

  datatype Transport = Usb | UsbMux | UdpMux

  datatype EventsTransport = Wired | Bluetooth

  const CONTROL: bv8 := 1
  const EVENTS: bv8 := 2
  const DFU: bv8 := 4

  datatype Capabilities = Capabilities(bits: bv8) {
    predicate Contains(flag: bv8) {
      bits & flag == flag
    }

    /** Sets one flag and leaves the other two as they were. */
    function Insert(flag: bv8): (r: Capabilities)
      ensures r.Contains(flag)
      ensures flag == EVENTS || flag == DFU ==> r.Contains(CONTROL) == Contains(CONTROL)
      ensures flag == CONTROL || flag == DFU ==> r.Contains(EVENTS) == Contains(EVENTS)
      ensures flag == CONTROL || flag == EVENTS ==> r.Contains(DFU) == Contains(DFU)
    {
      Capabilities(bits | flag)
    }

    /** Clears one flag and leaves the other two as they were. */
    function Remove(flag: bv8): (r: Capabilities)
      ensures flag != 0 ==> !r.Contains(flag)
      ensures flag == EVENTS || flag == DFU ==> r.Contains(CONTROL) == Contains(CONTROL)
      ensures flag == CONTROL || flag == DFU ==> r.Contains(EVENTS) == Contains(EVENTS)
      ensures flag == CONTROL || flag == EVENTS ==> r.Contains(DFU) == Contains(DFU)
    {
      Capabilities(bits & !flag)
    }
  }

  /** Setting or clearing flags touches no other bit. */
  lemma FlagsAreIndependent(c: Capabilities, flags: bv8, others: bv8)
    requires flags & others == 0
    ensures c.Insert(flags).bits & others == c.bits & others
    ensures c.Remove(flags).bits & others == c.bits & others
  {
  }

  const NAME_LENGTH := 33

  /** The fixed 33-byte name buffer. */
  type NameBuffer = s: seq<Byte> | |s| == NAME_LENGTH witness seq(NAME_LENGTH, _ => 0)

  datatype Device = Device(
    uuid: Uuid,
    transport: Transport,
    capabilities: Capabilities,
    firmwareVersion: Version,
    eventsTransport: EventsTransport,
    eventsConnected: bool,
    productId: U16,
    name: NameBuffer)
}
