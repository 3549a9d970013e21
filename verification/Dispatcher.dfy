/** Vectors whose elements carry an identity, and the finite maps they stand for. */
module KeyedList {

  predicate Distinct<K(==)>(keys: seq<K>) {
    keys == [] || (keys[0] !in keys[1..] && Distinct(keys[1..]))
  }

  lemma {:induction false} DistinctMeans<K>(keys: seq<K>)
    ensures Distinct(keys) <==> forall i, j | 0 <= i < j < |keys| :: keys[i] != keys[j]
  {
    if keys != [] {
      var rest := keys[1..];
      DistinctMeans(rest);
      if Distinct(keys) {
        forall i, j | 0 <= i < j < |keys|
          ensures keys[i] != keys[j]
        {
          assert keys[j] == rest[j - 1];
          assert i > 0 ==> keys[i] == rest[i - 1];
        }
      } else if keys[0] in rest {
        var j :| 0 <= j < |rest| && rest[j] == keys[0];
        assert keys[j + 1] == keys[0];
      } else {
        var i, j :| 0 <= i < j < |rest| && rest[i] == rest[j];
        assert keys[i + 1] == keys[j + 1];
      }
    }
  }

  /** The list, read beside the keys of its elements, holds exactly the entries of the map, each once. */
  ghost predicate Represents<K(!new), V>(keys: seq<K>, list: seq<V>, m: map<K, V>) {
    && |keys| == |list|
    && Distinct(keys)
    && (forall i | 0 <= i < |keys| :: keys[i] in m && m[keys[i]] == list[i])
    && (forall k | k in m :: k in keys)
  }

  /** `Vec::remove`. */
  function RemoveAt<T>(s: seq<T>, i: nat): seq<T>
    requires i < |s|
  {
    s[..i] + s[i + 1..]
  }

  lemma RemoveAtShifts<T>(s: seq<T>, i: nat)
    requires i < |s|
    ensures |RemoveAt(s, i)| == |s| - 1
    ensures forall j | 0 <= j < |s| - 1 :: RemoveAt(s, i)[j] == s[if j < i then j else j + 1]
  {
  }

  /** The keys with one of them taken out, the order of the rest kept. */
  function Without<K(==)>(keys: seq<K>, k: K): seq<K> {
    if keys == [] then []
    else if keys[0] == k then Without(keys[1..], k)
    else [keys[0]] + Without(keys[1..], k)
  }

  lemma {:induction false} WithoutAbsent<K>(keys: seq<K>, k: K)
    requires k !in keys
    ensures Without(keys, k) == keys
  {
    if keys != [] {
      WithoutAbsent(keys[1..], k);
    }
  }

  lemma WithoutAbsentKey<K, V>(m: map<K, V>, k: K)
    requires k !in m
    ensures m - {k} == m
  {
  }

  lemma {:induction false} WithoutDistinct<K>(keys: seq<K>, i: nat)
    requires i < |keys| && Distinct(keys)
    ensures Without(keys, keys[i]) == RemoveAt(keys, i)
  {
    if i == 0 {
      WithoutAbsent(keys[1..], keys[0]);
    } else {
      var rest := keys[1..];
      assert rest[i - 1] == keys[i] != keys[0];
      WithoutDistinct(rest, i - 1);
      assert [keys[0]] + RemoveAt(rest, i - 1) == RemoveAt(keys, i);
    }
  }

  lemma Replaced<K(!new), V>(keys: seq<K>, list: seq<V>, m: map<K, V>, i: nat, v: V)
    requires Represents(keys, list, m) && i < |keys|
    ensures Represents(keys, list[i := v], m[keys[i] := v])
  {
    DistinctMeans(keys);
  }

  lemma Appended<K(!new), V>(keys: seq<K>, list: seq<V>, m: map<K, V>, k: K, v: V)
    requires Represents(keys, list, m) && k !in keys
    ensures Represents(keys + [k], list + [v], m[k := v])
  {
    DistinctMeans(keys);
    DistinctMeans(keys + [k]);
  }

  lemma {:induction false} StillDistinct<K>(keys: seq<K>, i: nat)
    requires i < |keys| && Distinct(keys)
    ensures Distinct(RemoveAt(keys, i))
    ensures forall k :: k in RemoveAt(keys, i) <==> k in keys && k != keys[i]
  {
    var rest := keys[1..];
    assert keys == [keys[0]] + rest;
    if i == 0 {
      assert RemoveAt(keys, 0) == rest;
    } else {
      StillDistinct(rest, i - 1);
      assert RemoveAt(keys, i) == [keys[0]] + RemoveAt(rest, i - 1);
      assert keys[i] == rest[i - 1];
    }
  }

  lemma Removed<K(!new), V>(keys: seq<K>, list: seq<V>, m: map<K, V>, i: nat)
    requires Represents(keys, list, m) && i < |keys|
    ensures Represents(Without(keys, keys[i]), RemoveAt(list, i), m - {keys[i]})
  {
    WithoutDistinct(keys, i);
    StillDistinct(keys, i);
    RemoveAtShifts(keys, i);
    RemoveAtShifts(list, i);
    var keys' := RemoveAt(keys, i);
    forall j | 0 <= j < |keys'|
      ensures keys'[j] in m - {keys[i]} && m[keys'[j]] == RemoveAt(list, i)[j]
    {
      assert keys'[j] in keys';
    }
  }

  // ---- Lists of entries that carry their own key ----

  function Keys<E, K>(list: seq<E>, key: E -> K): seq<K> {
    seq(|list|, i requires 0 <= i < |list| => key(list[i]))
  }

  /** The list holds exactly the entries of the map, each once and under its own key. */
  ghost predicate StandsFor<E, K(!new)>(list: seq<E>, key: E -> K, m: map<K, E>) {
    Represents(Keys(list, key), list, m)
  }

  lemma ReplacedEntry<E, K(!new)>(list: seq<E>, key: E -> K, m: map<K, E>, i: nat, e: E)
    requires StandsFor(list, key, m) && i < |list| && key(list[i]) == key(e)
    ensures Keys(list[i := e], key) == Keys(list, key) && StandsFor(list[i := e], key, m[key(e) := e])
    ensures key(e) in m && m[key(e)] == list[i]
  {
    Replaced(Keys(list, key), list, m, i, e);
    assert Keys(list, key)[i] == key(e);
    assert Keys(list[i := e], key) == Keys(list, key);
  }

  lemma AppendedEntry<E, K(!new)>(list: seq<E>, key: E -> K, m: map<K, E>, e: E)
    requires StandsFor(list, key, m) && key(e) !in Keys(list, key)
    ensures Keys(list + [e], key) == Keys(list, key) + [key(e)] && StandsFor(list + [e], key, m[key(e) := e])
  {
    Appended(Keys(list, key), list, m, key(e), e);
    assert Keys(list + [e], key) == Keys(list, key) + [key(e)];
  }

  lemma RemovedEntry<E, K(!new)>(list: seq<E>, key: E -> K, m: map<K, E>, i: nat)
    requires StandsFor(list, key, m) && i < |list|
    ensures Keys(RemoveAt(list, i), key) == Without(Keys(list, key), key(list[i]))
    ensures StandsFor(RemoveAt(list, i), key, m - {key(list[i])})
  {
    Removed(Keys(list, key), list, m, i);
    WithoutDistinct(Keys(list, key), i);
    assert Keys(RemoveAt(list, i), key) == RemoveAt(Keys(list, key), i);
  }

  /** A key that is not listed is not in the map either. */
  lemma Unlisted<K(!new), V>(keys: seq<K>, list: seq<V>, m: map<K, V>, k: K)
    requires Represents(keys, list, m) && k !in keys
    ensures k !in m && m - {k} == m && Without(keys, k) == keys
  {
    WithoutAbsent(keys, k);
    WithoutAbsentKey(m, k);
  }
}

/**
 * The server's device and dongle lists: the dispatcher folds the message stream into them,
 * request handlers look devices up and rename them.
 */
module Dispatcher {
  import opened Common
  import opened DeviceWire
  import opened KeyedList

  /** Command channels are told apart by number; a dummy one has no receiver. */
  datatype Sender = Live(channel: nat) | Dummy

  datatype Entry = Entry(device: Device, sender: Sender)

  /** Dongles go by their serial number. */
  datatype DongleId = DongleId(serial: string)

  datatype DongleInfo = DongleInfo(
    id: DongleId,
    protocolVersion: Version,
    controlProtocolVersion: Version,
    firmwareVersion: Version,
    connectedDevices: seq<Uuid>,
    bondedDevices: seq<Uuid>)

  datatype DongleEntry = DongleEntry(info: DongleInfo, sender: Sender)

  datatype Message =
    | Connect(device: Device, commands: Option<nat>)
    | Disconnect(gone: Device)
    | UpdateDevice(updated: Device)
    | UpdateName(uuid: Uuid, name: string)
    | DongleConnect(info: DongleInfo, channel: nat)
    | DongleUpdate(latest: DongleInfo)
    | DongleDisconnect(id: DongleId)
    | Event(event: nat)

  // ---- Reference: a map keyed by identity ----

  type DeviceMap = map<Uuid, Entry>
  type DongleMap = map<DongleId, DongleEntry>

  /** A connect without a command channel keeps the channel already known; updates never insert. */
  function OnDeviceMap(m: DeviceMap, msg: Message): DeviceMap {
    match msg
    case Connect(d, Some(c)) => m[d.uuid := Entry(d, Live(c))]
    case Connect(d, None) => m[d.uuid := Entry(d, if d.uuid in m then m[d.uuid].sender else Dummy)]
    case Disconnect(d) => m - {d.uuid}
    case UpdateDevice(d) => if d.uuid in m then m[d.uuid := m[d.uuid].(device := d)] else m
    case UpdateName(u, name) => if u in m then m[u := Renamed(m[u], name)] else m
    case _ => m
  }

  function OnDongleMap(m: DongleMap, msg: Message): DongleMap {
    match msg
    case DongleConnect(info, c) => m[info.id := DongleEntry(info, Live(c))]
    case DongleUpdate(info) => if info.id in m then m[info.id := m[info.id].(info := info)] else m
    case DongleDisconnect(id) => m - {id}
    case _ => m
  }

  function Renamed(e: Entry, name: string): Entry {
    e.(device := e.device.(name := NameBytes(name)))
  }

  function DevicesAfter(msgs: seq<Message>): DeviceMap {
    if msgs == [] then map[] else OnDeviceMap(DevicesAfter(msgs[..|msgs| - 1]), msgs[|msgs| - 1])
  }

  function DonglesAfter(msgs: seq<Message>): DongleMap {
    if msgs == [] then map[] else OnDongleMap(DonglesAfter(msgs[..|msgs| - 1]), msgs[|msgs| - 1])
  }

  lemma OneMore(msgs: seq<Message>, msg: Message)
    ensures DevicesAfter(msgs + [msg]) == OnDeviceMap(DevicesAfter(msgs), msg)
    ensures DonglesAfter(msgs + [msg]) == OnDongleMap(DonglesAfter(msgs), msg)
  {
    assert (msgs + [msg])[..|msgs|] == msgs;
  }

  // ---- What the lists stand for ----

  function UuidOf(e: Entry): Uuid {
    e.device.uuid
  }

  function IdOf(e: DongleEntry): DongleId {
    e.info.id
  }

  function Uuids(list: seq<Entry>): seq<Uuid> {
    Keys(list, UuidOf)
  }

  function Ids(list: seq<DongleEntry>): seq<DongleId> {
    Keys(list, IdOf)
  }

  /** Where a device sits in display order: new ones last, a removed one leaves a gap that closes. */
  function OrderAfter(order: seq<Uuid>, msg: Message): seq<Uuid> {
    match msg
    case Connect(d, _) => if d.uuid in order then order else order + [d.uuid]
    case Disconnect(d) => Without(order, d.uuid)
    case _ => order
  }

  function DongleOrderAfter(order: seq<DongleId>, msg: Message): seq<DongleId> {
    match msg
    case DongleConnect(info, _) => if info.id in order then order else order + [info.id]
    case DongleDisconnect(id) => Without(order, id)
    case _ => order
  }

  ghost predicate DevicesStandFor(list: seq<Entry>, m: DeviceMap) {
    StandsFor(list, UuidOf, m)
  }

  ghost predicate DonglesStandFor(list: seq<DongleEntry>, m: DongleMap) {
    StandsFor(list, IdOf, m)
  }

  /** Position `i` is where a search for the UUID ends. */
  ghost predicate Found(list: seq<Entry>, uuid: Uuid, i: nat) {
    && i <= |list|
    && (if i < |list| then list[i].device.uuid == uuid else uuid !in Uuids(list))
  }

  ghost predicate FoundDongle(list: seq<DongleEntry>, id: DongleId, i: nat) {
    && i <= |list|
    && (if i < |list| then list[i].info.id == id else id !in Ids(list))
  }

  predicate AboutDevices(msg: Message) {
    msg.Connect? || msg.Disconnect? || msg.UpdateDevice? || msg.UpdateName?
  }

  predicate AboutDongles(msg: Message) {
    msg.DongleConnect? || msg.DongleUpdate? || msg.DongleDisconnect?
  }

  /** Messages about devices leave the dongles alone, and the other way round. */
  lemma DonglesStay(list: seq<DongleEntry>, msgs: seq<Message>, msg: Message)
    requires DonglesStandFor(list, DonglesAfter(msgs)) && !AboutDongles(msg)
    ensures DonglesStandFor(list, DonglesAfter(msgs + [msg]))
  {
    OneMore(msgs, msg);
  }

  lemma DevicesStay(list: seq<Entry>, msgs: seq<Message>, msg: Message)
    requires DevicesStandFor(list, DevicesAfter(msgs)) && !AboutDevices(msg)
    ensures DevicesStandFor(list, DevicesAfter(msgs + [msg]))
  {
    OneMore(msgs, msg);
  }

  lemma ConnectStands(list: seq<Entry>, msgs: seq<Message>, i: nat, e: Entry, commands: Option<nat>)
    requires DevicesStandFor(list, DevicesAfter(msgs)) && Found(list, e.device.uuid, i)
    requires e.sender == if commands.Some? then Live(commands.value) else if i < |list| then list[i].sender else Dummy
    ensures var msg := Connect(e.device, commands); var list' := if i < |list| then list[i := e] else list + [e];
            && DevicesStandFor(list', DevicesAfter(msgs + [msg]))
            && Uuids(list') == OrderAfter(Uuids(list), msg)
  {
    OneMore(msgs, Connect(e.device, commands));
    if i < |list| {
      ReplacedEntry(list, UuidOf, DevicesAfter(msgs), i, e);
    } else {
      Unlisted(Uuids(list), list, DevicesAfter(msgs), e.device.uuid);
      AppendedEntry(list, UuidOf, DevicesAfter(msgs), e);
    }
  }

  lemma DisconnectStands(list: seq<Entry>, msgs: seq<Message>, i: nat, d: Device)
    requires DevicesStandFor(list, DevicesAfter(msgs)) && Found(list, d.uuid, i)
    ensures var list' := if i < |list| then RemoveAt(list, i) else list;
            && DevicesStandFor(list', DevicesAfter(msgs + [Disconnect(d)]))
            && Uuids(list') == Without(Uuids(list), d.uuid)
  {
    OneMore(msgs, Disconnect(d));
    if i < |list| {
      RemovedEntry(list, UuidOf, DevicesAfter(msgs), i);
    } else {
      Unlisted(Uuids(list), list, DevicesAfter(msgs), d.uuid);
    }
  }

  /** An update overwrites the entry that is there, and nothing is inserted. */
  lemma UpdateStands(list: seq<Entry>, msgs: seq<Message>, i: nat, d: Device)
    requires DevicesStandFor(list, DevicesAfter(msgs)) && Found(list, d.uuid, i)
    ensures var list' := if i < |list| then list[i := list[i].(device := d)] else list;
            && DevicesStandFor(list', DevicesAfter(msgs + [UpdateDevice(d)]))
            && Uuids(list') == Uuids(list)
  {
    OneMore(msgs, UpdateDevice(d));
    if i < |list| {
      ReplacedEntry(list, UuidOf, DevicesAfter(msgs), i, list[i].(device := d));
    } else {
      Unlisted(Uuids(list), list, DevicesAfter(msgs), d.uuid);
    }
  }

  lemma RenameStands(list: seq<Entry>, msgs: seq<Message>, i: nat, uuid: Uuid, name: string)
    requires DevicesStandFor(list, DevicesAfter(msgs)) && Found(list, uuid, i)
    ensures var list' := if i < |list| then list[i := Renamed(list[i], name)] else list;
            && DevicesStandFor(list', DevicesAfter(msgs + [UpdateName(uuid, name)]))
            && Uuids(list') == Uuids(list)
  {
    OneMore(msgs, UpdateName(uuid, name));
    if i < |list| {
      ReplacedEntry(list, UuidOf, DevicesAfter(msgs), i, Renamed(list[i], name));
    } else {
      Unlisted(Uuids(list), list, DevicesAfter(msgs), uuid);
    }
  }

  lemma DongleConnectStands(list: seq<DongleEntry>, msgs: seq<Message>, i: nat, info: DongleInfo, channel: nat)
    requires DonglesStandFor(list, DonglesAfter(msgs)) && FoundDongle(list, info.id, i)
    ensures var msg := DongleConnect(info, channel); var e := DongleEntry(info, Live(channel));
            var list' := if i < |list| then list[i := e] else list + [e];
            && DonglesStandFor(list', DonglesAfter(msgs + [msg]))
            && Ids(list') == DongleOrderAfter(Ids(list), msg)
  {
    OneMore(msgs, DongleConnect(info, channel));
    var e := DongleEntry(info, Live(channel));
    if i < |list| {
      ReplacedEntry(list, IdOf, DonglesAfter(msgs), i, e);
    } else {
      AppendedEntry(list, IdOf, DonglesAfter(msgs), e);
    }
  }

  lemma DongleUpdateStands(list: seq<DongleEntry>, msgs: seq<Message>, i: nat, info: DongleInfo)
    requires DonglesStandFor(list, DonglesAfter(msgs)) && FoundDongle(list, info.id, i)
    ensures var list' := if i < |list| then list[i := list[i].(info := info)] else list;
            && DonglesStandFor(list', DonglesAfter(msgs + [DongleUpdate(info)]))
            && Ids(list') == Ids(list)
  {
    OneMore(msgs, DongleUpdate(info));
    if i < |list| {
      ReplacedEntry(list, IdOf, DonglesAfter(msgs), i, list[i].(info := info));
    } else {
      Unlisted(Ids(list), list, DonglesAfter(msgs), info.id);
    }
  }

  lemma DongleDisconnectStands(list: seq<DongleEntry>, msgs: seq<Message>, i: nat, id: DongleId)
    requires DonglesStandFor(list, DonglesAfter(msgs)) && FoundDongle(list, id, i)
    ensures var list' := if i < |list| then RemoveAt(list, i) else list;
            && DonglesStandFor(list', DonglesAfter(msgs + [DongleDisconnect(id)]))
            && Ids(list') == Without(Ids(list), id)
  {
    OneMore(msgs, DongleDisconnect(id));
    if i < |list| {
      RemovedEntry(list, IdOf, DonglesAfter(msgs), i);
    } else {
      Unlisted(Ids(list), list, DonglesAfter(msgs), id);
    }
  }

  lemma UuidsAt(list: seq<Entry>)
    ensures |Uuids(list)| == |list| && forall i | 0 <= i < |list| :: Uuids(list)[i] == list[i].device.uuid
  {
    forall i | 0 <= i < |list|
      ensures Uuids(list)[i] == list[i].device.uuid
    {
      assert Uuids(list)[i] == UuidOf(list[i]);
    }
  }

  lemma IdsAt(list: seq<DongleEntry>)
    ensures |Ids(list)| == |list| && forall i | 0 <= i < |list| :: Ids(list)[i] == list[i].info.id
  {
    forall i | 0 <= i < |list|
      ensures Ids(list)[i] == list[i].info.id
    {
      assert Ids(list)[i] == IdOf(list[i]);
    }
  }

  /** `iter().position(..)`. */
  method FindDevice(list: seq<Entry>, uuid: Uuid) returns (i: nat)
    ensures Found(list, uuid, i) && forall j | 0 <= j < i :: list[j].device.uuid != uuid
  {
    i := 0;
    while i < |list| && list[i].device.uuid != uuid
      invariant i <= |list| && forall j | 0 <= j < i :: list[j].device.uuid != uuid
    {
      i := i + 1;
    }
    UuidsAt(list);
  }

  method FindDongle(list: seq<DongleEntry>, id: DongleId) returns (i: nat)
    ensures FoundDongle(list, id, i) && forall j | 0 <= j < i :: list[j].info.id != id
  {
    i := 0;
    while i < |list| && list[i].info.id != id
      invariant i <= |list| && forall j | 0 <= j < i :: list[j].info.id != id
    {
      i := i + 1;
    }
    IdsAt(list);
  }

  class Server {
    var deviceList: seq<Entry>
    var dongleList: seq<DongleEntry>
    /** Notifications sent so far on the two change channels, and events forwarded. */
    var deviceNotices: nat
    var dongleNotices: nat
    var forwarded: seq<nat>
    /** Every message and rename applied so far, in order. */
    ghost var history: seq<Message>

    ghost predicate Valid()
      reads this
    {
      && DevicesStandFor(deviceList, DevicesAfter(history))
      && DonglesStandFor(dongleList, DonglesAfter(history))
    }

    constructor ()
      ensures Valid() && history == [] && deviceList == [] && dongleList == []
      ensures deviceNotices == 0 && dongleNotices == 0 && forwarded == []
    {
      deviceList, dongleList := [], [];
      deviceNotices, dongleNotices, forwarded := 0, 0, [];
      history := [];
    }

    /** `Connect`: refresh the entry in place, keeping its channel if none came along, or append a new one. */
    method Connect(d: Device, commands: Option<nat>)
      requires Valid()
      modifies `deviceList, `deviceNotices, `history
      ensures Valid() && history == old(history) + [Message.Connect(d, commands)]
      ensures Uuids(deviceList) == OrderAfter(old(Uuids(deviceList)), Message.Connect(d, commands))
      ensures deviceNotices == old(deviceNotices) + 1
    {
      var i := FindDevice(deviceList, d.uuid);
      ghost var msg := Message.Connect(d, commands);
      DonglesStay(dongleList, history, msg);
      if i < |deviceList| {
        var e := if commands.Some? then Entry(d, Live(commands.value)) else deviceList[i].(device := d);
        ConnectStands(deviceList, history, i, e, commands);
        deviceList := deviceList[i := e];
      } else {
        var e := Entry(d, if commands.Some? then Live(commands.value) else Dummy);
        ConnectStands(deviceList, history, i, e, commands);
        deviceList := deviceList + [e];
      }
      deviceNotices := deviceNotices + 1;
      history := history + [msg];
    }

    /** `Disconnect`: matched by UUID alone. */
    method Disconnect(d: Device)
      requires Valid()
      modifies `deviceList, `deviceNotices, `history
      ensures Valid() && history == old(history) + [Message.Disconnect(d)]
      ensures Uuids(deviceList) == Without(old(Uuids(deviceList)), d.uuid)
      ensures deviceNotices == old(deviceNotices) + 1
    {
      var i := FindDevice(deviceList, d.uuid);
      DonglesStay(dongleList, history, Message.Disconnect(d));
      DisconnectStands(deviceList, history, i, d);
      if i < |deviceList| {
        deviceList := RemoveAt(deviceList, i);
      }
      deviceNotices := deviceNotices + 1;
      history := history + [Message.Disconnect(d)];
    }

    /** `UpdateDevice`: replaces the record of a listed device and never inserts. */
    method UpdateDevice(d: Device)
      requires Valid()
      modifies `deviceList, `deviceNotices, `history
      ensures Valid() && history == old(history) + [Message.UpdateDevice(d)]
      ensures Uuids(deviceList) == old(Uuids(deviceList))
      ensures deviceNotices == old(deviceNotices) + 1
    {
      var i := FindDevice(deviceList, d.uuid);
      DonglesStay(dongleList, history, Message.UpdateDevice(d));
      UpdateStands(deviceList, history, i, d);
      if i < |deviceList| {
        deviceList := deviceList[i := deviceList[i].(device := d)];
      }
      deviceNotices := deviceNotices + 1;
      history := history + [Message.UpdateDevice(d)];
    }

    /** `UpdateName`, and the list part of a rename request once the device has accepted the name. */
    method SetDeviceName(uuid: Uuid, name: string)
      requires Valid()
      modifies `deviceList, `deviceNotices, `history
      ensures Valid() && history == old(history) + [UpdateName(uuid, name)]
      ensures Uuids(deviceList) == old(Uuids(deviceList))
      ensures deviceNotices == old(deviceNotices) + 1
    {
      var i := FindDevice(deviceList, uuid);
      DonglesStay(dongleList, history, UpdateName(uuid, name));
      RenameStands(deviceList, history, i, uuid, name);
      if i < |deviceList| {
        deviceList := deviceList[i := Renamed(deviceList[i], name)];
      }
      assert DevicesStandFor(deviceList, DevicesAfter(history + [UpdateName(uuid, name)]));
      deviceNotices := deviceNotices + 1;
      history := history + [UpdateName(uuid, name)];
    }

    /** `DongleConnect`: replaces a dongle with the same id, channel included, or appends. */
    method DongleConnect(info: DongleInfo, channel: nat)
      requires Valid()
      modifies `dongleList, `dongleNotices, `history
      ensures Valid() && history == old(history) + [Message.DongleConnect(info, channel)]
      ensures Ids(dongleList) == DongleOrderAfter(old(Ids(dongleList)), Message.DongleConnect(info, channel))
      ensures dongleNotices == old(dongleNotices) + 1
    {
      var i := FindDongle(dongleList, info.id);
      DevicesStay(deviceList, history, Message.DongleConnect(info, channel));
      DongleConnectStands(dongleList, history, i, info, channel);
      if i < |dongleList| {
        dongleList := dongleList[i := DongleEntry(info, Live(channel))];
      } else {
        dongleList := dongleList + [DongleEntry(info, Live(channel))];
      }
      dongleNotices := dongleNotices + 1;
      history := history + [Message.DongleConnect(info, channel)];
    }

    method DongleUpdate(info: DongleInfo)
      requires Valid()
      modifies `dongleList, `dongleNotices, `history
      ensures Valid() && history == old(history) + [Message.DongleUpdate(info)]
      ensures Ids(dongleList) == old(Ids(dongleList))
      ensures dongleNotices == old(dongleNotices) + 1
    {
      var i := FindDongle(dongleList, info.id);
      DevicesStay(deviceList, history, Message.DongleUpdate(info));
      DongleUpdateStands(dongleList, history, i, info);
      if i < |dongleList| {
        dongleList := dongleList[i := dongleList[i].(info := info)];
      }
      dongleNotices := dongleNotices + 1;
      history := history + [Message.DongleUpdate(info)];
    }

    method DongleDisconnect(id: DongleId)
      requires Valid()
      modifies `dongleList, `dongleNotices, `history
      ensures Valid() && history == old(history) + [Message.DongleDisconnect(id)]
      ensures Ids(dongleList) == Without(old(Ids(dongleList)), id)
      ensures dongleNotices == old(dongleNotices) + 1
    {
      var i := FindDongle(dongleList, id);
      DevicesStay(deviceList, history, Message.DongleDisconnect(id));
      DongleDisconnectStands(dongleList, history, i, id);
      if i < |dongleList| {
        dongleList := RemoveAt(dongleList, i);
      }
      dongleNotices := dongleNotices + 1;
      history := history + [Message.DongleDisconnect(id)];
    }

    method ForwardEvent(event: nat)
      requires Valid()
      modifies `forwarded, `history
      ensures Valid() && history == old(history) + [Event(event)] && Sent() == Loaded(old(Sent()), Event(event))
    {
      DevicesStay(deviceList, history, Event(event));
      DonglesStay(dongleList, history, Event(event));
      forwarded := forwarded + [event];
      history := history + [Event(event)];
    }

    /** Everything sent so far on the two change channels and to event subscribers. */
    function Sent(): Load
      reads this
    {
      Load(deviceNotices, dongleNotices, forwarded)
    }

    /** One message of the stream: one notification on the channel of the list it is about, or one forwarded event. */
    method Process(msg: Message)
      requires Valid()
      modifies this
      ensures Valid() && history == old(history) + [msg]
      ensures Sent() == Loaded(old(Sent()), msg)
    {
      if AboutDevices(msg) {
        ProcessDevice(msg);
        NoticeLoaded(old(Sent()), Sent(), msg);
      } else if AboutDongles(msg) {
        ProcessDongle(msg);
        NoticeLoaded(old(Sent()), Sent(), msg);
      } else {
        ForwardEvent(msg.event);
      }
    }

    method ProcessDevice(msg: Message)
      requires Valid() && AboutDevices(msg)
      modifies `deviceList, `deviceNotices, `history
      ensures Valid() && history == old(history) + [msg] && deviceNotices == old(deviceNotices) + 1
    {
      match msg {
        case Connect(d, commands) => Connect(d, commands);
        case Disconnect(d) => Disconnect(d);
        case UpdateDevice(d) => UpdateDevice(d);
        case UpdateName(u, name) => SetDeviceName(u, name);
      }
    }

    method ProcessDongle(msg: Message)
      requires Valid() && AboutDongles(msg)
      modifies `dongleList, `dongleNotices, `history
      ensures Valid() && history == old(history) + [msg] && dongleNotices == old(dongleNotices) + 1
    {
      match msg {
        case DongleConnect(info, c) => DongleConnect(info, c);
        case DongleUpdate(info) => DongleUpdate(info);
        case DongleDisconnect(id) => DongleDisconnect(id);
      }
    }

    /**
     * The dispatcher drains the message stream: every message about devices is one notification to their
     * subscribers, every message about dongles one to theirs, and exactly the events are forwarded, in order.
     */
    method Dispatch(msgs: seq<Message>)
      requires Valid()
      modifies this
      ensures Valid() && history == old(history) + msgs
      ensures Sent() ==
              Load(old(deviceNotices) + Count(msgs, AboutDevices), old(dongleNotices) + Count(msgs, AboutDongles),
                   old(forwarded) + Events(msgs))
    {
      for i := 0 to |msgs|
        invariant Valid() && history == old(history) + msgs[..i]
        invariant Sent() == Traffic(old(Sent()), msgs[..i])
      {
        Process(msgs[i]);
        assert msgs[..i + 1] == msgs[..i] + [msgs[i]];
        TrafficOneMore(old(Sent()), msgs[..i], msgs[i]);
      }
      assert msgs[..|msgs|] == msgs;
      TrafficExactly(old(Sent()), msgs);
    }

    /** The command channel of a device: the one the message history gives it. */
    method SenderForUuid(uuid: Uuid) returns (r: Option<Sender>)
      requires Valid()
      ensures r == if uuid in DevicesAfter(history) then Some(DevicesAfter(history)[uuid].sender) else None
    {
      var i := FindDevice(deviceList, uuid);
      UuidsAt(deviceList);
      assert i < |deviceList| ==> Uuids(deviceList)[i] == uuid;
      r := if i < |deviceList| then Some(deviceList[i].sender) else None;
    }

    function DeviceSnapshot(): (s: seq<Device>)
      reads this
    {
      Devices(deviceList)
    }
  }

  function Devices(list: seq<Entry>): seq<Device> {
    seq(|list|, i requires 0 <= i < |list| => list[i].device)
  }

  // ---- What the message stream carries ----

  /** Notifications to device and to dongle subscribers, and the events forwarded, in order. */
  datatype Load = Load(devices: nat, dongles: nat, events: seq<nat>)

  function Loaded(load: Load, msg: Message): Load {
    if AboutDevices(msg) then load.(devices := load.devices + 1)
    else if AboutDongles(msg) then load.(dongles := load.dongles + 1)
    else load.(events := load.events + [msg.event])
  }

  lemma NoticeLoaded(before: Load, after: Load, msg: Message)
    requires !msg.Event? && after.events == before.events
    requires after.devices == before.devices + if AboutDevices(msg) then 1 else 0
    requires after.dongles == before.dongles + if AboutDongles(msg) then 1 else 0
    ensures after == Loaded(before, msg)
  {
  }

  function Traffic(load: Load, msgs: seq<Message>): Load {
    if msgs == [] then load else Loaded(Traffic(load, msgs[..|msgs| - 1]), msgs[|msgs| - 1])
  }

  lemma TrafficOneMore(load: Load, msgs: seq<Message>, msg: Message)
    ensures Traffic(load, msgs + [msg]) == Loaded(Traffic(load, msgs), msg)
  {
    assert (msgs + [msg])[..|msgs|] == msgs;
  }

  function Count(msgs: seq<Message>, about: Message -> bool): nat {
    if msgs == [] then 0 else Count(msgs[..|msgs| - 1], about) + if about(msgs[|msgs| - 1]) then 1 else 0
  }

  /** The events of a message stream, in order. */
  function Events(msgs: seq<Message>): seq<nat> {
    if msgs == [] then []
    else
      var last := msgs[|msgs| - 1];
      Events(msgs[..|msgs| - 1]) + if last.Event? then [last.event] else []
  }

  /** Each channel carries exactly what is meant for it. */
  lemma {:induction false} TrafficExactly(load: Load, msgs: seq<Message>)
    ensures Traffic(load, msgs) ==
            Load(load.devices + Count(msgs, AboutDevices), load.dongles + Count(msgs, AboutDongles),
                 load.events + Events(msgs))
  {
    if msgs != [] {
      TrafficExactly(load, msgs[..|msgs| - 1]);
    }
  }

  // ---- Facts about the fold ----

  predicate About(msg: Message, uuid: Uuid) {
    match msg
    case Connect(d, _) => d.uuid == uuid
    case Disconnect(d) => d.uuid == uuid
    case UpdateDevice(d) => d.uuid == uuid
    case UpdateName(u, _) => u == uuid
    case _ => false
  }

  function Only(msgs: seq<Message>, uuid: Uuid): seq<Message> {
    if msgs == [] then []
    else
      var init := Only(msgs[..|msgs| - 1], uuid);
      if About(msgs[|msgs| - 1], uuid) then init + [msgs[|msgs| - 1]] else init
  }

  ghost predicate SameAt(m: DeviceMap, m': DeviceMap, uuid: Uuid) {
    (uuid in m <==> uuid in m') && (uuid in m ==> m[uuid] == m'[uuid])
  }

  lemma StepAt(m: DeviceMap, m': DeviceMap, msg: Message, uuid: Uuid)
    requires SameAt(m, m', uuid)
    ensures SameAt(OnDeviceMap(m, msg), if About(msg, uuid) then OnDeviceMap(m', msg) else m', uuid)
  {
  }

  lemma OnlyOneMore(init: seq<Message>, last: Message, uuid: Uuid)
    ensures Only(init + [last], uuid) == if About(last, uuid) then Only(init, uuid) + [last] else Only(init, uuid)
  {
    assert (init + [last])[..|init|] == init;
  }

  lemma IndependentOneMore(init: seq<Message>, last: Message, uuid: Uuid)
    requires SameAt(DevicesAfter(init), DevicesAfter(Only(init, uuid)), uuid)
    ensures SameAt(DevicesAfter(init + [last]), DevicesAfter(Only(init + [last], uuid)), uuid)
  {
    OneMore(init, last);
    OneMore(Only(init, uuid), last);
    OnlyOneMore(init, last, uuid);
    StepAt(DevicesAfter(init), DevicesAfter(Only(init, uuid)), last, uuid);
  }

  /** What is known of one device depends only on the messages about it, however others are interleaved. */
  lemma {:induction false} DevicesAreIndependent(msgs: seq<Message>, uuid: Uuid)
    ensures SameAt(DevicesAfter(msgs), DevicesAfter(Only(msgs, uuid)), uuid)
  {
    if msgs != [] {
      var init, last := msgs[..|msgs| - 1], msgs[|msgs| - 1];
      DevicesAreIndependent(init, uuid);
      IndependentOneMore(init, last, uuid);
      assert init + [last] == msgs;
    }
  }

  /** Entries are filed under their own UUID. */
  lemma {:induction false} FiledUnderOwnUuid(msgs: seq<Message>)
    ensures forall u | u in DevicesAfter(msgs) :: DevicesAfter(msgs)[u].device.uuid == u
  {
    if msgs != [] {
      FiledUnderOwnUuid(msgs[..|msgs| - 1]);
    }
  }

  // ---- The fold, told by position ----

  predicate Connects(msg: Message, uuid: Uuid) {
    msg.Connect? && msg.device.uuid == uuid
  }

  predicate Disconnects(msg: Message, uuid: Uuid) {
    msg.Disconnect? && msg.gone.uuid == uuid
  }

  predicate BringsChannel(msg: Message, uuid: Uuid) {
    Connects(msg, uuid) && msg.commands.Some?
  }

  predicate NotGoneFrom(msgs: seq<Message>, i: nat, uuid: Uuid) {
    forall k: nat | i <= k < |msgs| :: !Disconnects(msgs[k], uuid)
  }

  predicate NoChannelFrom(msgs: seq<Message>, i: nat, uuid: Uuid) {
    forall k: nat | i <= k < |msgs| :: !BringsChannel(msgs[k], uuid)
  }

  /** The device connected and has not disconnected since. */
  ghost predicate Connected(msgs: seq<Message>, uuid: Uuid) {
    exists i: nat :: i < |msgs| && Connects(msgs[i], uuid) && NotGoneFrom(msgs, i, uuid)
  }

  /** It connected with this channel and has not disconnected or brought another one since. */
  ghost predicate Channelled(msgs: seq<Message>, uuid: Uuid, channel: nat) {
    exists i: nat ::
      && i < |msgs| && BringsChannel(msgs[i], uuid) && msgs[i].commands.value == channel
      && NotGoneFrom(msgs, i, uuid) && NoChannelFrom(msgs, i + 1, uuid)
  }

  lemma ConnectedOneMore(init: seq<Message>, last: Message, uuid: Uuid)
    ensures Connected(init + [last], uuid) <==>
            Connects(last, uuid) || (Connected(init, uuid) && !Disconnects(last, uuid))
  {
    var more := init + [last];
    assert more[|init|] == last;
    assert forall k: nat | k < |init| :: more[k] == init[k];
    forall i: nat | i < |init|
      ensures NotGoneFrom(more, i, uuid) <==> NotGoneFrom(init, i, uuid) && !Disconnects(last, uuid)
    {
    }
  }

  lemma ChannelledOneMore(init: seq<Message>, last: Message, uuid: Uuid, channel: nat)
    ensures Channelled(init + [last], uuid, channel) <==>
            if BringsChannel(last, uuid) then last.commands.value == channel
            else Channelled(init, uuid, channel) && !Disconnects(last, uuid)
  {
    var more := init + [last];
    assert more[|init|] == last;
    assert forall k: nat | k < |init| :: more[k] == init[k];
    forall i: nat | i < |init|
      ensures NotGoneFrom(more, i, uuid) <==> NotGoneFrom(init, i, uuid) && !Disconnects(last, uuid)
      ensures NoChannelFrom(more, i + 1, uuid) <==> NoChannelFrom(init, i + 1, uuid) && !BringsChannel(last, uuid)
    {
    }
  }

  /**
   * A device is known exactly if it connected and has not disconnected since, and its channel is the last one that
   * it brought since then, if any.
   */
  lemma {:induction false} KnownByPosition(msgs: seq<Message>, uuid: Uuid, channel: nat)
    ensures uuid in DevicesAfter(msgs) <==> Connected(msgs, uuid)
    ensures uuid in DevicesAfter(msgs) && DevicesAfter(msgs)[uuid].sender == Live(channel) <==>
            Channelled(msgs, uuid, channel)
  {
    if msgs != [] {
      var init, last := msgs[..|msgs| - 1], msgs[|msgs| - 1];
      KnownByPosition(init, uuid, channel);
      assert msgs == init + [last];
      OneMore(init, last);
      ConnectedOneMore(init, last, uuid);
      ChannelledOneMore(init, last, uuid, channel);
      KnownOneMore(DevicesAfter(init), last, uuid, channel);
    }
  }

  lemma KnownOneMore(m: DeviceMap, msg: Message, uuid: Uuid, channel: nat)
    ensures var m' := OnDeviceMap(m, msg);
            && (uuid in m' <==> Connects(msg, uuid) || (uuid in m && !Disconnects(msg, uuid)))
            && (uuid in m' && m'[uuid].sender == Live(channel) <==>
                if BringsChannel(msg, uuid) then msg.commands.value == channel
                else uuid in m && m[uuid].sender == Live(channel) && !Disconnects(msg, uuid))
  {
  }

  /** A full record of the device. */
  predicate Reports(msg: Message, uuid: Uuid, d: Device) {
    d.uuid == uuid && ((msg.Connect? && msg.device == d) || (msg.UpdateDevice? && msg.updated == d))
  }

  predicate Renames(msg: Message, uuid: Uuid) {
    msg.UpdateName? && msg.uuid == uuid
  }

  predicate OnlyRenamesFrom(msgs: seq<Message>, i: nat, uuid: Uuid) {
    forall k: nat | i <= k < |msgs| && About(msgs[k], uuid) :: Renames(msgs[k], uuid)
  }

  predicate NoRenameFrom(msgs: seq<Message>, i: nat, uuid: Uuid) {
    forall k: nat | i <= k < |msgs| :: !Renames(msgs[k], uuid)
  }

  /** Whether `name` is what the last rename from there on says, or, if there is none, what was there before. */
  ghost predicate NameIs(msgs: seq<Message>, i: nat, uuid: Uuid, before: NameBuffer, name: NameBuffer) {
    if NoRenameFrom(msgs, i, uuid) then name == before
    else exists k: nat ::
        && i <= k < |msgs| && Renames(msgs[k], uuid) && name == NameBytes(msgs[k].name)
        && NoRenameFrom(msgs, k + 1, uuid)
  }

  lemma NameOneMore(init: seq<Message>, last: Message, i: nat, uuid: Uuid, before: NameBuffer, name: NameBuffer)
    requires i <= |init| && NameIs(init, i, uuid, before, name)
    ensures NameIs(init + [last], i, uuid, before, if Renames(last, uuid) then NameBytes(last.name) else name)
  {
    var more := init + [last];
    assert more[|init|] == last;
    assert forall k: nat | k < |init| :: more[k] == init[k];
    if Renames(last, uuid) {
      assert Renames(more[|init|], uuid) && NoRenameFrom(more, |init| + 1, uuid);
    } else if !NoRenameFrom(init, i, uuid) {
      var k: nat :| && i <= k < |init| && Renames(init[k], uuid) && name == NameBytes(init[k].name)
                    && NoRenameFrom(init, k + 1, uuid);
      assert Renames(more[k], uuid) && NoRenameFrom(more, k + 1, uuid);
    }
  }

  lemma RecordOneMore(m: DeviceMap, msg: Message, uuid: Uuid)
    requires About(msg, uuid) ==> Renames(msg, uuid)
    ensures var m' := OnDeviceMap(m, msg);
            && (uuid in m' <==> uuid in m)
            && (uuid in m ==>
                  var d := m[uuid].device;
                  m'[uuid].device == if Renames(msg, uuid) then d.(name := NameBytes(msg.name)) else d)
  {
  }

  lemma ReportedRecord(m: DeviceMap, msg: Message, uuid: Uuid, d: Device)
    requires uuid in OnDeviceMap(m, msg) && Reports(msg, uuid, d)
    ensures OnDeviceMap(m, msg)[uuid].device == d
  {
  }

  /** A known device has the record that was reported last, under the name that it was given last. */
  lemma {:induction false} RecordByPosition(msgs: seq<Message>, uuid: Uuid, i: nat, d: Device)
    requires uuid in DevicesAfter(msgs) && i < |msgs| && Reports(msgs[i], uuid, d) && OnlyRenamesFrom(msgs, i + 1, uuid)
    ensures var record := DevicesAfter(msgs)[uuid].device;
            record.(name := d.name) == d && NameIs(msgs, i + 1, uuid, d.name, record.name)
  {
    var n := |msgs| - 1;
    var init, last := msgs[..n], msgs[n];
    assert msgs == init + [last];
    OneMore(init, last);
    if i < n {
      assert OnlyRenamesFrom(init, i + 1, uuid);
      assert About(msgs[n], uuid) ==> Renames(msgs[n], uuid);
      RecordOneMore(DevicesAfter(init), last, uuid);
      RecordByPosition(init, uuid, i, d);
      NameOneMore(init, last, i + 1, uuid, d.name, DevicesAfter(init)[uuid].device.name);
    } else {
      ReportedRecord(DevicesAfter(init), last, uuid, d);
    }
  }

  predicate Places(msg: Message, id: DongleId) {
    (msg.DongleConnect? && msg.info.id == id) || (msg.DongleDisconnect? && msg.id == id)
  }

  predicate Tells(msg: Message, info: DongleInfo) {
    (msg.DongleConnect? && msg.info == info) || (msg.DongleUpdate? && msg.latest == info)
  }

  predicate NotPlacedFrom(msgs: seq<Message>, i: nat, id: DongleId) {
    forall k: nat | i <= k < |msgs| :: !Places(msgs[k], id)
  }

  predicate NothingToldFrom(msgs: seq<Message>, i: nat, id: DongleId) {
    forall k: nat | i <= k < |msgs| :: !Places(msgs[k], id) && !(msgs[k].DongleUpdate? && msgs[k].latest.id == id)
  }

  ghost predicate Registered(msgs: seq<Message>, id: DongleId, channel: nat) {
    exists i: nat ::
      && i < |msgs| && Places(msgs[i], id) && msgs[i].DongleConnect? && msgs[i].channel == channel
      && NotPlacedFrom(msgs, i + 1, id)
  }

  lemma RegisteredOneMore(init: seq<Message>, last: Message, id: DongleId, channel: nat)
    ensures Registered(init + [last], id, channel) <==>
            if Places(last, id) then last.DongleConnect? && last.channel == channel
            else Registered(init, id, channel)
  {
    var more := init + [last];
    assert more[|init|] == last;
    assert forall k: nat | k < |init| :: more[k] == init[k];
    forall i: nat | i < |init| && Places(init[i], id)
      ensures NotPlacedFrom(more, i + 1, id) <==> NotPlacedFrom(init, i + 1, id) && !Places(last, id)
    {
    }
  }

  /** A dongle is known with a channel exactly if it came with it and has neither come again nor gone since. */
  lemma {:induction false} DongleByPosition(msgs: seq<Message>, id: DongleId, channel: nat)
    ensures id in DonglesAfter(msgs) && DonglesAfter(msgs)[id].sender == Live(channel) <==>
            Registered(msgs, id, channel)
    ensures id in DonglesAfter(msgs) ==> DonglesAfter(msgs)[id].sender.Live?
  {
    if msgs != [] {
      var init, last := msgs[..|msgs| - 1], msgs[|msgs| - 1];
      DongleByPosition(init, id, channel);
      assert msgs == init + [last];
      OneMore(init, last);
      RegisteredOneMore(init, last, id, channel);
    }
  }

  /** What is known of a dongle is what was told last. */
  lemma {:induction false} DongleInfoByPosition(msgs: seq<Message>, info: DongleInfo, i: nat)
    requires info.id in DonglesAfter(msgs) && i < |msgs| && Tells(msgs[i], info)
    requires NothingToldFrom(msgs, i + 1, info.id)
    ensures DonglesAfter(msgs)[info.id].info == info
  {
    var n := |msgs| - 1;
    var init, last := msgs[..n], msgs[n];
    assert msgs == init + [last];
    OneMore(init, last);
    if i < n {
      assert NothingToldFrom(init, i + 1, info.id) && last == msgs[n];
      DongleInfoByPosition(init, info, i);
    }
  }
}

/** The desktop's copy of the device list: a slab of devices and an index from UUID to slot. */
module Desktop {
  import opened Common
  import opened DeviceWire
  import opened Dispatcher
  import opened KeyedList

  class HubContext {
    /** A slab that was just cleared hands out slots 0, 1, 2, ... so it is kept as a sequence. */
    var devices: seq<Device>
    var deviceKeys: map<Uuid, nat>

    ghost predicate Valid()
      reads this
    {
      IsIndex(deviceKeys, devices)
    }

    constructor ()
      ensures Valid() && devices == []
    {
      devices, deviceKeys := [], map[];
    }

    /** Clears and refills both; of several devices with one UUID the last is indexed. */
    method ReplaceDevices(list: seq<Device>)
      modifies this
      ensures Valid() && devices == list
    {
      devices, deviceKeys := [], map[];
      for i := 0 to |list|
        invariant devices == list[..i]
        invariant IsIndex(deviceKeys, devices)
      {
        var idx := |devices|;
        devices := devices + [list[i]];
        deviceKeys := deviceKeys[list[i].uuid := idx];
        assert list[..i + 1] == list[..i] + [list[i]];
      }
    }

    /** The slot of a device: the last that carries its UUID, and none exactly if no slot does. */
    function DeviceKey(device: Device): (key: Option<nat>)
      requires Valid()
      reads this
      ensures key.Some? <==> exists d :: d in devices && d.uuid == device.uuid
      ensures key.Some? ==> key.value < |devices| && devices[key.value].uuid == device.uuid
      ensures key.Some? ==> forall i | key.value < i < |devices| :: devices[i].uuid != device.uuid
    {
      if device.uuid in deviceKeys then Some(deviceKeys[device.uuid]) else None
    }
  }

  /** Every device's UUID is indexed, by the last slot that carries it. */
  ghost predicate IsIndex(keys: map<Uuid, nat>, list: seq<Device>) {
    && (forall i | 0 <= i < |list| :: list[i].uuid in keys && i <= keys[list[i].uuid])
    && (forall u | u in keys :: keys[u] < |list| && list[keys[u]].uuid == u)
  }

  ghost predicate Indexed(keys: map<Uuid, nat>, i: nat) {
    exists u :: u in keys && keys[u] == i
  }

  ghost predicate Bijection(keys: map<Uuid, nat>, n: nat) {
    && (forall u | u in keys :: keys[u] < n)
    && (forall u, v | u in keys && v in keys && u != v :: keys[u] != keys[v])
    && (forall i | 0 <= i < n :: Indexed(keys, i))
  }

  /** The index is a bijection onto the slots exactly when no UUID is listed twice. */
  lemma IndexIsBijectionExactly(keys: map<Uuid, nat>, list: seq<Device>)
    requires IsIndex(keys, list)
    ensures Bijection(keys, |list|) <==> forall i, j | 0 <= i < j < |list| :: list[i].uuid != list[j].uuid
  {
    if forall i, j | 0 <= i < j < |list| :: list[i].uuid != list[j].uuid {
      forall i | 0 <= i < |list|
        ensures Indexed(keys, i)
      {
        assert keys[list[i].uuid] == i;
      }
    }
    if Bijection(keys, |list|) {
      forall i, j | 0 <= i < j < |list|
        ensures list[i].uuid != list[j].uuid
      {
        assert Indexed(keys, i);
        var u :| u in keys && keys[u] == i;
      }
    }
  }

  /** A snapshot as the client receives it, each device having been carried over. */
  function Carried(snapshot: seq<Device>, carry: Device -> Device): seq<Device> {
    seq(|snapshot|, i requires 0 <= i < |snapshot| => carry(snapshot[i]))
  }

  /** The slab and its index show exactly the devices of the map, one slot each. */
  ghost predicate Mirrors(keys: map<Uuid, nat>, slab: seq<Device>, expected: DeviceMap, carry: Device -> Device) {
    && Bijection(keys, |slab|)
    && keys.Keys == expected.Keys
    && forall u | u in keys ::
         keys[u] < |slab| && slab[keys[u]].uuid == u && slab[keys[u]] == carry(expected[u].device)
  }

  lemma SlabIsIndexed(list: seq<Entry>, carry: Device -> Device, keys: map<Uuid, nat>)
    requires Distinct(Uuids(list)) && forall d: Device :: carry(d).uuid == d.uuid
    requires IsIndex(keys, Carried(Devices(list), carry))
    ensures Bijection(keys, |list|)
    ensures forall u | u in keys :: keys[u] < |list| && Uuids(list)[keys[u]] == u
    ensures forall u :: u in keys <==> u in Uuids(list)
  {
    var uuids := Uuids(list);
    var slab := Carried(Devices(list), carry);
    UuidsAt(list);
    assert forall i | 0 <= i < |list| :: slab[i].uuid == uuids[i];
    DistinctMeans(uuids);
    IndexIsBijectionExactly(keys, slab);
    forall u | u in uuids
      ensures u in keys
    {
      var i :| 0 <= i < |list| && uuids[i] == u;
      assert slab[i].uuid == u;
    }
  }

  lemma CarriedListMirrors(list: seq<Entry>, expected: DeviceMap, carry: Device -> Device, keys: map<Uuid, nat>)
    requires DevicesStandFor(list, expected)
    requires forall d: Device :: carry(d).uuid == d.uuid
    requires IsIndex(keys, Carried(Devices(list), carry))
    ensures Mirrors(keys, Carried(Devices(list), carry), expected, carry)
  {
    SlabIsIndexed(list, carry, keys);
    assert keys.Keys == expected.Keys;
    forall u | u in keys
      ensures expected[u] == list[keys[u]]
    {
      assert Uuids(list)[keys[u]] == u;
    }
  }

  lemma WireKeepsUuids()
    ensures forall d: Device :: RoundTrip(d).uuid == d.uuid
  {
    forall d: Device
      ensures RoundTrip(d).uuid == d.uuid
    {
      WireCarries(d);
    }
  }

  /**
   * End to end: whatever messages the server has processed, the slab a client rebuilds from its list
   * indexes exactly the connected devices, one slot each, and each slot holds the device the
   * message history describes, as the wire carries it.
   */
  lemma DesktopMirrorsHistory(server: Server, keys: map<Uuid, nat>)
    requires server.Valid()
    requires IsIndex(keys, Carried(server.DeviceSnapshot(), RoundTrip))
    ensures Mirrors(keys, Carried(server.DeviceSnapshot(), RoundTrip), DevicesAfter(server.history), RoundTrip)
  {
    WireKeepsUuids();
    CarriedListMirrors(server.deviceList, DevicesAfter(server.history), RoundTrip, keys);
  }

  /**
   * On the desktop: after rebuilding from a server's list, looking up the record of a listed device leads to
   * the slot with that device as the message history describes it; any other device has no slot.
   */
  lemma KeyLeadsToDevice(server: Server, context: HubContext, device: Device)
    requires server.Valid() && context.Valid() && context.devices == Carried(server.DeviceSnapshot(), RoundTrip)
    ensures var m := DevicesAfter(server.history); var key := context.DeviceKey(device);
            && (key.Some? <==> device.uuid in m)
            && (key.Some? ==> context.devices[key.value] == RoundTrip(m[device.uuid].device))
  {
    DesktopMirrorsHistory(server, context.deviceKeys);
  }
}
