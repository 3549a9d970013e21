# Odyssey hub: a verified model of the device-connection protocol

The hub server finds ATS devices over USB and through BLE dongles. It keeps one *handler* task per
device, which merges a USB control connection and an events connection into one published `Device`
record. Discoverers start handlers and attach connections to them. A dispatcher folds the messages of
all tasks into the server's device and dongle lists, and subscriptions carry those lists to clients.
Around this protocol stand small exact pieces: a ring buffer of tracking events with a nearest-timestamp
lookup, a codec for maps with hexadecimal keys, the wire form of `Device` with its 33-byte UTF-8 name
buffer, two independent serial-number tests, and the choice of firmware.

The project models these in Dafny and proves the properties below for every input, every run and every
interleaving. Objects that the program updates in place are classes whose methods are proved against
functions; tasks that interleave are state machines over their steps, with channels as sequences.

| file | contents |
|---|---|
| Common.dfy | machine integers, versions, capabilities, the `Device` record |
| Utf8.dfy, DeviceWire.dfy | UTF-8, the name buffer, the wire form of `Device` |
| Hex.dfy | hexadecimal digits, the map codec, the two serial-number tests |
| Firmware.dfy | versions and the choice of firmware |
| TrackingHistory.dfy | the ring buffer, nearest lookup, the desktop and Python clients |
| Dispatcher.dfy | lists that stand for maps, the dispatcher, the desktop's slab and index |
| DeviceHandler.dfy | the handler's select loop |
| HubManager.dfy | the task that manages one dongle |
| Generations.dfy | successive handlers of one device, their discoverers and clients, and what the list takes in |
| Listing.dfy, Drifting.dfy | when the list shows the record a handler holds, and runs in which it does not |
| Tracking.dfy, Dongles.dfy | when a tracked device has a handler holding its events, and managers beside handlers |
| Screen.dfy | from a handler's record to the desktop's slot |
| ShotDelay.dfy, Subscriber.dfy | shot-delay agreement, freshness of list subscriptions |

## Main results

* **The record tells the truth.** From all three start states, at every loop head of every run and in
  every published update: `CONTROL` exactly while a control device is held, exactly while the transport
  is `Usb`; `EVENTS` exactly while events are connected; an events device implies events connected;
  streams imply an events device; `DFU` implies `CONTROL`. The branch that turns `UsbMux` into `Usb`
  when events are removed is unreachable.
* **Merging is four bits.** The connection side of the handler refines a machine of four booleans. From a
  start without wired events, and as long as no control device reports USB mode, it is a function of two
  attachments. In every run from every start, a removal ends the handler just when it leaves neither end,
  unless the control device goes while an events device is held and the record says `Wired`. The order in
  which the two ends are attached never shows: either order leads to the very same state.
* **No stuck pause, and no streams during an access.** An access through the events device stops the streams of a
  handler and pauses it, nothing else does, and unless an events device is added no stream restarts until
  100 ms after the answer. Paused exactly while the resume timer is armed, which is then due 100 ms after the
  last access; a handler that could stream but does not has exactly one timer that restarts it.
* **The list shows what the handler holds, exactly when it does.** The list has two writers: the channel, and
  rename requests, which write the accepted name themselves. In every run, once the channel is drained,
  the list leads to the live handler, and shows the record it holds if and only if the announcement was
  not overtaken or a full update has followed, and the last name written is the name the handler holds
  (`Listing.ListAgreesExactly`). Three conditions suffice (`Listing.ListShowsHandler`): no announcement is
  overtaken, a request writes its name before the next name is accepted, and before a next handler is
  started. None of the three can be dropped (Drifting.dfy has a failing run for each).
* **From handler to screen.** With the channel drained and the subscription quiet, the desktop has a slot for a
  device exactly if its latest handler is live, and under the same condition the slot shows that
  handler's own record as the wire carries it.
* **Hub bracketing.** For every BLE address, over every run of a hub manager, attachments and
  detachments alternate, each detachment aims at the UUID recorded at its attachment, and none is left
  open. An address is tracked exactly if it came linked and no snapshot since was without it. What is sent because
  of it is the snapshots' changes one after the other, closed by a last detachment; every event publishes the set
  tracked right after it, and the dongle is unregistered once. A repeated snapshot is silent.
* **Generations.** However the USB scan, hub managers, clients and handlers interleave, renames included,
  successive handlers of one UUID never overlap on the shared channel: announcement, single goodbye, next
  announcement. The list holds the UUID exactly while the latest handler is announced and has not said
  goodbye.
* **Tracked devices.** Handlers take what they are sent, in order, and lose nothing while they run. From any point
  of any run, a handler comes to hold a device's events exactly if the four bits it shows there, followed
  through the messages waiting for it and those sent later, neither end nor lose the events. Without a
  control device: an attach is kept exactly if the handler was still running, no detach was waiting
  ahead of it, and none is sent later. A dongle's manager and the handlers agree on who is tracked.
* **Lists refine maps, end to end.** For every message sequence the dispatcher's lists hold exactly the
  entries of a map fold, each UUID once, so the desktop's slots and index are a bijection. Each channel carries
  exactly what is meant for it: a notification per message about its list, and the events in order.
* **Freshness.** A quiet subscription has sent the list as it was last set. It ends exactly if it was closed, its
  client had gone, or it received from an overflowed queue; until then it can always become quiet.
* **Convergence.** Shot delays are served in the order in which they were asked for. A settled handler has left the
  one asked for last in the map and in the watch channel, and it settles by itself.
* **Codecs.** The wire is the identity on exactly the devices whose name is a NUL-free name that fits,
  and idempotent with one exactly described exception; hexadecimal maps round-trip in every order; the
  two serial-number tests accept the same UUIDs; the first compatible firmware is the greatest.
* **Lookup.** Nearest lookup returns a nearest event among the last pushes, and the Rust and Python
  clients select the same event although their timestamps can differ.

## Where the code and its description differ

* A handler whose record says that events are wired exits when its control device goes, although BLE events
  may be attached: the comment in the code speaks of an active BLE events connection, the test reads
  `events_transport`. It says `Wired` after a report of USB mode (`DeviceHandler.UsbModeReportLosesEvents`)
  and from the start for a device found in USB mode; `DeviceHandler.RemovalLawExactly` has the condition.
* Two rename requests for one device that cross leave the list with the name that was not accepted last:
  each writes its own name into the list after its reply (odyssey_hub_server/src/server.rs:996-1003), in
  either order (`Drifting.CrossingRenamesDisagree`).
* A rename can outlive its handler: if the device is unplugged and plugged in again before the request writes,
  the name goes by UUID into the entry of the next handler (`Drifting.RenameOutlivesHandler`).
* A tracked device can be left without a handler holding its events, and its manager, which still tracks it, does
  not attach it again. With two dongles: the detach of the first arrives after the attach of the second
  (`Tracking.MovedDeviceIsLost`). With one: the device misses a snapshot and is back in the next while
  its handler is busy, the handler takes the detach first and ends, and the attach behind it is lost
  (`Tracking.ReturnedDeviceIsLost`).
* A hub manager holds the lock of the handler table until it has sent `Connect`, so that, as its comment
  says, no update can come first. The USB scan releases the lock before it sends `Connect`
  (odyssey_hub_server/src/device_tasks.rs:1303-1315): an events device attached in between is published
  first and the list is left with the older record (`Drifting.OvertakenAnnouncement`), until the next full
  update. The handler cannot leave in between, since it holds its control device.
* The reader of hexadecimal maps accepts upper case and a plus sign in place of a digit, and stops with
  a panic, modelled as an error, when a pair of bytes cuts a character.
* A tracking history of capacity 0 can be built, but its first push panics; `Push` requires a capacity.

## Model

| member | source | states |
|---|---|---|
| Common.Capabilities.Insert | odyssey_hub_common/src/device.rs:36-42 | an inserted flag is contained afterwards and the other two flags are contained exactly if they were before |
| Common.Capabilities.Remove | odyssey_hub_common/src/device.rs:36-46 | a removed flag is no longer contained and the other two flags are contained exactly if they were before |
| Common.FlagsAreIndependent | odyssey_hub_common/src/device.rs:36-46 | setting or clearing any flags leaves every other bit of the byte alone |
| Utf8.DecodeExactly | odyssey_hub_common/src/device.rs:91-94 | the decoder (validity as in section 4 of RFC 3629) yields a string exactly for that string's own encoding |
| Utf8.EncodedPrefix | odyssey_hub_common/src/device.rs:83-94 | a prefix of an encoding that is itself an encoding is that of a prefix of the string, so it stops between two characters |
| DeviceWire.NameOfCut | odyssey_hub_common/src/device.rs:83-94 | reading back a built buffer gives the whole characters in the first 32 bytes if the cut falls between two characters, and the empty name if it falls inside one |
| DeviceWire.NameRoundTrip | odyssey_hub_common/src/device.rs:83-94 | a NUL-free name of at most 32 bytes reads back as itself |
| DeviceWire.NameFitsExactly | odyssey_hub_common/src/device.rs:83-94 | a name survives the buffer exactly if it is NUL-free and at most 32 bytes long |
| DeviceWire.RebuildIsIdentityExactly | odyssey_hub_common/src/device.rs:83-94 | reading and rebuilding a buffer changes nothing exactly for the buffers built from NUL-free names that fit |
| DeviceWire.RebuildIsIdempotentExactly | odyssey_hub_common/src/device.rs:83-94 | rebuilding twice equals rebuilding once for every buffer except a full one without NUL whose last character takes several bytes |
| DeviceWire.RebuildIsIdempotentOnBuilt | odyssey_hub_common/src/device.rs:83-94 | buffers built by `name_bytes` from any string are stable after one trip |
| DeviceWire.WireCarries | odyssey_hub_server_interface/src/lib.rs:97-151 | a device converted to the wire form and back keeps every field, its name being rebuilt |
| DeviceWire.EnumeratorNumbers | odyssey_hub_server_interface/src/lib.rs:97-121 | transports and events transports travel as their place in the schema |
| DeviceWire.WireIsIdentityExactly | odyssey_hub_server_interface/src/lib.rs:97-151 | the trip is the identity for exactly the devices whose name was built from a NUL-free name that fits |
| DeviceWire.WireIsIdempotent | odyssey_hub_server_interface/src/lib.rs:97-151 | a second trip changes nothing for any device with a built name; a cut inside a character arrives as the empty name |
| DeviceWire.KeptExactly | odyssey_hub_server_interface/src/lib.rs:97-151 | a received message goes back out unchanged exactly if its UUID has six bytes, its numbers fit, its firmware version is not a spelled-out unknown one and its name fits |
| HexKeyMap.ReadKey | odyssey_hub_common/src/hexkeymap.rs:63-82 | the loop that fills the array computes the key or the first error of the pair-by-pair parser |
| HexKeyMap.VisitMap | odyssey_hub_common/src/hexkeymap.rs:58-86 | reading entries one after the other builds the map in which later entries win, or stops at the first unreadable key |
| HexKeyMap.Serialize | odyssey_hub_common/src/hexkeymap.rs:14-31 | what is emitted is the printed form of the map's entries, each once, in some order |
| HexKeyMap.KeyRoundTrip | odyssey_hub_common/src/hexkeymap.rs:21-27 | a printed key of any length reads back as itself |
| HexKeyMap.MapRoundTrip | odyssey_hub_common/src/hexkeymap.rs:14-86 | for every length, map and order, printed keys are pairwise distinct and reading the printed entries gives the map back |
| HexKeyMap.PrintInvertsParseExactly | odyssey_hub_common/src/hexkeymap.rs:63-82 | among accepted keys, printing gives back exactly those whose digits are all lower-case hexadecimal digits |
| UsbSerial.UuidFromUsbSerial | odyssey_hub_server/src/device_tasks.rs:1384-1395 | for every string and UUID, the parser returns that UUID exactly if the firmware module's test accepts the pair |
| UsbSerial.CleanKeepsDigits | odyssey_hub_server/src/device_tasks.rs:1384-1395 | cleaning a serial number keeps exactly its hexadecimal digits, in either case and in order |
| UsbSerial.AcceptsPairwise | odyssey_hub_server/src/firmware.rs:316-320 | comparing twelve digits with the printed UUID regardless of case is the same as parsing each pair to the UUID's byte |
| UsbSerial.FindDeviceByUuid | odyssey_hub_server/src/firmware.rs:304-327 | the result is the first device of that kind whose serial number carries the UUID, else the first of that kind, and none exactly if there is none of that kind |
| Firmware.NewerIsStrictTotalOrder | odyssey_hub_server/src/firmware.rs:85-93 | the field-by-field test is the lexicographic order: irreflexive, transitive and total |
| Firmware.CompatibleIsEquivalence | odyssey_hub_server/src/firmware.rs:74-82 | compatibility is reflexive, symmetric and transitive |
| Firmware.CompatibleExactly | odyssey_hub_server/src/firmware.rs:74-82 | equal major numbers are compatible, but with major number 0 only equal minor numbers are |
| Firmware.VersionOfThreeParts | odyssey_hub_server/src/firmware.rs:58-68 | text with exactly two dots reads as a version exactly if all three parts read as 16-bit numbers |
| Firmware.VersionHasTwoDots | odyssey_hub_server/src/firmware.rs:58-68 | text without exactly two dots reads as no version |
| Firmware.VersionRoundTrip | odyssey_hub_server/src/firmware.rs:58-68 | every printed version reads back as itself |
| Firmware.FindCompatibleFirmware | odyssey_hub_server/src/firmware.rs:119-137 | the result is the first entry that is readable, compatible and newer, and none exactly if no entry is |
| Firmware.ChoiceIsGreatest | odyssey_hub_server/src/firmware.rs:119-137 | on a list whose readable versions are newest first, the choice is the greatest version on offer |
| Firmware.NoSecondOffer | odyssey_hub_server/src/firmware.rs:74-137 | a device that installed what it was offered is offered nothing more from the same list |
| TrackingHistory.TrackingHistory.constructor | odyssey_hub_client/src/tracking_history.rs:11-18 | a new history has had no pushes |
| TrackingHistory.TrackingHistory.Push | odyssey_hub_client/src/tracking_history.rs:20-26 | a push adds one event to the history and keeps the correspondence between slots and pushes |
| TrackingHistory.TrackingHistory.SlotsAreLastPushes | odyssey_hub_client/src/tracking_history.rs:10-37 | the scanned slots hold the last min(n, capacity) pushes, each once, in rotated order, and every other slot is empty |
| TrackingHistory.TrackingHistory.Latest | odyssey_hub_client/src/tracking_history.rs:28-34 | the latest event is the last push, and none exactly if nothing was pushed |
| TrackingHistory.TrackingHistory.GetClosest | odyssey_hub_client/src/tracking_history.rs:36-51 | the result is an event of least distance, in the lowest slot on ties; none exactly if every event is at distance 2^32-1 |
| TrackingHistory.TrackingHistory.ClosestAmongLastPushes | odyssey_hub_client/src/tracking_history.rs:20-51 | what is found is one of the last min(n, capacity) pushes and none of them is nearer; nothing exactly if all are at distance 2^32-1 |
| TrackingHistory.ClosestIsUnique | odyssey_hub_client/src/tracking_history.rs:36-51 | least distance in the lowest slot determines the result |
| TrackingHistory.DelayMicros | odyssey_desktop/src/views/zero.rs:107 | the 32-bit product of a 16-bit delay and 1000 is the true product |
| TrackingHistory.WrappingSub | odyssey_desktop/src/views/zero.rs:107-122 | the 32-bit difference is the one number that gives the minuend back in 32 bits |
| TrackingHistory.DesktopLookup | odyssey_desktop/src/views/zero.rs:107-122 | the desktop looks up the impact, or the latest event for an accessory, less the delay; the sentinel stays as it is on an empty history |
| TrackingHistory.PythonLookup | odyssey_hub_client_uniffi/samples/py/odyhubclient/main.py:7-21 | the Python client looks up the same base less the delay, the sentinel included, reduced to 32 bits |
| TrackingHistory.ClientsAgree | odyssey_hub_client_uniffi/samples/py/odyhubclient/main.py:7-21 | both clients select the same event for every history, impact and delay; their timestamps differ exactly for an accessory impact on an empty history with a non-zero delay |
| KeyedList.Removed | odyssey_hub_server/src/lib.rs:394-401 | removing the entry at a position from a list of distinct keys removes exactly that key from the map it stands for |
| Dispatcher.Server.Connect | odyssey_hub_server/src/lib.rs:360-389 | a connect refreshes a listed device in place, keeping its channel if none came along, or appends it; the list then stands for the updated map |
| Dispatcher.Server.Disconnect | odyssey_hub_server/src/lib.rs:390-414 | a disconnect removes the device with that UUID, if listed, and keeps the order of the rest |
| Dispatcher.Server.UpdateDevice | odyssey_hub_server/src/lib.rs:415-445 | an update replaces the record of a listed device, keeps its channel and never inserts |
| Dispatcher.Server.SetDeviceName | odyssey_hub_server/src/server.rs:996-1003 | a rename replaces the name of a listed device and nothing else |
| Dispatcher.Server.DongleConnect | odyssey_hub_server/src/lib.rs:454-465 | a dongle replaces the one with its id, channel included, or is appended |
| Dispatcher.Server.DongleUpdate | odyssey_hub_server/src/lib.rs:466-478 | an update replaces what is known of a listed dongle, keeps its channel and never inserts |
| Dispatcher.Server.DongleDisconnect | odyssey_hub_server/src/lib.rs:479-487 | a disconnect removes the dongle with that id, if listed |
| Dispatcher.Server.ForwardEvent | odyssey_hub_server/src/lib.rs:488-490 | an event is forwarded and touches no list |
| Dispatcher.Server.Process | odyssey_hub_server/src/lib.rs:356-491 | any one message keeps both lists standing for the history; one about devices is one notification to their subscribers, one about dongles one to theirs, and an event is forwarded |
| Dispatcher.Server.Dispatch | odyssey_hub_server/src/lib.rs:356-491 | after any message sequence both lists stand for the map fold of the whole history with each identity once, each change channel got one notification per message about its list, and exactly the events were forwarded, in order |
| Dispatcher.TrafficExactly | odyssey_hub_server/src/lib.rs:356-491 | message by message, each channel comes to carry exactly what is meant for it |
| Dispatcher.Server.SenderForUuid | odyssey_hub_server/src/server.rs:224-230 | the channel found for a device is the one the message history gives it |
| Dispatcher.DevicesAreIndependent | odyssey_hub_server/src/lib.rs:356-453 | what the list knows of a device depends only on the messages about it, however others are interleaved |
| Dispatcher.KnownByPosition | odyssey_hub_server/src/lib.rs:360-414 | a device is known exactly if it connected and has not disconnected since, and its channel is the last one that it brought since then, if any |
| Dispatcher.RecordByPosition | odyssey_hub_server/src/lib.rs:360-453 | a known device has the record that was reported last, under the name that it was given last |
| Dispatcher.DongleByPosition | odyssey_hub_server/src/lib.rs:454-487 | a dongle is known with a channel exactly if it came with it and has neither come again nor gone since |
| Dispatcher.DongleInfoByPosition | odyssey_hub_server/src/lib.rs:454-487 | what is known of a dongle is what was told last |
| Dispatcher.FiledUnderOwnUuid | odyssey_hub_server/src/lib.rs:360-453 | every entry is filed under the UUID of its own record |
| Desktop.HubContext.ReplaceDevices | odyssey_desktop/src/hub.rs:42-53 | the slab becomes the list, and the index leads from every listed UUID to the last slot that carries it |
| Desktop.IndexIsBijectionExactly | odyssey_desktop/src/hub.rs:129-143 | the index is a bijection onto the slots exactly if no UUID is listed twice |
| Desktop.DesktopMirrorsHistory | odyssey_desktop/src/hub.rs:129-143 | whatever messages the server processed, a client's slab and index show exactly the connected devices, one slot each, as the wire carries them |
| Desktop.HubContext.DeviceKey | odyssey_desktop/src/hub.rs:234-236 | the key of a device is the last slot that carries its UUID, and there is none exactly if no slot does |
| Desktop.KeyLeadsToDevice | odyssey_desktop/src/hub.rs:129-143 | after rebuilding from a server's list, the key of a device leads to the slot with that device as the message history describes it, and any other device has none |
| DeviceHandler.StartsSatisfyInvariant | odyssey_hub_server/src/device_tasks.rs:1229-1284 | all three start states satisfy the handler's invariant |
| DeviceHandler.ApplyKeepsInvariant | odyssey_hub_server/src/device_tasks.rs:1714-2520 | every turn of the loop keeps the invariant; an update published by it is the record held afterwards; a turn that ends the handler publishes nothing |
| DeviceHandler.RunKeepsInvariant | odyssey_hub_server/src/device_tasks.rs:1714-2520 | the invariant holds at every loop head of every run, and every update published on the way is consistent on its face |
| DeviceHandler.MuxToUsbBranchIsDead | odyssey_hub_server/src/device_tasks.rs:2398-2440 | whenever a control device is held the transport is not `UsbMux`, so the branch that would change it back is never taken |
| DeviceHandler.RecordHasOneSource | odyssey_hub_server/src/device_tasks.rs:1714-2520 | UUID and product id never change, the name changes exactly by an accepted rename and the firmware version exactly by a control device's report |
| DeviceHandler.DfuExactly | odyssey_hub_server/src/device_tasks.rs:2352-2364 | over any run the record shows `DFU` exactly if it did at the start and no control device has been removed |
| DeviceHandler.ProtocolIsHighest | odyssey_hub_server/src/device_tasks.rs:2154-2166 | over any run the protocol version is the greatest of the first and all those brought along by events devices |
| DeviceHandler.PauseFollowsLastAccess | odyssey_hub_server/src/device_tasks.rs:1851-1987 | at every loop head the handler is paused exactly while the timer is armed, and the timer is due 100 ms after the last access through the events device |
| DeviceHandler.NeverStuck | odyssey_hub_server/src/device_tasks.rs:2458-2483 | with an events device and no streams, the resume timer is enabled exactly while paused and the retry timer exactly while not, and the enabled one restarts the streams if they start |
| DeviceHandler.RestartDuringPause | odyssey_hub_server/src/device_tasks.rs:2173-2193 | during a pause streams come back only with a new events device, or once 100 ms have passed since the last access |
| DeviceHandler.AccessPausesExactly | odyssey_hub_server/src/device_tasks.rs:1851-1942 | in every run a register access or a known configuration access through the events device stops the streams of a handler that streams or is paused and leaves it paused, armed and due 100 ms after the answer; nothing else pauses a handler |
| DeviceHandler.NoRestartBeforeDeadline | odyssey_hub_server/src/device_tasks.rs:1851-1942 | whatever follows such an access, unless an events device is added, the handler streams again only once the resume timer has fired, not before the access's deadline |
| DeviceHandler.StreamsExactly | odyssey_hub_server/src/device_tasks.rs:2154-2520 | in every run a step leaves streams running exactly if it starts them or does not stop those that run, and a pause lasts exactly from the access that stopped streams until the resume timer fires |
| DeviceHandler.NewEventsDeviceStreams | odyssey_hub_server/src/device_tasks.rs:2154-2233 | in every run an events device that arrives while streams run changes at most the protocol version; otherwise it is held and connected, and the handler streams exactly if its streams start |
| DeviceHandler.RetryFollowsStreams | odyssey_hub_server/src/device_tasks.rs:2474-2515 | over any run streams are due to be retried 5 s after the last retry or the last end of the streams |
| DeviceHandler.MergeRefinement | odyssey_hub_server/src/device_tasks.rs:2154-2440 | every run of the handler is a run of the machine of four bits, with the same attachments and the same ending |
| DeviceHandler.TwoAttachmentsDecide | odyssey_hub_server/src/device_tasks.rs:2154-2440 | if no control device reports USB mode, transport, both capabilities and `events_connected` are a function of the two attachments, and a removal ends the handler exactly if it leaves neither |
| DeviceHandler.AttachOrderIsIrrelevant | odyssey_hub_server/src/device_tasks.rs:2154-2351 | wherever in a handler's run control and events are attached one after the other, the run is possible exactly with the two exchanged, ends alike and leaves the very same state |
| DeviceHandler.DetachEndsExactly | odyssey_hub_server/src/device_tasks.rs:2398-2440 | a handler without a control device, to which none comes, ends exactly if it is sent a detach, and otherwise holds events exactly if it did or is sent an attach |
| DeviceHandler.UsbModeReportExactly | odyssey_hub_server/src/device_tasks.rs:2309-2329 | in every run from every start the record shows the two attachments exactly unless a control device in USB mode vouches for the events and no events device is held |
| DeviceHandler.RemovalLawExactly | odyssey_hub_server/src/device_tasks.rs:2352-2440 | in every run from every start a removal ends the handler just when it leaves neither end, unless the control device goes while an events device is held and events are `Wired` |
| DeviceHandler.UsbModeReportLosesEvents | odyssey_hub_server/src/device_tasks.rs:2352-2397 | after a report of USB mode the handler ends with its control device although an events device is attached |
| DeviceHandler.StartsAreMerged | odyssey_hub_server/src/device_tasks.rs:1229-1284 | each start state has its four bits |
| DeviceHandler.Task.constructor | odyssey_hub_server/src/device_tasks.rs:1668-1712 | a task starts in the start state of its discoverer, invariant included, having sent nothing |
| DeviceHandler.Task.Access | odyssey_hub_server/src/device_tasks.rs:1851-1873 | an access leaves no stream running, paused exactly if streams were stopped now or earlier, and then due to resume 100 ms after the answer; nothing else changes |
| DeviceHandler.Task.AddEvents | odyssey_hub_server/src/device_tasks.rs:2154-2233 | an events device is ignored while streaming; otherwise it is stored, streams are started and one update is published |
| DeviceHandler.Task.ReportMode | odyssey_hub_server/src/device_tasks.rs:2309-2329 | a reported mode sets how events travel, and connects or disconnects them unless an events device decides |
| DeviceHandler.Task.AddControl | odyssey_hub_server/src/device_tasks.rs:2234-2351 | a control device is stored, its reports are recorded and one update is published |
| DeviceHandler.Task.RemoveControl | odyssey_hub_server/src/device_tasks.rs:2352-2397 | the handler goes on over BLE exactly if it has independent BLE events, and otherwise ends |
| DeviceHandler.Task.RemoveEvents | odyssey_hub_server/src/device_tasks.rs:2398-2440 | streams stop and the handler goes on exactly if it holds a control device |
| DeviceHandler.Task.OnRequest | odyssey_hub_server/src/device_tasks.rs:1720-2153 | a client's request has the effect on the handler's state that the step function gives it |
| DeviceHandler.Task.OnMessage | odyssey_hub_server/src/device_tasks.rs:1717-2440 | every message has the effect that the step function gives it |
| DeviceHandler.Task.Turn | odyssey_hub_server/src/device_tasks.rs:1714-2520 | one turn of the select loop is one step |
| DeviceHandler.Task.Handle | odyssey_hub_server/src/device_tasks.rs:1714-2532 | the task performs the run, publishes what the run publishes and, if it ended, one `Disconnect` after everything else |
| Listing.StepPublishesChanges | odyssey_hub_server/src/device_tasks.rs:1714-2520 | a step that does not end the handler publishes whatever it changes in the record, all of it or the accepted name |
| Listing.ListAgreesExactly | odyssey_hub_server/src/server.rs:963-1006 | in every run, once the channel is drained, the list leads to the live handler and shows its record if and only if the announcement was not overtaken or a full update followed, and no request wrote another name than the handler's last |
| Listing.ListShowsHandler | odyssey_hub_server/src/lib.rs:360-453 | in every run in which no announcement is overtaken, and every request writes its name before the next name is accepted and before a next handler is started, the drained list shows the live handler with exactly its record and command channel, and no entry without one |
| Listing.CatchesUpExactly | odyssey_hub_server/src/lib.rs:415-445 | over any run in which one handler stays live, an overtaken announcement is made good exactly by a full update |
| Listing.WrittenOver | odyssey_hub_server/src/server.rs:996-1003 | a name that a request writes while messages about the device wait on the channel makes no difference once they are processed |
| Drifting.CrossingRenamesDisagree | odyssey_hub_server/src/server.rs:963-1006 | after any run that leaves a live handler idle, two renames can cross so that the list ends with the name accepted first and the handler holds the other |
| Drifting.RenamesCanCross | odyssey_hub_server/src/device_tasks.rs:1286-1315 | a run that starts and announces one handler reaches such an idle state |
| Drifting.RenameOutlivesHandler | odyssey_hub_server/src/server.rs:996-1003 | one rename whose request writes after the device was unplugged and plugged in again leaves the next handler listed under a name it does not hold |
| Drifting.OvertakenAnnouncement | odyssey_hub_server/src/device_tasks.rs:1303-1315 | a handler started over USB in BLE mode, to which events are attached before it is announced, stays listed without them |
| Screen.ScreenShowsHandler | odyssey_hub_server/src/server.rs:77-118 | with the channel drained and the subscription quiet, the desktop has a slot for the device exactly if its latest handler is live, and the slot shows that handler's record unless it drifted |
| Screen.OrderlyScreenShowsHandler | odyssey_desktop/src/hub.rs:129-143 | in runs in which no announcement is overtaken, and every request writes its name before the next name is accepted and before a next handler is started, the slot always shows the handler's own record |
| HubManager.HubManager.constructor | odyssey_hub_server/src/device_tasks.rs:420-428 | a manager starts with nothing tracked and its dongle registered |
| HubManager.HubManager.Attach | odyssey_hub_server/src/device_tasks.rs:630-819 | a new address is tracked under the UUID read from it exactly if it could be connected, and its handler, started if need be, hears one attachment |
| HubManager.HubManager.Detach | odyssey_hub_server/src/device_tasks.rs:827-853 | a lost address is forgotten and one detachment is aimed at its recorded UUID |
| HubManager.HubManager.Publish | odyssey_hub_server/src/device_tasks.rs:884-894 | the published set is the tracked set, and no handler hears of it |
| HubManager.HubManager.AttachAll | odyssey_hub_server/src/device_tasks.rs:630-819 | whatever the order, exactly the new addresses that could be connected are recorded, and each handler hears what it should |
| HubManager.HubManager.DetachAll | odyssey_hub_server/src/device_tasks.rs:821-853 | whatever the order, exactly the lost addresses are forgotten, each with one detachment to its recorded UUID |
| HubManager.HubManager.OnSnapshot | odyssey_hub_server/src/device_tasks.rs:596-895 | after a snapshot the tracked set is what stays plus the new addresses that could be connected, recorded UUIDs are kept, exactly the difference is sent, with an announcement exactly for handlers that had to be started, and the tracked set is published |
| HubManager.HubManager.CleanUp | odyssey_hub_server/src/device_tasks.rs:971-998 | after the loop the dongle is unregistered once, and then everything still tracked is detached, so no attachment is left open |
| HubManager.HubManager.Serve | odyssey_hub_server/src/device_tasks.rs:592-961 | after any events so far the recorded addresses, everything sent because of each address and everything published are what the snapshots, one after the other, make of them |
| HubManager.HubManager.Manage | odyssey_hub_server/src/device_tasks.rs:592-998 | over every run that leaves the loop each address is told of every snapshot's change in order and, if it was still tracked, of its last detachment; its attachments and detachments are bracketed; every event publishes the set tracked right after it; and the dongle is unregistered once |
| HubManager.TrackedExactly | odyssey_hub_server/src/device_tasks.rs:604-853 | over any run of the loop an address is tracked exactly if it was at the start, or came with a snapshot and could be connected, and no snapshot since was without it |
| HubManager.BalanceMeansPairs | odyssey_hub_server/src/device_tasks.rs:630-853 | bracketed events are, position by position, pairs of an attachment and the detachment aimed at the same UUID; an open address has one attachment more |
| HubManager.RepeatedSnapshotIsSilent | odyssey_hub_server/src/device_tasks.rs:604-617 | if every address can be connected the tracked set is the snapshot, and repeating it says nothing to any handler |
| Generations.RunKeepsInvariant | odyssey_hub_server/src/device_tasks.rs:742-853 | in every run only the latest handler can be recorded or alive, each keeps its own invariant, nothing that could end or rename one reaches it before it is announced, and channel and list stand where the handlers say |
| Generations.StartsExactly | odyssey_hub_server/src/device_tasks.rs:742-823 | a handler is started exactly by a discoverer that finds none alive and is recorded in place of any other, and a record goes exactly when a finished handler is cleaned up |
| Generations.NeverOverlap | odyssey_hub_server/src/device_tasks.rs:1153-1315 | in every run announcements and goodbyes come strictly in the order announcement k, goodbye k, announcement k+1, each at most once and none left out |
| Generations.LeaversWereAnnounced | odyssey_hub_server/src/device_tasks.rs:1303-1315 | in every run a handler about to leave has been announced and has not said goodbye before |
| Generations.BracketsOrder | odyssey_hub_server/src/device_tasks.rs:2523-2531 | a bracketed channel is, position by position, strictly ordered by generation with each announcement before its goodbye |
| Generations.BracketsTell | odyssey_hub_server/src/device_tasks.rs:2523-2531 | on a bracketed channel the announced generations are those up to the open one and the closed ones have said goodbye |
| Generations.ListsOneMore | odyssey_hub_server/src/lib.rs:360-453 | processing one more message of a bracketed channel leaves the UUID listed exactly while a generation is open, with that generation's command channel |
| Generations.ListedExactly | odyssey_hub_server/src/lib.rs:360-453 | in every run, renames included, the UUID is listed exactly while some generation's announcement has been processed and its goodbye has not |
| Generations.DrainedListShowsLiveHandler | odyssey_hub_server/src/device_tasks.rs:316-336 | in every run, once the channel is drained, the UUID is listed exactly while the latest handler is running and announced |
| Tracking.HandlerLives | odyssey_hub_server/src/device_tasks.rs:1714-2520 | in every run a handler takes the messages it is sent in order, loses none while it runs, and its state is that of its own run over its turns |
| Tracking.TrackedHoldsEventsExactly | odyssey_hub_server/src/device_tasks.rs:755-853 | from any point of any run, once the latest handler has taken all it was sent, it runs and holds the device's events exactly if its four bits there, followed through the waiting and later messages, neither end nor lose the events |
| Tracking.AttachIsKeptExactly | odyssey_hub_server/src/device_tasks.rs:755-764 | without a control device, a device that a manager attached and still tracks has its events held exactly if the handler was running, no detach waited ahead of the attach and none is sent later |
| Tracking.MovedDeviceIsLost | odyssey_hub_server/src/device_tasks.rs:604-853 | a device that moves between two dongles can end without a handler holding its events while the second manager tracks it and cannot attach it again |
| Tracking.ReturnedDeviceIsLost | odyssey_hub_server/src/device_tasks.rs:604-853 | the same with one dongle, when the device is detached and attached again before its handler takes the detach |
| Dongles.LogTracks | odyssey_hub_server/src/device_tasks.rs:604-853 | a manager's log never asks the handlers of a device for an impossible step, and tracks exactly the addresses it leaves open to that device |
| Dongles.ManagerAndHandlersAgree | odyssey_hub_server/src/device_tasks.rs:755-853 | after the same steps an address is tracked on the handlers' side exactly while the manager records it with the device's UUID, so whatever the manager does next is possible |
| Dongles.NothingTrackedAfterwards | odyssey_hub_server/src/device_tasks.rs:983-998 | after a manager's task is over its dongle tracks the device nowhere |
| ShotDelay.RunKeepsInvariant | odyssey_hub_server/src/device_tasks.rs:2447-2457 | in every run watch values fit in 16 bits, a value being echoed is the latest one unless a newer one is pending, and a settled state has map and watch agree |
| ShotDelay.FirstComeFirstServed | odyssey_hub_server/src/device_tasks.rs:1767-1783 | from any state, over every run, the handler sends the requests in the order in which they were made, every setter sends what it last wrote itself, and watch and map hold what was sent and written last |
| ShotDelay.Converges | odyssey_hub_server/src/server.rs:182-192 | under every interleaving, setters midway and messages queued at the start included, with no setter midway and the latest value echoed, map and watch agree on the delay asked for last, as the actions tell it, and the echo's cast loses nothing |
| ShotDelay.EchoIsNeeded | odyssey_hub_server/src/device_tasks.rs:1767-1783 | two setters that cross leave different values in map and watch until the handler echoes |
| ShotDelay.HandlerSettles | odyssey_hub_server/src/device_tasks.rs:2447-2457 | once setters are quiet the handler serves its queue, two steps a message, and at most three steps more bring map and watch together |
| Subscriber.RunKeepsInvariant | odyssey_hub_server/src/server.rs:77-118 | in every run snapshots are real list values in order, one per notification and one more, and an outdated one will be followed by another |
| Subscriber.EndsExactly | odyssey_hub_server/src/server.rs:97-114 | in every run the stream has ended exactly if it was closed, its client had gone when a snapshot was sent, or it received with more notifications waiting than its queue holds |
| Subscriber.QuietStreamIsFresh | odyssey_hub_server/src/server.rs:77-118 | under every interleaving, with no notification pending and no mutator between its change and its notification, the last snapshot sent is the list as it was last set, and there was one snapshot for the subscription and one for every notification |
| Subscriber.CatchesUp | odyssey_hub_server/src/server.rs:97-114 | from any point of any run at which the stream has not ended and its queue has room, it becomes quiet with the current list sent, once the mutators midway have notified, in any order, and every notification is received |
| Subscriber.QuietClientMirrorsServer | odyssey_hub_server/src/server.rs:70-118 | a client that rebuilds its slab from the last snapshot of a quiet stream shows exactly the server's devices |

## Left out

* USB, BLE, gRPC, sockets, files, HTTP and flashing are foreign: what a device answers, whether a
  connect or a stream start succeeds and what time it is are parameters of each step.
* Poses, homographies, sensor fusion and markers: floating point over libraries not shown. A tracking
  event keeps its timestamp and stands for the rest by one opaque number.
* User interface, tray, generated bindings, FFI wrappers, accessory scanning, update progress.
* Replies to requesters and broadcast events of a handler; they do not feed back into it. Messages that
  only forward to a device (zeroing, vendor packets, pairing) leave the handler's state as it is.
* The bias of the select loop: any enabled branch may be taken, which gives the model more runs. The
  `else` branch of the loop cannot fire, because the message branch is never disabled.
* Looking up, starting and recording a handler is one step of its discoverer. The table of handlers is
  unlocked in between, so without this assumption two handlers for one UUID could be alive; announcing
  a handler is a separate step.
* Aborted hub managers and list entries for devices that are only in DFU mode; the goodbye of such an
  entry is sent by UUID and could hit a live handler's entry.
* The scan's reconciliation of opaque USB ids with UUIDs, and the set of directly connected handlers.
* The notification that a rename request sends after its own write is in `Dispatcher.Server` and `Subscriber`;
  `Generations` keeps only what the list takes in.
* Interleaving tasks (`ShotDelay`, `Subscriber`, `Generations`) are state machines on values, without
  locks and aliasing, because what matters there is the order of their steps.
* The slab is a sequence: it is always cleared before it is refilled, so slots are handed out in order.
* The capacity of the notification channel is a parameter; the channel library may round it up.
* Shot-delay agreement without a live handler: a watch send without receivers stores nothing.
* Publish: bonded devices, versions and names of a `DongleUpdate` are left out, as they are read from the dongle each time.
* Attach: reading versions, product id and name, and the refresh of bond names, are left out; they fill the record but decide nothing.
* Choosing the latest firmware regardless of compatibility, and the search for a device's kind by UUID,
  would only repeat the reasoning of the two searches that are modelled.
