/**
 * The task that manages one dongle: it diffs snapshots of connected BLE addresses against the
 * addresses it tracks, attaches and detaches device handlers, and publishes the tracked set.
 */
module HubManager {
  import opened Common

  type Address = Uuid

  /** What becomes of probing one new address; `NoLink` is a failed connect. */
  datatype Probe = NoLink | Linked(uuid: Option<Uuid>, handler: HandlerState)

  /** The entry for a device in the table of handlers when it is looked up. */
  datatype HandlerState = Absent | Running | Finished

  /** The outside world during one snapshot: how each probe goes, and which detached devices still have a handler. */
  datatype World = World(probes: map<Address, Probe>, handled: set<Address>)

  datatype HubEvent = Snapshot(devices: seq<Address>, world: World) | BondsCleared

  /** Messages to handlers and to the dispatcher, in the order they are sent, noted with the address they are due to. */
  datatype Sent =
    | AddEvents(address: Address, uuid: Uuid)
    | RemoveEvents(removed: Address, target: Uuid, delivered: bool)
    | Connect(probed: Address, started: Uuid)
    | DongleConnect
    | DongleUpdate(connected: set<Address>)
    | DongleDisconnect

  function ProbeOf(w: World, a: Address): Probe {
    if a in w.probes then w.probes[a] else NoLink
  }

  /** A device whose UUID cannot be read goes by its address. */
  function UuidOf(w: World, a: Address): Uuid {
    match ProbeOf(w, a)
    case Linked(Some(u), _) => u
    case _ => a
  }

  /** The attachments and detachments of one address, in order: what the handlers see of it. */
  function About(log: seq<Sent>, a: Address): seq<Sent> {
    if log == [] then []
    else
      var init := About(log[..|log| - 1], a);
      match log[|log| - 1]
      case AddEvents(b, u) => if a == b then init + [AddEvents(b, u)] else init
      case RemoveEvents(b, u, d) => if a == b then init + [RemoveEvents(b, u, d)] else init
      case _ => init
  }

  /** What attaching an address sends: nothing without a link, and a `Connect` first if a handler is started. */
  function AttachLog(a: Address, w: World): seq<Sent> {
    match ProbeOf(w, a)
    case NoLink => []
    case Linked(_, Running) => [AddEvents(a, UuidOf(w, a))]
    case Linked(_, _) => [Connect(a, UuidOf(w, a)), AddEvents(a, UuidOf(w, a))]
  }

  /** What detaching an address sends, whether or not a handler is there to receive it. */
  function Detached(a: Address, uuids: map<Address, Uuid>, w: World): Sent {
    RemoveEvents(a, if a in uuids then uuids[a] else a, a in w.handled)
  }

  function Attached(a: Address, w: World): seq<Sent> {
    if ProbeOf(w, a).Linked? then [AddEvents(a, UuidOf(w, a))] else []
  }

  /** The address because of which a message is sent; messages about the dongle have none. */
  function AddressOf(s: Sent): Option<Address> {
    match s
    case Connect(a, _) => Some(a)
    case AddEvents(a, _) => Some(a)
    case RemoveEvents(a, _, _) => Some(a)
    case _ => None
  }

  /** Everything sent because of one address, in order: announcements of handlers started for it included. */
  function Told(log: seq<Sent>, a: Address): seq<Sent> {
    if log == [] then []
    else
      var init, last := log[..|log| - 1], log[|log| - 1];
      Told(init, a) + if AddressOf(last) == Some(a) then [last] else []
  }

  predicate OfDongle(s: Sent) {
    s.DongleConnect? || s.DongleUpdate? || s.DongleDisconnect?
  }

  /** Everything sent about the dongle itself, in order. */
  function Announced(log: seq<Sent>): seq<Sent> {
    if log == [] then []
    else Announced(log[..|log| - 1]) + if OfDongle(log[|log| - 1]) then [log[|log| - 1]] else []
  }

  lemma AboutOneMore(log: seq<Sent>, s: Sent, a: Address)
    ensures About(log + [s], a) ==
            if (s.AddEvents? && s.address == a) || (s.RemoveEvents? && s.removed == a) then About(log, a) + [s]
            else About(log, a)
  {
    assert (log + [s])[..|log|] == log;
  }

  lemma OneMore(log: seq<Sent>, s: Sent, a: Address)
    ensures OfDongle(s) ==> Announced(log + [s]) == Announced(log) + [s] && Told(log + [s], a) == Told(log, a)
    ensures !OfDongle(s) ==> Announced(log + [s]) == Announced(log)
    ensures !OfDongle(s) ==> Told(log + [s], a) == Told(log, a) + if AddressOf(s) == Some(a) then [s] else []
  {
    assert (log + [s])[..|log|] == log;
  }

  lemma AttachTold(log: seq<Sent>, a: Address, w: World, b: Address)
    ensures Told(log + AttachLog(a, w), b) == if b == a then Told(log, b) + AttachLog(a, w) else Told(log, b)
    ensures Announced(log + AttachLog(a, w)) == Announced(log)
  {
    var u := UuidOf(w, a);
    OneMore(log, Connect(a, u), b);
    OneMore(log, AddEvents(a, u), b);
    OneMore(log + [Connect(a, u)], AddEvents(a, u), b);
    assert log + [Connect(a, u), AddEvents(a, u)] == log + [Connect(a, u)] + [AddEvents(a, u)];
    assert log + [] == log;
  }

  lemma AttachHeard(log: seq<Sent>, a: Address, w: World, b: Address)
    ensures About(log + AttachLog(a, w), b) == if b == a then About(log, b) + Attached(a, w) else About(log, b)
  {
    var u := UuidOf(w, a);
    AboutOneMore(log, Connect(a, u), b);
    AboutOneMore(log, AddEvents(a, u), b);
    AboutOneMore(log + [Connect(a, u)], AddEvents(a, u), b);
    assert log + [Connect(a, u), AddEvents(a, u)] == log + [Connect(a, u)] + [AddEvents(a, u)];
    assert log + [] == log;
  }

  /** The set last published for the dongle, which registers with no devices. */
  function LastPublished(log: seq<Sent>): set<Address> {
    if log == [] then {}
    else match log[|log| - 1]
      case DongleUpdate(devices) => devices
      case DongleConnect => {}
      case _ => LastPublished(log[..|log| - 1])
  }

  /** Where a sequence of attachments and detachments stands. */
  datatype Balance = Closed | Open(uuid: Uuid) | Broken

  /**
   * Attachments and detachments alternate, beginning with an attachment, and each detachment goes to
   * the UUID of the attachment before it; anything else is broken for good.
   */
  function BalanceOf(events: seq<Sent>): Balance {
    if events == [] then Closed
    else
      match (BalanceOf(events[..|events| - 1]), events[|events| - 1])
      case (Closed, AddEvents(_, u)) => Open(u)
      case (Open(u), RemoveEvents(_, target, _)) => if target == u then Closed else Broken
      case _ => Broken
  }

  /** Every attachment has been undone. */
  predicate Bracketed(events: seq<Sent>) {
    BalanceOf(events) == Closed
  }

  /** One attachment, to `uuid`, is outstanding. */
  predicate OpenTo(events: seq<Sent>, uuid: Uuid) {
    BalanceOf(events) == Balance.Open(uuid)
  }

  /** Spelled out by position: the events come in pairs of an attachment and the detachment that undoes it. */
  ghost predicate Pairs(events: seq<Sent>, n: nat) {
    && |events| == 2 * n
    && forall k: nat | k < n ::
         events[2 * k].AddEvents? && events[2 * k + 1].RemoveEvents? && events[2 * k + 1].target == events[2 * k].uuid
  }

  lemma {:induction false} BalanceMeansPairs(events: seq<Sent>)
    ensures Bracketed(events) ==> Pairs(events, |events| / 2)
    ensures forall u | OpenTo(events, u) ::
              var n := |events| - 1; Pairs(events[..n], n / 2) && events[n].AddEvents? && events[n].uuid == u
  {
    if events != [] {
      var init := events[..|events| - 1];
      BalanceMeansPairs(init);
      if Bracketed(events) {
        var n := |init| - 1;
        assert OpenTo(init, BalanceOf(init).uuid);
        assert init[..n] == events[..n] && init[n] == events[n];
        assert Pairs(events[..n], n / 2);
        forall k: nat | k < |events| / 2
          ensures events[2 * k].AddEvents? && events[2 * k + 1].RemoveEvents?
          ensures events[2 * k + 1].target == events[2 * k].uuid
        {
          assert k < n / 2 ==> events[2 * k] == events[..n][2 * k] && events[2 * k + 1] == events[..n][2 * k + 1];
        }
      }
    }
  }

  /** A tracked address has exactly one outstanding attachment, to its recorded UUID; any other has none. */
  predicate Ledger(log: seq<Sent>, uuids: map<Address, Uuid>, a: Address) {
    if a in uuids then OpenTo(About(log, a), uuids[a]) else Bracketed(About(log, a))
  }

  /** What was sent because of one address since `before`, when the set `added` was attached. */
  predicate HeardAttach(before: seq<Sent>, log: seq<Sent>, added: set<Address>, w: World, a: Address) {
    Told(log, a) == Told(before, a) + if a in added then AttachLog(a, w) else []
  }

  /** The same when the set `removed` was detached. */
  predicate HeardDetach(before: seq<Sent>, log: seq<Sent>, removed: set<Address>, uuids: map<Address, Uuid>, w: World,
                        a: Address) {
    Told(log, a) == Told(before, a) + if a in removed then [Detached(a, uuids, w)] else []
  }

  ghost predicate AllAttached(before: seq<Sent>, log: seq<Sent>, added: set<Address>, w: World) {
    && Announced(log) == Announced(before)
    && forall a: Address :: HeardAttach(before, log, added, w, a)
  }

  ghost predicate AllDetached(before: seq<Sent>, log: seq<Sent>, removed: set<Address>, uuids: map<Address, Uuid>,
                              w: World)
  {
    && Announced(log) == Announced(before)
    && forall a: Address :: HeardDetach(before, log, removed, uuids, w, a)
  }

  ghost predicate Ledgers(log: seq<Sent>, uuids: map<Address, Uuid>) {
    forall a: Address :: Ledger(log, uuids, a)
  }

  lemma AttachOneMore(before: seq<Sent>, log: seq<Sent>, added: set<Address>, w: World, a: Address)
    requires AllAttached(before, log, added, w) && a !in added
    ensures AllAttached(before, log + AttachLog(a, w), added + {a}, w)
  {
    AttachTold(log, a, w, a);
    forall b: Address
      ensures HeardAttach(before, log + AttachLog(a, w), added + {a}, w, b)
    {
      assert HeardAttach(before, log, added, w, b);
      AttachTold(log, a, w, b);
    }
  }

  lemma DetachOneMore(before: seq<Sent>, log: seq<Sent>, removed: set<Address>, uuids: map<Address, Uuid>, w: World,
                      a: Address)
    requires AllDetached(before, log, removed, uuids, w) && a !in removed
    ensures AllDetached(before, log + [Detached(a, uuids, w)], removed + {a}, uuids, w)
  {
    OneMore(log, Detached(a, uuids, w), a);
    forall b: Address
      ensures HeardDetach(before, log + [Detached(a, uuids, w)], removed + {a}, uuids, w, b)
    {
      assert HeardDetach(before, log, removed, uuids, w, b);
      OneMore(log, Detached(a, uuids, w), b);
    }
  }

  lemma LedgersAttach(log: seq<Sent>, uuids: map<Address, Uuid>, w: World, a: Address)
    requires Ledgers(log, uuids) && a !in uuids
    ensures ProbeOf(w, a).Linked? ==> Ledgers(log + AttachLog(a, w), uuids[a := UuidOf(w, a)])
  {
    if ProbeOf(w, a).Linked? {
      var u := UuidOf(w, a);
      var log', uuids' := log + AttachLog(a, w), uuids[a := u];
      forall b: Address
        ensures Ledger(log', uuids', b)
      {
        assert Ledger(log, uuids, b);
        AttachHeard(log, a, w, b);
        if b == a {
          Opens(About(log, a), a, u);
        }
      }
    }
  }

  lemma LedgersDetach(log: seq<Sent>, uuids: map<Address, Uuid>, w: World, a: Address)
    requires Ledgers(log, uuids) && a in uuids
    ensures Ledgers(log + [Detached(a, uuids, w)], uuids - {a})
  {
    forall b: Address
      ensures Ledger(log + [Detached(a, uuids, w)], uuids - {a}, b)
    {
      assert Ledger(log, uuids, b);
      AboutOneMore(log, Detached(a, uuids, w), b);
      if b == a {
        Closes(About(log, a), a, uuids[a], a in w.handled);
      }
    }
  }

  /** Messages that are not about any device change no ledger. */
  lemma LedgersIgnore(log: seq<Sent>, uuids: map<Address, Uuid>, s: Sent)
    requires Ledgers(log, uuids) && OfDongle(s)
    ensures Ledgers(log + [s], uuids)
    ensures Announced(log + [s]) == Announced(log) + [s]
    ensures forall a: Address :: Told(log + [s], a) == Told(log, a)
  {
    assert (log + [s])[..|log|] == log;
    forall a: Address
      ensures Ledger(log + [s], uuids, a) && Told(log + [s], a) == Told(log, a)
    {
      assert Ledger(log, uuids, a);
      AboutOneMore(log, s, a);
      OneMore(log, s, a);
    }
  }

  lemma Opens(events: seq<Sent>, a: Address, u: Uuid)
    requires Bracketed(events)
    ensures OpenTo(events + [AddEvents(a, u)], u)
  {
    assert (events + [AddEvents(a, u)])[..|events|] == events;
  }

  lemma Closes(events: seq<Sent>, a: Address, u: Uuid, delivered: bool)
    requires OpenTo(events, u)
    ensures Bracketed(events + [RemoveEvents(a, u, delivered)])
  {
    assert (events + [RemoveEvents(a, u, delivered)])[..|events|] == events;
  }

  class HubManager {
    /** Tracked BLE addresses, and the UUID recorded for each. */
    var hubDevices: set<Address>
    var hubDeviceUuids: map<Address, Uuid>
    var log: seq<Sent>

    /** Tracked addresses have exactly one outstanding attachment, to the recorded UUID; the others have none. */
    ghost predicate Valid()
      reads this
    {
      && hubDeviceUuids.Keys == hubDevices
      && Ledgers(log, hubDeviceUuids)
    }

    /** What holds at the head of the loop. */
    ghost predicate AtLoopHead()
      reads this
    {
      Valid() && LastPublished(log) == hubDevices
    }

    constructor ()
      ensures AtLoopHead() && hubDevices == {} && log == [DongleConnect]
    {
      hubDevices, hubDeviceUuids, log := {}, map[], [DongleConnect];
      new;
      assert Ledgers([], map[]);
      LedgersIgnore([], map[], DongleConnect);
      assert [] + [DongleConnect] == [DongleConnect];
    }

    /** One new address: connect, read its UUID, then merge into a running handler or start one. */
    method Attach(a: Address, w: World)
      requires Valid() && a !in hubDevices
      modifies this
      ensures Valid() && log == old(log) + AttachLog(a, w)
      ensures hubDeviceUuids ==
              if ProbeOf(w, a).Linked? then old(hubDeviceUuids)[a := UuidOf(w, a)] else old(hubDeviceUuids)
    {
      LedgersAttach(log, hubDeviceUuids, w, a);
      var probe := ProbeOf(w, a);
      if probe.NoLink? {
        return;
      }
      ghost var before := log;
      var uuid := if probe.uuid.Some? then probe.uuid.value else a;
      if probe.handler == Running {
        log := log + [AddEvents(a, uuid)];
        hubDevices := hubDevices + {a};
        hubDeviceUuids := hubDeviceUuids[a := uuid];
      } else {
        hubDevices := hubDevices + {a};
        hubDeviceUuids := hubDeviceUuids[a := uuid];
        log := log + [Connect(a, uuid)];
        log := log + [AddEvents(a, uuid)];
      }
      assert log == before + AttachLog(a, w);
    }

    /** One address that went away: forget it, then tell its handler if there still is one. */
    method Detach(a: Address, w: World)
      requires Valid() && a in hubDevices
      modifies this
      ensures Valid() && log == old(log) + [Detached(a, old(hubDeviceUuids), w)]
      ensures hubDeviceUuids == old(hubDeviceUuids) - {a}
    {
      LedgersDetach(log, hubDeviceUuids, w, a);
      var uuid := if a in hubDeviceUuids then hubDeviceUuids[a] else a;
      hubDeviceUuids := hubDeviceUuids - {a};
      hubDevices := hubDevices - {a};
      log := log + [RemoveEvents(a, uuid, a in w.handled)];
    }

    /** A `DongleUpdate` message, after a snapshot or after the bonds were cleared. */
    method Publish()
      requires Valid()
      modifies this`log
      ensures AtLoopHead() && log == old(log) + [DongleUpdate(hubDevices)]
      ensures Announced(log) == old(Announced(log)) + [DongleUpdate(hubDevices)]
      ensures forall a: Address :: Told(log, a) == old(Told(log, a))
    {
      LedgersIgnore(log, hubDeviceUuids, DongleUpdate(hubDevices));
      log := log + [DongleUpdate(hubDevices)];
    }

    /** The added addresses, in whatever order they are enumerated. */
    method AttachAll(added: set<Address>, w: World)
      requires Valid() && added !! hubDevices
      modifies this
      ensures Valid() && AllAttached(old(log), log, added, w)
      ensures hubDeviceUuids == old(hubDeviceUuids) + (map a | a in added && ProbeOf(w, a).Linked? :: UuidOf(w, a))
    {
      var todo := added;
      ghost var done: set<Address> := {};
      while todo != {}
        invariant todo !! done && todo + done == added
        invariant Valid() && AllAttached(old(log), log, done, w)
        invariant hubDeviceUuids == old(hubDeviceUuids) + (map a | a in done && ProbeOf(w, a).Linked? :: UuidOf(w, a))
      {
        var a :| a in todo;
        AttachOneMore(old(log), log, done, w, a);
        Attach(a, w);
        todo := todo - {a};
        done := done + {a};
      }
      assert done == added;
    }

    /** The addresses that went away, in whatever order they are enumerated. */
    method DetachAll(toRemove: set<Address>, w: World)
      requires Valid() && toRemove <= hubDevices
      modifies this
      ensures Valid() && AllDetached(old(log), log, toRemove, old(hubDeviceUuids), w)
      ensures hubDeviceUuids == old(hubDeviceUuids) - toRemove
    {
      var todo := toRemove;
      ghost var done: set<Address> := {};
      ghost var uuids := hubDeviceUuids;
      while todo != {}
        invariant todo !! done && todo + done == toRemove
        invariant Valid() && AllDetached(old(log), log, done, uuids, w)
        invariant hubDeviceUuids == uuids - done
      {
        var a :| a in todo;
        assert Detached(a, hubDeviceUuids, w) == Detached(a, uuids, w);
        DetachOneMore(old(log), log, done, uuids, w, a);
        Detach(a, w);
        todo := todo - {a};
        done := done + {a};
      }
      assert done == toRemove;
    }

    /** A snapshot: new addresses are attached, missing ones detached. Handlers hear of no other address. */
    method OnSnapshot(devices: seq<Address>, w: World)
      requires AtLoopHead()
      modifies this
      ensures AtLoopHead()
      ensures hubDevices == Tracked(old(hubDevices), devices, w)
      ensures hubDeviceUuids == Recorded(old(hubDeviceUuids), devices, w)
      ensures AllChanged(old(log), log, old(hubDeviceUuids), devices, w)
      ensures Announced(log) == old(Announced(log)) + [DongleUpdate(hubDevices)]
    {
      ghost var log0, uuids0 := log, hubDeviceUuids;
      var newSet := set a | a in devices;
      AttachAll(newSet - hubDevices, w);
      ghost var log1, uuids1 := log, hubDeviceUuids;
      var toRemove := set a | a in hubDevices && a !in newSet;
      DetachAll(toRemove, w);
      SnapshotChanges(log0, log1, log, uuids0, uuids1, devices, w);
      SnapshotRecords(uuids0, devices, w);
      Publish();
    }

    /** After the loop: unregister, then detach whatever is still tracked. */
    method CleanUp(w: World)
      requires Valid()
      modifies this
      ensures Valid() && hubDevices == {}
      ensures forall a: Address :: Bracketed(About(log, a))
      ensures AllDetached(old(log) + [DongleDisconnect], log, old(hubDevices), old(hubDeviceUuids), w)
      ensures forall a: Address :: Told(old(log) + [DongleDisconnect], a) == old(Told(log, a))
      ensures Announced(log) == old(Announced(log)) + [DongleDisconnect]
    {
      LedgersIgnore(log, hubDeviceUuids, DongleDisconnect);
      log := log + [DongleDisconnect];
      ghost var unregistered, uuids, done: set<Address> := log, hubDeviceUuids, {};
      while hubDevices != {}
        invariant Valid() && AllDetached(unregistered, log, done, uuids, w)
        invariant hubDevices !! done && hubDevices + done == old(hubDevices)
        invariant hubDeviceUuids == uuids - done
        decreases hubDevices
      {
        var a :| a in hubDevices;
        assert Detached(a, hubDeviceUuids, w) == Detached(a, uuids, w);
        DetachOneMore(unregistered, log, done, uuids, w, a);
        Detach(a, w);
        done := done + {a};
        assert a !in hubDevices;
      }
      assert done == old(hubDevices);
      forall a: Address
        ensures Bracketed(About(log, a))
      {
        assert Ledger(log, hubDeviceUuids, a);
      }
    }

    /**
     * The loop, for any events so far: what is recorded, everything sent because of each address, and one
     * publication for every event, of the set that is tracked right after it.
     */
    method Serve(events: seq<HubEvent>)
      requires AtLoopHead()
      modifies this
      ensures AtLoopHead() && hubDeviceUuids == After(old(hubDeviceUuids), events)
      ensures AllServed(old(log), log, old(hubDeviceUuids), events)
    {
      ghost var uuids := hubDeviceUuids;
      for i := 0 to |events|
        invariant AtLoopHead() && hubDeviceUuids == After(uuids, events[..i])
        invariant AllServed(old(log), log, uuids, events[..i])
      {
        ghost var before := log;
        match events[i] {
          case Snapshot(devices, w) => OnSnapshot(devices, w);
          case BondsCleared => Publish();
        }
        AfterOneMore(uuids, events[..i], events[i]);
        ServedOneMore(old(log), before, log, uuids, events[..i], events[i]);
        assert events[..i + 1] == events[..i] + [events[i]];
      }
      assert events[..|events|] == events;
    }

    /**
     * The whole task, for any stream of events, up to the receive error that ends it. Afterwards each address has
     * been told of every snapshot's change and of its last detachment, and the dongle is unregistered once.
     */
    method Manage(events: seq<HubEvent>, last: World)
      requires AtLoopHead()
      modifies this
      ensures Valid() && hubDevices == {}
      ensures forall a: Address :: Bracketed(About(log, a))
      ensures forall a: Address :: Told(log, a) == old(Told(log, a)) + Life(old(hubDeviceUuids), events, last, a)
      ensures Announced(log) ==
              old(Announced(log)) + Publications(old(hubDeviceUuids), events) + [DongleDisconnect]
    {
      ghost var log0, uuids := log, hubDeviceUuids;
      Serve(events);
      ghost var log1 := log;
      CleanUp(last);
      forall a: Address
        ensures Told(log, a) == Told(log0, a) + Life(uuids, events, last, a)
      {
        assert Served(log0, log1, uuids, events, a);
        assert HeardDetach(log1 + [DongleDisconnect], log, After(uuids, events).Keys, After(uuids, events), last, a);
      }
    }
  }

  /** The set a snapshot leaves tracked: what stays, and the new addresses that could be connected. */
  function Tracked(old': set<Address>, devices: seq<Address>, w: World): set<Address> {
    var now := set a | a in devices;
    old' * now + (set a | a in now - old' && ProbeOf(w, a).Linked?)
  }

  /** What it leaves recorded: UUIDs are kept while an address stays, and read when it comes. */
  function Recorded(uuids: map<Address, Uuid>, devices: seq<Address>, w: World): map<Address, Uuid> {
    map a | a in Tracked(uuids.Keys, devices, w) :: if a in uuids then uuids[a] else UuidOf(w, a)
  }

  /**
   * What is sent because of one address and one snapshot. A new address that can be connected is attached, and a
   * handler is announced first unless one is running; a missing one is detached from its recorded UUID.
   */
  function Change(uuids: map<Address, Uuid>, devices: seq<Address>, w: World, a: Address): seq<Sent> {
    if a in devices && a !in uuids && a in w.probes && w.probes[a].Linked? then
      var Linked(read, handler) := w.probes[a];
      var uuid := if read.Some? then read.value else a;
      (if handler == Running then [] else [Connect(a, uuid)]) + [AddEvents(a, uuid)]
    else if a in uuids && a !in devices then [RemoveEvents(a, uuids[a], a in w.handled)]
    else []
  }

  ghost predicate AllChanged(before: seq<Sent>, log: seq<Sent>, uuids: map<Address, Uuid>, devices: seq<Address>,
                             w: World)
  {
    forall a: Address :: Told(log, a) == Told(before, a) + Change(uuids, devices, w, a)
  }

  // ---- Whole runs of the loop ----

  /** The recorded UUIDs after the events. */
  function After(uuids: map<Address, Uuid>, events: seq<HubEvent>): map<Address, Uuid> {
    if events == [] then uuids
    else
      var init := After(uuids, events[..|events| - 1]);
      match events[|events| - 1]
      case Snapshot(devices, w) => Recorded(init, devices, w)
      case BondsCleared => init
  }

  /** One publication for every event, of the set tracked right after it. */
  function Publications(uuids: map<Address, Uuid>, events: seq<HubEvent>): seq<Sent> {
    if events == [] then []
    else Publications(uuids, events[..|events| - 1]) + [DongleUpdate(After(uuids, events).Keys)]
  }

  /** What is sent because of one address and one event. */
  function ChangeBy(uuids: map<Address, Uuid>, event: HubEvent, a: Address): seq<Sent> {
    match event
    case Snapshot(devices, w) => Change(uuids, devices, w, a)
    case BondsCleared => []
  }

  /** Everything sent because of one address: the snapshots' changes, one after the other. */
  function Changes(uuids: map<Address, Uuid>, events: seq<HubEvent>, a: Address): seq<Sent> {
    if events == [] then []
    else
      var init := events[..|events| - 1];
      Changes(uuids, init, a) + ChangeBy(After(uuids, init), events[|events| - 1], a)
  }

  /** The same for the whole task, closed by a detachment if the address is still tracked when the loop ends. */
  function Life(uuids: map<Address, Uuid>, events: seq<HubEvent>, last: World, a: Address): seq<Sent> {
    var uuids' := After(uuids, events);
    Changes(uuids, events, a) + if a in uuids' then [RemoveEvents(a, uuids'[a], a in last.handled)] else []
  }

  predicate Served(before: seq<Sent>, log: seq<Sent>, uuids: map<Address, Uuid>, events: seq<HubEvent>, a: Address) {
    Told(log, a) == Told(before, a) + Changes(uuids, events, a)
  }

  ghost predicate AllServed(before: seq<Sent>, log: seq<Sent>, uuids: map<Address, Uuid>, events: seq<HubEvent>) {
    && Announced(log) == Announced(before) + Publications(uuids, events)
    && forall a: Address :: Served(before, log, uuids, events, a)
  }

  lemma AfterOneMore(uuids: map<Address, Uuid>, events: seq<HubEvent>, event: HubEvent)
    ensures After(uuids, events + [event]) ==
            match event
            case Snapshot(devices, w) => Recorded(After(uuids, events), devices, w)
            case BondsCleared => After(uuids, events)
  {
    assert (events + [event])[..|events|] == events;
  }

  lemma PublicationsOneMore(uuids: map<Address, Uuid>, events: seq<HubEvent>, event: HubEvent)
    ensures Publications(uuids, events + [event]) ==
            Publications(uuids, events) + [DongleUpdate(After(uuids, events + [event]).Keys)]
  {
    assert (events + [event])[..|events|] == events;
  }

  lemma Regrouped(first: seq<Sent>, second: seq<Sent>, third: seq<Sent>)
    ensures (first + second) + third == first + (second + third)
  {
  }

  lemma ChangesOneMore(uuids: map<Address, Uuid>, events: seq<HubEvent>, event: HubEvent, a: Address)
    ensures Changes(uuids, events + [event], a) ==
            Changes(uuids, events, a) + ChangeBy(After(uuids, events), event, a)
  {
    assert (events + [event])[..|events|] == events;
  }

  lemma {:induction false} ServedNext(before: seq<Sent>, log: seq<Sent>, log': seq<Sent>, uuids: map<Address, Uuid>,
                   events: seq<HubEvent>, event: HubEvent, a: Address)
    requires Served(before, log, uuids, events, a)
    requires Told(log', a) == Told(log, a) + ChangeBy(After(uuids, events), event, a)
    ensures Served(before, log', uuids, events + [event], a)
  {
    ChangesOneMore(uuids, events, event, a);
    Regrouped(Told(before, a), Changes(uuids, events, a), ChangeBy(After(uuids, events), event, a));
  }

  lemma {:induction false} ServedOneMore(before: seq<Sent>, log: seq<Sent>, log': seq<Sent>, uuids: map<Address, Uuid>,
                                         events: seq<HubEvent>, event: HubEvent)
    requires AllServed(before, log, uuids, events)
    requires forall a: Address :: Told(log', a) == Told(log, a) + ChangeBy(After(uuids, events), event, a)
    requires Announced(log') == Announced(log) + [DongleUpdate(After(uuids, events + [event]).Keys)]
    ensures AllServed(before, log', uuids, events + [event])
  {
    PublicationsOneMore(uuids, events, event);
    forall a: Address
      ensures Served(before, log', uuids, events + [event], a)
    {
      assert Served(before, log, uuids, events, a);
      ServedNext(before, log, log', uuids, events, event, a);
    }
  }

  /** A snapshot that has the address, which can be connected if need be. */
  predicate Brings(event: HubEvent, a: Address) {
    event.Snapshot? && a in event.devices && ProbeOf(event.world, a).Linked?
  }

  /** No snapshot from there on is without the address. */
  predicate StaysFrom(events: seq<HubEvent>, i: nat, a: Address) {
    forall k: nat | i <= k < |events| :: events[k].Snapshot? ==> a in events[k].devices
  }

  ghost predicate Came(events: seq<HubEvent>, a: Address) {
    exists i :: 0 <= i < |events| && Brings(events[i], a) && StaysFrom(events, i, a)
  }

  lemma CameOneMore(events: seq<HubEvent>, event: HubEvent, a: Address)
    ensures Came(events + [event], a) <==>
            Brings(event, a) || (Came(events, a) && (event.Snapshot? ==> a in event.devices))
  {
    var n, more := |events|, events + [event];
    assert more[n] == event;
    assert forall i | 0 <= i < n :: Brings(more[i], a) <==> Brings(events[i], a);
    forall i: nat | i < n
      ensures StaysFrom(more, i, a) <==> StaysFrom(events, i, a) && (event.Snapshot? ==> a in event.devices)
    {
      assert forall k | i <= k < n :: more[k] == events[k];
    }
  }

  /**
   * Over any run of the loop an address is tracked exactly if it was at the start or came with a snapshot, linked, and
   * no snapshot since then was without it.
   */
  lemma {:induction false} TrackedExactly(uuids: map<Address, Uuid>, events: seq<HubEvent>, a: Address)
    ensures a in After(uuids, events) <==> (a in uuids && StaysFrom(events, 0, a)) || Came(events, a)
    decreases |events|
  {
    if events != [] {
      var init, last := events[..|events| - 1], events[|events| - 1];
      TrackedExactly(uuids, init, a);
      assert events == init + [last];
      CameOneMore(init, last, a);
    }
  }

  lemma ChangeOf(uuids: map<Address, Uuid>, uuids': map<Address, Uuid>, devices: seq<Address>, w: World, a: Address)
    requires if a in uuids then a in uuids' && uuids'[a] == uuids[a] else a in uuids' ==> a in devices
    ensures Change(uuids, devices, w, a) ==
            (if a in devices && a !in uuids then AttachLog(a, w) else [])
            + if a in uuids' && a !in devices then [Detached(a, uuids', w)] else []
  {
  }

  lemma SnapshotRecords(uuids: map<Address, Uuid>, devices: seq<Address>, w: World)
    ensures var new' := set a | a in devices;
            var uuids' := uuids + (map a | a in new' - uuids.Keys && ProbeOf(w, a).Linked? :: UuidOf(w, a));
            uuids' - (set a | a in uuids' && a !in new') == Recorded(uuids, devices, w)
  {
  }

  lemma SnapshotChanges(log0: seq<Sent>, log1: seq<Sent>, log2: seq<Sent>, uuids: map<Address, Uuid>,
                        uuids': map<Address, Uuid>, devices: seq<Address>, w: World)
    requires var new' := set a | a in devices;
             && AllAttached(log0, log1, new' - uuids.Keys, w)
             && AllDetached(log1, log2, (set a | a in uuids' && a !in new'), uuids', w)
             && uuids' == uuids + (map a | a in new' - uuids.Keys && ProbeOf(w, a).Linked? :: UuidOf(w, a))
    ensures AllChanged(log0, log2, uuids, devices, w)
  {
    var new' := set a | a in devices;
    forall a: Address
      ensures Told(log2, a) == Told(log0, a) + Change(uuids, devices, w, a)
    {
      assert HeardAttach(log0, log1, new' - uuids.Keys, w, a);
      assert HeardDetach(log1, log2, (set a | a in uuids' && a !in new'), uuids', w, a);
      assert a in devices <==> a in new';
      ChangeOf(uuids, uuids', devices, w, a);
    }
  }

  /** If every address can be connected the tracked set is the snapshot, and a repeated one says nothing to handlers. */
  lemma RepeatedSnapshotIsSilent(old': set<Address>, uuids: map<Address, Uuid>, devices: seq<Address>,
                                 again: seq<Address>, w: World, w': World)
    requires forall a | a in devices :: ProbeOf(w, a).Linked?
    requires (set a | a in again) == (set a | a in devices) && uuids.Keys == Tracked(old', devices, w)
    ensures Tracked(old', devices, w) == set a | a in devices
    ensures Tracked(Tracked(old', devices, w), again, w') == Tracked(old', devices, w)
    ensures forall a: Address :: Change(uuids, again, w', a) == []
  {
    var now := set a | a in devices;
    assert Tracked(old', devices, w) == now;
    assert forall a: Address :: a in again <==> a in (set b | b in again);
  }
}
