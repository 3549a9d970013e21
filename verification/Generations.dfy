/**
 * Successive handlers for one UUID, and what the server's list takes in about it. The USB scan and any
 * number of hub managers look the UUID up, start a handler when there is none or only a finished one,
 * announce it, and attach and detach connections; clients send requests; handlers run, say goodbye and
 * finish. Everything for the dispatcher goes over one FIFO channel, but the list has a second writer:
 * a rename request, once its handler has accepted the name, writes the name into the list itself.
 *
 * Looking up, starting and recording a handler is one step of its discoverer; announcing it is another.
 * A hub manager holds the lock of the table of handlers until it has announced the handler; the USB scan
 * does not, but there is only one, and it does nothing else in between.
 */
module Generations {
  import opened Common
  import D = Dispatcher
  import H = DeviceHandler

  datatype Phase = Running | Leaving | Finished

  /**
   * A handler: the record it was started and is announced with, its state, and the messages it has not yet
   * received.
   */
  datatype Generation = Generation(phase: Phase, start: Device, state: H.State, inbox: seq<H.Message>)

  /** A hub manager tracks the device at an address that its dongle has seen it under. */
  datatype Tracker = Tracker(dongle: nat, address: Uuid)

  /** What a discoverer reads from a device before it starts a handler. */
  datatype Origin = Origin(
    name: NameBuffer,
    productId: U16,
    firmware: Version,
    protocol: Version,
    streamsStart: bool,
    now: nat)

  /** Who holds the lock across a step: a hub manager with a handler just recorded, or just announced. */
  datatype Lock = Free | Recorded(recorded: nat) | Announced(announced: nat)

  datatype Wire =
    | Announce(gen: nat, device: Device)
    | Update(updater: nat, updated: Device)
    | Rename(renamer: nat, name: string)
    | Goodbye(leaver: nat, last: Device)

  datatype State = State(
    uuid: Uuid,
    /** Every handler so far, oldest first. */
    gens: seq<Generation>,
    /** The one recorded in the table of handlers. */
    handle: Option<nat>,
    lock: Lock,
    /** The handler that the USB scan has recorded and not yet announced. */
    scanning: Option<nat>,
    /** The hub managers that track the device, and where. */
    tracking: set<Tracker>,
    wire: seq<Wire>,
    /** How much of the channel the dispatcher has processed. */
    processed: nat,
    /** Handlers whose command channel clients may have been handed. */
    reachable: set<nat>,
    /** Names accepted by a handler whose requests have not yet written them into the list. */
    replied: multiset<string>,
    /** What the list has taken in about the UUID, from both writers. */
    list: seq<D.Message>)

  datatype Action =
    | HubAttach(tracker: Tracker, vm: nat, origin: Origin)
    | HubConnect
    | HubEvents(ownVm: nat, ownProtocol: Version)
    | HubDetach(leaving: Tracker)
    | UsbAttach(start: H.Start, usbOrigin: Origin, merge: bool)
    | UsbConnect
    | UsbDetach
    | CleanUp
    | Request(target: nat, msg: H.Message)
    | Turn(turning: nat, step: H.Step)
    | Finish(finishing: nat)
    | Dispatch
    | WriteName(written: string)

  predicate Initial(s: State) {
    && s.gens == [] && s.handle == None && s.lock == Free && s.scanning == None && s.tracking == {}
    && s.wire == [] && s.processed == 0 && s.reachable == {} && s.replied == multiset{} && s.list == []
  }

  predicate IsRunning(s: State, g: nat) {
    g < |s.gens| && s.gens[g].phase == Running
  }

  /** A recorded handler that has not finished. */
  predicate Alive(s: State) {
    s.handle.Some? && s.handle.value < |s.gens| && s.gens[s.handle.value].phase != Finished
  }

  /** A handler takes messages in the order they were sent. */
  predicate IsNext(inbox: seq<H.Message>, step: H.Step) {
    step.Receive? ==> inbox != [] && step.msg == inbox[0]
  }

  predicate Enabled(s: State, a: Action) {
    match a
    case HubAttach(tracker, _, _) => s.lock == Free && tracker !in s.tracking
    case HubConnect => s.lock.Recorded? && s.lock.recorded < |s.gens|
    case HubEvents(_, _) => s.lock.Announced?
    case HubDetach(tracker) => s.lock == Free && tracker in s.tracking
    case UsbAttach(start, _, _) => s.lock == Free && s.scanning == None && !start.OverHub?
    case UsbConnect => s.scanning.Some? && s.scanning.value < |s.gens|
    case UsbDetach => s.lock == Free && s.scanning == None
    case CleanUp => s.lock == Free && s.scanning == None && s.handle.Some? && !Alive(s)
    case Request(g, msg) => g in s.reachable && !H.Attaches(msg) && !msg.ChannelClosed?
    case Turn(g, step) => IsRunning(s, g) && IsNext(s.gens[g].inbox, step) && H.Enabled(s.gens[g].state, step)
    case Finish(g) => g < |s.gens| && s.gens[g].phase == Leaving
    case Dispatch => s.processed < |s.wire|
    case WriteName(name) => name in s.replied
  }

  /** A message to a handler; one that is gone does not receive it. */
  function Post(s: State, g: nat, msg: H.Message): State {
    if g < |s.gens| then
      var gen := s.gens[g];
      s.(gens := s.gens[g := gen.(inbox := gen.inbox + [msg])])
    else s
  }

  function Born(s: State, start: H.Start, o: Origin): H.State {
    H.Initial(start, s.uuid, o.name, o.productId, o.firmware, o.protocol, o.streamsStart, o.now)
  }

  /** A new handler, recorded in place of any that was recorded before. */
  function Start(s: State, start: H.Start, o: Origin): State {
    var born := Born(s, start, o);
    s.(gens := s.gens + [Generation(Running, born.device, born, [])], handle := Some(|s.gens|))
  }

  function OnWire(g: nat, p: H.Published): Wire {
    match p
    case UpdateDevice(d) => Update(g, d)
    case UpdateName(_, name) => Rename(g, name)
    case Disconnect(d) => Goodbye(g, d)
  }

  /** What a turn puts on the channel: what it publishes, and a goodbye if it ends the handler. */
  function News(g: nat, o: H.Outcome): seq<Wire> {
    seq(|o.sent|, i requires 0 <= i < |o.sent| => OnWire(g, o.sent[i]))
    + if o.ended then [Goodbye(g, o.state.device)] else []
  }

  /** A rename that the handler accepts in this step. */
  function Accepted(st: H.State, step: H.Step): Option<string> {
    if step.Receive? && step.msg.SetDeviceName? && H.Apply(st, step).sent != [] then Some(step.msg.name) else None
  }

  function Turned(s: State, g: nat, step: H.Step): State
    requires g < |s.gens| && IsNext(s.gens[g].inbox, step)
  {
    var gen := s.gens[g];
    var o := H.Apply(gen.state, step);
    var name := Accepted(gen.state, step);
    s.(gens := s.gens[g := gen.(phase := if o.ended then Leaving else gen.phase,
                                state := o.state,
                                inbox := if step.Receive? then gen.inbox[1..] else gen.inbox)],
       wire := s.wire + News(g, o),
       replied := if name.Some? then s.replied + multiset{name.value} else s.replied)
  }

  function ToMessage(uuid: Uuid, w: Wire): D.Message {
    match w
    case Announce(g, d) => D.Connect(d, Some(g))
    case Update(_, d) => D.UpdateDevice(d)
    case Rename(_, name) => D.UpdateName(uuid, name)
    case Goodbye(_, d) => D.Disconnect(d)
  }

  function Dispatched(s: State): State
    requires s.processed < |s.wire|
  {
    var w := s.wire[s.processed];
    s.(processed := s.processed + 1,
       reachable := if w.Announce? then s.reachable + {w.gen} else s.reachable,
       list := s.list + [ToMessage(s.uuid, w)])
  }

  function Apply(s: State, a: Action): State
    requires Enabled(s, a)
  {
    match a
    case HubAttach(tracker, vm, o) =>
      var s1 := s.(tracking := s.tracking + {tracker});
      if Alive(s) then Post(s1, s.handle.value, H.AddEventsDevice(vm, o.protocol))
      else Start(s1, H.OverHub, o).(lock := Recorded(|s.gens|))
    case HubConnect =>
      var g := s.lock.recorded;
      s.(wire := s.wire + [Announce(g, s.gens[g].start)], lock := Announced(g))
    case HubEvents(vm, protocol) => Post(s, s.lock.announced, H.AddEventsDevice(vm, protocol)).(lock := Free)
    case HubDetach(tracker) =>
      var s1 := s.(tracking := s.tracking - {tracker});
      if s.handle.Some? then Post(s1, s.handle.value, H.RemoveEventsDevice) else s1
    case UsbAttach(start, o, merge) =>
      if !Alive(s) then Start(s, start, o).(scanning := Some(|s.gens|))
      else if merge then Post(s, s.handle.value, H.AddControlDevice(start.control))
      else s
    case UsbConnect =>
      s.(wire := s.wire + [Announce(s.scanning.value, s.gens[s.scanning.value].start)], scanning := None)
    case UsbDetach => if s.handle.Some? then Post(s, s.handle.value, H.RemoveControlDevice) else s
    case CleanUp => s.(handle := None)
    case Request(g, msg) => Post(s, g, msg)
    case Turn(g, step) => Turned(s, g, step)
    case Finish(g) => s.(gens := s.gens[g := s.gens[g].(phase := Finished)])
    case Dispatch => Dispatched(s)
    case WriteName(name) =>
      s.(replied := s.replied - multiset{name}, list := s.list + [D.UpdateName(s.uuid, name)])
  }

  /**
   * A handler is started exactly by a discoverer that finds none alive, and is recorded in place of any other; a
   * record goes exactly when a finished handler is cleaned up.
   */
  lemma StartsExactly(s: State, a: Action)
    requires Enabled(s, a)
    ensures var t := Apply(s, a);
            && |t.gens| == |s.gens| + (if (a.HubAttach? || a.UsbAttach?) && !Alive(s) then 1 else 0)
            && t.handle == if |t.gens| > |s.gens| then Some(|s.gens|) else if a.CleanUp? then None else s.handle
  {
  }

  ghost predicate CanRun(s: State, actions: seq<Action>)
    decreases actions
  {
    actions != [] ==> Enabled(s, actions[0]) && CanRun(Apply(s, actions[0]), actions[1..])
  }

  ghost function Run(s: State, actions: seq<Action>): State
    requires CanRun(s, actions)
    decreases actions
  {
    if actions == [] then s else Run(Apply(s, actions[0]), actions[1..])
  }

  // ---- Bracketing on the wire ----

  /** How far a well-bracketed wire has come: `next` generations are over, and the next one is announced or not. */
  datatype Progress = Progress(next: nat, open: bool)

  function Advance(p: Progress, w: Wire): Option<Progress> {
    match w
    case Announce(g, _) => if !p.open && g == p.next then Some(Progress(g, true)) else None
    case Goodbye(g, _) => if p.open && g == p.next then Some(Progress(g + 1, false)) else None
    case Update(_, _) => Some(p)
    case Rename(_, _) => Some(p)
  }

  /** Generation after generation, an announcement and then a goodbye; updates and renames may fall anywhere. */
  function Brackets(wire: seq<Wire>): Option<Progress> {
    if wire == [] then Some(Progress(0, false))
    else
      match Brackets(wire[..|wire| - 1])
      case None => None
      case Some(p) => Advance(p, wire[|wire| - 1])
  }

  lemma OneMoreOnWire(wire: seq<Wire>, w: Wire)
    ensures Brackets(wire + [w]) == if Brackets(wire).Some? then Advance(Brackets(wire).value, w) else None
  {
    assert (wire + [w])[..|wire|] == wire;
  }

  lemma {:induction false} PrefixBrackets(wire: seq<Wire>, n: nat)
    requires n <= |wire| && Brackets(wire).Some?
    ensures Brackets(wire[..n]).Some?
  {
    if n < |wire| {
      assert wire[..|wire| - 1][..n] == wire[..n];
      PrefixBrackets(wire[..|wire| - 1], n);
    } else {
      assert wire[..n] == wire;
    }
  }

  /** Where an announcement or goodbye belongs when generations follow one another. */
  function Stage(w: Wire): int {
    match w
    case Announce(g, _) => 2 * g
    case Goodbye(g, _) => 2 * g + 1
    case Update(_, _) => -1
    case Rename(_, _) => -1
  }

  predicate InOrder(w: Wire, w': Wire) {
    Stage(w) >= 0 && Stage(w') >= 0 ==> Stage(w) < Stage(w')
  }

  /** By position: announcements and goodbyes come strictly in the order of their stages, and none is left out. */
  lemma {:induction false} BracketsOrder(wire: seq<Wire>)
    requires Brackets(wire).Some?
    ensures forall i, j | 0 <= i < j < |wire| :: InOrder(wire[i], wire[j])
    ensures var p := Brackets(wire).value;
            forall w | w in wire :: Stage(w) < 2 * p.next + if p.open then 1 else 0
  {
    if wire != [] {
      BracketsOrder(wire[..|wire| - 1]);
    }
  }

  predicate WasAnnounced(wire: seq<Wire>, g: nat) {
    exists i | 0 <= i < |wire| :: wire[i].Announce? && wire[i].gen == g
  }

  predicate SaidGoodbye(wire: seq<Wire>, g: nat) {
    exists i | 0 <= i < |wire| :: wire[i].Goodbye? && wire[i].leaver == g
  }

  /** On a bracketed wire the announced generations are those up to the open one, and the closed ones have gone. */
  lemma {:induction false} BracketsTell(wire: seq<Wire>, g: nat)
    requires Brackets(wire).Some?
    ensures var p := Brackets(wire).value;
            && (WasAnnounced(wire, g) <==> g < p.next || (p.open && g == p.next))
            && (SaidGoodbye(wire, g) <==> g < p.next)
  {
    if wire != [] {
      var init := wire[..|wire| - 1];
      var last := wire[|wire| - 1];
      BracketsTell(init, g);
      if WasAnnounced(init, g) {
        var i :| 0 <= i < |init| && init[i].Announce? && init[i].gen == g;
        assert wire[i].Announce?;
      }
      if SaidGoodbye(init, g) {
        var i :| 0 <= i < |init| && init[i].Goodbye? && init[i].leaver == g;
        assert wire[i].Goodbye?;
      }
      if WasAnnounced(wire, g) {
        var i :| 0 <= i < |wire| && wire[i].Announce? && wire[i].gen == g;
        assert i < |init| ==> init[i].Announce?;
      }
      if SaidGoodbye(wire, g) {
        var i :| 0 <= i < |wire| && wire[i].Goodbye? && wire[i].leaver == g;
        assert i < |init| ==> init[i].Goodbye?;
      }
    }
  }

  // ---- Invariants ----

  predicate Latest(s: State, g: nat) {
    g + 1 == |s.gens|
  }

  /** Recorded and not yet announced. */
  predicate Pending(s: State, g: nat) {
    s.lock == Recorded(g) || s.scanning == Some(g)
  }

  predicate EventsOnly(inbox: seq<H.Message>) {
    forall m | m in inbox :: m.AddEventsDevice? || m.RemoveEventsDevice?
  }

  /** Only the latest handler can be recorded or alive. */
  ghost predicate OneAlive(s: State) {
    && (s.handle.Some? ==> Latest(s, s.handle.value))
    && forall g: nat | g < |s.gens| && (s.handle.None? || !Latest(s, g)) :: s.gens[g].phase == Finished
  }

  /** Every handler is about this device, and a running one keeps its own invariant. */
  predicate Sound(gen: Generation, uuid: Uuid) {
    && gen.start.uuid == uuid && gen.state.device.uuid == uuid
    && (gen.phase == Running ==> H.Invariant(gen.state))
  }

  ghost predicate AllSound(s: State) {
    forall g | 0 <= g < |s.gens| :: Sound(s.gens[g], s.uuid)
  }

  /** Nothing that could end or rename a handler reaches it before it is announced. */
  ghost predicate PendingIsSafe(s: State) {
    && (s.lock.Recorded? ==>
          var g := s.lock.recorded;
          && IsRunning(s, g) && Latest(s, g) && s.scanning == None
          && s.gens[g].inbox == [] && s.gens[g].state.device == s.gens[g].start)
    && (s.scanning.Some? ==>
          var g := s.scanning.value;
          && IsRunning(s, g) && Latest(s, g) && s.gens[g].state.control.Some? && EventsOnly(s.gens[g].inbox)
          && s.gens[g].state.device.name == s.gens[g].start.name)
    && (forall g | g in s.reachable :: g < |s.gens| && !Pending(s, g))
    && (forall w | w in s.wire && w.Announce? :: w.gen < |s.gens| && !Pending(s, w.gen))
  }

  /** Where the channel stands, read off the handlers themselves. */
  function Expected(s: State): Progress {
    var n := |s.gens|;
    if n == 0 then Progress(0, false)
    else if s.gens[n - 1].phase != Running then Progress(n, false)
    else Progress(n - 1, !Pending(s, n - 1))
  }

  predicate OfUuid(w: Wire, uuid: Uuid) {
    match w
    case Announce(_, d) => d.uuid == uuid
    case Update(_, d) => d.uuid == uuid
    case Rename(_, _) => true
    case Goodbye(_, d) => d.uuid == uuid
  }

  ghost predicate ChannelStands(s: State) {
    && (forall w | w in s.wire :: OfUuid(w, s.uuid))
    && Brackets(s.wire) == Some(Expected(s))
  }

  /** The list holds the UUID exactly while a generation is open, with that generation's command channel. */
  predicate ShowsProgress(m: D.DeviceMap, uuid: Uuid, p: Progress) {
    && (uuid in m <==> p.open)
    && (p.open ==> m[uuid].sender == D.Live(p.next) && m[uuid].device.uuid == uuid)
  }

  /** After the messages `seen` of the channel and any renames in between. */
  ghost predicate Lists(uuid: Uuid, seen: seq<Wire>, list: seq<D.Message>) {
    Brackets(seen).Some? && ShowsProgress(D.DevicesAfter(list), uuid, Brackets(seen).value)
  }

  ghost predicate ListStands(s: State) {
    s.processed <= |s.wire| && Lists(s.uuid, s.wire[..s.processed], s.list)
  }

  ghost predicate Invariant(s: State) {
    HandlersStand(s) && ChannelStands(s) && ListStands(s)
  }

  /** The handlers, the lock and the inboxes: everything but the channel and the list. */
  ghost predicate HandlersStand(s: State) {
    OneAlive(s) && AllSound(s) && PendingIsSafe(s)
  }

  // ---- Every step keeps them ----

  lemma PostKeeps(s: State, g: nat, msg: H.Message)
    requires HandlersStand(s) && s.lock != Recorded(g)
    requires s.scanning == Some(g) ==> msg.AddEventsDevice? || msg.RemoveEventsDevice?
    ensures HandlersStand(Post(s, g, msg)) && Expected(Post(s, g, msg)) == Expected(s)
  {
  }

  lemma StartKeeps(s: State, start: H.Start, o: Origin)
    requires OneAlive(s) && AllSound(s) && !Alive(s)
    ensures OneAlive(Start(s, start, o)) && AllSound(Start(s, start, o))
  {
    H.StartsSatisfyInvariant(start, s.uuid, o.name, o.productId, o.firmware, o.protocol, o.streamsStart, o.now);
  }

  /** A handler just started waits for its announcement, and the channel stands as before. */
  lemma StartIsPending(s: State, start: H.Start, o: Origin, t: State)
    requires PendingIsSafe(s) && s.lock == Free && s.scanning == None
    requires |s.gens| > 0 ==> s.gens[|s.gens| - 1].phase == Finished
    requires var g := |s.gens|;
             || (start.OverHub? && t == Start(s, start, o).(lock := Recorded(g)))
             || (!start.OverHub? && t == Start(s, start, o).(scanning := Some(g)))
    ensures PendingIsSafe(t) && Expected(t) == Expected(s)
  {
  }

  lemma NoPendingWithoutLife(s: State)
    requires HandlersStand(s) && s.lock == Free && !Alive(s)
    ensures s.scanning == None
    ensures |s.gens| > 0 ==> s.gens[|s.gens| - 1].phase == Finished
  {
  }

  /** What was seen of the channel stays as it was when more is sent. */
  lemma SendingKeepsSeen(s: State, t: State)
    requires ListStands(s) && s.wire <= t.wire
    requires t.processed == s.processed && t.list == s.list && t.uuid == s.uuid
    ensures ListStands(t)
  {
    assert t.wire[..t.processed] == s.wire[..s.processed];
  }

  lemma SilenceKeeps(s: State, t: State)
    requires ChannelStands(s) && ListStands(s) && Expected(t) == Expected(s)
    requires t.wire == s.wire && t.processed == s.processed && t.list == s.list && t.uuid == s.uuid
    ensures ChannelStands(t) && ListStands(t)
  {
  }

  lemma HubAttachKeeps(s: State, tracker: Tracker, vm: nat, o: Origin)
    requires Invariant(s) && Enabled(s, HubAttach(tracker, vm, o))
    ensures Invariant(Apply(s, HubAttach(tracker, vm, o)))
  {
    var s1 := s.(tracking := s.tracking + {tracker});
    if Alive(s) {
      PostKeeps(s1, s.handle.value, H.AddEventsDevice(vm, o.protocol));
    } else {
      NoPendingWithoutLife(s);
      StartKeeps(s1, H.OverHub, o);
      StartIsPending(s1, H.OverHub, o, Apply(s, HubAttach(tracker, vm, o)));
    }
    SilenceKeeps(s, Apply(s, HubAttach(tracker, vm, o)));
  }

  lemma UsbAttachKeeps(s: State, start: H.Start, o: Origin, merge: bool)
    requires Invariant(s) && Enabled(s, UsbAttach(start, o, merge))
    ensures Invariant(Apply(s, UsbAttach(start, o, merge)))
  {
    if Alive(s) {
      PostKeeps(s, s.handle.value, H.AddControlDevice(start.control));
    } else {
      NoPendingWithoutLife(s);
      StartKeeps(s, start, o);
      StartIsPending(s, start, o, Apply(s, UsbAttach(start, o, merge)));
    }
    SilenceKeeps(s, Apply(s, UsbAttach(start, o, merge)));
  }

  lemma ReleaseKeeps(s: State)
    requires HandlersStand(s) && s.lock.Announced?
    ensures HandlersStand(s.(lock := Free)) && Expected(s.(lock := Free)) == Expected(s)
  {
  }

  lemma HubEventsKeep(s: State, vm: nat, protocol: Version)
    requires Invariant(s) && Enabled(s, HubEvents(vm, protocol))
    ensures Invariant(Apply(s, HubEvents(vm, protocol)))
  {
    PostKeeps(s, s.lock.announced, H.AddEventsDevice(vm, protocol));
    ReleaseKeeps(Post(s, s.lock.announced, H.AddEventsDevice(vm, protocol)));
    SilenceKeeps(s, Apply(s, HubEvents(vm, protocol)));
  }

  lemma HubDetachKeeps(s: State, tracker: Tracker)
    requires Invariant(s) && Enabled(s, HubDetach(tracker))
    ensures Invariant(Apply(s, HubDetach(tracker)))
  {
    if s.handle.Some? {
      PostKeeps(s.(tracking := s.tracking - {tracker}), s.handle.value, H.RemoveEventsDevice);
    }
    SilenceKeeps(s, Apply(s, HubDetach(tracker)));
  }

  lemma UsbDetachKeeps(s: State)
    requires Invariant(s) && Enabled(s, UsbDetach)
    ensures Invariant(Apply(s, UsbDetach))
  {
    if s.handle.Some? {
      PostKeeps(s, s.handle.value, H.RemoveControlDevice);
    }
    SilenceKeeps(s, Apply(s, UsbDetach));
  }

  lemma RequestKeeps(s: State, g: nat, msg: H.Message)
    requires Invariant(s) && Enabled(s, Request(g, msg))
    ensures Invariant(Apply(s, Request(g, msg)))
  {
    PostKeeps(s, g, msg);
    SilenceKeeps(s, Post(s, g, msg));
  }

  /** One more message: the channel advances as the message says. */
  lemma OneMoreSent(s: State, w: Wire)
    requires ChannelStands(s) && OfUuid(w, s.uuid)
    ensures var wire := s.wire + [w];
            && (forall v | v in wire :: OfUuid(v, s.uuid))
            && Brackets(wire) == Advance(Expected(s), w)
  {
    OneMoreOnWire(s.wire, w);
  }

  lemma AnnouncingKeeps(s: State, g: nat, t: State)
    requires Invariant(s) && Pending(s, g) && g < |s.gens|
    requires t == s.(wire := s.wire + [Announce(g, s.gens[g].start)], lock := t.lock, scanning := t.scanning)
    requires t.scanning == None && (if s.lock.Recorded? then t.lock == Announced(g) else t.lock == s.lock)
    ensures Invariant(t)
  {
    assert Latest(s, g) && Sound(s.gens[g], s.uuid);
    OneMoreSent(s, Announce(g, s.gens[g].start));
    SendingKeepsSeen(s, t);
  }

  /** A turn publishes at most one thing, and nothing but the goodbye if it ends the handler. */
  lemma NewsShape(gen: Generation, g: nat, step: H.Step, uuid: Uuid)
    requires Sound(gen, uuid) && gen.phase == Running && H.Enabled(gen.state, step)
    ensures var o := H.Apply(gen.state, step); var news := News(g, o);
            && o.state.device.uuid == uuid
            && (o.ended ==> news == [Goodbye(g, o.state.device)])
            && (!o.ended ==> H.Invariant(o.state))
            && (!o.ended ==> || (news == [] && Accepted(gen.state, step).None?)
                             || news == [Update(g, o.state.device)]
                             || (Accepted(gen.state, step).Some?
                                 && news == [Rename(g, Accepted(gen.state, step).value)]))
  {
    H.ApplyKeepsInvariant(gen.state, step);
    var o := H.Apply(gen.state, step);
    if o.sent != [] {
      assert o.sent[0] in o.sent;
    }
  }

  /** Events coming and going do not end a handler that holds a control device. */
  lemma EventsDoNotEnd(st: H.State, step: H.Step)
    requires step.Receive? ==> step.msg.AddEventsDevice? || step.msg.RemoveEventsDevice?
    ensures st.control.Some? || !step.Receive? ==> !H.Apply(st, step).ended
    ensures H.Apply(st, step).state.control == st.control
    ensures H.Apply(st, step).state.device.name == st.device.name
    ensures !step.Receive? ==> H.Apply(st, step).state.device == st.device
  {
  }

  lemma TurnKeepsHandlers(s: State, g: nat, step: H.Step)
    requires HandlersStand(s) && Enabled(s, Turn(g, step))
    ensures OneAlive(Turned(s, g, step)) && AllSound(Turned(s, g, step))
  {
    NewsShape(s.gens[g], g, step, s.uuid);
  }

  lemma PendingTurn(gen: Generation, step: H.Step)
    requires IsNext(gen.inbox, step) && EventsOnly(gen.inbox)
    ensures !step.Receive? || gen.state.control.Some? ==> !H.Apply(gen.state, step).ended
    ensures H.Apply(gen.state, step).state.control == gen.state.control
    ensures H.Apply(gen.state, step).state.device.name == gen.state.device.name
    ensures !step.Receive? ==> H.Apply(gen.state, step).state.device == gen.state.device
    ensures step.Receive? ==> EventsOnly(gen.inbox[1..])
  {
    if step.Receive? {
      assert step.msg in gen.inbox;
      assert forall m | m in gen.inbox[1..] :: m in gen.inbox;
    }
    EventsDoNotEnd(gen.state, step);
  }

  lemma NewsAnnouncesNothing(wire: seq<Wire>, g: nat, o: H.Outcome)
    ensures forall w | w in wire + News(g, o) && w.Announce? :: w in wire
  {
  }

  lemma PendingKeepsSafe(s: State, g: nat, step: H.Step)
    requires HandlersStand(s) && Enabled(s, Turn(g, step)) && Pending(s, g)
    ensures PendingIsSafe(Turned(s, g, step)) && !H.Apply(s.gens[g].state, step).ended
  {
    assert Latest(s, g);
    PendingTurn(s.gens[g], step);
    NewsAnnouncesNothing(s.wire, g, H.Apply(s.gens[g].state, step));
  }

  lemma TurnKeepsPending(s: State, g: nat, step: H.Step)
    requires HandlersStand(s) && Enabled(s, Turn(g, step))
    ensures PendingIsSafe(Turned(s, g, step))
    ensures Pending(s, g) ==> !H.Apply(s.gens[g].state, step).ended
  {
    assert Latest(s, g);
    if Pending(s, g) {
      PendingKeepsSafe(s, g, step);
    } else {
      NewsAnnouncesNothing(s.wire, g, H.Apply(s.gens[g].state, step));
    }
  }

  /** A turn that ends the handler closes its bracket; any other leaves the channel where it stands. */
  lemma TurnExpected(s: State, g: nat, step: H.Step)
    requires HandlersStand(s) && Enabled(s, Turn(g, step))
    requires Pending(s, g) ==> !H.Apply(s.gens[g].state, step).ended
    ensures Latest(s, g)
    ensures H.Apply(s.gens[g].state, step).ended ==>
              Expected(s) == Progress(g, true) && Expected(Turned(s, g, step)) == Progress(g + 1, false)
    ensures !H.Apply(s.gens[g].state, step).ended ==> Expected(Turned(s, g, step)) == Expected(s)
  {
  }

  /** More on the channel: nothing, or one thing that advances it to where the handlers now stand. */
  lemma ChannelTakes(s: State, t: State, news: seq<Wire>)
    requires ChannelStands(s) && t.uuid == s.uuid && t.wire == s.wire + news && |news| <= 1
    requires news == [] ==> Expected(t) == Expected(s)
    requires news != [] ==> OfUuid(news[0], s.uuid) && Advance(Expected(s), news[0]) == Some(Expected(t))
    ensures ChannelStands(t)
  {
    if news == [] {
      assert t.wire == s.wire;
    } else {
      OneMoreSent(s, news[0]);
      assert news == [news[0]];
    }
  }

  lemma TurnKeepsChannel(s: State, g: nat, step: H.Step)
    requires Invariant(s) && Enabled(s, Turn(g, step))
    ensures ChannelStands(Turned(s, g, step))
  {
    NewsShape(s.gens[g], g, step, s.uuid);
    TurnKeepsPending(s, g, step);
    TurnExpected(s, g, step);
    ChannelTakes(s, Turned(s, g, step), News(g, H.Apply(s.gens[g].state, step)));
  }

  lemma TurnKeeps(s: State, g: nat, step: H.Step)
    requires Invariant(s) && Enabled(s, Turn(g, step))
    ensures Invariant(Turned(s, g, step))
  {
    TurnKeepsHandlers(s, g, step);
    TurnKeepsPending(s, g, step);
    TurnKeepsChannel(s, g, step);
    SendingKeepsSeen(s, Turned(s, g, step));
  }

  /** The dispatcher processes one message of the channel. */
  lemma ListsOneMore(uuid: Uuid, seen: seq<Wire>, list: seq<D.Message>, w: Wire)
    requires Lists(uuid, seen, list) && OfUuid(w, uuid) && Brackets(seen + [w]).Some?
    ensures Lists(uuid, seen + [w], list + [ToMessage(uuid, w)])
  {
    OneMoreOnWire(seen, w);
    D.OneMore(list, ToMessage(uuid, w));
  }

  /** A rename shows no device and hides none. */
  lemma ListsRename(uuid: Uuid, seen: seq<Wire>, list: seq<D.Message>, name: string)
    requires Lists(uuid, seen, list)
    ensures Lists(uuid, seen, list + [D.UpdateName(uuid, name)])
  {
    D.OneMore(list, D.UpdateName(uuid, name));
  }

  lemma DispatchKeepsList(s: State)
    requires ChannelStands(s) && ListStands(s) && s.processed < |s.wire|
    ensures ListStands(Dispatched(s))
  {
    var w := s.wire[s.processed];
    var seen := s.wire[..s.processed];
    assert w in s.wire;
    assert s.wire[..s.processed + 1] == seen + [w];
    PrefixBrackets(s.wire, s.processed + 1);
    ListsOneMore(s.uuid, seen, s.list, w);
  }

  lemma DispatchKeepsHandlers(s: State)
    requires HandlersStand(s) && s.processed < |s.wire|
    ensures HandlersStand(Dispatched(s)) && Expected(Dispatched(s)) == Expected(s)
  {
    assert s.wire[s.processed] in s.wire;
  }

  lemma DispatchKeeps(s: State)
    requires Invariant(s) && Enabled(s, Dispatch)
    ensures Invariant(Dispatched(s))
  {
    DispatchKeepsList(s);
    DispatchKeepsHandlers(s);
  }

  lemma HandlersAlone(s: State, t: State)
    requires HandlersStand(s)
    requires t == s.(tracking := t.tracking, processed := t.processed, replied := t.replied, list := t.list)
    ensures HandlersStand(t) && Expected(t) == Expected(s)
  {
  }

  lemma WriteKeeps(s: State, name: string)
    requires Invariant(s) && Enabled(s, WriteName(name))
    ensures Invariant(Apply(s, WriteName(name)))
  {
    ListsRename(s.uuid, s.wire[..s.processed], s.list, name);
    HandlersAlone(s, Apply(s, WriteName(name)));
  }

  lemma FinishKeeps(s: State, g: nat)
    requires Invariant(s) && Enabled(s, Finish(g))
    ensures Invariant(Apply(s, Finish(g)))
  {
    SilenceKeeps(s, Apply(s, Finish(g)));
  }

  lemma CleanUpKeeps(s: State)
    requires Invariant(s) && Enabled(s, CleanUp)
    ensures Invariant(Apply(s, CleanUp))
  {
    SilenceKeeps(s, Apply(s, CleanUp));
  }

  lemma ApplyKeepsInvariant(s: State, a: Action)
    requires Invariant(s) && Enabled(s, a)
    ensures Invariant(Apply(s, a))
  {
    match a {
      case HubAttach(tracker, vm, o) => HubAttachKeeps(s, tracker, vm, o);
      case HubConnect => AnnouncingKeeps(s, s.lock.recorded, Apply(s, a));
      case HubEvents(vm, protocol) => HubEventsKeep(s, vm, protocol);
      case HubDetach(tracker) => HubDetachKeeps(s, tracker);
      case UsbAttach(start, o, merge) => UsbAttachKeeps(s, start, o, merge);
      case UsbConnect => AnnouncingKeeps(s, s.scanning.value, Apply(s, a));
      case UsbDetach => UsbDetachKeeps(s);
      case CleanUp => CleanUpKeeps(s);
      case Request(g, msg) => RequestKeeps(s, g, msg);
      case Turn(g, step) => TurnKeeps(s, g, step);
      case Finish(g) => FinishKeeps(s, g);
      case Dispatch => DispatchKeeps(s);
      case WriteName(name) => WriteKeeps(s, name);
    }
  }

  lemma SameUuid(s: State, a: Action)
    requires Enabled(s, a)
    ensures Apply(s, a).uuid == s.uuid
  {
  }

  lemma {:induction false} RunKeepsInvariant(s: State, actions: seq<Action>)
    requires Invariant(s) && CanRun(s, actions)
    ensures Invariant(Run(s, actions)) && Run(s, actions).uuid == s.uuid
    decreases actions
  {
    if actions != [] {
      ApplyKeepsInvariant(s, actions[0]);
      SameUuid(s, actions[0]);
      RunKeepsInvariant(Apply(s, actions[0]), actions[1..]);
    }
  }

  lemma InitiallyTrue(s: State)
    requires Initial(s)
    ensures Invariant(s)
  {
    assert s.wire[..0] == [];
  }

  // ---- Never two on the channel ----

  /**
   * Generations never overlap on the channel: in every run each is announced once before its one goodbye,
   * and that goodbye comes before the next announcement. The channel stands where the handlers say it does.
   */
  lemma NeverOverlap(s: State, actions: seq<Action>)
    requires Initial(s) && CanRun(s, actions)
    ensures var t := Run(s, actions);
            && Brackets(t.wire) == Some(Expected(t))
            && forall i, j | 0 <= i < j < |t.wire| :: InOrder(t.wire[i], t.wire[j])
  {
    InitiallyTrue(s);
    RunKeepsInvariant(s, actions);
    BracketsOrder(Run(s, actions).wire);
  }

  lemma LeaverIsOpen(t: State, g: nat, step: H.Step)
    requires HandlersStand(t) && Enabled(t, Turn(g, step)) && H.Apply(t.gens[g].state, step).ended
    ensures Expected(t) == Progress(g, true)
  {
    TurnKeepsPending(t, g, step);
    TurnExpected(t, g, step);
  }

  /** In every run a handler about to leave has been announced and has not said goodbye. */
  lemma LeaversWereAnnounced(s: State, actions: seq<Action>, g: nat, step: H.Step)
    requires Initial(s) && CanRun(s, actions)
    requires Enabled(Run(s, actions), Turn(g, step)) && H.Apply(Run(s, actions).gens[g].state, step).ended
    ensures WasAnnounced(Run(s, actions).wire, g) && !SaidGoodbye(Run(s, actions).wire, g)
  {
    InitiallyTrue(s);
    RunKeepsInvariant(s, actions);
    LeaverIsOpen(Run(s, actions), g, step);
    BracketsTell(Run(s, actions).wire, g);
  }

  // ---- What the list makes of it ----

  /**
   * The list holds the UUID exactly while some generation's announcement has been processed and its goodbye
   * has not; the entry then leads to that generation. `history` is everything the list took in, about
   * this device and others, from the channel and from rename requests.
   */
  lemma ListedExactly(s: State, actions: seq<Action>, history: seq<D.Message>)
    requires Initial(s) && CanRun(s, actions) && D.Only(history, s.uuid) == Run(s, actions).list
    ensures var t := Run(s, actions); var m := D.DevicesAfter(history);
            && t.processed <= |t.wire|
            && var seen := t.wire[..t.processed];
            && (s.uuid in m <==> exists g: nat :: WasAnnounced(seen, g) && !SaidGoodbye(seen, g))
            && (forall g: nat | WasAnnounced(seen, g) && !SaidGoodbye(seen, g) ::
                  s.uuid in m && m[s.uuid].sender == D.Live(g))
  {
    var t := Run(s, actions);
    InitiallyTrue(s);
    RunKeepsInvariant(s, actions);
    var seen := t.wire[..t.processed];
    D.DevicesAreIndependent(history, s.uuid);
    var p := Brackets(seen).value;
    BracketsTell(seen, p.next);
    forall g: nat | WasAnnounced(seen, g) && !SaidGoodbye(seen, g)
      ensures p.open && g == p.next
    {
      BracketsTell(seen, g);
    }
  }

  /** The channel is drained. */
  predicate Drained(s: State) {
    s.processed == |s.wire|
  }

  /** The latest handler is running and has been announced. */
  predicate Live(s: State) {
    var n := |s.gens|;
    n > 0 && IsRunning(s, n - 1) && !Pending(s, n - 1)
  }

  /** Once the channel is drained, the list shows the UUID exactly while the latest handler is running and announced. */
  lemma DrainedListShowsLiveHandler(s: State, actions: seq<Action>, history: seq<D.Message>)
    requires Initial(s) && CanRun(s, actions) && D.Only(history, s.uuid) == Run(s, actions).list
    requires Drained(Run(s, actions))
    ensures var t := Run(s, actions); var m := D.DevicesAfter(history);
            && (s.uuid in m <==> Live(t))
            && (s.uuid in m ==> m[s.uuid].sender == D.Live(|t.gens| - 1))
  {
    var t := Run(s, actions);
    InitiallyTrue(s);
    RunKeepsInvariant(s, actions);
    assert t.wire[..t.processed] == t.wire;
    D.DevicesAreIndependent(history, s.uuid);
  }

  // ---- Runs one after the other ----

  lemma {:induction false} RunConcat(s: State, first: seq<Action>, second: seq<Action>)
    requires CanRun(s, first) && CanRun(Run(s, first), second)
    ensures CanRun(s, first + second) && Run(s, first + second) == Run(Run(s, first), second)
    decreases first
  {
    if first == [] {
      assert first + second == second;
    } else {
      assert (first + second)[1..] == first[1..] + second;
      RunConcat(Apply(s, first[0]), first[1..], second);
    }
  }

  lemma RunOne(s: State, a: Action)
    requires Enabled(s, a)
    ensures CanRun(s, [a]) && Run(s, [a]) == Apply(s, a)
  {
    assert [a][1..] == [];
  }

  /** Two actions in a row, as the first and the rest of a run. */
  lemma RunNext(s: State, a: Action, rest: seq<Action>)
    requires Enabled(s, a) && CanRun(Apply(s, a), rest)
    ensures CanRun(s, [a] + rest) && Run(s, [a] + rest) == Run(Apply(s, a), rest)
  {
    assert ([a] + rest)[1..] == rest;
  }
}
