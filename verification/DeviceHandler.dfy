/**
 * The per-device handler: a select loop that merges a USB control connection and an events
 * connection into one published `Device` record, and pauses sensor streams around register access.
 */
module DeviceHandler {
  import opened Common
  import opened DeviceWire

  /** Open connections are told apart by number. */
  type VmDevice = nat

  datatype TransportMode = UsbMode | BleMode

  /** Replies to requesters and broadcast events are left out; they do not feed back into the handler. */
  datatype Message =
    | ResetZero | SaveZero | ClearZero | Zero | WriteVendor | FlashSettings
    | SetShotDelay(ms: U16)
    | ReadRegister | WriteRegister
    | ReadConfig(kind: nat) | WriteConfig(kind: nat)
    | StartPairing | CancelPairing | ClearBond
    | SetTransportMode(usb: bool)
    | SetDeviceName(name: string)
    | AddEventsDevice(events: VmDevice, protocol: Version)
    | AddControlDevice(control: VmDevice)
    | RemoveControlDevice
    | RemoveEventsDevice
    | ChannelClosed

  /**
   * What the outside world answers during one step: whether any sensor stream starts, the firmware
   * version and transport mode that a control device reports, whether a request is accepted,
   * and the time (in milliseconds) when the last answer is in.
   */
  datatype World = World(
    streamsStart: bool,
    version: Option<Version>,
    mode: Option<TransportMode>,
    accepted: bool,
    done: nat)

  /** One turn of the select loop, with the time at which its branch fires. */
  datatype Step =
    | Receive(msg: Message, world: World)
    | ShotDelayChanged
    | ResumeDue(at: nat, started: bool)
    | RetryDue(at: nat, restarted: bool, finished: nat)
    | StreamItem
    | StreamsEnded(at: nat)

  datatype Published = UpdateDevice(device: Device) | UpdateName(uuid: Uuid, name: string) | Disconnect(last: Device)

  datatype State = State(
    control: Option<VmDevice>,
    events: Option<VmDevice>,
    device: Device,
    streaming: bool,
    paused: bool,
    armed: bool,
    resumeAt: nat,
    retryAt: nat,
    protocol: Version)

  datatype Outcome = Outcome(state: State, sent: seq<Published>, ended: bool)

  const DEBOUNCE := 100
  const RETRY := 5000

  // ---- Start states ----

  datatype Start =
    | OverHub
    | DirectUsb(control: VmDevice, hasDfu: bool)
    | DirectBle(control: VmDevice, hasDfu: bool)

  function StartCapabilities(start: Start): Capabilities {
    match start
    case OverHub => Capabilities(0)
    case DirectUsb(_, dfu) =>
      var c := Capabilities(CONTROL).Insert(EVENTS);
      if dfu then c.Insert(DFU) else c
    case DirectBle(_, dfu) =>
      if dfu then Capabilities(CONTROL).Insert(DFU) else Capabilities(CONTROL)
  }

  /** The record as a discoverer fills it in, and the state in which the loop is entered. */
  function Initial(start: Start, uuid: Uuid, name: NameBuffer, productId: U16, firmware: Version, protocol: Version,
                   streamsStart: bool, now: nat): State
  {
    var usb := start.DirectUsb?;
    var device := Device(
      uuid,
      if start.OverHub? then UsbMux else Usb,
      StartCapabilities(start),
      firmware,
      if usb then Wired else Bluetooth,
      usb,
      productId,
      name);
    State(
      if start.OverHub? then None else Some(start.control),
      if usb then Some(start.control) else None,
      device,
      usb && streamsStart,
      false,
      false,
      now + 3600 * 1000,
      now + RETRY,
      protocol)
  }

  // ---- One step, as a function ----

  function With(d: Device, flag: bv8): Device {
    d.(capabilities := d.capabilities.Insert(flag))
  }

  function WithoutFlag(d: Device, flag: bv8): Device {
    d.(capabilities := d.capabilities.Remove(flag))
  }

  function Quiet(s: State): Outcome {
    Outcome(s, [], false)
  }

  /** A register or configuration access that goes through the events device. */
  predicate ThroughEvents(s: State, msg: Message) {
    && s.events.Some?
    && match msg {
         case ReadRegister => s.device.eventsConnected
         case WriteRegister => s.device.eventsConnected
         case ReadConfig(kind) => kind < 2
         case WriteConfig(kind) => kind < 2
         case _ => false
       }
  }

  /** Streams are stopped before the access; if they were stopped now or earlier, the resume timer restarts. */
  function Accessed(s: State, done: nat): State {
    if s.streaming || s.paused then
      s.(streaming := false, paused := true, armed := true, resumeAt := done + DEBOUNCE)
    else s
  }

  function EventsAdded(s: State, events: VmDevice, protocol: Version, started: bool): Outcome {
    var s1 := if s.protocol.Less(protocol) then s.(protocol := protocol) else s;
    if s.streaming then Quiet(s1)
    else
      var device := With(s.device, EVENTS).(eventsConnected := true);
      Outcome(s1.(events := Some(events), streaming := started, device := device), [UpdateDevice(device)], false)
  }

  function ModeReported(d: Device, mode: Option<TransportMode>, haveEvents: bool): Device {
    match mode
    case None => d
    case Some(UsbMode) => With(d, EVENTS).(eventsTransport := Wired, eventsConnected := true)
    case Some(BleMode) =>
      if haveEvents then d.(eventsTransport := Bluetooth)
      else WithoutFlag(d, EVENTS).(eventsTransport := Bluetooth, eventsConnected := false)
  }

  function ControlAdded(s: State, control: VmDevice, world: World): Outcome {
    var d := if world.version.Some? then s.device.(firmwareVersion := world.version.value) else s.device;
    var device := With(ModeReported(d, world.mode, s.events.Some?), CONTROL).(transport := Usb);
    Outcome(s.(control := Some(control), device := device), [UpdateDevice(device)], false)
  }

  function ControlRemoved(s: State): Outcome {
    var d := WithoutFlag(WithoutFlag(s.device, CONTROL), DFU);
    if s.events.Some? && d.eventsTransport == Bluetooth && d.eventsConnected then
      var device := d.(transport := UsbMux);
      Outcome(s.(control := None, device := device), [UpdateDevice(device)], false)
    else
      Outcome(s.(control := None, events := None, device := d), [], true)
  }

  function EventsRemoved(s: State): Outcome {
    var d := WithoutFlag(s.device, EVENTS).(eventsConnected := false);
    var s1 := s.(events := None, streaming := false);
    if s.control.Some? then
      var device := if d.transport == UsbMux then d.(transport := Usb) else d;
      Outcome(s1.(device := device), [UpdateDevice(device)], false)
    else
      Outcome(s1.(device := d), [], true)
  }

  function Received(s: State, msg: Message, world: World): Outcome {
    match msg
    case SetTransportMode(_) => Outcome(s, [], s.control.Some?)
    case SetDeviceName(name) =>
      if (s.control.Some? || s.events.Some?) && world.accepted then
        Outcome(s.(device := s.device.(name := NameBytes(name))), [UpdateName(s.device.uuid, name)], false)
      else Quiet(s)
    case AddEventsDevice(events, protocol) => EventsAdded(s, events, protocol, world.streamsStart)
    case AddControlDevice(control) => ControlAdded(s, control, world)
    case RemoveControlDevice => ControlRemoved(s)
    case RemoveEventsDevice => EventsRemoved(s)
    case ChannelClosed => Outcome(s, [], true)
    case _ => Quiet(if ThroughEvents(s, msg) then Accessed(s, world.done) else s)
  }

  /** The guards of the select branches. */
  predicate Enabled(s: State, step: Step) {
    match step
    case Receive(_, _) => true
    case ShotDelayChanged => true
    case ResumeDue(at, _) => s.armed && at >= s.resumeAt
    case RetryDue(at, _, finished) => !s.streaming && !s.paused && s.events.Some? && at >= s.retryAt && finished >= at
    case StreamItem => s.streaming
    case StreamsEnded(_) => s.streaming
  }

  function Apply(s: State, step: Step): Outcome {
    match step
    case Receive(msg, world) => Received(s, msg, world)
    case ShotDelayChanged => Quiet(s)
    case ResumeDue(_, started) =>
      Quiet(s.(armed := false, paused := false, streaming := s.streaming || (s.events.Some? && started)))
    case RetryDue(_, restarted, finished) => Quiet(s.(streaming := restarted, retryAt := finished + RETRY))
    case StreamItem => Quiet(s)
    case StreamsEnded(at) => Quiet(s.(streaming := false, retryAt := at + RETRY))
  }

  // ---- Runs ----

  /**
   * The outcome of a run: the last state, everything published on the way, and whether the loop was left.
   * Steps after the one that leaves the loop are never taken.
   */
  function Run(s: State, steps: seq<Step>): Outcome
    decreases steps
  {
    if steps == [] then Quiet(s)
    else
      var o := Apply(s, steps[0]);
      if o.ended then o
      else
        var rest := Run(o.state, steps[1..]);
        Outcome(rest.state, o.sent + rest.sent, rest.ended)
  }

  predicate CanRun(s: State, steps: seq<Step>)
    decreases steps
  {
    steps != [] ==>
      Enabled(s, steps[0]) && (!Apply(s, steps[0]).ended ==> CanRun(Apply(s, steps[0]).state, steps[1..]))
  }

  // ---- The record always tells the truth ----

  /** What holds of every published record, on its face. */
  predicate Consistent(d: Device) {
    && (d.transport == if d.capabilities.Contains(CONTROL) then Usb else UsbMux)
    && (d.capabilities.Contains(EVENTS) <==> d.eventsConnected)
    && (d.capabilities.Contains(DFU) ==> d.capabilities.Contains(CONTROL))
  }

  predicate Invariant(s: State) {
    && Consistent(s.device)
    && (s.device.capabilities.Contains(CONTROL) <==> s.control.Some?)
    && (s.events.Some? ==> s.device.eventsConnected)
    && (s.streaming ==> s.events.Some?)
    && (s.paused <==> s.armed)
  }

  /** What every step leaves behind, given the state `s` before it. */
  predicate StepTruthful(s: State, o: Outcome) {
    && (!o.ended ==> Invariant(o.state))
    && o.state.device.uuid == s.device.uuid
    && |o.sent| <= 1
    && forall p | p in o.sent ::
         match p
         case UpdateDevice(d) => !o.ended && d == o.state.device
         case UpdateName(u, name) => !o.ended && u == s.device.uuid && o.state.device.name == NameBytes(name)
         case Disconnect(_) => false
  }

  lemma EventsAddedIsTruthful(s: State, vm: VmDevice, protocol: Version, started: bool)
    requires Invariant(s)
    ensures StepTruthful(s, EventsAdded(s, vm, protocol, started))
  {
  }

  /** A reported mode changes only how events travel. */
  lemma ModeKeepsFlags(d: Device, mode: Option<TransportMode>, haveEvents: bool)
    requires d.capabilities.Contains(EVENTS) <==> d.eventsConnected
    requires haveEvents ==> d.eventsConnected
    ensures var r := ModeReported(d, mode, haveEvents);
            && (r.capabilities.Contains(EVENTS) <==> r.eventsConnected)
            && (haveEvents ==> r.eventsConnected)
            && r.uuid == d.uuid
  {
  }

  lemma ControlAddedIsTruthful(s: State, vm: VmDevice, world: World)
    requires Invariant(s)
    ensures StepTruthful(s, ControlAdded(s, vm, world))
  {
    var d := if world.version.Some? then s.device.(firmwareVersion := world.version.value) else s.device;
    ModeKeepsFlags(d, world.mode, s.events.Some?);
  }

  lemma RemovalsKeepInvariant(s: State)
    requires Invariant(s)
    ensures StepTruthful(s, ControlRemoved(s))
    ensures StepTruthful(s, EventsRemoved(s))
  {
  }

  predicate Attaches(msg: Message) {
    msg.AddEventsDevice? || msg.AddControlDevice? || msg.RemoveControlDevice? || msg.RemoveEventsDevice?
  }

  lemma RequestsAreTruthful(s: State, msg: Message, world: World)
    requires Invariant(s) && !Attaches(msg)
    ensures StepTruthful(s, Received(s, msg, world))
  {
  }

  lemma TimersAreTruthful(s: State, step: Step)
    requires Invariant(s) && Enabled(s, step) && !step.Receive?
    ensures StepTruthful(s, Apply(s, step))
  {
  }

  lemma ApplyKeepsInvariant(s: State, step: Step)
    requires Invariant(s) && Enabled(s, step)
    ensures StepTruthful(s, Apply(s, step))
  {
    if !step.Receive? {
      TimersAreTruthful(s, step);
    } else if !Attaches(step.msg) {
      RequestsAreTruthful(s, step.msg, step.world);
    } else {
      match step.msg {
        case AddEventsDevice(vm, protocol) => EventsAddedIsTruthful(s, vm, protocol, step.world.streamsStart);
        case AddControlDevice(vm) => ControlAddedIsTruthful(s, vm, step.world);
        case RemoveControlDevice => RemovalsKeepInvariant(s);
        case RemoveEventsDevice => RemovalsKeepInvariant(s);
      }
    }
  }

  /** In every run from every start: the invariant at each loop head, and truthful updates throughout. */
  lemma {:induction false} RunKeepsInvariant(s: State, steps: seq<Step>)
    requires Invariant(s) && CanRun(s, steps)
    ensures var o := Run(s, steps);
            && (!o.ended ==> Invariant(o.state))
            && o.state.device.uuid == s.device.uuid
            && forall p | p in o.sent ::
                 match p
                 case UpdateDevice(d) => Consistent(d) && d.uuid == s.device.uuid
                 case UpdateName(u, _) => u == s.device.uuid
                 case Disconnect(_) => false
    decreases steps
  {
    if steps != [] {
      var o := Apply(s, steps[0]);
      ApplyKeepsInvariant(s, steps[0]);
      if !o.ended {
        RunKeepsInvariant(o.state, steps[1..]);
      }
    }
  }

  lemma StartsSatisfyInvariant(start: Start, uuid: Uuid, name: NameBuffer, productId: U16, firmware: Version,
                               protocol: Version, streamsStart: bool, now: nat)
    ensures Invariant(Initial(start, uuid, name, productId, firmware, protocol, streamsStart, now))
  {
    assert Capabilities(0).Contains(CONTROL) == false;
    assert Capabilities(CONTROL).Contains(CONTROL) && !Capabilities(CONTROL).Contains(EVENTS)
        && !Capabilities(CONTROL).Contains(DFU);
  }

  lemma StartsWithDfu(start: Start, uuid: Uuid, name: NameBuffer, productId: U16, firmware: Version,
                      protocol: Version, streamsStart: bool, now: nat)
    ensures HasDfu(Initial(start, uuid, name, productId, firmware, protocol, streamsStart, now)) <==>
            !start.OverHub? && start.hasDfu
  {
  }

  /** When the events device goes while a control device is held, the transport is never `UsbMux`. */
  lemma MuxToUsbBranchIsDead(s: State, steps: seq<Step>)
    requires Invariant(s) && CanRun(s, steps) && !Run(s, steps).ended
    ensures var t := Run(s, steps).state; t.control.Some? ==> t.device.transport != UsbMux
  {
    RunKeepsInvariant(s, steps);
  }

  // ---- Where the other fields come from ----

  /** The protocol version that a step brings along. */
  predicate Brings(step: Step, protocol: Version) {
    step.Receive? && step.msg.AddEventsDevice? && step.msg.protocol == protocol
  }

  /** The name and the firmware version after a step, `held` telling whether any device could accept a name. */
  predicate RecordSources(d: Device, held: bool, step: Step, d': Device) {
    && d'.uuid == d.uuid && d'.productId == d.productId
    && (d'.name ==
        if step.Receive? && step.msg.SetDeviceName? && step.world.accepted && held then NameBytes(step.msg.name)
        else d.name)
    && (d'.firmwareVersion ==
        if step.Receive? && step.msg.AddControlDevice? && step.world.version.Some? then step.world.version.value
        else d.firmwareVersion)
  }

  predicate HoldsAny(s: State) {
    s.control.Some? || s.events.Some?
  }

  ghost predicate ProtocolSource(v: Version, step: Step, v': Version) {
    && (v' != v ==> Brings(step, v') && v.Less(v'))
    && forall u | Brings(step, u) :: !v'.Less(u)
  }

  lemma ControlHasOneSource(s: State, vm: VmDevice, world: World)
    ensures var step := Receive(AddControlDevice(vm), world);
            RecordSources(s.device, HoldsAny(s), step, ControlAdded(s, vm, world).state.device)
  {
  }

  lemma AttachmentsHaveOneSource(s: State, msg: Message, world: World)
    requires Attaches(msg)
    ensures RecordSources(s.device, HoldsAny(s), Receive(msg, world), Received(s, msg, world).state.device)
  {
    if msg.AddControlDevice? {
      ControlHasOneSource(s, msg.control, world);
    }
  }

  lemma RequestsHaveOneSource(s: State, msg: Message, world: World)
    requires !Attaches(msg)
    ensures RecordSources(s.device, HoldsAny(s), Receive(msg, world), Received(s, msg, world).state.device)
  {
  }

  /** A name changes exactly by an accepted rename, a firmware version exactly by a control device's report. */
  lemma RecordHasOneSource(s: State, step: Step)
    requires Enabled(s, step)
    ensures RecordSources(s.device, HoldsAny(s), step, Apply(s, step).state.device)
  {
    if step.Receive? {
      if Attaches(step.msg) {
        AttachmentsHaveOneSource(s, step.msg, step.world);
      } else {
        RequestsHaveOneSource(s, step.msg, step.world);
      }
    }
  }

  predicate HasDfu(s: State) {
    s.device.capabilities.Contains(DFU)
  }

  lemma DfuStep(s: State, step: Step)
    ensures HasDfu(Apply(s, step).state) <==> HasDfu(s) && !(step.Receive? && step.msg.RemoveControlDevice?)
  {
    if step.Receive? {
      match step.msg {
        case AddControlDevice(vm) => ControlKeepsDfu(s, vm, step.world);
        case AddEventsDevice(vm, protocol) => EventsKeepDfu(s, vm, protocol, step.world.streamsStart);
        case RemoveControlDevice => RemovalsAndDfu(s);
        case RemoveEventsDevice => RemovalsAndDfu(s);
        case _ => RequestsKeepDfu(s, step.msg, step.world);
      }
    }
  }

  lemma EventsKeepDfu(s: State, events: VmDevice, protocol: Version, started: bool)
    ensures HasDfu(EventsAdded(s, events, protocol, started).state) <==> HasDfu(s)
  {
  }

  lemma RemovalsAndDfu(s: State)
    ensures HasDfu(EventsRemoved(s).state) <==> HasDfu(s)
    ensures !HasDfu(ControlRemoved(s).state)
  {
  }

  lemma RequestsKeepDfu(s: State, msg: Message, world: World)
    requires !Attaches(msg)
    ensures HasDfu(Received(s, msg, world).state) <==> HasDfu(s)
  {
  }

  lemma ControlKeepsDfu(s: State, control: VmDevice, world: World)
    ensures HasDfu(ControlAdded(s, control, world).state) <==> HasDfu(s)
  {
  }

  /** `DFU` is a matter of the start: it is kept exactly until the control device is removed for the first time. */
  lemma {:induction false} DfuExactly(s: State, steps: seq<Step>)
    requires CanRun(s, steps) && !Run(s, steps).ended
    ensures HasDfu(Run(s, steps).state) <==> HasDfu(s) && !Carries(steps, RemoveControlDevice)
    decreases steps
  {
    if steps != [] {
      var rest := steps[1..];
      DfuStep(s, steps[0]);
      DfuExactly(Apply(s, steps[0]).state, rest);
      assert steps[0] in steps && forall step :: step in steps <==> step == steps[0] || step in rest;
    }
  }

  /** A protocol version comes only with an events device, and only if it is greater. */
  lemma ProtocolHasOneSource(s: State, step: Step)
    requires Enabled(s, step)
    ensures ProtocolSource(s.protocol, step, Apply(s, step).state.protocol)
  {
    if step.Receive? && step.msg.AddEventsDevice? {
      EventsKeepGreater(s, step.msg.events, step.msg.protocol, step.world.streamsStart);
    } else {
      assert forall u :: !Brings(step, u);
    }
  }

  lemma EventsKeepGreater(s: State, events: VmDevice, protocol: Version, started: bool)
    ensures EventsAdded(s, events, protocol, started).state.protocol ==
            if s.protocol.Less(protocol) then protocol else s.protocol
  {
  }

  /** Over any run the protocol version ends up as the greatest of all those brought along and the first. */
  lemma {:induction false} ProtocolIsHighest(s: State, steps: seq<Step>)
    requires CanRun(s, steps) && !Run(s, steps).ended
    ensures var p := Run(s, steps).state.protocol;
            && (p == s.protocol || exists i :: 0 <= i < |steps| && Brings(steps[i], p))
            && !p.Less(s.protocol)
            && forall i, v | 0 <= i < |steps| && Brings(steps[i], v) :: !p.Less(v)
    decreases steps
  {
    if steps != [] {
      var t := Apply(s, steps[0]).state;
      var p := Run(s, steps).state.protocol;
      ProtocolHasOneSource(s, steps[0]);
      ProtocolIsHighest(t, steps[1..]);
      if p != s.protocol {
        if p == t.protocol {
          assert Brings(steps[0], p);
        } else {
          var i :| 0 <= i < |steps| - 1 && Brings(steps[1..][i], p);
          assert Brings(steps[i + 1], p);
        }
      }
      forall i, v | 0 <= i < |steps| && Brings(steps[i], v)
        ensures !p.Less(v)
      {
        assert i > 0 ==> Brings(steps[1..][i - 1], v);
      }
    }
  }

  // ---- Pausing ----

  function Latest(s: State, step: Step, earlier: Option<nat>): Option<nat> {
    if step.Receive? && ThroughEvents(s, step.msg) then Some(step.world.done) else earlier
  }

  /** When the latest register or configuration access through the events device was answered. */
  function LastAccess(s: State, steps: seq<Step>, earlier: Option<nat>): Option<nat>
    decreases steps
  {
    if steps == [] then earlier
    else if Apply(s, steps[0]).ended then Latest(s, steps[0], earlier)
    else LastAccess(Apply(s, steps[0]).state, steps[1..], Latest(s, steps[0], earlier))
  }

  /** Paused exactly while the timer is armed, and then due 100 ms after the last access. */
  predicate PauseClock(s: State, lastAccess: Option<nat>) {
    && (s.paused <==> s.armed)
    && (s.armed ==> lastAccess.Some? && s.resumeAt == lastAccess.value + DEBOUNCE)
  }

  lemma PauseClockStep(s: State, step: Step, earlier: Option<nat>)
    requires PauseClock(s, earlier)
    ensures PauseClock(Apply(s, step).state, Latest(s, step, earlier))
  {
  }

  /** The clock is right at every loop head of every run. */
  lemma {:induction false} PauseFollowsLastAccess(s: State, steps: seq<Step>, earlier: Option<nat>)
    requires PauseClock(s, earlier) && CanRun(s, steps)
    ensures PauseClock(Run(s, steps).state, LastAccess(s, steps, earlier))
    decreases steps
  {
    if steps != [] {
      PauseClockStep(s, steps[0], earlier);
      if !Apply(s, steps[0]).ended {
        PauseFollowsLastAccess(Apply(s, steps[0]).state, steps[1..], Latest(s, steps[0], earlier));
      }
    }
  }

  /** A handler that could stream but does not always has exactly one timer that will restart it. */
  lemma NeverStuck(s: State, steps: seq<Step>, at: nat, started: bool)
    requires Invariant(s) && CanRun(s, steps) && !Run(s, steps).ended
    requires var t := Run(s, steps).state; t.events.Some? && !t.streaming && at >= t.resumeAt && at >= t.retryAt
    ensures var t := Run(s, steps).state;
            && (Enabled(t, ResumeDue(at, started)) <==> t.paused)
            && (Enabled(t, RetryDue(at, started, at)) <==> !t.paused)
            && var due := if t.paused then ResumeDue(at, started) else RetryDue(at, started, at);
            Apply(t, due).state.streaming == started
  {
    RunKeepsInvariant(s, steps);
  }

  /** During a pause streams come back only with a new events device, or 100 ms after the last access or later. */
  lemma RestartDuringPause(s: State, steps: seq<Step>, step: Step)
    requires PauseClock(s, None) && CanRun(s, steps)
    requires var t := Run(s, steps).state;
             Enabled(t, step) && t.paused && !t.streaming && Apply(t, step).state.streaming
    ensures var last := LastAccess(s, steps, None);
            || (step.Receive? && step.msg.AddEventsDevice?)
            || (step.ResumeDue? && last.Some? && step.at >= last.value + DEBOUNCE)
  {
    PauseFollowsLastAccess(s, steps, None);
  }

  /** A register access, or a read or write of one of the two known configuration values, over the events device. */
  predicate Touches(s: State, step: Step) {
    && step.Receive? && s.events.Some?
    && match step.msg {
         case ReadRegister => s.device.eventsConnected
         case WriteRegister => s.device.eventsConnected
         case ReadConfig(kind) => kind == 0 || kind == 1
         case WriteConfig(kind) => kind == 0 || kind == 1
         case _ => false
       }
  }

  lemma TouchPauses(s: State, step: Step)
    requires Touches(s, step)
    ensures var o := Apply(s, step);
            && !o.ended && o.sent == []
            && o.state == if s.streaming || s.paused
                          then s.(streaming := false, paused := true, armed := true, resumeAt := step.world.done + 100)
                          else s
  {
  }

  /**
   * In every run, an access to a handler that streams or is paused stops its streams, leaves it paused and due to
   * resume 100 ms after the answer; and nothing else pauses a handler.
   */
  lemma AccessPausesExactly(s: State, steps: seq<Step>, step: Step)
    requires Invariant(s) && CanRun(s, steps) && !Run(s, steps).ended && Enabled(Run(s, steps).state, step)
    ensures var t := Run(s, steps).state; var o := Apply(t, step);
            && (Touches(t, step) && (t.streaming || t.paused) ==>
                  && !o.ended && !o.state.streaming && o.state.paused && o.state.armed
                  && o.state.resumeAt == step.world.done + 100 && o.state.device == t.device)
            && (!t.paused && o.state.paused <==> Touches(t, step) && t.streaming && !t.paused)
  {
    var t := Run(s, steps).state;
    if Touches(t, step) {
      TouchPauses(t, step);
    } else {
      OnlyTouchesPause(t, step);
    }
  }

  lemma OnlyTouchesPause(s: State, step: Step)
    requires !Touches(s, step)
    ensures Apply(s, step).state.paused <==> s.paused && !step.ResumeDue?
  {
  }

  predicate IsOff(s: State, floor: nat) {
    !s.streaming && s.paused && s.armed && s.resumeAt >= floor + 100
  }

  lemma StaysOff(s: State, step: Step, floor: nat)
    requires IsOff(s, floor) && Enabled(s, step) && !(step.Receive? && step.msg.AddEventsDevice?)
    requires step.Receive? ==> step.world.done >= floor
    ensures step.ResumeDue? ==> step.at >= floor + 100
    ensures !step.ResumeDue? ==> IsOff(Apply(s, step).state, floor)
  {
    if Touches(s, step) {
      TouchPauses(s, step);
    }
  }

  /** A restart of the streams that is not due to a new events device: the elapsed timer, and not before `due`. */
  ghost predicate ResumedBy(steps: seq<Step>, due: nat) {
    exists step | step in steps :: step.ResumeDue? && step.at >= due
  }

  lemma {:induction false} OffUntilDue(s: State, steps: seq<Step>, floor: nat)
    requires IsOff(s, floor) && CanRun(s, steps)
    requires forall step | step in steps && step.Receive? :: !step.msg.AddEventsDevice? && step.world.done >= floor
    ensures Run(s, steps).state.streaming ==> ResumedBy(steps, floor + 100)
    decreases steps
  {
    if steps != [] {
      var step, rest := steps[0], steps[1..];
      assert step in steps && forall other | other in rest :: other in steps;
      StaysOff(s, step, floor);
      if !step.ResumeDue? && !Apply(s, step).ended {
        OffUntilDue(Apply(s, step).state, rest, floor);
      }
    }
  }

  /**
   * No streams during an access and for 100 ms after it: whatever follows, unless an events device is added, the
   * handler streams again only once the timer has fired, and not before the access's own deadline.
   */
  lemma NoRestartBeforeDeadline(s: State, steps: seq<Step>, access: Step, after: seq<Step>)
    requires Invariant(s) && CanRun(s, steps) && !Run(s, steps).ended
    requires var t := Run(s, steps).state;
             Touches(t, access) && (t.streaming || t.paused) && CanRun(Apply(t, access).state, after)
    requires forall step | step in after && step.Receive? ::
               !step.msg.AddEventsDevice? && step.world.done >= access.world.done
    ensures Run(Apply(Run(s, steps).state, access).state, after).state.streaming ==>
              ResumedBy(after, access.world.done + 100)
  {
    var t := Run(s, steps).state;
    TouchPauses(t, access);
    OffUntilDue(Apply(t, access).state, after, access.world.done);
  }

  predicate StreamsBegin(s: State, step: Step) {
    match step
    case Receive(msg, world) => msg.AddEventsDevice? && world.streamsStart
    case ResumeDue(_, started) => s.events.Some? && started
    case RetryDue(_, restarted, _) => restarted
    case _ => false
  }

  predicate StreamsStop(s: State, step: Step) {
    Touches(s, step) || (step.Receive? && step.msg.RemoveEventsDevice?) || step.StreamsEnded?
  }

  lemma StreamsStep(s: State, step: Step)
    requires Enabled(s, step)
    ensures Apply(s, step).state.streaming <==> StreamsBegin(s, step) || (s.streaming && !StreamsStop(s, step))
    ensures Apply(s, step).state.paused <==>
            (s.paused && !step.ResumeDue?) || (s.streaming && Touches(s, step))
  {
    if Touches(s, step) {
      TouchPauses(s, step);
    } else {
      OnlyTouchesPause(s, step);
    }
  }

  /**
   * In every run, each step leaves streams running exactly if it starts them or does not stop those that run: a new
   * events device or a timer starts them, and an access, the loss of the events device or their end stops them.
   * A pause lasts exactly from the access that stops streams until the resume timer fires.
   */
  lemma StreamsExactly(s: State, steps: seq<Step>, step: Step)
    requires Invariant(s) && CanRun(s, steps) && !Run(s, steps).ended && Enabled(Run(s, steps).state, step)
    ensures var t := Run(s, steps).state; var u := Apply(t, step).state;
            && (step.StreamItem? || step.StreamsEnded? ==> t.streaming)
            && (u.streaming <==> StreamsBegin(t, step) || (t.streaming && !StreamsStop(t, step)))
            && (u.paused <==> (t.paused && !step.ResumeDue?) || (t.streaming && Touches(t, step)))
  {
    StreamsStep(Run(s, steps).state, step);
  }

  /**
   * In every run an events device that arrives while streams run changes only the protocol version; otherwise it is
   * stored and connected, and the handler streams exactly if its streams start.
   */
  lemma NewEventsDeviceStreams(s: State, steps: seq<Step>, events: VmDevice, protocol: Version, world: World)
    requires Invariant(s) && CanRun(s, steps) && !Run(s, steps).ended
    ensures var t := Run(s, steps).state; var u := Apply(t, Receive(AddEventsDevice(events, protocol), world)).state;
            && u.control == t.control && u.retryAt == t.retryAt && u.resumeAt == t.resumeAt && u.paused == t.paused
            && if t.streaming then u.streaming && u.events == t.events && u.device == t.device
               else u.streaming == world.streamsStart && u.events == Some(events) && u.device.eventsConnected
  {
    NewEventsDevice(Run(s, steps).state, events, protocol, world.streamsStart);
  }

  lemma NewEventsDevice(s: State, events: VmDevice, protocol: Version, started: bool)
    ensures var u := EventsAdded(s, events, protocol, started).state;
            && u.control == s.control && u.retryAt == s.retryAt && u.resumeAt == s.resumeAt && u.paused == s.paused
            && if s.streaming then u.streaming && u.events == s.events && u.device == s.device
               else u.streaming == started && u.events == Some(events) && u.device.eventsConnected
  {
  }

  /** When streams are tried again: 5 s after the last failed retry or the last end of the streams. */
  function RetryAfter(steps: seq<Step>, first: nat): nat
    decreases |steps|
  {
    if steps == [] then first
    else match steps[0]
      case RetryDue(_, _, finished) => RetryAfter(steps[1..], finished + 5000)
      case StreamsEnded(at) => RetryAfter(steps[1..], at + 5000)
      case _ => RetryAfter(steps[1..], first)
  }

  lemma RetryStep(s: State, step: Step)
    requires Enabled(s, step)
    ensures Apply(s, step).state.retryAt == match step
                                            case RetryDue(_, _, finished) => finished + 5000
                                            case StreamsEnded(at) => at + 5000
                                            case _ => s.retryAt
  {
  }

  /** Over any run the retry timer is set by retries and by the end of streams, and by nothing else. */
  lemma {:induction false} RetryFollowsStreams(s: State, steps: seq<Step>)
    requires CanRun(s, steps) && !Run(s, steps).ended
    ensures Run(s, steps).state.retryAt == RetryAfter(steps, s.retryAt)
    decreases steps
  {
    if steps != [] {
      RetryStep(s, steps[0]);
      RetryFollowsStreams(Apply(s, steps[0]).state, steps[1..]);
    }
  }

  // ---- Merging ----

  /**
   * The connection side of a handler in four bits: which ends are attached, whether a control device in
   * USB mode has vouched for the events, and whether the last reported mode was USB.
   */
  datatype Merged = Merged(control: bool, events: bool, vouched: bool, wired: bool)

  function Follow(m: Merged, step: Step): Merged {
    if !step.Receive? then m
    else match step.msg
      case AddEventsDevice(_, _) => m.(events := true)
      case RemoveEventsDevice => m.(events := false, vouched := false)
      case RemoveControlDevice => m.(control := false)
      case AddControlDevice(_) =>
        (match step.world.mode
         case None => m.(control := true)
         case Some(mode) => m.(control := true, vouched := mode.UsbMode?, wired := mode.UsbMode?))
      case _ => m
  }

  /** When the loop is left. */
  predicate Leaves(m: Merged, step: Step) {
    && step.Receive?
    && match step.msg
       case RemoveControlDevice => !m.events || m.wired
       case RemoveEventsDevice => !m.control
       case SetTransportMode(_) => m.control
       case ChannelClosed => true
       case _ => false
  }

  predicate Abstracts(s: State, m: Merged) {
    Invariant(s) && Attachments(s, m)
  }

  /** The parts of the abstraction beyond the handler's own invariant. */
  predicate Attachments(s: State, m: Merged) {
    && (s.control.Some? <==> m.control)
    && (s.events.Some? <==> m.events)
    && (s.device.eventsConnected <==> m.events || m.vouched)
    && (s.device.eventsTransport == Wired <==> m.wired)
  }

  predicate Tracks(o: Outcome, m: Merged, step: Step) {
    && (o.ended <==> Leaves(m, step))
    && (!o.ended ==> Attachments(o.state, Follow(m, step)))
  }

  lemma RequestsTrack(s: State, m: Merged, msg: Message, world: World)
    requires Attachments(s, m) && !Attaches(msg)
    ensures Tracks(Received(s, msg, world), m, Receive(msg, world))
  {
  }

  lemma EventsAddedTrack(s: State, m: Merged, msg: Message, world: World)
    requires Attachments(s, m) && (s.streaming ==> s.events.Some?) && msg.AddEventsDevice?
    ensures Tracks(Received(s, msg, world), m, Receive(msg, world))
  {
  }

  lemma ReceivedFollows(s: State, m: Merged, msg: Message, world: World)
    requires Attachments(s, m) && (s.streaming ==> s.events.Some?)
    ensures Tracks(Received(s, msg, world), m, Receive(msg, world))
  {
    if !Attaches(msg) {
      RequestsTrack(s, m, msg, world);
    } else {
      match msg {
        case AddEventsDevice(_, _) => EventsAddedTrack(s, m, msg, world);
        case AddControlDevice(vm) => ControlAddedFollows(s, m, vm, world);
        case RemoveControlDevice => RemovalsFollow(s, m);
        case RemoveEventsDevice => RemovalsFollow(s, m);
      }
    }
  }

  lemma FollowsStep(s: State, m: Merged, step: Step)
    requires Abstracts(s, m) && Enabled(s, step)
    ensures var o := Apply(s, step);
            && (o.ended <==> Leaves(m, step))
            && (!o.ended ==> Abstracts(o.state, Follow(m, step)))
  {
    ApplyKeepsInvariant(s, step);
    if step.Receive? {
      ReceivedFollows(s, m, step.msg, step.world);
    }
  }

  lemma ControlAddedFollows(s: State, m: Merged, vm: VmDevice, world: World)
    requires Attachments(s, m)
    ensures var d := ControlAdded(s, vm, world).state.device;
            var n := Follow(m, Receive(AddControlDevice(vm), world));
            && (d.eventsConnected <==> n.events || n.vouched)
            && (d.eventsTransport == Wired <==> n.wired)
  {
  }

  lemma RemovalsFollow(s: State, m: Merged)
    requires Attachments(s, m)
    ensures ControlRemoved(s).ended <==> !m.events || m.wired
    ensures EventsRemoved(s).ended <==> !m.control
    ensures m.events && !m.wired ==> ControlRemoved(s).state.device.eventsConnected
    ensures ControlRemoved(s).state.device.eventsTransport == s.device.eventsTransport
    ensures EventsRemoved(s).state.device.eventsTransport == s.device.eventsTransport
    ensures !EventsRemoved(s).state.device.eventsConnected
  {
  }

  datatype MergedRun = MergedRun(merged: Merged, ended: bool)

  function FollowAll(m: Merged, steps: seq<Step>): MergedRun
    decreases steps
  {
    if steps == [] then MergedRun(m, false)
    else if Leaves(m, steps[0]) then MergedRun(Follow(m, steps[0]), true)
    else FollowAll(Follow(m, steps[0]), steps[1..])
  }

  /** Every run of the handler is a run of the four bits: same published capabilities, same ending. */
  lemma {:induction false} MergeRefinement(s: State, m: Merged, steps: seq<Step>)
    requires Abstracts(s, m) && CanRun(s, steps)
    ensures Run(s, steps).ended <==> FollowAll(m, steps).ended
    ensures !Run(s, steps).ended ==> Abstracts(Run(s, steps).state, FollowAll(m, steps).merged)
    decreases steps
  {
    if steps != [] {
      FollowsStep(s, m, steps[0]);
      if !Leaves(m, steps[0]) {
        MergeRefinement(Apply(s, steps[0]).state, Follow(m, steps[0]), steps[1..]);
      }
    }
  }

  ghost predicate NeverUsbMode(steps: seq<Step>) {
    forall i | 0 <= i < |steps| && steps[i].Receive? && steps[i].msg.AddControlDevice? ::
      steps[i].world.mode != Some(UsbMode)
  }

  /** The published view of a device whose ends are attached as given. */
  predicate Shows(d: Device, control: bool, events: bool) {
    && d.transport == (if control then Usb else UsbMux)
    && (d.capabilities.Contains(CONTROL) <==> control)
    && (d.capabilities.Contains(EVENTS) <==> events)
    && (d.eventsConnected <==> events)
  }

  lemma {:induction false} NeverWired(m: Merged, steps: seq<Step>)
    requires NeverUsbMode(steps) && !m.vouched && !m.wired
    ensures !FollowAll(m, steps).merged.vouched && !FollowAll(m, steps).merged.wired
    decreases steps
  {
    if steps != [] && !Leaves(m, steps[0]) {
      NeverWired(Follow(m, steps[0]), steps[1..]);
    }
  }

  predicate IsRemoval(step: Step) {
    step.Receive? && (step.msg.RemoveControlDevice? || step.msg.RemoveEventsDevice?)
  }

  /**
   * Without USB mode the view is a function of the two attachments, and a removal ends the
   * handler exactly when it leaves neither.
   */
  lemma TwoAttachmentsDecide(s: State, m: Merged, steps: seq<Step>, removal: Step)
    requires Abstracts(s, m) && !m.vouched && !m.wired
    requires CanRun(s, steps) && NeverUsbMode(steps) && !Run(s, steps).ended && IsRemoval(removal)
    ensures var t := Run(s, steps).state; var n := FollowAll(m, steps).merged; var n' := Follow(n, removal);
            && Shows(t.device, n.control, n.events)
            && (Apply(t, removal).ended <==> !n'.control && !n'.events)
  {
    MergeRefinement(s, m, steps);
    NeverWired(m, steps);
    FollowsStep(Run(s, steps).state, FollowAll(m, steps).merged, removal);
  }

  lemma FlagsCommute(c: Capabilities)
    ensures c.Insert(EVENTS).Insert(CONTROL) == c.Insert(CONTROL).Insert(EVENTS)
    ensures c.Remove(EVENTS).Insert(CONTROL).Insert(EVENTS) == c.Insert(EVENTS).Insert(CONTROL)
    ensures c.Insert(EVENTS).Insert(EVENTS) == c.Insert(EVENTS)
  {
  }

  /** With events arriving, a reported mode leaves the same record whether it is read before or after. */
  lemma ModeAndEventsCommute(d: Device, mode: Option<TransportMode>, held: bool)
    ensures var late := With(With(ModeReported(d, mode, held), CONTROL), EVENTS);
            var early := With(ModeReported(With(d, EVENTS).(eventsConnected := true), mode, true), CONTROL);
            late.(eventsConnected := true) == early
  {
    FlagsCommute(d.capabilities);
    FlagsCommute(d.capabilities.Insert(EVENTS));
  }

  /** Attaching the two ends leaves the very same state in either order. */
  lemma AttachmentsCommute(s: State, control: VmDevice, w: World, events: VmDevice, protocol: Version, w': World)
    requires s.streaming ==> s.events.Some?
    ensures EventsAdded(ControlAdded(s, control, w).state, events, protocol, w'.streamsStart).state
         == ControlAdded(EventsAdded(s, events, protocol, w'.streamsStart).state, control, w).state
  {
    var d := if w.version.Some? then s.device.(firmwareVersion := w.version.value) else s.device;
    if !s.streaming {
      ModeAndEventsCommute(d, w.mode, s.events.Some?);
    }
  }

  /** Runs that are possible exactly together, and then end alike and in the very same state. */
  ghost predicate SameRuns(s: State, one: seq<Step>, s': State, two: seq<Step>) {
    && (CanRun(s, one) <==> CanRun(s', two))
    && Run(s, one).state == Run(s', two).state && Run(s, one).ended == Run(s', two).ended
  }

  lemma AttachmentSteps(s: State, c: Step, e: Step)
    requires c.Receive? && c.msg.AddControlDevice? && e.Receive? && e.msg.AddEventsDevice?
    ensures Apply(s, c) == ControlAdded(s, c.msg.control, c.world) && !Apply(s, c).ended
    ensures Apply(s, e) == EventsAdded(s, e.msg.events, e.msg.protocol, e.world.streamsStart) && !Apply(s, e).ended
  {
  }

  lemma AttachmentsMeet(s: State, c: Step, e: Step)
    requires s.streaming ==> s.events.Some?
    requires c.Receive? && c.msg.AddControlDevice? && e.Receive? && e.msg.AddEventsDevice?
    ensures !Apply(s, c).ended && !Apply(Apply(s, c).state, e).ended
    ensures !Apply(s, e).ended && !Apply(Apply(s, e).state, c).ended
    ensures Apply(Apply(s, c).state, e).state == Apply(Apply(s, e).state, c).state
  {
    AttachmentSteps(s, c, e);
    AttachmentSteps(Apply(s, c).state, c, e);
    AttachmentSteps(Apply(s, e).state, c, e);
    AttachmentsCommute(s, c.msg.control, c.world, e.msg.events, e.msg.protocol, e.world);
  }

  lemma SameRunsTwoSteps(s: State, c: Step, e: Step, after: seq<Step>)
    requires s.streaming ==> s.events.Some?
    requires c.Receive? && c.msg.AddControlDevice? && e.Receive? && e.msg.AddEventsDevice?
    ensures SameRuns(s, [c] + ([e] + after), s, [e] + ([c] + after))
  {
    AttachmentsMeet(s, c, e);
    TwoSteps(s, c, e, after);
    TwoSteps(s, e, c, after);
  }

  /**
   * The order in which the two ends are attached never shows: wherever in a run, either order is possible exactly
   * if the other is, and both end alike and in the very same state.
   */
  lemma {:induction false} AttachOrderIsIrrelevant(s: State, before: seq<Step>, c: Step, e: Step, after: seq<Step>)
    requires Invariant(s)
    requires c.Receive? && c.msg.AddControlDevice? && e.Receive? && e.msg.AddEventsDevice?
    ensures CanRun(s, before + [c, e] + after) <==> CanRun(s, before + [e, c] + after)
    ensures CanRun(s, before + [c, e] + after) ==>
              var one, two := Run(s, before + [c, e] + after), Run(s, before + [e, c] + after);
              one.ended == two.ended && one.state == two.state
    decreases |before|
  {
    var one := before + [c, e] + after;
    var two := before + [e, c] + after;
    if before == [] {
      assert one == [c] + ([e] + after) && two == [e] + ([c] + after);
      SameRunsTwoSteps(s, c, e, after);
    } else {
      var rest := before[1..];
      assert one == [before[0]] + (rest + [c, e] + after) && two == [before[0]] + (rest + [e, c] + after);
      if Enabled(s, before[0]) && !Apply(s, before[0]).ended {
        ApplyKeepsInvariant(s, before[0]);
        AttachOrderIsIrrelevant(Apply(s, before[0]).state, rest, c, e, after);
      }
      OrderOneMore(s, before[0], rest + [c, e] + after, rest + [e, c] + after);
    }
  }

  lemma OrderOneMore(s: State, step: Step, one: seq<Step>, two: seq<Step>)
    requires Enabled(s, step) && !Apply(s, step).ended ==>
               var t := Apply(s, step).state;
               && (CanRun(t, one) <==> CanRun(t, two))
               && (CanRun(t, one) ==> Run(t, one).state == Run(t, two).state && Run(t, one).ended == Run(t, two).ended)
    ensures CanRun(s, [step] + one) <==> CanRun(s, [step] + two)
    ensures CanRun(s, [step] + one) ==>
              var u, v := Run(s, [step] + one), Run(s, [step] + two); u.ended == v.ended && u.state == v.state
  {
    assert ([step] + one)[1..] == one && ([step] + two)[1..] == two;
  }

  /** The first two steps of a run, if neither ends it. */
  lemma TwoSteps(s: State, a: Step, b: Step, after: seq<Step>)
    requires Enabled(s, a) && !Apply(s, a).ended
    requires Enabled(Apply(s, a).state, b) && !Apply(Apply(s, a).state, b).ended
    ensures var t := Apply(Apply(s, a).state, b).state; var steps := [a] + ([b] + after);
            && (CanRun(s, steps) <==> CanRun(t, after))
            && Run(s, steps).state == Run(t, after).state && Run(s, steps).ended == Run(t, after).ended
  {
    assert ([a] + ([b] + after))[1..] == [b] + after;
    assert ([b] + after)[1..] == after;
  }

  /**
   * In every run from every start the record shows the two attachments exactly unless the events are vouched
   * for by a control device in USB mode while no events device is held.
   */
  lemma UsbModeReportExactly(s: State, m: Merged, steps: seq<Step>)
    requires Abstracts(s, m) && CanRun(s, steps) && !Run(s, steps).ended
    ensures var t := Run(s, steps).state; var n := FollowAll(m, steps).merged;
            Shows(t.device, n.control, n.events) <==> n.events || !n.vouched
  {
    MergeRefinement(s, m, steps);
  }

  /**
   * In every run from every start a removal ends the handler just when it leaves neither end, with one
   * exception: the control device goes while an events device is held and the record says events are wired.
   */
  lemma RemovalLawExactly(s: State, m: Merged, steps: seq<Step>, removal: Step)
    requires Abstracts(s, m) && CanRun(s, steps) && !Run(s, steps).ended && IsRemoval(removal)
    ensures var t := Run(s, steps).state; var n' := Follow(FollowAll(m, steps).merged, removal);
            (Apply(t, removal).ended <==> !n'.control && !n'.events) <==>
            !(removal.msg.RemoveControlDevice? && t.events.Some? && t.device.eventsTransport == Wired)
  {
    MergeRefinement(s, m, steps);
    FollowsStep(Run(s, steps).state, FollowAll(m, steps).merged, removal);
  }

  /** After such a report a handler dies with its control device although BLE events are still attached. */
  lemma UsbModeReportLosesEvents(s: State, m: Merged, control: VmDevice, w: World, w': World)
    requires Abstracts(s, m) && m.events && w.mode == Some(UsbMode)
    ensures var steps := [Receive(AddControlDevice(control), w), Receive(RemoveControlDevice, w')];
            CanRun(s, steps) && Run(s, steps).ended && FollowAll(m, steps).merged.events
  {
    var steps := [Receive(AddControlDevice(control), w), Receive(RemoveControlDevice, w')];
    assert steps[1..][1..] == [];
    MergeRefinement(s, m, steps);
  }

  lemma StartsAreMerged(start: Start, uuid: Uuid, name: NameBuffer, productId: U16, firmware: Version,
                        protocol: Version, streamsStart: bool, now: nat)
    ensures Abstracts(Initial(start, uuid, name, productId, firmware, protocol, streamsStart, now),
                      Merged(!start.OverHub?, start.DirectUsb?, start.DirectUsb?, start.DirectUsb?))
  {
    StartsSatisfyInvariant(start, uuid, name, productId, firmware, protocol, streamsStart, now);
  }

  // ---- What becomes of messages ----

  /** The bits of a handler, as its connections and its record show them. */
  function Bits(s: State): Merged {
    Merged(s.control.Some?, s.events.Some?, s.device.eventsConnected, s.device.eventsTransport == Wired)
  }

  lemma BitsAbstract(s: State)
    requires Invariant(s)
    ensures Abstracts(s, Bits(s))
  {
  }

  /** The steps that take a message. */
  function Taking(steps: seq<Step>): seq<Step>
    decreases |steps|
  {
    if steps == [] then []
    else if steps[0].Receive? then [steps[0]] + Taking(steps[1..])
    else Taking(steps[1..])
  }

  lemma {:induction false} OnlyMessagesMatter(m: Merged, steps: seq<Step>)
    ensures FollowAll(m, Taking(steps)) == FollowAll(m, steps)
    decreases |steps|
  {
    if steps != [] {
      if steps[0].Receive? {
        assert Taking(steps)[1..] == Taking(steps[1..]);
        if !Leaves(m, steps[0]) {
          OnlyMessagesMatter(Follow(m, steps[0]), steps[1..]);
        }
      } else {
        OnlyMessagesMatter(m, steps[1..]);
      }
    }
  }

  /** A machine that has ended takes nothing more. */
  lemma {:induction false} EndedStaysEnded(m: Merged, steps: seq<Step>, more: seq<Step>)
    requires steps <= more && FollowAll(m, steps).ended
    ensures FollowAll(m, more) == FollowAll(m, steps)
    decreases |steps|
  {
    if steps != [] && !Leaves(m, steps[0]) {
      assert steps[1..] <= more[1..];
      EndedStaysEnded(Follow(m, steps[0]), steps[1..], more[1..]);
    }
  }

  predicate Carries(steps: seq<Step>, msg: Message) {
    exists step | step in steps :: step.Receive? && step.msg == msg
  }

  predicate Attaching(steps: seq<Step>) {
    exists step | step in steps :: step.Receive? && step.msg.AddEventsDevice?
  }

  /** Messages that concern no control device and do not close the channel. */
  predicate WithoutControl(msg: Message) {
    !msg.AddControlDevice? && !msg.RemoveControlDevice? && !msg.ChannelClosed?
  }

  /**
   * A handler without a control device, to which none comes, ends exactly if it is sent a detach; otherwise it
   * holds events exactly if it did or is sent an attach.
   */
  lemma {:induction false} DetachEndsExactly(m: Merged, steps: seq<Step>)
    requires !m.control && forall step | step in steps :: step.Receive? && WithoutControl(step.msg)
    ensures FollowAll(m, steps).ended <==> Carries(steps, RemoveEventsDevice)
    ensures !FollowAll(m, steps).ended ==> (FollowAll(m, steps).merged.events <==> m.events || Attaching(steps))
    decreases |steps|
  {
    if steps != [] {
      var rest := steps[1..];
      assert steps[0] in steps && forall step :: step in steps <==> step == steps[0] || step in rest;
      if !Leaves(m, steps[0]) {
        DetachEndsExactly(Follow(m, steps[0]), rest);
      }
    }
  }

  // ---- The task itself ----

  class Task {
    var control: Option<VmDevice>
    var events: Option<VmDevice>
    var device: Device
    var streaming: bool
    var paused: bool
    var armed: bool
    var resumeAt: nat
    var retryAt: nat
    var protocol: Version
    /** Everything sent on the message channel. */
    var sent: seq<Published>

    function Now(): State
      reads this
    {
      State(control, events, device, streaming, paused, armed, resumeAt, retryAt, protocol)
    }

    constructor (start: Start, uuid: Uuid, name: NameBuffer, productId: U16, firmware: Version, protocol: Version,
                 streamsStart: bool, now: nat)
      ensures Now() == Initial(start, uuid, name, productId, firmware, protocol, streamsStart, now)
      ensures Invariant(Now()) && sent == []
    {
      control := if start.OverHub? then None else Some(start.control);
      events := if start.DirectUsb? then Some(start.control) else None;
      device := Initial(start, uuid, name, productId, firmware, protocol, streamsStart, now).device;
      streaming := start.DirectUsb? && streamsStart;
      paused, armed := false, false;
      resumeAt, retryAt := now + 3600 * 1000, now + RETRY;
      this.protocol := protocol;
      sent := [];
      new;
      StartsSatisfyInvariant(start, uuid, name, productId, firmware, protocol, streamsStart, now);
    }

    /** A register or configuration access through the events device. */
    method Access(done: nat)
      modifies `streaming, `paused, `armed, `resumeAt
      ensures !streaming && paused == (old(streaming) || old(paused))
      ensures if paused then armed && resumeAt == done + DEBOUNCE else armed == old(armed) && resumeAt == old(resumeAt)
      ensures Now() == Accessed(old(Now()), done)
    {
      if streaming {
        paused := true;
        streaming := false;
      }
      if paused {
        resumeAt := done + DEBOUNCE;
        armed := true;
      }
    }

    method AddEvents(vm: VmDevice, version: Version, started: bool)
      modifies this
      ensures var o := EventsAdded(old(Now()), vm, version, started);
              Now() == o.state && sent == old(sent) + o.sent
    {
      if protocol.Less(version) {
        protocol := version;
      }
      if streaming {
        return;
      }
      events := Some(vm);
      streaming := started;
      device := device.(capabilities := device.capabilities.Insert(EVENTS));
      device := device.(eventsConnected := true);
      sent := sent + [UpdateDevice(device)];
    }

    /** The transport mode as re-read from a control device, if it answered. */
    method ReportMode(mode: Option<TransportMode>)
      modifies `device
      ensures device == ModeReported(old(device), mode, events.Some?)
    {
      if mode.Some? {
        var isUsb := mode.value == UsbMode;
        device := device.(eventsTransport := if isUsb then Wired else Bluetooth);
        if isUsb {
          device := device.(eventsConnected := true);
          device := device.(capabilities := device.capabilities.Insert(EVENTS));
        } else if events.None? {
          device := device.(eventsConnected := false);
          device := device.(capabilities := device.capabilities.Remove(EVENTS));
        }
      }
    }

    method AddControl(vm: VmDevice, world: World)
      modifies this
      ensures var o := ControlAdded(old(Now()), vm, world);
              Now() == o.state && sent == old(sent) + o.sent
    {
      if world.version.Some? {
        device := device.(firmwareVersion := world.version.value);
      }
      ReportMode(world.mode);
      control := Some(vm);
      device := device.(capabilities := device.capabilities.Insert(CONTROL));
      device := device.(transport := Usb);
      sent := sent + [UpdateDevice(device)];
    }

    method RemoveControl() returns (ended: bool)
      modifies this
      ensures var o := ControlRemoved(old(Now()));
              Now() == o.state && sent == old(sent) + o.sent && ended == o.ended
    {
      control := None;
      device := device.(capabilities := device.capabilities.Remove(CONTROL));
      device := device.(capabilities := device.capabilities.Remove(DFU));
      if events.Some? && device.eventsTransport == Bluetooth && device.eventsConnected {
        device := device.(transport := UsbMux);
        sent := sent + [UpdateDevice(device)];
        ended := false;
      } else {
        events := None;
        ended := true;
      }
    }

    method RemoveEvents() returns (ended: bool)
      modifies this
      ensures var o := EventsRemoved(old(Now()));
              Now() == o.state && sent == old(sent) + o.sent && ended == o.ended
    {
      events := None;
      streaming := false;
      device := device.(capabilities := device.capabilities.Remove(EVENTS));
      device := device.(eventsConnected := false);
      if control.Some? {
        if device.transport == UsbMux {
          device := device.(transport := Usb);
        }
        sent := sent + [UpdateDevice(device)];
        ended := false;
      } else {
        ended := true;
      }
    }

    /** Requests from clients; attaching and detaching are for discoverers. */
    method OnRequest(msg: Message, world: World) returns (ended: bool)
      requires !Attaches(msg)
      modifies this
      ensures var o := Received(old(Now()), msg, world);
              Now() == o.state && sent == old(sent) + o.sent && ended == o.ended
    {
      ended := false;
      match msg {
        case ReadRegister =>
          if device.eventsConnected && events.Some? {
            Access(world.done);
          }
        case WriteRegister =>
          if device.eventsConnected && events.Some? {
            Access(world.done);
          }
        case ReadConfig(kind) =>
          if kind < 2 && events.Some? {
            Access(world.done);
          }
        case WriteConfig(kind) =>
          if kind < 2 && events.Some? {
            Access(world.done);
          }
        case SetTransportMode(_) =>
          ended := control.Some?;
        case SetDeviceName(name) =>
          if (control.Some? || events.Some?) && world.accepted {
            device := device.(name := NameBytes(name));
            sent := sent + [UpdateName(device.uuid, name)];
          }
        case ChannelClosed => ended := true;
        case _ =>
      }
    }

    method OnMessage(msg: Message, world: World) returns (ended: bool)
      modifies this
      ensures var o := Received(old(Now()), msg, world);
              Now() == o.state && sent == old(sent) + o.sent && ended == o.ended
    {
      ended := false;
      match msg {
        case AddEventsDevice(vm, version) => AddEvents(vm, version, world.streamsStart);
        case AddControlDevice(vm) => AddControl(vm, world);
        case RemoveControlDevice => ended := RemoveControl();
        case RemoveEventsDevice => ended := RemoveEvents();
        case _ => ended := OnRequest(msg, world);
      }
    }

    /** One turn of the select loop. */
    method Turn(step: Step) returns (ended: bool)
      requires Enabled(Now(), step)
      modifies this
      ensures var o := Apply(old(Now()), step);
              Now() == o.state && sent == old(sent) + o.sent && ended == o.ended
    {
      ended := false;
      match step {
        case Receive(msg, world) => ended := OnMessage(msg, world);
        case ShotDelayChanged =>
        case ResumeDue(_, started) =>
          armed := false;
          paused := false;
          if !streaming && events.Some? {
            streaming := started;
          }
        case RetryDue(_, restarted, finished) =>
          streaming := restarted;
          retryAt := finished + RETRY;
        case StreamItem =>
        case StreamsEnded(at) =>
          streaming := false;
          retryAt := at + RETRY;
      }
    }

    /** The whole task: turns until one of them ends it, then a single `Disconnect`, the last thing it sends. */
    method Handle(steps: seq<Step>) returns (ended: bool)
      requires CanRun(Now(), steps)
      modifies this
      ensures var o := Run(old(Now()), steps);
              && Now() == o.state && ended == o.ended
              && sent == old(sent) + o.sent + if o.ended then [Disconnect(device)] else []
    {
      ended := false;
      ghost var whole, published, rest := Run(Now(), steps), [], steps;
      var i := 0;
      while i < |steps| && !ended
        invariant i <= |steps| && rest == steps[i..]
        invariant sent == old(sent) + published
        invariant Resumes(whole, Now(), published, ended, rest)
      {
        ended, published := Advance(steps[i], whole, published, rest);
        rest := rest[1..];
        i := i + 1;
      }
      if ended {
        sent := sent + [Disconnect(device)];
      }
    }

    /** A turn, with the rest of the run that it leaves. */
    method Advance(step: Step, ghost whole: Outcome, ghost before: seq<Published>, ghost rest: seq<Step>)
      returns (ended: bool, ghost published: seq<Published>)
      requires rest != [] && step == rest[0] && Resumes(whole, Now(), before, false, rest)
      modifies this
      ensures Resumes(whole, Now(), published, ended, rest[1..])
      ensures before <= published && sent == old(sent) + published[|before|..]
    {
      ResumesNext(whole, Now(), before, rest);
      ghost var o := Apply(Now(), step);
      ended := Turn(step);
      published := before + o.sent;
    }
  }

  /** The part of a run still to come, after what was published so far. */
  ghost predicate Resumes(whole: Outcome, now: State, published: seq<Published>, ended: bool, rest: seq<Step>) {
    if ended then whole == Outcome(now, published, true)
    else
      var o := Run(now, rest);
      CanRun(now, rest) && whole == Outcome(o.state, published + o.sent, o.ended)
  }

  lemma ResumesNext(whole: Outcome, now: State, published: seq<Published>, rest: seq<Step>)
    requires rest != [] && Resumes(whole, now, published, false, rest)
    ensures Enabled(now, rest[0])
    ensures var o := Apply(now, rest[0]); Resumes(whole, o.state, published + o.sent, o.ended, rest[1..])
  {
  }
}
