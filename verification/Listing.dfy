/**
 * Whether the server's list shows the record that a handler holds. Two things can make it differ: an
 * announcement overtaken by the handler's own messages, and a rename request, which writes the name
 * it was told succeeded a second time, outside the channel and at a time of its own.
 */
module Listing {
  import opened Common
  import opened DeviceWire
  import opened Generations
  import D = Dispatcher
  import H = DeviceHandler

  /** A step that does not end the handler publishes whatever it changes in the record, all of it or the name. */
  lemma StepPublishesChanges(st: H.State, step: H.Step)
    requires H.Invariant(st) && H.Enabled(st, step) && !H.Apply(st, step).ended
    ensures var o := H.Apply(st, step);
            || (o.sent == [] && o.state.device == st.device)
            || o.sent == [H.UpdateDevice(o.state.device)]
            || (Accepted(st, step).Some?
                && var name := Accepted(st, step).value;
                && o.sent == [H.UpdateName(st.device.uuid, name)]
                && o.state.device == st.device.(name := NameBytes(name)))
  {
    if step.Receive? && step.msg.SetDeviceName? {
      assert H.Apply(st, step).sent != [] ==> H.Apply(st, step).sent == [H.UpdateName(st.device.uuid, step.msg.name)];
    }
  }

  // ---- What happened since the announcement ----

  /**
   * Whether the announcement was overtaken and no full update has followed, and the name that a request
   * wrote into the list last, if nothing has come over the channel since.
   */
  datatype Drift = Drift(overtaken: bool, written: Option<string>)

  const NONE := Drift(false, None)

  function AfterNews(d: Drift, news: seq<Wire>): Drift {
    if news == [] then d
    else match news[0]
      case Update(_, _) => NONE
      case Rename(_, _) => d.(written := None)
      case Announce(_, _) => d
      case Goodbye(_, _) => d
  }

  /** The discoverer announces the record it started from; the handler may already hold another. */
  function AtAnnouncement(gen: Generation): Drift {
    Drift(gen.state.device != gen.start, None)
  }

  function Note(d: Drift, s: State, a: Action): Drift
    requires Enabled(s, a)
  {
    match a
    case HubConnect => AtAnnouncement(s.gens[s.lock.recorded])
    case UsbConnect => AtAnnouncement(s.gens[s.scanning.value])
    case Turn(g, step) => AfterNews(d, News(g, H.Apply(s.gens[g].state, step)))
    case WriteName(name) => if Drained(s) then d.(written := Some(name)) else d
    case _ => d
  }

  ghost function Noted(d: Drift, s: State, actions: seq<Action>): Drift
    requires CanRun(s, actions)
    decreases actions
  {
    if actions == [] then d else Noted(Note(d, s, actions[0]), Apply(s, actions[0]), actions[1..])
  }

  // ---- What the list will show ----

  function ToMessages(uuid: Uuid, wire: seq<Wire>): seq<D.Message> {
    seq(|wire|, i requires 0 <= i < |wire| => Generations.ToMessage(uuid, wire[i]))
  }

  /** The list once the rest of the channel is processed. */
  function ToCome(s: State): seq<D.Message>
    requires s.processed <= |s.wire|
  {
    s.list + ToMessages(s.uuid, s.wire[s.processed..])
  }

  predicate SameButName(d: Device, d': Device) {
    d.(name := d'.name) == d'
  }

  /** The record `d` will be shown for the record `held`. */
  predicate Explained(d: Device, held: Device, drift: Drift) {
    && (SameButName(d, held) <==> !drift.overtaken)
    && (drift.written.None? ==> d.name == held.name)
    && (drift.written.Some? ==> d.name == NameBytes(drift.written.value))
  }

  ghost predicate Shows(msgs: seq<D.Message>, uuid: Uuid, sender: D.Sender, held: Device, drift: Drift) {
    var m := D.DevicesAfter(msgs);
    uuid in m && m[uuid].sender == sender && Explained(m[uuid].device, held, drift)
  }

  /** While a handler is live, the list is about to show its record up to the drift noted. */
  ghost predicate ViewStands(s: State, drift: Drift) {
    Live(s) ==>
      var g := |s.gens| - 1;
      s.processed <= |s.wire| && Shows(ToCome(s), s.uuid, D.Live(g), s.gens[g].state.device, drift)
  }

  lemma ShowsOneMore(msgs: seq<D.Message>, uuid: Uuid, g: nat, held: Device, drift: Drift, w: Wire, held': Device)
    requires Shows(msgs, uuid, D.Live(g), held, drift) && held.uuid == uuid && held'.uuid == uuid
    requires w == Update(g, held') || (w.Rename? && held' == held.(name := NameBytes(w.name)))
    ensures Shows(msgs + [Generations.ToMessage(uuid, w)], uuid, D.Live(g), held', AfterNews(drift, [w]))
  {
    D.OneMore(msgs, Generations.ToMessage(uuid, w));
  }

  lemma ShowsAnnounced(msgs: seq<D.Message>, uuid: Uuid, g: nat, gen: Generation)
    requires gen.start.uuid == uuid && gen.state.device.name == gen.start.name
    ensures Shows(msgs + [D.Connect(gen.start, Some(g))], uuid, D.Live(g), gen.state.device, AtAnnouncement(gen))
  {
    D.OneMore(msgs, D.Connect(gen.start, Some(g)));
  }

  lemma ShowsWritten(msgs: seq<D.Message>, uuid: Uuid, sender: D.Sender, held: Device, drift: Drift, name: string)
    requires Shows(msgs, uuid, sender, held, drift)
    ensures Shows(msgs + [D.UpdateName(uuid, name)], uuid, sender, held, drift.(written := Some(name)))
  {
    D.OneMore(msgs, D.UpdateName(uuid, name));
  }

  /** Whatever is processed next sets the name again, or removes the entry. */
  lemma NextSetsName(m: D.DeviceMap, uuid: Uuid, name: string, w: Wire)
    requires OfUuid(w, uuid)
    ensures var msg := Generations.ToMessage(uuid, w);
            D.SameAt(D.OnDeviceMap(D.OnDeviceMap(m, D.UpdateName(uuid, name)), msg), D.OnDeviceMap(m, msg), uuid)
  {
  }

  lemma ToMessagesLast(uuid: Uuid, list: seq<D.Message>, rest: seq<Wire>)
    requires rest != []
    ensures list + ToMessages(uuid, rest)
         == list + ToMessages(uuid, rest[..|rest| - 1]) + [Generations.ToMessage(uuid, rest[|rest| - 1])]
  {
    assert ToMessages(uuid, rest)
        == ToMessages(uuid, rest[..|rest| - 1]) + [Generations.ToMessage(uuid, rest[|rest| - 1])];
  }

  /** A name written before something about the device is processed is written over, or removed. */
  lemma {:induction false} WrittenOver(list: seq<D.Message>, uuid: Uuid, name: string, rest: seq<Wire>)
    requires rest != [] && forall w | w in rest :: OfUuid(w, uuid)
    ensures D.SameAt(D.DevicesAfter(list + [D.UpdateName(uuid, name)] + ToMessages(uuid, rest)),
                     D.DevicesAfter(list + ToMessages(uuid, rest)), uuid)
    decreases |rest|
  {
    var written := list + [D.UpdateName(uuid, name)];
    var init, last := rest[..|rest| - 1], rest[|rest| - 1];
    var msg := Generations.ToMessage(uuid, last);
    assert last in rest;
    ToMessagesLast(uuid, written, rest);
    ToMessagesLast(uuid, list, rest);
    D.OneMore(written + ToMessages(uuid, init), msg);
    D.OneMore(list + ToMessages(uuid, init), msg);
    if init == [] {
      assert written + ToMessages(uuid, init) == written && list + ToMessages(uuid, init) == list;
      D.OneMore(list, D.UpdateName(uuid, name));
      NextSetsName(D.DevicesAfter(list), uuid, name, last);
    } else {
      assert forall w | w in init :: w in rest;
      WrittenOver(list, uuid, name, init);
      D.StepAt(D.DevicesAfter(written + ToMessages(uuid, init)), D.DevicesAfter(list + ToMessages(uuid, init)), msg,
               uuid);
    }
  }

  lemma SameShows(msgs: seq<D.Message>, msgs': seq<D.Message>, uuid: Uuid, sender: D.Sender, held: Device, drift: Drift)
    requires Shows(msgs, uuid, sender, held, drift) && D.SameAt(D.DevicesAfter(msgs'), D.DevicesAfter(msgs), uuid)
    ensures Shows(msgs', uuid, sender, held, drift)
  {
  }

  // ---- Every step keeps it ----

  lemma OneMoreToCome(s: State, t: State, w: Wire)
    requires s.processed <= |s.wire| && t.wire == s.wire + [w]
    requires t.processed == s.processed && t.list == s.list && t.uuid == s.uuid
    ensures ToCome(t) == ToCome(s) + [Generations.ToMessage(s.uuid, w)]
  {
    assert t.wire[t.processed..] == s.wire[s.processed..] + [w];
  }

  lemma TurnKeepsView(s: State, g: nat, step: H.Step, drift: Drift)
    requires Invariant(s) && ViewStands(s, drift) && Enabled(s, Turn(g, step))
    ensures ViewStands(Turned(s, g, step), Note(drift, s, Turn(g, step)))
  {
    var gen, t := s.gens[g], Turned(s, g, step);
    var o := H.Apply(gen.state, step);
    assert Latest(s, g) && Sound(gen, s.uuid);
    NewsShape(gen, g, step, s.uuid);
    if Live(s) && !o.ended {
      StepPublishesChanges(gen.state, step);
      var news := News(g, o);
      if news == [] {
        assert t.wire == s.wire;
      } else {
        OneMoreToCome(s, t, news[0]);
        ShowsOneMore(ToCome(s), s.uuid, g, gen.state.device, drift, news[0], o.state.device);
        assert news == [news[0]];
      }
    }
  }

  lemma AnnouncingKeepsView(s: State, g: nat, t: State)
    requires Invariant(s) && Pending(s, g) && Latest(s, g) && Latest(t, g)
    requires t.gens == s.gens && t.wire == s.wire + [Announce(g, s.gens[g].start)]
    requires t.processed == s.processed && t.list == s.list && t.uuid == s.uuid
    ensures ViewStands(t, AtAnnouncement(s.gens[g]))
  {
    assert Sound(s.gens[g], s.uuid);
    OneMoreToCome(s, t, Announce(g, s.gens[g].start));
    ShowsAnnounced(ToCome(s), s.uuid, g, s.gens[g]);
  }

  lemma DispatchKeepsView(s: State, drift: Drift)
    requires ViewStands(s, drift) && Enabled(s, Dispatch)
    ensures ViewStands(Dispatched(s), drift)
  {
    var rest := s.wire[s.processed..];
    assert rest == [s.wire[s.processed]] + s.wire[s.processed + 1..];
    assert ToCome(Dispatched(s)) == ToCome(s);
  }

  lemma WriteToDrained(s: State, t: State, name: string, drift: Drift)
    requires Drained(s) && Live(s) && ViewStands(s, drift)
    requires t == s.(list := s.list + [D.UpdateName(s.uuid, name)], replied := t.replied)
    ensures ViewStands(t, drift.(written := Some(name)))
  {
    assert ToCome(s) == s.list && ToCome(t) == t.list;
    ShowsWritten(s.list, s.uuid, D.Live(|s.gens| - 1), s.gens[|s.gens| - 1].state.device, drift, name);
  }

  lemma WriteBeforeNews(s: State, t: State, name: string, drift: Drift)
    requires !Drained(s) && Live(s) && ViewStands(s, drift) && forall w | w in s.wire :: OfUuid(w, s.uuid)
    requires t == s.(list := s.list + [D.UpdateName(s.uuid, name)], replied := t.replied)
    ensures ViewStands(t, drift)
  {
    var rest := s.wire[s.processed..];
    assert forall w | w in rest :: w in s.wire;
    WrittenOver(s.list, s.uuid, name, rest);
    SameShows(ToCome(s), ToCome(t), s.uuid, D.Live(|s.gens| - 1), s.gens[|s.gens| - 1].state.device, drift);
  }

  lemma WriteKeepsView(s: State, name: string, drift: Drift)
    requires ChannelStands(s) && ViewStands(s, drift) && Enabled(s, WriteName(name))
    ensures ViewStands(Apply(s, WriteName(name)), Note(drift, s, WriteName(name)))
  {
    var t := Apply(s, WriteName(name));
    if Live(s) {
      if Drained(s) {
        WriteToDrained(s, t, name, drift);
      } else {
        WriteBeforeNews(s, t, name, drift);
      }
    }
  }

  /** Nothing is sent, processed or written, and a handler that is live was live before with the same record. */
  predicate Silent(s: State, t: State) {
    && t.uuid == s.uuid && t.wire == s.wire && t.processed == s.processed && t.list == s.list
    && (Live(t) ==> Live(s) && |t.gens| == |s.gens| && t.gens[|t.gens| - 1].state == s.gens[|s.gens| - 1].state)
  }

  lemma AttachesAreSilent(s: State, a: Action)
    requires Invariant(s) && Enabled(s, a) && (a.HubAttach? || a.UsbAttach?)
    ensures Silent(s, Apply(s, a))
  {
  }

  lemma PostIsSilent(s: State, g: nat, msg: H.Message)
    ensures Silent(s, Post(s, g, msg))
  {
  }

  lemma PostsAreSilent(s: State, a: Action)
    requires Invariant(s) && Enabled(s, a) && (a.HubEvents? || a.HubDetach? || a.UsbDetach? || a.Request?)
    ensures Silent(s, Apply(s, a))
  {
    match a {
      case HubEvents(vm, protocol) => PostIsSilent(s, s.lock.announced, H.AddEventsDevice(vm, protocol));
      case HubDetach(_) => PostIsSilent(s, if s.handle.Some? then s.handle.value else 0, H.RemoveEventsDevice);
      case UsbDetach => PostIsSilent(s, if s.handle.Some? then s.handle.value else 0, H.RemoveControlDevice);
      case Request(g, msg) => PostIsSilent(s, g, msg);
    }
  }

  lemma EndingsAreSilent(s: State, a: Action)
    requires Invariant(s) && Enabled(s, a) && (a.Finish? || a.CleanUp?)
    ensures Silent(s, Apply(s, a))
  {
  }

  /** Everything but announcing, turning, dispatching and writing. */
  lemma OthersAreSilent(s: State, a: Action)
    requires Invariant(s) && Enabled(s, a)
    requires !a.HubConnect? && !a.UsbConnect? && !a.Turn? && !a.Dispatch? && !a.WriteName?
    ensures Silent(s, Apply(s, a))
  {
    if a.HubAttach? || a.UsbAttach? {
      AttachesAreSilent(s, a);
    } else if a.Finish? || a.CleanUp? {
      EndingsAreSilent(s, a);
    } else {
      PostsAreSilent(s, a);
    }
  }

  lemma SilenceKeepsView(s: State, t: State, drift: Drift)
    requires ViewStands(s, drift) && Silent(s, t)
    ensures ViewStands(t, drift)
  {
    if Live(t) && s.processed <= |s.wire| {
      assert ToCome(t) == ToCome(s);
    }
  }

  lemma ApplyKeepsView(s: State, a: Action, drift: Drift)
    requires Invariant(s) && ViewStands(s, drift) && Enabled(s, a)
    ensures ViewStands(Apply(s, a), Note(drift, s, a))
  {
    match a {
      case HubConnect => AnnouncingKeepsView(s, s.lock.recorded, Apply(s, a));
      case UsbConnect => AnnouncingKeepsView(s, s.scanning.value, Apply(s, a));
      case Turn(g, step) => TurnKeepsView(s, g, step, drift);
      case Dispatch => DispatchKeepsView(s, drift);
      case WriteName(name) => WriteKeepsView(s, name, drift);
      case _ =>
        OthersAreSilent(s, a);
        SilenceKeepsView(s, Apply(s, a), drift);
    }
  }

  lemma {:induction false} RunKeepsView(s: State, actions: seq<Action>, drift: Drift)
    requires Invariant(s) && ViewStands(s, drift) && CanRun(s, actions)
    ensures ViewStands(Run(s, actions), Noted(drift, s, actions))
    decreases actions
  {
    if actions != [] {
      ApplyKeepsInvariant(s, actions[0]);
      ApplyKeepsView(s, actions[0], drift);
      RunKeepsView(Apply(s, actions[0]), actions[1..], Note(drift, s, actions[0]));
    }
  }

  lemma ViewOfRun(s: State, actions: seq<Action>)
    requires Initial(s) && CanRun(s, actions)
    ensures Invariant(Run(s, actions)) && Run(s, actions).uuid == s.uuid
    ensures ViewStands(Run(s, actions), Noted(NONE, s, actions))
  {
    InitiallyTrue(s);
    RunKeepsInvariant(s, actions);
    RunKeepsView(s, actions, NONE);
  }

  lemma DrainedView(t: State, drift: Drift, history: seq<D.Message>)
    requires Invariant(t) && ViewStands(t, drift) && D.Only(history, t.uuid) == t.list && Drained(t) && Live(t)
    ensures Shows(history, t.uuid, D.Live(|t.gens| - 1), t.gens[|t.gens| - 1].state.device, drift)
  {
    assert ToCome(t) == t.list;
    D.DevicesAreIndependent(history, t.uuid);
  }

  /** The record held is the one shown if and only if nothing has made them drift apart. */
  predicate NoDrift(drift: Drift, held: Device) {
    !drift.overtaken && (drift.written.Some? ==> NameBytes(drift.written.value) == held.name)
  }

  /**
   * In every run, once the channel is drained, the list leads to the live handler and shows exactly the record
   * it holds if and only if the announcement was not overtaken, or a full update has followed, and the last
   * name written is not some other name than the handler's. `history` is everything the list took in.
   */
  lemma ListAgreesExactly(s: State, actions: seq<Action>, history: seq<D.Message>)
    requires Initial(s) && CanRun(s, actions) && D.Only(history, s.uuid) == Run(s, actions).list
    requires Drained(Run(s, actions)) && Live(Run(s, actions))
    ensures var t := Run(s, actions); var held := t.gens[|t.gens| - 1].state.device; var m := D.DevicesAfter(history);
            && s.uuid in m && m[s.uuid].sender == D.Live(|t.gens| - 1)
            && (m[s.uuid].device == held <==> NoDrift(Noted(NONE, s, actions), held))
  {
    ViewOfRun(s, actions);
    DrainedView(Run(s, actions), Noted(NONE, s, actions), history);
  }

  // ---- Runs without drift ----

  /**
   * No announcement is overtaken, and renames do not overlap: a request writes its name before the next name
   * is accepted and before a next handler is started.
   */
  predicate Orderly(s: State, a: Action)
    requires Enabled(s, a)
  {
    match a
    case UsbConnect => s.gens[s.scanning.value].state.device == s.gens[s.scanning.value].start
    case Turn(g, step) => Accepted(s.gens[g].state, step).Some? ==> s.replied == multiset{}
    case HubAttach(_, _, _) => Alive(s) || s.replied == multiset{}
    case UsbAttach(_, _, _) => Alive(s) || s.replied == multiset{}
    case _ => true
  }

  ghost predicate AllOrderly(s: State, actions: seq<Action>)
    requires CanRun(s, actions)
    decreases actions
  {
    actions != [] ==> Orderly(s, actions[0]) && AllOrderly(Apply(s, actions[0]), actions[1..])
  }

  predicate AllNamed(replied: multiset<string>, held: Device) {
    forall name | name in replied :: NameBytes(name) == held.name
  }

  /** Whatever is still to be written is the name that the latest handler holds. */
  predicate WritesAreCurrent(s: State) {
    if s.gens == [] then s.replied == multiset{} else AllNamed(s.replied, s.gens[|s.gens| - 1].state.device)
  }

  lemma WrittenAreNamed(replied: multiset<string>, held: Device, name: string, drift: Drift)
    requires AllNamed(replied, held) && name in replied
    ensures AllNamed(replied - multiset{name}, held)
    ensures NoDrift(drift, held) ==> NoDrift(drift.(written := Some(name)), held)
  {
  }

  ghost predicate StandsStill(s: State, drift: Drift) {
    && WritesAreCurrent(s)
    && (Live(s) ==> NoDrift(drift, s.gens[|s.gens| - 1].state.device))
  }

  /** A name changes only by being accepted. */
  lemma NameIsAccepted(st: H.State, step: H.Step)
    requires H.Invariant(st) && H.Enabled(st, step)
    ensures var o := H.Apply(st, step);
            o.state.device.name ==
            if Accepted(st, step).Some? then NameBytes(Accepted(st, step).value) else st.device.name
    ensures Accepted(st, step).Some? ==> !H.Apply(st, step).ended
  {
    H.RecordHasOneSource(st, step);
    H.ApplyKeepsInvariant(st, step);
    var o := H.Apply(st, step);
    if o.sent != [] {
      assert o.sent[0] in o.sent;
    }
    if !o.ended {
      StepPublishesChanges(st, step);
    }
  }

  /** One turn, apart from the handler's surroundings. */
  lemma TurnWithoutDrift(gen: Generation, g: nat, step: H.Step, uuid: Uuid, replied: multiset<string>, drift: Drift)
    requires Sound(gen, uuid) && gen.phase == Running && H.Enabled(gen.state, step)
    requires AllNamed(replied, gen.state.device) && (Accepted(gen.state, step).Some? ==> replied == multiset{})
    ensures var o := H.Apply(gen.state, step); var name := Accepted(gen.state, step);
            && AllNamed(if name.Some? then replied + multiset{name.value} else replied, o.state.device)
            && (NoDrift(drift, gen.state.device) && !o.ended ==> NoDrift(AfterNews(drift, News(g, o)), o.state.device))
  {
    NewsShape(gen, g, step, uuid);
    NameIsAccepted(gen.state, step);
  }

  /** What a turn of the latest handler leaves behind. */
  lemma TurnLeaves(s: State, g: nat, step: H.Step)
    requires Enabled(s, Turn(g, step)) && Latest(s, g)
    ensures var t := Turned(s, g, step); var o := H.Apply(s.gens[g].state, step);
            var name := Accepted(s.gens[g].state, step);
            && Latest(t, g) && t.gens[g].state == o.state
            && t.replied == (if name.Some? then s.replied + multiset{name.value} else s.replied)
            && (Live(t) <==> Live(s) && !o.ended)
  {
  }

  lemma TurnStandsStill(s: State, g: nat, step: H.Step, drift: Drift)
    requires Latest(s, g) && Sound(s.gens[g], s.uuid) && StandsStill(s, drift)
    requires Enabled(s, Turn(g, step)) && Orderly(s, Turn(g, step))
    ensures StandsStill(Turned(s, g, step), Note(drift, s, Turn(g, step)))
  {
    TurnLeaves(s, g, step);
    TurnWithoutDrift(s.gens[g], g, step, s.uuid, s.replied, drift);
  }

  lemma WriteStandsStill(s: State, t: State, name: string, drift: Drift)
    requires StandsStill(s, drift) && name in s.replied
    requires t == s.(replied := s.replied - multiset{name}, list := t.list)
    ensures StandsStill(t, drift) && StandsStill(t, drift.(written := Some(name)))
  {
    assert s.gens != [] && t.gens == s.gens && (Live(t) <==> Live(s));
    WrittenAreNamed(s.replied, s.gens[|s.gens| - 1].state.device, name, drift);
  }

  lemma ConnectStandsStill(s: State, g: nat, t: State)
    requires WritesAreCurrent(s) && Latest(s, g) && s.gens[g].state.device == s.gens[g].start
    requires t.gens == s.gens && t.replied == s.replied
    ensures StandsStill(t, AtAnnouncement(s.gens[g]))
  {
  }

  /** A new handler is started only when no name is still to be written. */
  lemma OthersStandStill(s: State, t: State, drift: Drift)
    requires StandsStill(s, drift) && t.replied == s.replied && |t.gens| >= |s.gens|
    requires forall g | 0 <= g < |s.gens| :: t.gens[g].state == s.gens[g].state
    requires |t.gens| > |s.gens| ==> s.replied == multiset{}
    requires Live(t) ==> Live(s) && |t.gens| == |s.gens|
    ensures StandsStill(t, drift)
  {
  }

  lemma SameNames(s: State, a: Action)
    requires Enabled(s, a) && !a.Turn? && !a.WriteName?
    ensures Apply(s, a).replied == s.replied
    ensures |Apply(s, a).gens| >= |s.gens|
    ensures forall g | 0 <= g < |s.gens| :: Apply(s, a).gens[g].state == s.gens[g].state
    ensures |Apply(s, a).gens| > |s.gens| ==> (a.HubAttach? || a.UsbAttach?) && !Alive(s)
  {
  }

  lemma DispatchStandsStill(s: State, drift: Drift)
    requires StandsStill(s, drift) && s.processed < |s.wire|
    ensures StandsStill(Dispatched(s), drift)
  {
    OthersStandStill(s, Dispatched(s), drift);
  }

  lemma SilentStepsStandStill(s: State, a: Action, drift: Drift)
    requires Invariant(s) && StandsStill(s, drift) && Enabled(s, a) && Orderly(s, a)
    requires !a.HubConnect? && !a.UsbConnect? && !a.Turn? && !a.Dispatch? && !a.WriteName?
    ensures StandsStill(Apply(s, a), drift)
  {
    OthersAreSilent(s, a);
    SameNames(s, a);
    OthersStandStill(s, Apply(s, a), drift);
  }

  lemma ApplyStandsStill(s: State, a: Action, drift: Drift)
    requires Invariant(s) && StandsStill(s, drift) && Enabled(s, a) && Orderly(s, a)
    ensures StandsStill(Apply(s, a), Note(drift, s, a))
  {
    match a {
      case Turn(g, step) =>
        assert Latest(s, g) && Sound(s.gens[g], s.uuid);
        TurnStandsStill(s, g, step, drift);
      case WriteName(name) => WriteStandsStill(s, Apply(s, a), name, drift);
      case HubConnect => ConnectStandsStill(s, s.lock.recorded, Apply(s, a));
      case UsbConnect => ConnectStandsStill(s, s.scanning.value, Apply(s, a));
      case Dispatch => DispatchStandsStill(s, drift);
      case _ => SilentStepsStandStill(s, a, drift);
    }
  }

  lemma {:induction false} OrderlyRunStandsStill(s: State, actions: seq<Action>, drift: Drift)
    requires Invariant(s) && StandsStill(s, drift) && CanRun(s, actions) && AllOrderly(s, actions)
    ensures StandsStill(Run(s, actions), Noted(drift, s, actions))
    decreases actions
  {
    if actions != [] {
      ApplyKeepsInvariant(s, actions[0]);
      ApplyStandsStill(s, actions[0], drift);
      OrderlyRunStandsStill(Apply(s, actions[0]), actions[1..], Note(drift, s, actions[0]));
    }
  }

  /**
   * In every orderly run, once the channel is drained, the list shows the live handler with exactly the record
   * it holds and its command channel, and does not show the device when no handler is live.
   */
  lemma ListShowsHandler(s: State, actions: seq<Action>, history: seq<D.Message>)
    requires Initial(s) && CanRun(s, actions) && AllOrderly(s, actions)
    requires D.Only(history, s.uuid) == Run(s, actions).list && Drained(Run(s, actions))
    ensures var t := Run(s, actions); var m := D.DevicesAfter(history);
            if Live(t) then
              s.uuid in m && m[s.uuid] == D.Entry(t.gens[|t.gens| - 1].state.device, D.Live(|t.gens| - 1))
            else s.uuid !in m
  {
    InitiallyTrue(s);
    OrderlyRunStandsStill(s, actions, NONE);
    if Live(Run(s, actions)) {
      ListAgreesExactly(s, actions, history);
    } else {
      DrainedListShowsLiveHandler(s, actions, history);
    }
  }

  // ---- Catching up ----

  lemma {:induction false} PhasesOnlyAdvance(s: State, actions: seq<Action>, g: nat)
    requires CanRun(s, actions) && g < |s.gens|
    ensures g < |Run(s, actions).gens| && (IsRunning(Run(s, actions), g) ==> IsRunning(s, g))
    ensures |s.gens| <= |Run(s, actions).gens|
    decreases actions
  {
    if actions != [] {
      PhaseOnlyAdvances(s, actions[0], g);
      PhasesOnlyAdvance(Apply(s, actions[0]), actions[1..], g);
    }
  }

  lemma PhaseOnlyAdvances(s: State, a: Action, g: nat)
    requires Enabled(s, a) && g < |s.gens|
    ensures g < |Apply(s, a).gens| && |s.gens| <= |Apply(s, a).gens|
    ensures IsRunning(Apply(s, a), g) ==> IsRunning(s, g)
  {
  }

  predicate HasUpdate(wire: seq<Wire>) {
    exists w | w in wire :: w.Update?
  }

  /** While one handler stays live nothing is announced. */
  lemma StaysLive(s: State, a: Action)
    requires Invariant(s) && Enabled(s, a) && Live(s)
    ensures !a.HubConnect? && !a.UsbConnect?
    ensures |Apply(s, a).gens| == |s.gens| && IsRunning(Apply(s, a), |s.gens| - 1) ==> Live(Apply(s, a))
  {
  }

  /** A full update is what ends being overtaken. */
  lemma NewsCatchesUp(gen: Generation, g: nat, step: H.Step, uuid: Uuid, drift: Drift)
    requires Sound(gen, uuid) && gen.phase == Running && H.Enabled(gen.state, step)
    ensures var news := News(g, H.Apply(gen.state, step));
            AfterNews(drift, news).overtaken <==> drift.overtaken && !HasUpdate(news)
  {
    NewsShape(gen, g, step, uuid);
    var news := News(g, H.Apply(gen.state, step));
    assert news != [] ==> news[0] in news;
  }

  lemma OneStepCatchesUp(s: State, a: Action, drift: Drift)
    requires Invariant(s) && Enabled(s, a) && !a.HubConnect? && !a.UsbConnect?
    ensures s.wire <= Apply(s, a).wire
    ensures Note(drift, s, a).overtaken <==> drift.overtaken && !HasUpdate(Apply(s, a).wire[|s.wire|..])
  {
    if a.Turn? {
      assert Sound(s.gens[a.turning], s.uuid);
      NewsCatchesUp(s.gens[a.turning], a.turning, a.step, s.uuid, drift);
      assert Apply(s, a).wire[|s.wire|..] == News(a.turning, H.Apply(s.gens[a.turning].state, a.step));
    } else {
      WireStays(s, a);
      assert Apply(s, a).wire[|s.wire|..] == [];
    }
  }

  lemma WireStays(s: State, a: Action)
    requires Enabled(s, a) && !a.HubConnect? && !a.UsbConnect? && !a.Turn?
    ensures Apply(s, a).wire == s.wire
  {
  }

  /** A handler live now and at a later end, with no other started by then, is live after the next step. */
  lemma LiveBetween(s: State, a: Action, end: State)
    requires Invariant(s) && Enabled(s, a) && Live(s) && Live(end) && |end.gens| == |s.gens|
    requires |Apply(s, a).gens| <= |end.gens|
    requires IsRunning(end, |s.gens| - 1) ==> IsRunning(Apply(s, a), |s.gens| - 1)
    ensures Live(Apply(s, a)) && |Apply(s, a).gens| == |s.gens| && !a.HubConnect? && !a.UsbConnect?
  {
    PhaseOnlyAdvances(s, a, |s.gens| - 1);
    StaysLive(s, a);
  }

  lemma CatchesUpOnce(s: State, a: Action, rest: seq<Action>, drift: Drift)
    requires Invariant(s) && Enabled(s, a) && Live(s) && CanRun(Apply(s, a), rest) && Live(Run(Apply(s, a), rest))
    requires |Run(Apply(s, a), rest).gens| == |s.gens|
    ensures Invariant(Apply(s, a)) && Live(Apply(s, a)) && |Apply(s, a).gens| == |s.gens|
    ensures s.wire <= Apply(s, a).wire
    ensures Note(drift, s, a).overtaken <==> drift.overtaken && !HasUpdate(Apply(s, a).wire[|s.wire|..])
  {
    PhaseOnlyAdvances(s, a, |s.gens| - 1);
    PhasesOnlyAdvance(Apply(s, a), rest, |s.gens| - 1);
    LiveBetween(s, a, Run(Apply(s, a), rest));
    ApplyKeepsInvariant(s, a);
    OneStepCatchesUp(s, a, drift);
  }

  /** What became of an overtaken announcement between two points of the channel. */
  predicate CaughtUp(from: seq<Wire>, to: seq<Wire>, before: Drift, after: Drift) {
    from <= to && (after.overtaken <==> before.overtaken && !HasUpdate(to[|from|..]))
  }

  /** A list left behind catches up with a handler, as long as that handler lives, exactly by a full update. */
  lemma {:induction false} CatchesUpExactly(s: State, actions: seq<Action>, drift: Drift)
    requires Invariant(s) && CanRun(s, actions) && Live(s) && Live(Run(s, actions))
    requires |Run(s, actions).gens| == |s.gens|
    ensures CaughtUp(s.wire, Run(s, actions).wire, drift, Noted(drift, s, actions))
    decreases actions
  {
    if actions == [] {
      assert s.wire[|s.wire|..] == [];
    } else {
      var t, rest := Apply(s, actions[0]), actions[1..];
      CatchesUpOnce(s, actions[0], rest, drift);
      CatchesUpExactly(t, rest, Note(drift, s, actions[0]));
      UpdatesJoin(s.wire, t.wire, Run(t, rest).wire);
    }
  }

  lemma UpdatesJoin(a: seq<Wire>, b: seq<Wire>, c: seq<Wire>)
    requires a <= b <= c
    ensures a <= c && (HasUpdate(c[|a|..]) <==> HasUpdate(b[|a|..]) || HasUpdate(c[|b|..]))
  {
    assert c[|a|..] == b[|a|..] + c[|b|..];
    assert forall w :: w in c[|a|..] <==> w in b[|a|..] || w in c[|b|..];
  }
}
