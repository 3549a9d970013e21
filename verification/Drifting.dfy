/** Runs in which the list and the handler do drift apart: the conditions of the agreement cannot be dropped. */
module Drifting {
  import opened Common
  import opened DeviceWire
  import opened Generations
  import D = Dispatcher
  import H = DeviceHandler

  // ---- Two renames that cross ----

  /** The live handler, with what waits for it, what waits on the channel and what the list has taken in. */
  predicate At(s: State, g: nat, inbox: seq<H.Message>, replied: multiset<string>, waiting: seq<Wire>,
               list: seq<D.Message>, name: NameBuffer)
  {
    && Live(s) && Latest(s, g) && g in s.reachable
    && s.gens[g].inbox == inbox && s.replied == replied
    && s.processed <= |s.wire| && s.wire[s.processed..] == waiting && s.list == list
    && (s.gens[g].state.control.Some? || s.gens[g].state.events.Some?)
    && s.gens[g].state.device.name == name
  }

  function Take(name: string, w: H.World): H.Step {
    H.Receive(H.SetDeviceName(name), w)
  }

  lemma AtRequest(s: State, g: nat, inbox: seq<H.Message>, list: seq<D.Message>, held: NameBuffer, name: string)
    requires At(s, g, inbox, multiset{}, [], list, held)
    ensures var a := Request(g, H.SetDeviceName(name));
            Enabled(s, a) && At(Apply(s, a), g, inbox + [H.SetDeviceName(name)], multiset{}, [], list, held)
  {
  }

  lemma AtTake(s: State, g: nat, name: string, rest: seq<H.Message>, replied: multiset<string>, waiting: seq<Wire>,
               list: seq<D.Message>, held: NameBuffer, w: H.World)
    requires At(s, g, [H.SetDeviceName(name)] + rest, replied, waiting, list, held) && w.accepted
    ensures var a := Turn(g, Take(name, w));
            && Enabled(s, a)
            && At(Apply(s, a), g, rest, replied + multiset{name}, waiting + [Rename(g, name)], list, NameBytes(name))
  {
    var step := Take(name, w);
    var o := H.Apply(s.gens[g].state, step);
    assert News(g, o) == [Rename(g, name)];
    var t := Turned(s, g, step);
    assert t.wire == s.wire + [Rename(g, name)];
    assert t.wire[t.processed..] == s.wire[s.processed..] + [Rename(g, name)];
    assert ([H.SetDeviceName(name)] + rest)[1..] == rest;
  }

  lemma AtDispatch(s: State, g: nat, replied: multiset<string>, name: string, rest: seq<Wire>,
                   list: seq<D.Message>, held: NameBuffer)
    requires At(s, g, [], replied, [Rename(g, name)] + rest, list, held)
    ensures Enabled(s, Dispatch)
    ensures At(Apply(s, Dispatch), g, [], replied, rest, list + [D.UpdateName(s.uuid, name)], held)
  {
    assert s.wire[s.processed] == s.wire[s.processed..][0];
    assert s.wire[s.processed + 1..] == s.wire[s.processed..][1..];
  }

  lemma AtWrite(s: State, g: nat, replied: multiset<string>, name: string, list: seq<D.Message>, held: NameBuffer)
    requires At(s, g, [], replied, [], list, held) && name in replied
    ensures Enabled(s, WriteName(name))
    ensures At(Apply(s, WriteName(name)), g, [], replied - multiset{name}, [],
               list + [D.UpdateName(s.uuid, name)], held)
  {
  }

  lemma BothRequested(s: State, g: nat, list: seq<D.Message>, held: NameBuffer, a: string, b: string)
    requires At(s, g, [], multiset{}, [], list, held)
    ensures var actions := [Request(g, H.SetDeviceName(a))] + [Request(g, H.SetDeviceName(b))];
            && CanRun(s, actions)
            && At(Run(s, actions), g, [H.SetDeviceName(a)] + [H.SetDeviceName(b)], multiset{}, [], list, held)
  {
    AtRequest(s, g, [], list, held, a);
    var s1 := Apply(s, Request(g, H.SetDeviceName(a)));
    assert [] + [H.SetDeviceName(a)] == [H.SetDeviceName(a)];
    AtRequest(s1, g, [H.SetDeviceName(a)], list, held, b);
    RunOne(s1, Request(g, H.SetDeviceName(b)));
    RunNext(s, Request(g, H.SetDeviceName(a)), [Request(g, H.SetDeviceName(b))]);
  }

  lemma BothTaken(s: State, g: nat, list: seq<D.Message>, held: NameBuffer, a: string, b: string, w: H.World)
    requires At(s, g, [H.SetDeviceName(a)] + [H.SetDeviceName(b)], multiset{}, [], list, held) && w.accepted
    ensures var actions := [Turn(g, Take(a, w))] + [Turn(g, Take(b, w))];
            && CanRun(s, actions)
            && At(Run(s, actions), g, [], multiset{a, b}, [Rename(g, a), Rename(g, b)], list, NameBytes(b))
  {
    AtTake(s, g, a, [H.SetDeviceName(b)], multiset{}, [], list, held, w);
    var s1 := Apply(s, Turn(g, Take(a, w)));
    assert [] + [Rename(g, a)] == [Rename(g, a)] && [H.SetDeviceName(b)] == [H.SetDeviceName(b)] + [];
    AtTake(s1, g, b, [], multiset{a}, [Rename(g, a)], list, NameBytes(a), w);
    assert [Rename(g, a)] + [Rename(g, b)] == [Rename(g, a), Rename(g, b)];
    RunOne(s1, Turn(g, Take(b, w)));
    RunNext(s, Turn(g, Take(a, w)), [Turn(g, Take(b, w))]);
  }

  function Accepting(g: nat, a: string, b: string, w: H.World): seq<Action> {
    ([Request(g, H.SetDeviceName(a))] + [Request(g, H.SetDeviceName(b))]) +
    ([Turn(g, Take(a, w))] + [Turn(g, Take(b, w))])
  }

  lemma BothAccepted(s: State, g: nat, list: seq<D.Message>, held: NameBuffer, a: string, b: string, w: H.World)
    requires At(s, g, [], multiset{}, [], list, held) && w.accepted
    ensures CanRun(s, Accepting(g, a, b, w))
    ensures At(Run(s, Accepting(g, a, b, w)), g, [], multiset{a, b}, [Rename(g, a), Rename(g, b)], list, NameBytes(b))
  {
    var requested := [Request(g, H.SetDeviceName(a))] + [Request(g, H.SetDeviceName(b))];
    BothRequested(s, g, list, held, a, b);
    BothTaken(Run(s, requested), g, list, held, a, b, w);
    RunConcat(s, requested, [Turn(g, Take(a, w))] + [Turn(g, Take(b, w))]);
  }

  lemma BothDispatched(s: State, g: nat, replied: multiset<string>, list: seq<D.Message>, held: NameBuffer,
                       a: string, b: string)
    requires At(s, g, [], replied, [Rename(g, a), Rename(g, b)], list, held)
    ensures CanRun(s, [Dispatch] + [Dispatch])
    ensures At(Run(s, [Dispatch] + [Dispatch]), g, [], replied, [],
               list + [D.UpdateName(s.uuid, a)] + [D.UpdateName(s.uuid, b)], held)
  {
    assert [Rename(g, a), Rename(g, b)] == [Rename(g, a)] + [Rename(g, b)];
    AtDispatch(s, g, replied, a, [Rename(g, b)], list, held);
    var s1 := Apply(s, Dispatch);
    assert [Rename(g, b)] == [Rename(g, b)] + [];
    AtDispatch(s1, g, replied, b, [], list + [D.UpdateName(s.uuid, a)], held);
    RunOne(s1, Dispatch);
    RunNext(s, Dispatch, [Dispatch]);
  }

  lemma BothWritten(s: State, g: nat, list: seq<D.Message>, held: NameBuffer, a: string, b: string)
    requires At(s, g, [], multiset{a, b}, [], list, held)
    ensures CanRun(s, [WriteName(b)] + [WriteName(a)])
    ensures At(Run(s, [WriteName(b)] + [WriteName(a)]), g, [], multiset{}, [],
               list + [D.UpdateName(s.uuid, b)] + [D.UpdateName(s.uuid, a)], held)
  {
    AtWrite(s, g, multiset{a, b}, b, list, held);
    var s1 := Apply(s, WriteName(b));
    assert multiset{a, b} - multiset{b} == multiset{a} && multiset{a} - multiset{a} == multiset{};
    AtWrite(s1, g, multiset{a}, a, list + [D.UpdateName(s.uuid, b)], held);
    RunOne(s1, WriteName(a));
    RunNext(s, WriteName(b), [WriteName(a)]);
  }

  /** Requests for `a` and `b` are accepted in this order and write their names in the other. */
  function Crossing(g: nat, a: string, b: string, w: H.World): seq<Action> {
    Accepting(g, a, b, w) + ([Dispatch] + [Dispatch]) + ([WriteName(b)] + [WriteName(a)])
  }

  lemma CrossingRuns(s: State, g: nat, list: seq<D.Message>, held: NameBuffer, a: string, b: string, w: H.World)
    requires At(s, g, [], multiset{}, [], list, held) && w.accepted
    ensures CanRun(s, Crossing(g, a, b, w))
    ensures exists list' ::
              At(Run(s, Crossing(g, a, b, w)), g, [], multiset{}, [], list' + [D.UpdateName(s.uuid, a)], NameBytes(b))
  {
    BothAccepted(s, g, list, held, a, b, w);
    var s1 := Run(s, Accepting(g, a, b, w));
    SameUuids(s, Accepting(g, a, b, w));
    BothDispatched(s1, g, multiset{a, b}, list, NameBytes(b), a, b);
    RunConcat(s, Accepting(g, a, b, w), [Dispatch] + [Dispatch]);
    var s2 := Run(s, Accepting(g, a, b, w) + ([Dispatch] + [Dispatch]));
    SameUuids(s1, [Dispatch] + [Dispatch]);
    var list' := list + [D.UpdateName(s.uuid, a)] + [D.UpdateName(s.uuid, b)];
    BothWritten(s2, g, list', NameBytes(b), a, b);
    RunConcat(s, Accepting(g, a, b, w) + ([Dispatch] + [Dispatch]), [WriteName(b)] + [WriteName(a)]);
  }

  lemma {:induction false} SameUuids(s: State, actions: seq<Action>)
    requires CanRun(s, actions)
    ensures Run(s, actions).uuid == s.uuid
    decreases actions
  {
    if actions != [] {
      SameUuid(s, actions[0]);
      SameUuids(Apply(s, actions[0]), actions[1..]);
    }
  }

  /**
   * Two renames that cross: whatever led to a live handler with nothing under way, the channel is drained again,
   * no request is pending, the handler holds the name accepted last and the list shows the other.
   */
  lemma CrossingRenamesDisagree(s: State, actions: seq<Action>, g: nat, a: string, b: string, w: H.World)
    requires Initial(s) && CanRun(s, actions) && w.accepted && g < |Run(s, actions).gens|
    requires At(Run(s, actions), g, [], multiset{}, [], Run(s, actions).list, Run(s, actions).gens[g].state.device.name)
    ensures CanRun(s, actions + Crossing(g, a, b, w))
    ensures var t := Run(s, actions + Crossing(g, a, b, w)); var m := D.DevicesAfter(t.list);
            && Drained(t) && Live(t) && Latest(t, g) && t.replied == multiset{}
            && t.gens[g].state.device.name == NameBytes(b)
            && s.uuid in m && m[s.uuid].device.name == NameBytes(a)
  {
    var r := Run(s, actions);
    InitiallyTrue(s);
    SameUuids(s, actions);
    CrossingRuns(r, g, r.list, r.gens[g].state.device.name, a, b, w);
    RunConcat(s, actions, Crossing(g, a, b, w));
    RunKeepsInvariant(s, actions + Crossing(g, a, b, w));
    var t := Run(s, actions + Crossing(g, a, b, w));
    var list' :| At(t, g, [], multiset{}, [], list' + [D.UpdateName(s.uuid, a)], NameBytes(b));
    assert t.list == list' + [D.UpdateName(t.uuid, a)];
    assert |t.wire[t.processed..]| == 0;
    LastWriteShows(t, a);
  }

  /** The scan starts and announces a handler, and nothing else happens: from here the renames above can cross. */
  lemma RenamesCanCross(s: State, start: H.Start, o: Origin)
    requires Initial(s) && start.DirectBle?
    ensures var listed := [UsbAttach(start, o, false)] + ([UsbConnect] + [Dispatch]);
            && CanRun(s, listed)
            && var t := Run(s, listed);
            |t.gens| == 1 && At(t, 0, [], multiset{}, [], t.list, t.gens[0].state.device.name)
  {
    var s1 := Apply(s, UsbAttach(start, o, false));
    var s2 := Apply(s1, UsbConnect);
    assert s2.wire == [Announce(0, s1.gens[0].start)];
    RunOne(s2, Dispatch);
    RunNext(s1, UsbConnect, [Dispatch]);
    RunNext(s, UsbAttach(start, o, false), [UsbConnect] + [Dispatch]);
  }

  // ---- A rename that outlives its handler ----

  /** One handler started by the scan, holding its control device, with nothing else under way. */
  predicate Scanned(s: State, inbox: seq<H.Message>, replied: multiset<string>, waiting: seq<Wire>) {
    && s.lock == Free && s.scanning == None && s.handle == Some(0) && |s.gens| == 1 && IsRunning(s, 0)
    && s.gens[0].state.control.Some? && s.gens[0].state.events.None?
    && s.gens[0].inbox == inbox && s.replied == replied && 0 in s.reachable
    && s.processed <= |s.wire| && s.wire[s.processed..] == waiting
  }

  lemma ScanStarts(s: State, start: H.Start, o: Origin)
    requires Initial(s) && start.DirectBle?
    ensures var actions := [UsbAttach(start, o, false)] + ([UsbConnect] + [Dispatch]);
            CanRun(s, actions) && Scanned(Run(s, actions), [], multiset{}, [])
  {
    RenamesCanCross(s, start, o);
    var s1 := Apply(s, UsbAttach(start, o, false));
    var s2 := Apply(s1, UsbConnect);
    RunOne(s2, Dispatch);
    RunNext(s1, UsbConnect, [Dispatch]);
    RunNext(s, UsbAttach(start, o, false), [UsbConnect] + [Dispatch]);
  }

  /** A name is requested, accepted and processed, and not yet written by the request. */
  function Renaming(name: string, w: H.World): seq<Action> {
    [Request(0, H.SetDeviceName(name))] + ([Turn(0, Take(name, w))] + [Dispatch])
  }

  lemma ScannedTakes(s: State, name: string, w: H.World)
    requires Scanned(s, [H.SetDeviceName(name)], multiset{}, []) && w.accepted
    ensures Enabled(s, Turn(0, Take(name, w)))
    ensures Scanned(Apply(s, Turn(0, Take(name, w))), [], multiset{name}, [Rename(0, name)])
  {
    var o := H.Apply(s.gens[0].state, Take(name, w));
    var t := Turned(s, 0, Take(name, w));
    assert News(0, o) == [Rename(0, name)];
    assert t.wire[t.processed..] == s.wire[s.processed..] + [Rename(0, name)];
  }

  lemma ScannedRenames(s: State, name: string, w: H.World)
    requires Scanned(s, [], multiset{}, []) && w.accepted
    ensures CanRun(s, Renaming(name, w)) && Scanned(Run(s, Renaming(name, w)), [], multiset{name}, [])
  {
    var s1 := Apply(s, Request(0, H.SetDeviceName(name)));
    assert s1.gens[0].inbox == [H.SetDeviceName(name)];
    ScannedTakes(s1, name, w);
    var s2 := Apply(s1, Turn(0, Take(name, w)));
    assert s2.wire[s2.processed..][0] == Rename(0, name);
    assert s2.wire[s2.processed + 1..] == s2.wire[s2.processed..][1..];
    RunOne(s2, Dispatch);
    RunNext(s1, Turn(0, Take(name, w)), [Dispatch]);
    RunNext(s, Request(0, H.SetDeviceName(name)), [Turn(0, Take(name, w))] + [Dispatch]);
  }

  /** The device is unplugged: its handler says goodbye and finishes. */
  function Unplugging(w: H.World): seq<Action> {
    [UsbDetach] + ([Turn(0, H.Receive(H.RemoveControlDevice, w))] + ([Dispatch] + [Finish(0)]))
  }

  /** Only a finished handler is left, and a name still to be written. */
  predicate Over(s: State, replied: multiset<string>) {
    && s.lock == Free && s.scanning == None && s.handle == Some(0) && |s.gens| == 1 && s.gens[0].phase == Finished
    && s.replied == replied && Drained(s)
  }

  lemma ScannedLeaves(s: State, replied: multiset<string>, w: H.World)
    requires Scanned(s, [H.RemoveControlDevice], replied, [])
    ensures var a := Turn(0, H.Receive(H.RemoveControlDevice, w)); var t := Apply(s, a);
            && Enabled(s, a) && t == s.(gens := t.gens, wire := t.wire)
            && |t.gens| == 1 && t.gens[0].phase == Leaving && |t.wire| == |s.wire| + 1
  {
    var o := H.Apply(s.gens[0].state, H.Receive(H.RemoveControlDevice, w));
    assert News(0, o) == [Goodbye(0, o.state.device)];
  }

  lemma ScannedUnplugs(s: State, replied: multiset<string>, w: H.World)
    requires Scanned(s, [], replied, [])
    ensures CanRun(s, Unplugging(w)) && Over(Run(s, Unplugging(w)), replied)
  {
    var s1 := Apply(s, UsbDetach);
    assert s1.gens[0].inbox == [H.RemoveControlDevice];
    ScannedLeaves(s1, replied, w);
    var s2 := Apply(s1, Turn(0, H.Receive(H.RemoveControlDevice, w)));
    assert |s.wire[s.processed..]| == 0;
    var s3 := Apply(s2, Dispatch);
    RunOne(s3, Finish(0));
    RunNext(s2, Dispatch, [Finish(0)]);
    RunNext(s1, Turn(0, H.Receive(H.RemoveControlDevice, w)), [Dispatch] + [Finish(0)]);
    RunNext(s, UsbDetach, [Turn(0, H.Receive(H.RemoveControlDevice, w))] + ([Dispatch] + [Finish(0)]));
  }

  /** The device is plugged in again and announced, and only then does the request write its name. */
  function Replugging(start: H.Start, o: Origin, name: string): seq<Action> {
    [UsbAttach(start, o, false)] + ([UsbConnect] + ([Dispatch] + [WriteName(name)]))
  }

  lemma OverRestarts(s: State, start: H.Start, o: Origin)
    requires Drained(s) && Over(s, s.replied) && start.DirectBle?
    ensures Enabled(s, UsbAttach(start, o, false)) && Enabled(Apply(s, UsbAttach(start, o, false)), UsbConnect)
    ensures var t := Apply(Apply(s, UsbAttach(start, o, false)), UsbConnect);
            && Live(t) && |t.gens| == 2 && t.gens[1].state.device.name == o.name
            && |t.wire| == t.processed + 1 && t.replied == s.replied && t.uuid == s.uuid
  {
  }

  lemma OverReplugs(s: State, start: H.Start, o: Origin, name: string)
    requires Over(s, multiset{name}) && start.DirectBle?
    ensures CanRun(s, Replugging(start, o, name))
    ensures var t := Run(s, Replugging(start, o, name));
            && Drained(t) && Live(t) && |t.gens| == 2 && t.replied == multiset{} && t.uuid == s.uuid
            && t.gens[1].state.device.name == o.name
            && exists list :: t.list == list + [D.UpdateName(s.uuid, name)]
  {
    OverRestarts(s, start, o);
    var s1 := Apply(s, UsbAttach(start, o, false));
    var s2 := Apply(s1, UsbConnect);
    var s3 := Apply(s2, Dispatch);
    var t := Apply(s3, WriteName(name));
    assert t.list == s3.list + [D.UpdateName(s.uuid, name)];
    assert multiset{name} - multiset{name} == multiset{};
    RunOne(s3, WriteName(name));
    RunNext(s2, Dispatch, [WriteName(name)]);
    RunNext(s1, UsbConnect, [Dispatch] + [WriteName(name)]);
    RunNext(s, UsbAttach(start, o, false), [UsbConnect] + ([Dispatch] + [WriteName(name)]));
  }

  function Outliving(start: H.Start, o: Origin, o': Origin, name: string, w: H.World): seq<Action> {
    [UsbAttach(start, o, false)] + ([UsbConnect] + [Dispatch])
    + Renaming(name, w) + Unplugging(w) + Replugging(start, o', name)
  }

  /**
   * A single rename whose request writes late, by UUID, into the entry of the next handler: that handler holds the
   * name it was started with, and the list shows the other, although no two renames overlap.
   */
  lemma RenameOutlivesHandler(s: State, start: H.Start, o: Origin, o': Origin, name: string, w: H.World)
    requires Initial(s) && start.DirectBle? && w.accepted
    ensures CanRun(s, Outliving(start, o, o', name, w))
    ensures var t := Run(s, Outliving(start, o, o', name, w)); var m := D.DevicesAfter(t.list);
            && Drained(t) && Live(t) && |t.gens| == 2 && t.replied == multiset{}
            && t.gens[1].state.device.name == o'.name
            && s.uuid in m && m[s.uuid].device.name == NameBytes(name)
  {
    var a := [UsbAttach(start, o, false)] + ([UsbConnect] + [Dispatch]);
    ScanStarts(s, start, o);
    ScannedRenames(Run(s, a), name, w);
    RunConcat(s, a, Renaming(name, w));
    ScannedUnplugs(Run(s, a + Renaming(name, w)), multiset{name}, w);
    RunConcat(s, a + Renaming(name, w), Unplugging(w));
    OverReplugs(Run(s, a + Renaming(name, w) + Unplugging(w)), start, o', name);
    RunConcat(s, a + Renaming(name, w) + Unplugging(w), Replugging(start, o', name));
    SameUuids(s, a + Renaming(name, w) + Unplugging(w));
    InitiallyTrue(s);
    RunKeepsInvariant(s, Outliving(start, o, o', name, w));
    LastWriteShows(Run(s, Outliving(start, o, o', name, w)), name);
  }

  lemma LastWriteShows(t: State, name: string)
    requires Invariant(t) && Drained(t) && Live(t) && exists list :: t.list == list + [D.UpdateName(t.uuid, name)]
    ensures t.uuid in D.DevicesAfter(t.list) && D.DevicesAfter(t.list)[t.uuid].device.name == NameBytes(name)
  {
    var list :| t.list == list + [D.UpdateName(t.uuid, name)];
    assert t.wire[..t.processed] == t.wire;
    D.OneMore(list, D.UpdateName(t.uuid, name));
  }

  // ---- An announcement that is overtaken ----

  function Attach(vm: nat, o: Origin, w: H.World): H.Step {
    H.Receive(H.AddEventsDevice(vm, o.protocol), w)
  }

  /** A handler started over USB in BLE mode, to which a hub manager attaches events before it is announced. */
  lemma EventsComeFirst(s: State, start: H.Start, o: Origin, address: Uuid, vm: nat, w: H.World)
    requires Initial(s) && start.DirectBle?
    ensures var overtaking := [UsbAttach(start, o, false)] +
                              ([HubAttach(Tracker(0, address), vm, o)] + [Turn(0, Attach(vm, o, w))]);
            && CanRun(s, overtaking)
            && var t := Run(s, overtaking);
            && t.scanning == Some(0) && t.lock == Free && t.processed == 0 && |t.gens| == 1 && IsRunning(t, 0)
            && t.wire == [Update(0, t.gens[0].state.device)]
            && t.gens[0].state.device.eventsConnected && !t.gens[0].start.eventsConnected
  {
    var step := Attach(vm, o, w);
    BothAttached(s, start, o, address, vm);
    var s1 := Apply(s, UsbAttach(start, o, false));
    var s2 := Apply(s1, HubAttach(Tracker(0, address), vm, o));
    assert News(0, H.Apply(s2.gens[0].state, step)) == [Update(0, H.Apply(s2.gens[0].state, step).state.device)];
    RunOne(s2, Turn(0, step));
    RunNext(s1, HubAttach(Tracker(0, address), vm, o), [Turn(0, step)]);
    RunNext(s, UsbAttach(start, o, false), [HubAttach(Tracker(0, address), vm, o)] + [Turn(0, step)]);
  }

  lemma BothAttached(s: State, start: H.Start, o: Origin, address: Uuid, vm: nat)
    requires Initial(s) && start.DirectBle?
    ensures Enabled(s, UsbAttach(start, o, false))
    ensures var s1 := Apply(s, UsbAttach(start, o, false));
            && Enabled(s1, HubAttach(Tracker(0, address), vm, o))
            && var t := Apply(s1, HubAttach(Tracker(0, address), vm, o));
            && t.scanning == Some(0) && t.lock == Free && t.processed == 0 && t.wire == []
            && |t.gens| == 1 && IsRunning(t, 0) && t.gens[0].inbox == [H.AddEventsDevice(vm, o.protocol)]
            && !t.gens[0].state.streaming && !t.gens[0].start.eventsConnected
  {
  }

  lemma ThenAnnounced(s: State)
    requires s.scanning == Some(0) && s.lock == Free && s.processed == 0 && |s.gens| == 1 && IsRunning(s, 0)
    requires |s.wire| == 1
    ensures var late := [UsbConnect] + ([Dispatch] + [Dispatch]);
            && CanRun(s, late)
            && var t := Run(s, late);
            && Drained(t) && Live(t) && t.gens == s.gens
            && t.list == s.list + [ToMessage(s.uuid, s.wire[0])] + [D.Connect(s.gens[0].start, Some(0))]
  {
    var s1 := Apply(s, UsbConnect);
    var s2 := Apply(s1, Dispatch);
    RunOne(s2, Dispatch);
    RunNext(s1, Dispatch, [Dispatch]);
    RunNext(s, UsbConnect, [Dispatch] + [Dispatch]);
  }

  /**
   * The scan announces a handler after recording it, with the table unlocked: an events device attached in
   * between is published first, and the list is left with a record that says events are not connected.
   */
  lemma OvertakenAnnouncement(s: State, start: H.Start, o: Origin, address: Uuid, vm: nat, w: H.World)
    requires Initial(s) && start.DirectBle?
    ensures var overtaking := [UsbAttach(start, o, false)] +
                              ([HubAttach(Tracker(0, address), vm, o)] + [Turn(0, Attach(vm, o, w))]);
            var actions := overtaking + ([UsbConnect] + ([Dispatch] + [Dispatch]));
            && CanRun(s, actions)
            && var t := Run(s, actions); var m := D.DevicesAfter(t.list);
            && Drained(t) && Live(t) && |t.gens| == 1 && t.gens[0].state.device.eventsConnected
            && s.uuid in m && !m[s.uuid].device.eventsConnected
  {
    var overtaking := [UsbAttach(start, o, false)] +
                      ([HubAttach(Tracker(0, address), vm, o)] + [Turn(0, Attach(vm, o, w))]);
    EventsComeFirst(s, start, o, address, vm, w);
    var r := Run(s, overtaking);
    InitiallyTrue(s);
    RunKeepsInvariant(s, overtaking);
    ThenAnnounced(r);
    RunConcat(s, overtaking, [UsbConnect] + ([Dispatch] + [Dispatch]));
    assert Sound(r.gens[0], r.uuid);
    D.OneMore(r.list + [ToMessage(r.uuid, r.wire[0])], D.Connect(r.gens[0].start, Some(0)));
  }
}
