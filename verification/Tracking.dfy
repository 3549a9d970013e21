/**
 * Whether a device that hub managers track has a handler holding its events. What becomes of an attach is
 * decided by the messages ahead of it in the handler's inbox and by those sent after it.
 */
module Tracking {
  import opened Common
  import opened Generations
  import H = DeviceHandler

  // ---- The life of one handler ----

  /** What a step sends to handler `g`. */
  function Posted(s: State, a: Action, g: nat): seq<H.Message>
    requires Enabled(s, a)
  {
    match a
    case HubAttach(_, vm, o) => if Alive(s) && s.handle == Some(g) then [H.AddEventsDevice(vm, o.protocol)] else []
    case HubEvents(vm, protocol) => if s.lock.announced == g then [H.AddEventsDevice(vm, protocol)] else []
    case HubDetach(_) => if s.handle == Some(g) then [H.RemoveEventsDevice] else []
    case UsbAttach(start, _, merge) =>
      if Alive(s) && merge && s.handle == Some(g) then [H.AddControlDevice(start.control)] else []
    case UsbDetach => if s.handle == Some(g) then [H.RemoveControlDevice] else []
    case Request(target, msg) => if target == g then [msg] else []
    case _ => []
  }

  ghost function AllPosted(s: State, actions: seq<Action>, g: nat): seq<H.Message>
    requires CanRun(s, actions)
    decreases actions
  {
    if actions == [] then [] else Posted(s, actions[0], g) + AllPosted(Apply(s, actions[0]), actions[1..], g)
  }

  /** The turns that handler `g` takes. */
  function Turns(actions: seq<Action>, g: nat): seq<H.Step>
    decreases |actions|
  {
    if actions == [] then []
    else if actions[0].Turn? && actions[0].turning == g then [actions[0].step] + Turns(actions[1..], g)
    else Turns(actions[1..], g)
  }

  function Messages(taking: seq<H.Step>): seq<H.Message>
    requires forall step | step in taking :: step.Receive?
  {
    seq(|taking|, i requires 0 <= i < |taking| => taking[i].msg)
  }

  lemma {:induction false} TakingReceives(steps: seq<H.Step>)
    ensures forall step | step in H.Taking(steps) :: step.Receive?
    decreases |steps|
  {
    if steps != [] {
      TakingReceives(steps[1..]);
    }
  }

  /** The messages taken in these steps, in order. */
  function Taken(steps: seq<H.Step>): seq<H.Message> {
    TakingReceives(steps);
    Messages(H.Taking(steps))
  }

  lemma TakenOneMore(step: H.Step, steps: seq<H.Step>)
    ensures Taken([step] + steps) == (if step.Receive? then [step.msg] else []) + Taken(steps)
  {
    assert ([step] + steps)[1..] == steps;
  }

  lemma TurnLives(s: State, g: nat, step: H.Step)
    requires Enabled(s, Turn(g, step))
    ensures var t := Turned(s, g, step); var o := H.Apply(s.gens[g].state, step);
            && g < |t.gens| && t.gens[g].state == o.state && (IsRunning(t, g) <==> !o.ended)
            && s.gens[g].inbox == (if step.Receive? then [step.msg] else []) + t.gens[g].inbox
  {
    var inbox := s.gens[g].inbox;
    assert step.Receive? ==> inbox == [inbox[0]] + inbox[1..];
  }

  /** The handler goes on as it was, with these messages behind those already waiting for it. */
  predicate GoesOn(s: State, t: State, g: nat, more: seq<H.Message>) {
    && IsRunning(s, g) && IsRunning(t, g)
    && t.gens[g].state == s.gens[g].state && t.gens[g].inbox == s.gens[g].inbox + more
  }

  lemma PostGoesOn(s: State, target: nat, msg: H.Message, g: nat)
    requires IsRunning(s, g)
    ensures GoesOn(s, Post(s, target, msg), g, if target == g then [msg] else [])
  {
    assert s.gens[g].inbox + [] == s.gens[g].inbox;
  }

  lemma StartGoesOn(s: State, start: H.Start, o: Origin, g: nat)
    requires IsRunning(s, g)
    ensures GoesOn(s, Start(s, start, o), g, [])
  {
    assert s.gens[g].inbox + [] == s.gens[g].inbox;
  }

  lemma AttachGoesOn(s: State, a: Action, g: nat)
    requires Enabled(s, a) && IsRunning(s, g) && (a.HubAttach? || a.UsbAttach?)
    ensures GoesOn(s, Apply(s, a), g, Posted(s, a, g))
  {
    if !Alive(s) {
      StartGoesOn(s, if a.HubAttach? then H.OverHub else a.start, if a.HubAttach? then a.origin else a.usbOrigin, g);
    } else if a.HubAttach? {
      PostGoesOn(s, s.handle.value, H.AddEventsDevice(a.vm, a.origin.protocol), g);
    } else if a.merge {
      PostGoesOn(s, s.handle.value, H.AddControlDevice(a.start.control), g);
    } else {
      assert s.gens[g].inbox + [] == s.gens[g].inbox;
    }
  }

  lemma MessageGoesOn(s: State, a: Action, g: nat)
    requires Enabled(s, a) && IsRunning(s, g) && (a.HubEvents? || a.HubDetach? || a.UsbDetach? || a.Request?)
    ensures GoesOn(s, Apply(s, a), g, Posted(s, a, g))
  {
    assert s.gens[g].inbox + [] == s.gens[g].inbox;
    match a {
      case HubEvents(vm, protocol) => PostGoesOn(s, s.lock.announced, H.AddEventsDevice(vm, protocol), g);
      case HubDetach(_) => if s.handle.Some? { PostGoesOn(s, s.handle.value, H.RemoveEventsDevice, g); }
      case UsbDetach => if s.handle.Some? { PostGoesOn(s, s.handle.value, H.RemoveControlDevice, g); }
      case Request(target, msg) => PostGoesOn(s, target, msg, g);
    }
  }

  lemma SilentGoesOn(s: State, a: Action, g: nat)
    requires Enabled(s, a) && IsRunning(s, g) && !(a.Turn? && a.turning == g)
    requires !a.HubAttach? && !a.UsbAttach? && !a.HubEvents? && !a.HubDetach? && !a.UsbDetach? && !a.Request?
    ensures GoesOn(s, Apply(s, a), g, Posted(s, a, g))
  {
    assert s.gens[g].inbox + [] == s.gens[g].inbox;
  }

  lemma OtherStepLives(s: State, a: Action, g: nat)
    requires Enabled(s, a) && IsRunning(s, g) && !(a.Turn? && a.turning == g)
    ensures GoesOn(s, Apply(s, a), g, Posted(s, a, g))
  {
    if a.HubAttach? || a.UsbAttach? {
      AttachGoesOn(s, a, g);
    } else if a.HubEvents? || a.HubDetach? || a.UsbDetach? || a.Request? {
      MessageGoesOn(s, a, g);
    } else {
      SilentGoesOn(s, a, g);
    }
  }

  /** A handler that is gone takes no more turns. */
  lemma {:induction false} GoneTakesNothing(s: State, actions: seq<Action>, g: nat)
    requires CanRun(s, actions) && g < |s.gens| && !IsRunning(s, g)
    ensures g < |Run(s, actions).gens| && !IsRunning(Run(s, actions), g) && Turns(actions, g) == []
    ensures Run(s, actions).gens[g].state == s.gens[g].state
    decreases actions
  {
    if actions != [] {
      StaysGone(s, actions[0], g);
      GoneTakesNothing(Apply(s, actions[0]), actions[1..], g);
    }
  }

  lemma StaysGone(s: State, a: Action, g: nat)
    requires Enabled(s, a) && g < |s.gens| && !IsRunning(s, g)
    ensures g < |Apply(s, a).gens| && !IsRunning(Apply(s, a), g) && Apply(s, a).gens[g].state == s.gens[g].state
    ensures !(a.Turn? && a.turning == g)
  {
  }

  /**
   * A handler's life: its own run over its turns, and a mailbox that loses nothing and keeps the order. It began
   * in state `st` with `inbox`, was sent `posted`, took `turns`, and is now in state `st'`.
   */
  predicate Life(st: H.State, inbox: seq<H.Message>, posted: seq<H.Message>, turns: seq<H.Step>,
                 st': H.State, running: bool, inbox': seq<H.Message>)
  {
    var o := H.Run(st, turns);
    && H.CanRun(st, turns) && st' == o.state && (running <==> !o.ended)
    && Taken(turns) <= inbox + posted
    && (running ==> inbox + posted == Taken(turns) + inbox')
  }

  lemma LifeBegins(st: H.State, inbox: seq<H.Message>)
    ensures Life(st, inbox, [], [], st, true, inbox)
  {
    assert Taken([]) == [];
  }

  /** A life that begins with a turn, and goes on unless the turn ended it. */
  lemma LifeTurns(st: H.State, step: H.Step, inbox: seq<H.Message>, posted: seq<H.Message>, turns: seq<H.Step>,
                  st': H.State, running: bool, inbox': seq<H.Message>)
    requires H.Enabled(st, step)
    requires var o := H.Apply(st, step);
             if o.ended then turns == [] && st' == o.state && !running
             else Life(o.state, inbox, posted, turns, st', running, inbox')
    ensures Life(st, (if step.Receive? then [step.msg] else []) + inbox, posted, [step] + turns, st', running, inbox')
  {
    var first := if step.Receive? then [step.msg] else [];
    TakenOneMore(step, turns);
    assert ([step] + turns)[1..] == turns;
    assert first + inbox + posted == first + (inbox + posted);
    assert Taken([]) == [];
  }

  lemma LifeIsSent(st: H.State, inbox: seq<H.Message>, more: seq<H.Message>, posted: seq<H.Message>, turns: seq<H.Step>,
                   st': H.State, running: bool, inbox': seq<H.Message>)
    requires Life(st, inbox + more, posted, turns, st', running, inbox')
    ensures Life(st, inbox, more + posted, turns, st', running, inbox')
  {
    assert inbox + more + posted == inbox + (more + posted);
  }

  ghost predicate Lived(s: State, actions: seq<Action>, g: nat)
    requires CanRun(s, actions) && g < |s.gens|
  {
    var t := Run(s, actions);
    && g < |t.gens|
    && Life(s.gens[g].state, s.gens[g].inbox, AllPosted(s, actions, g), Turns(actions, g),
            t.gens[g].state, IsRunning(t, g), t.gens[g].inbox)
  }

  lemma RunFirst(s: State, actions: seq<Action>, g: nat)
    requires CanRun(s, actions) && actions != []
    ensures Run(s, actions) == Run(Apply(s, actions[0]), actions[1..])
    ensures AllPosted(s, actions, g) == Posted(s, actions[0], g) + AllPosted(Apply(s, actions[0]), actions[1..], g)
    ensures Turns(actions, g) ==
            (if actions[0].Turn? && actions[0].turning == g then [actions[0].step] else []) + Turns(actions[1..], g)
  {
  }

  /** In every run: handlers take what they are sent, in order, and do with it what their own machine does. */
  lemma {:induction false} HandlerLives(s: State, actions: seq<Action>, g: nat)
    requires CanRun(s, actions) && IsRunning(s, g)
    ensures Lived(s, actions, g)
    decreases |actions|, 0
  {
    if actions == [] {
      LifeBegins(s.gens[g].state, s.gens[g].inbox);
    } else {
      RunFirst(s, actions, g);
      if actions[0].Turn? && actions[0].turning == g {
        TurnGoesOn(s, actions[0], g, actions[1..]);
      } else {
        OtherGoesOn(s, actions[0], g, actions[1..]);
      }
    }
  }

  lemma {:induction false} OtherGoesOn(s: State, a: Action, g: nat, rest: seq<Action>)
    requires Enabled(s, a) && IsRunning(s, g) && !(a.Turn? && a.turning == g) && CanRun(Apply(s, a), rest)
    ensures var t := Apply(s, a); var u := Run(t, rest);
            && g < |u.gens|
            && Life(s.gens[g].state, s.gens[g].inbox, Posted(s, a, g) + AllPosted(t, rest, g), [] + Turns(rest, g),
                    u.gens[g].state, IsRunning(u, g), u.gens[g].inbox)
    decreases |rest|, 1
  {
    var t := Apply(s, a);
    OtherStepLives(s, a, g);
    HandlerLives(t, rest, g);
    assert [] + Turns(rest, g) == Turns(rest, g);
    var u := Run(t, rest);
    LifeIsSent(s.gens[g].state, s.gens[g].inbox, Posted(s, a, g), AllPosted(t, rest, g), Turns(rest, g),
               u.gens[g].state, IsRunning(u, g), u.gens[g].inbox);
  }

  lemma {:induction false} TurnGoesOn(s: State, a: Action, g: nat, rest: seq<Action>)
    requires Enabled(s, a) && a.Turn? && a.turning == g && CanRun(Apply(s, a), rest)
    ensures var t := Apply(s, a); var u := Run(t, rest);
            && g < |u.gens|
            && Life(s.gens[g].state, s.gens[g].inbox, Posted(s, a, g) + AllPosted(t, rest, g),
                    [a.step] + Turns(rest, g), u.gens[g].state, IsRunning(u, g), u.gens[g].inbox)
    decreases |rest|, 1
  {
    var t := Turned(s, g, a.step);
    TurnLives(s, g, a.step);
    if IsRunning(t, g) {
      HandlerLives(t, rest, g);
    } else {
      GoneTakesNothing(t, rest, g);
    }
    var u := Run(t, rest);
    LifeTurns(s.gens[g].state, a.step, t.gens[g].inbox, AllPosted(t, rest, g), Turns(rest, g),
              u.gens[g].state, IsRunning(u, g), u.gens[g].inbox);
    assert Posted(s, a, g) + AllPosted(t, rest, g) == AllPosted(t, rest, g);
  }

  // ---- When an attach is kept ----

  /** Some handler of the device is running and holds its events. */
  predicate EventsHeld(s: State) {
    exists g | 0 <= g < |s.gens| :: IsRunning(s, g) && s.gens[g].state.events.Some?
  }

  /** These messages with what the outside world answers while each is served. */
  function Served(msgs: seq<H.Message>, worlds: seq<H.World>): seq<H.Step>
    requires |worlds| == |msgs|
  {
    seq(|msgs|, i requires 0 <= i < |msgs| => H.Receive(msgs[i], worlds[i]))
  }

  /** The fate of a life in the four bits: it is over exactly if some message sent to it ends it. */
  lemma LifeEndsExactly(st: H.State, inbox: seq<H.Message>, posted: seq<H.Message>, turns: seq<H.Step>,
                        st': H.State, running: bool, inbox': seq<H.Message>, served: seq<H.Step>)
    requires H.Invariant(st) && Life(st, inbox, posted, turns, st', running, inbox') && (running ==> inbox' == [])
    requires |served| == |inbox + posted| && H.Taking(turns) <= served
    ensures var fate := H.FollowAll(H.Bits(st), served);
            running && st'.events.Some? <==> !fate.ended && fate.merged.events
  {
    H.BitsAbstract(st);
    H.MergeRefinement(st, H.Bits(st), turns);
    H.OnlyMessagesMatter(H.Bits(st), turns);
    if running {
      assert |Taken(turns)| == |H.Taking(turns)| && Taken(turns) + inbox' == Taken(turns);
      assert H.Taking(turns) == served;
    } else {
      H.EndedStaysEnded(H.Bits(st), H.Taking(turns), served);
    }
  }

  const NO_ANSWER := H.World(false, None, None, false, 0)

  /** The answers of a run always extend to the messages not yet served. */
  lemma AnswersExist(taking: seq<H.Step>, msgs: seq<H.Message>)
    requires forall step | step in taking :: step.Receive?
    requires Messages(taking) <= msgs
    ensures exists worlds: seq<H.World> :: |worlds| == |msgs| && taking <= Served(msgs, worlds)
  {
    var worlds := seq(|msgs|, i requires 0 <= i < |msgs| => if i < |taking| then taking[i].world else NO_ANSWER);
    forall i | 0 <= i < |taking|
      ensures taking[i] == Served(msgs, worlds)[i]
    {
      assert taking[i] in taking && Messages(taking)[i] == msgs[i];
    }
    assert taking == Served(msgs, worlds)[..|taking|];
  }

  /** Between these two points of a run no other handler was started, and the latest has taken all it was sent. */
  predicate SameHandlerSettled(r: State, t: State) {
    && |r.gens| > 0 && |t.gens| == |r.gens|
    && var g := |r.gens| - 1;
    IsRunning(t, g) ==> t.gens[g].inbox == []
  }

  lemma OnlyLatestHolds(t: State)
    requires OneAlive(t) && |t.gens| > 0
    ensures EventsHeld(t) <==> IsRunning(t, |t.gens| - 1) && t.gens[|t.gens| - 1].state.events.Some?
  {
    forall g | 0 <= g < |t.gens| && IsRunning(t, g)
      ensures Latest(t, g)
    {
    }
  }

  /** The latest handler's fate from here, by the messages waiting for it and those it is sent. */
  ghost function Fate(r: State, rest: seq<Action>, worlds: seq<H.World>): H.MergedRun
    requires CanRun(r, rest) && |r.gens| > 0
    requires |worlds| == |r.gens[|r.gens| - 1].inbox + AllPosted(r, rest, |r.gens| - 1)|
  {
    var g := |r.gens| - 1;
    H.FollowAll(H.Bits(r.gens[g].state), Served(r.gens[g].inbox + AllPosted(r, rest, g), worlds))
  }

  /** The answers that the latest handler's turns contain, and any for the messages it never serves. */
  ghost predicate Answered(r: State, rest: seq<Action>, worlds: seq<H.World>)
    requires CanRun(r, rest) && |r.gens| > 0
  {
    var g := |r.gens| - 1;
    var msgs := r.gens[g].inbox + AllPosted(r, rest, g);
    |worlds| == |msgs| && H.Taking(Turns(rest, g)) <= Served(msgs, worlds)
  }

  lemma FateOfHandler(r: State, rest: seq<Action>, g: nat, t: State, served: seq<H.Step>)
    requires CanRun(r, rest) && t == Run(r, rest) && IsRunning(r, g) && H.Invariant(r.gens[g].state)
    requires g < |t.gens| && (IsRunning(t, g) ==> t.gens[g].inbox == [])
    requires |served| == |r.gens[g].inbox + AllPosted(r, rest, g)| && H.Taking(Turns(rest, g)) <= served
    ensures var fate := H.FollowAll(H.Bits(r.gens[g].state), served);
            IsRunning(t, g) && t.gens[g].state.events.Some? <==> !fate.ended && fate.merged.events
  {
    HandlerLives(r, rest, g);
    LifeEndsExactly(r.gens[g].state, r.gens[g].inbox, AllPosted(r, rest, g), Turns(rest, g),
                    t.gens[g].state, IsRunning(t, g), t.gens[g].inbox, served);
  }

  /** What is needed of the invariant at both ends of a run. */
  lemma EndsStand(r: State, rest: seq<Action>)
    requires Invariant(r) && CanRun(r, rest) && |r.gens| > 0
    ensures IsRunning(r, |r.gens| - 1) ==> H.Invariant(r.gens[|r.gens| - 1].state)
    ensures OneAlive(Run(r, rest))
  {
    RunKeepsInvariant(r, rest);
    assert Sound(r.gens[|r.gens| - 1], r.uuid);
  }

  lemma {:induction false} LatestFate(r: State, rest: seq<Action>, t: State, worlds: seq<H.World>)
    requires CanRun(r, rest) && t == Run(r, rest) && SameHandlerSettled(r, t)
    requires IsRunning(r, |r.gens| - 1) && H.Invariant(r.gens[|r.gens| - 1].state) && Answered(r, rest, worlds)
    ensures var g := |r.gens| - 1; var fate := Fate(r, rest, worlds);
            IsRunning(t, g) && t.gens[g].state.events.Some? <==> !fate.ended && fate.merged.events
  {
    var g := |r.gens| - 1;
    var msgs := r.gens[g].inbox + AllPosted(r, rest, g);
    var served := Served(msgs, worlds);
    assert |served| == |msgs|;
    FateOfHandler(r, rest, g, t, served);
  }

  lemma {:induction false} FateDecides(r: State, rest: seq<Action>, t: State, worlds: seq<H.World>)
    requires CanRun(r, rest) && t == Run(r, rest) && SameHandlerSettled(r, t) && OneAlive(t)
    requires IsRunning(r, |r.gens| - 1) && H.Invariant(r.gens[|r.gens| - 1].state) && Answered(r, rest, worlds)
    ensures EventsHeld(t) <==> !Fate(r, rest, worlds).ended && Fate(r, rest, worlds).merged.events
  {
    LatestFate(r, rest, t, worlds);
    OnlyLatestHolds(t);
  }

  lemma SomeAnswered(r: State, rest: seq<Action>) returns (worlds: seq<H.World>)
    requires CanRun(r, rest) && |r.gens| > 0 && IsRunning(r, |r.gens| - 1)
    ensures Answered(r, rest, worlds)
  {
    var g := |r.gens| - 1;
    var msgs := r.gens[g].inbox + AllPosted(r, rest, g);
    HandlerLives(r, rest, g);
    TakingReceives(Turns(rest, g));
    AnswersExist(H.Taking(Turns(rest, g)), msgs);
    worlds :| |worlds| == |msgs| && H.Taking(Turns(rest, g)) <= Served(msgs, worlds);
  }

  /**
   * From any point of any run: a handler comes to hold the device's events exactly if the four bits it shows there,
   * followed through the messages waiting for it and those it is sent, neither end nor lose the events.
   */
  lemma TrackedHoldsEventsExactly(s: State, first: seq<Action>, rest: seq<Action>, worlds: seq<H.World>)
    requires Initial(s) && CanRun(s, first) && CanRun(Run(s, first), rest)
    requires SameHandlerSettled(Run(s, first), Run(Run(s, first), rest))
    requires IsRunning(Run(s, first), |Run(s, first).gens| - 1) && Answered(Run(s, first), rest, worlds)
    ensures var fate := Fate(Run(s, first), rest, worlds);
            EventsHeld(Run(Run(s, first), rest)) <==> !fate.ended && fate.merged.events
  {
    InitiallyTrue(s);
    RunKeepsInvariant(s, first);
    EndsStand(Run(s, first), rest);
    FateDecides(Run(s, first), rest, Run(Run(s, first), rest), worlds);
  }

  // ---- Without a control device ----

  predicate NoControl(msgs: seq<H.Message>) {
    forall msg | msg in msgs :: H.WithoutControl(msg)
  }

  lemma ServedCarries(msgs: seq<H.Message>, worlds: seq<H.World>)
    requires |worlds| == |msgs|
    ensures NoControl(msgs) ==>
              forall step | step in Served(msgs, worlds) :: step.Receive? && H.WithoutControl(step.msg)
    ensures H.Carries(Served(msgs, worlds), H.RemoveEventsDevice) <==> H.RemoveEventsDevice in msgs
    ensures forall msg | msg in msgs && msg.AddEventsDevice? :: H.Attaching(Served(msgs, worlds))
  {
    var steps := Served(msgs, worlds);
    forall i | 0 <= i < |msgs|
      ensures steps[i] in steps && steps[i].msg == msgs[i]
    {
    }
  }

  /** A life without control: it is kept, with its events, exactly if no detach is sent to it. */
  lemma KeptWithoutDetach(st: H.State, msgs: seq<H.Message>, worlds: seq<H.World>, add: H.Message)
    requires st.control.None? && NoControl(msgs) && |worlds| == |msgs| && add in msgs && add.AddEventsDevice?
    ensures var fate := H.FollowAll(H.Bits(st), Served(msgs, worlds));
            !fate.ended && fate.merged.events <==> H.RemoveEventsDevice !in msgs
  {
    ServedCarries(msgs, worlds);
    H.DetachEndsExactly(H.Bits(st), Served(msgs, worlds));
  }

  /** Handler `g` is sent an attach, with `ahead` waiting for it, and then takes all that follows. */
  lemma AttachLives(r: State, rest: seq<Action>, g: nat, ahead: seq<H.Message>, add: H.Message)
    requires Invariant(r) && CanRun(r, rest) && IsRunning(r, g) && Latest(r, g)
    requires r.gens[g].inbox == ahead + [add] && add.AddEventsDevice?
    requires SameHandlerSettled(r, Run(r, rest))
    requires r.gens[g].state.control.None? && NoControl(ahead) && NoControl(AllPosted(r, rest, g))
    ensures EventsHeld(Run(r, rest)) <==>
            H.RemoveEventsDevice !in ahead && H.RemoveEventsDevice !in AllPosted(r, rest, g)
  {
    var posted := AllPosted(r, rest, g);
    var worlds := SomeAnswered(r, rest);
    EndsStand(r, rest);
    FateDecides(r, rest, Run(r, rest), worlds);
    AttachAmong(ahead, add, posted);
    KeptWithoutDetach(r.gens[g].state, r.gens[g].inbox + posted, worlds, add);
  }

  lemma AttachAmong(ahead: seq<H.Message>, add: H.Message, posted: seq<H.Message>)
    requires add.AddEventsDevice?
    ensures var msgs := ahead + [add] + posted;
            && add in msgs && (NoControl(ahead) && NoControl(posted) ==> NoControl(msgs))
            && (H.RemoveEventsDevice in msgs <==> H.RemoveEventsDevice in ahead || H.RemoveEventsDevice in posted)
  {
    var msgs := ahead + [add] + posted;
    assert forall msg :: msg in msgs <==> msg in ahead || msg == add || msg in posted;
  }

  lemma AttachArrives(r: State, tracker: Tracker, vm: nat, o: Origin)
    requires Alive(r) && Enabled(r, HubAttach(tracker, vm, o))
    ensures var r' := Apply(r, HubAttach(tracker, vm, o)); var g := r.handle.value;
            && |r'.gens| == |r.gens| && r'.gens[g].state == r.gens[g].state && r'.gens[g].phase == r.gens[g].phase
            && r'.gens[g].inbox == r.gens[g].inbox + [H.AddEventsDevice(vm, o.protocol)]
  {
  }

  lemma GoneHoldsNothing(r: State, rest: seq<Action>)
    requires Invariant(r) && CanRun(r, rest) && |r.gens| > 0 && !IsRunning(r, |r.gens| - 1)
    requires |Run(r, rest).gens| == |r.gens|
    ensures !EventsHeld(Run(r, rest))
  {
    RunKeepsInvariant(r, rest);
    GoneTakesNothing(r, rest, |r.gens| - 1);
    OnlyLatestHolds(Run(r, rest));
  }

  lemma AttachKept(r: State, tracker: Tracker, vm: nat, o: Origin, rest: seq<Action>)
    requires Invariant(r) && Alive(r) && Enabled(r, HubAttach(tracker, vm, o))
    requires var r' := Apply(r, HubAttach(tracker, vm, o)); CanRun(r', rest) && SameHandlerSettled(r', Run(r', rest))
    requires var g := r.handle.value; var r' := Apply(r, HubAttach(tracker, vm, o));
             r.gens[g].state.control.None? && NoControl(r.gens[g].inbox) && NoControl(AllPosted(r', rest, g))
    ensures var g := r.handle.value; var r' := Apply(r, HubAttach(tracker, vm, o));
            EventsHeld(Run(r', rest)) <==>
            && IsRunning(r, g)
            && H.RemoveEventsDevice !in r.gens[g].inbox
            && H.RemoveEventsDevice !in AllPosted(r', rest, g)
  {
    var g, r' := r.handle.value, Apply(r, HubAttach(tracker, vm, o));
    HubAttachKeeps(r, tracker, vm, o);
    AttachArrives(r, tracker, vm, o);
    assert Latest(r, g);
    if IsRunning(r, g) {
      AttachLives(r', rest, g, r.gens[g].inbox, H.AddEventsDevice(vm, o.protocol));
    } else {
      GoneHoldsNothing(r', rest);
    }
  }

  /**
   * A hub manager attaches a device that already has a handler, without a control device and with none to come.
   * While the manager goes on tracking the device and no other handler is started, its events are held exactly if
   * the handler was still running, no detach was waiting for it, and none is sent to it later.
   */
  lemma AttachIsKeptExactly(s: State, first: seq<Action>, tracker: Tracker, vm: nat, o: Origin, rest: seq<Action>)
    requires Initial(s) && CanRun(s, first) && Alive(Run(s, first)) && Enabled(Run(s, first), HubAttach(tracker, vm, o))
    requires var r' := Apply(Run(s, first), HubAttach(tracker, vm, o));
             && CanRun(r', rest) && tracker in Run(r', rest).tracking && SameHandlerSettled(r', Run(r', rest))
    requires var r := Run(s, first); var g := r.handle.value; var r' := Apply(r, HubAttach(tracker, vm, o));
             r.gens[g].state.control.None? && NoControl(r.gens[g].inbox) && NoControl(AllPosted(r', rest, g))
    ensures var r := Run(s, first); var g := r.handle.value; var r' := Apply(r, HubAttach(tracker, vm, o));
            EventsHeld(Run(r', rest)) <==>
            && IsRunning(r, g)
            && H.RemoveEventsDevice !in r.gens[g].inbox
            && H.RemoveEventsDevice !in AllPosted(r', rest, g)
  {
    InitiallyTrue(s);
    RunKeepsInvariant(s, first);
    AttachKept(Run(s, first), tracker, vm, o, rest);
  }

  /** Only hub managers that stop tracking the device send detaches. */
  lemma OnlyManagersDetach(s: State, a: Action, g: nat)
    requires Enabled(s, a) && H.RemoveEventsDevice in Posted(s, a, g)
    ensures a.HubDetach? && a.leaving in s.tracking && a.leaving !in Apply(s, a).tracking
  {
  }

  // ---- Runs in which a tracked device is lost ----

  /** One handler without a control device, recorded and free to be reached. */
  predicate Sole(s: State, tracking: set<Tracker>, inbox: seq<H.Message>, streaming: bool) {
    && s.lock == Free && s.tracking == tracking && |s.gens| == 1 && s.handle == Some(0)
    && s.gens[0].phase == Running && s.gens[0].inbox == inbox
    && s.gens[0].state.control.None? && s.gens[0].state.streaming == streaming
  }

  function Add(vm: nat, protocol: Version, w: H.World): H.Step {
    H.Receive(H.AddEventsDevice(vm, protocol), w)
  }

  function Remove(w: H.World): H.Step {
    H.Receive(H.RemoveEventsDevice, w)
  }

  lemma SoleStarts(s: State, x: Tracker, vm: nat, o: Origin)
    requires Initial(s)
    ensures var start := [HubAttach(x, vm, o), HubConnect, HubEvents(vm, o.protocol)];
            && CanRun(s, start)
            && Sole(Run(s, start), {x}, [H.AddEventsDevice(vm, o.protocol)], false)
  {
    var s1 := Apply(s, HubAttach(x, vm, o));
    var s2 := Apply(s1, HubConnect);
    RunOne(s2, HubEvents(vm, o.protocol));
    RunNext(s1, HubConnect, [HubEvents(vm, o.protocol)]);
    RunNext(s, HubAttach(x, vm, o), [HubConnect, HubEvents(vm, o.protocol)]);
  }

  lemma SoleAttaches(s: State, tracking: set<Tracker>, ahead: seq<H.Message>, x: Tracker, vm: nat, o: Origin)
    requires Sole(s, tracking, ahead, true) && x !in tracking
    ensures var a := HubAttach(x, vm, o);
            Enabled(s, a) && Sole(Apply(s, a), tracking + {x}, ahead + [H.AddEventsDevice(vm, o.protocol)], true)
  {
  }

  /** An attach makes the handler hold events, or is ignored because it already does. */
  lemma SoleTakesAttach(s: State, tracking: set<Tracker>, vm: nat, protocol: Version, w: H.World, streaming: bool)
    requires Sole(s, tracking, [H.AddEventsDevice(vm, protocol)], streaming) && w.streamsStart
    ensures var a := Turn(0, Add(vm, protocol, w));
            Enabled(s, a) && Sole(Apply(s, a), tracking, [], true)
    ensures !streaming ==> EventsHeld(Apply(s, Turn(0, Add(vm, protocol, w))))
  {
    var t := Apply(s, Turn(0, Add(vm, protocol, w)));
    assert !streaming ==> IsRunning(t, 0) && t.gens[0].state.events.Some?;
  }

  lemma SoleDetaches(s: State, tracking: set<Tracker>, x: Tracker)
    requires Sole(s, tracking, [], true) && x in tracking
    ensures Enabled(s, HubDetach(x)) && Sole(Apply(s, HubDetach(x)), tracking - {x}, [H.RemoveEventsDevice], true)
  {
  }

  lemma SoleEnds(s: State, tracking: set<Tracker>, behind: seq<H.Message>, w: H.World)
    requires Sole(s, tracking, [H.RemoveEventsDevice] + behind, true)
    ensures var a := Turn(0, Remove(w));
            Enabled(s, a) && Apply(s, a).tracking == tracking && !EventsHeld(Apply(s, a))
  {
  }

  /** A manager starts a handler for the device, which comes to hold its events. */
  function Held(x: Tracker, vm: nat, o: Origin, w: H.World): seq<Action> {
    [HubAttach(x, vm, o), HubConnect, HubEvents(vm, o.protocol)] + [Turn(0, Add(vm, o.protocol, w))]
  }

  lemma HeldRuns(s: State, x: Tracker, vm: nat, o: Origin, w: H.World)
    requires Initial(s) && w.streamsStart
    ensures CanRun(s, Held(x, vm, o, w))
    ensures Sole(Run(s, Held(x, vm, o, w)), {x}, [], true) && EventsHeld(Run(s, Held(x, vm, o, w)))
  {
    var start := [HubAttach(x, vm, o), HubConnect, HubEvents(vm, o.protocol)];
    SoleStarts(s, x, vm, o);
    SoleTakesAttach(Run(s, start), {x}, vm, o.protocol, w, false);
    RunOne(Run(s, start), Turn(0, Add(vm, o.protocol, w)));
    RunConcat(s, start, [Turn(0, Add(vm, o.protocol, w))]);
  }

  /** Another manager attaches the device, and only then does the first detach it. */
  function Moved(x: Tracker, y: Tracker, vm: nat, o: Origin, w: H.World): seq<Action> {
    [HubAttach(y, vm, o)] + ([Turn(0, Add(vm, o.protocol, w))] + ([HubDetach(x)] + [Turn(0, Remove(w))]))
  }

  /** The same manager detaches the device and attaches it again before the handler takes the detach. */
  function Returned(x: Tracker, vm: nat, o: Origin, w: H.World): seq<Action> {
    [HubDetach(x)] + ([HubAttach(x, vm, o)] + [Turn(0, Remove(w))])
  }

  /**
   * When a device moves from one dongle to another, the first dongle's detach can arrive after the second one's
   * attach. The handler ends, the second manager still tracks the device, and it will not attach it again.
   */
  lemma MovedDeviceIsLost(s: State, x: Tracker, y: Tracker, o: Origin, vm: nat, vm': nat, w: H.World)
    requires Initial(s) && x != y && w.streamsStart
    ensures var held := Held(x, vm, o, w);
            && CanRun(s, held) && EventsHeld(Run(s, held))
            && CanRun(s, held + Moved(x, y, vm', o, w))
            && var t := Run(s, held + Moved(x, y, vm', o, w));
            && t.tracking == {y} && !EventsHeld(t) && !Enabled(t, HubAttach(y, vm', o))
  {
    HeldRuns(s, x, vm, o, w);
    SoleMoves(Run(s, Held(x, vm, o, w)), x, y, o, vm', w);
    RunConcat(s, Held(x, vm, o, w), Moved(x, y, vm', o, w));
  }

  /**
   * It takes only one dongle: a device missing from one snapshot and back in the next, while its handler is busy,
   * is attached again behind its own detach. The handler ends at the detach and the attach is lost.
   */
  lemma ReturnedDeviceIsLost(s: State, x: Tracker, o: Origin, vm: nat, vm': nat, w: H.World)
    requires Initial(s) && w.streamsStart
    ensures var held := Held(x, vm, o, w);
            && CanRun(s, held) && EventsHeld(Run(s, held))
            && CanRun(s, held + Returned(x, vm', o, w))
            && var t := Run(s, held + Returned(x, vm', o, w));
            && t.tracking == {x} && !EventsHeld(t) && !Enabled(t, HubAttach(x, vm', o))
  {
    HeldRuns(s, x, vm, o, w);
    SoleReturns(Run(s, Held(x, vm, o, w)), x, o, vm', w);
    RunConcat(s, Held(x, vm, o, w), Returned(x, vm', o, w));
  }

  lemma SoleMoves(s: State, x: Tracker, y: Tracker, o: Origin, vm: nat, w: H.World)
    requires Sole(s, {x}, [], true) && x != y && w.streamsStart
    ensures CanRun(s, Moved(x, y, vm, o, w))
    ensures Run(s, Moved(x, y, vm, o, w)).tracking == {y} && !EventsHeld(Run(s, Moved(x, y, vm, o, w)))
  {
    var add, remove := Add(vm, o.protocol, w), Remove(w);
    SoleAttaches(s, {x}, [], y, vm, o);
    var s1 := Apply(s, HubAttach(y, vm, o));
    assert [] + [add.msg] == [add.msg];
    SoleTakesAttach(s1, {x} + {y}, vm, o.protocol, w, true);
    var s2 := Apply(s1, Turn(0, add));
    SoleDetaches(s2, {x} + {y}, x);
    var s3 := Apply(s2, HubDetach(x));
    assert {x} + {y} - {x} == {y} && [remove.msg] == [remove.msg] + [];
    SoleEnds(s3, {y}, [], w);
    RunOne(s3, Turn(0, remove));
    RunNext(s2, HubDetach(x), [Turn(0, remove)]);
    RunNext(s1, Turn(0, add), [HubDetach(x)] + [Turn(0, remove)]);
    RunNext(s, HubAttach(y, vm, o), [Turn(0, add)] + ([HubDetach(x)] + [Turn(0, remove)]));
  }

  lemma SoleReturns(s: State, x: Tracker, o: Origin, vm: nat, w: H.World)
    requires Sole(s, {x}, [], true)
    ensures CanRun(s, Returned(x, vm, o, w))
    ensures Run(s, Returned(x, vm, o, w)).tracking == {x} && !EventsHeld(Run(s, Returned(x, vm, o, w)))
  {
    SoleDetaches(s, {x}, x);
    var s1 := Apply(s, HubDetach(x));
    assert {x} - {x} == {} && {} + {x} == {x};
    SoleAttaches(s1, {}, [H.RemoveEventsDevice], x, vm, o);
    var s2 := Apply(s1, HubAttach(x, vm, o));
    SoleEnds(s2, {x}, [H.AddEventsDevice(vm, o.protocol)], w);
    RunOne(s2, Turn(0, Remove(w)));
    RunNext(s1, HubAttach(x, vm, o), [Turn(0, Remove(w))]);
    RunNext(s, HubDetach(x), [HubAttach(x, vm, o)] + [Turn(0, Remove(w))]);
  }
}
