/**
 * The manager of one dongle and the handlers of one device, side by side: what the manager's log says about the
 * device is a sequence of attaches and detaches that the handlers' side can follow, and both agree on who tracks it.
 */
module Dongles {
  import opened Common
  import opened Generations
  import M = HubManager

  datatype Step = Attach(address: Uuid) | Detach(address: Uuid)

  /** What a manager's log says to the handlers of one device, in order. */
  function Steps(log: seq<M.Sent>, uuid: Uuid): seq<Step> {
    if log == [] then []
    else
      var init := Steps(log[..|log| - 1], uuid);
      match log[|log| - 1]
      case AddEvents(a, u) => if u == uuid then init + [Attach(a)] else init
      case RemoveEvents(a, target, _) => if target == uuid then init + [Detach(a)] else init
      case _ => init
  }

  /** What an action of one dongle's manager does to the handlers of the device. */
  function StepOf(a: Action, dongle: nat): seq<Step> {
    match a
    case HubAttach(t, _, _) => if t.dongle == dongle then [Attach(t.address)] else []
    case HubDetach(t) => if t.dongle == dongle then [Detach(t.address)] else []
    case _ => []
  }

  function StepsOf(actions: seq<Action>, dongle: nat): seq<Step>
    decreases |actions|
  {
    if actions == [] then [] else StepOf(actions[0], dongle) + StepsOf(actions[1..], dongle)
  }

  /** The addresses tracked after one step, if it is possible. */
  function Next(tracked: set<Uuid>, step: Step): Option<set<Uuid>> {
    match step
    case Attach(a) => if a in tracked then None else Some(tracked + {a})
    case Detach(a) => if a in tracked then Some(tracked - {a}) else None
  }

  function After(tracked: set<Uuid>, steps: seq<Step>): Option<set<Uuid>>
    decreases |steps|
  {
    if steps == [] then Some(tracked)
    else
      match Next(tracked, steps[0])
      case None => None
      case Some(next) => After(next, steps[1..])
  }

  lemma {:induction false} AfterOneMore(tracked: set<Uuid>, steps: seq<Step>, step: Step)
    ensures After(tracked, steps + [step]) ==
            if After(tracked, steps).Some? then Next(After(tracked, steps).value, step) else None
    decreases |steps|
  {
    if steps == [] {
      assert (steps + [step])[1..] == [];
    } else {
      assert (steps + [step])[1..] == steps[1..] + [step];
      if Next(tracked, steps[0]).Some? {
        AfterOneMore(Next(tracked, steps[0]).value, steps[1..], step);
      }
    }
  }

  // ---- The manager's side ----

  /** No address is attached twice in a row, detached without an attach, or detached from another device. */
  ghost predicate Alternates(log: seq<M.Sent>) {
    forall a: Uuid :: M.BalanceOf(M.About(log, a)) != M.Broken
  }

  predicate OpenAt(log: seq<M.Sent>, a: Uuid, uuid: Uuid) {
    M.OpenTo(M.About(log, a), uuid)
  }

  ghost predicate OpensAre(log: seq<M.Sent>, uuid: Uuid, tracked: set<Uuid>) {
    forall a: Uuid :: a in tracked <==> OpenAt(log, a, uuid)
  }

  lemma BalanceOneMore(events: seq<M.Sent>, e: M.Sent)
    ensures M.BalanceOf(events + [e]) ==
            match (M.BalanceOf(events), e)
            case (Closed, AddEvents(_, u)) => M.Balance.Open(u)
            case (Open(u), RemoveEvents(_, target, _)) => if target == u then M.Closed else M.Broken
            case _ => M.Broken
  {
    assert (events + [e])[..|events|] == events;
  }

  /** What the last message of a log changes for one address. */
  lemma LastMessage(log: seq<M.Sent>, e: M.Sent, a: Uuid)
    requires M.BalanceOf(M.About(log + [e], a)) != M.Broken
    ensures M.BalanceOf(M.About(log, a)) != M.Broken
    ensures e.AddEvents? && e.address == a ==>
              M.BalanceOf(M.About(log, a)) == M.Closed && M.BalanceOf(M.About(log + [e], a)) == M.Balance.Open(e.uuid)
    ensures e.RemoveEvents? && e.removed == a ==>
              && M.BalanceOf(M.About(log, a)) == M.Balance.Open(e.target)
              && M.BalanceOf(M.About(log + [e], a)) == M.Closed
    ensures !(e.AddEvents? && e.address == a) && !(e.RemoveEvents? && e.removed == a) ==>
              M.About(log + [e], a) == M.About(log, a)
  {
    M.AboutOneMore(log, e, a);
    BalanceOneMore(M.About(log, a), e);
  }

  /** The log of a manager never asks for an impossible step, and tracks the addresses it leaves open to the device. */
  lemma {:induction false} LogTracks(log: seq<M.Sent>, uuid: Uuid)
    requires Alternates(log)
    ensures After({}, Steps(log, uuid)).Some? && OpensAre(log, uuid, After({}, Steps(log, uuid)).value)
  {
    if log != [] {
      var init, e := log[..|log| - 1], log[|log| - 1];
      assert log == init + [e];
      forall a: Uuid
        ensures M.BalanceOf(M.About(init, a)) != M.Broken
      {
        LastMessage(init, e, a);
      }
      LogTracks(init, uuid);
      LogTracksOneMore(init, e, uuid);
    }
  }

  lemma LogTracksOneMore(init: seq<M.Sent>, e: M.Sent, uuid: Uuid)
    requires Alternates(init + [e])
    requires After({}, Steps(init, uuid)).Some? && OpensAre(init, uuid, After({}, Steps(init, uuid)).value)
    ensures var t := After({}, Steps(init + [e], uuid)); t.Some? && OpensAre(init + [e], uuid, t.value)
  {
    var tracked := After({}, Steps(init, uuid)).value;
    assert (init + [e])[..|init|] == init;
    if e.AddEvents? {
      AfterOneMore({}, Steps(init, uuid), Attach(e.address));
      assert e.address in tracked <==> OpenAt(init, e.address, uuid);
      LastMessage(init, e, e.address);
    } else if e.RemoveEvents? {
      AfterOneMore({}, Steps(init, uuid), Detach(e.removed));
      assert e.removed in tracked <==> OpenAt(init, e.removed, uuid);
      LastMessage(init, e, e.removed);
    }
    forall a: Uuid
      ensures a in After({}, Steps(init + [e], uuid)).value <==> OpenAt(init + [e], a, uuid)
    {
      assert a in tracked <==> OpenAt(init, a, uuid);
      LastMessage(init, e, a);
    }
  }

  // ---- The handlers' side ----

  /** The addresses at which the manager of one dongle tracks the device. */
  function AddressesOf(tracking: set<Tracker>, dongle: nat): set<Uuid> {
    set t | t in tracking && t.dongle == dongle :: t.address
  }

  lemma AddressesMean(tracking: set<Tracker>, dongle: nat, a: Uuid)
    ensures a in AddressesOf(tracking, dongle) <==> Tracker(dongle, a) in tracking
  {
    assert Tracker(dongle, a).dongle == dongle;
  }

  lemma ActionTracks(s: State, a: Action, dongle: nat)
    requires Enabled(s, a)
    ensures After(AddressesOf(s.tracking, dongle), StepOf(a, dongle))
         == Some(AddressesOf(Apply(s, a).tracking, dongle))
  {
    var before, after := AddressesOf(s.tracking, dongle), AddressesOf(Apply(s, a).tracking, dongle);
    forall x: Uuid
      ensures x in before <==> Tracker(dongle, x) in s.tracking
      ensures x in after <==> Tracker(dongle, x) in Apply(s, a).tracking
    {
      AddressesMean(s.tracking, dongle, x);
      AddressesMean(Apply(s, a).tracking, dongle, x);
    }
    SameTracking(s, a);
    if a.HubAttach? && a.tracker.dongle == dongle {
      assert a.tracker == Tracker(dongle, a.tracker.address);
      assert after == before + {a.tracker.address};
    } else if a.HubDetach? && a.leaving.dongle == dongle {
      assert a.leaving == Tracker(dongle, a.leaving.address);
      assert after == before - {a.leaving.address};
    } else {
      assert after == before;
    }
  }

  lemma SameTracking(s: State, a: Action)
    requires Enabled(s, a)
    ensures Apply(s, a).tracking ==
            match a
            case HubAttach(t, _, _) => s.tracking + {t}
            case HubDetach(t) => s.tracking - {t}
            case _ => s.tracking
  {
  }

  lemma AfterConcat(tracked: set<Uuid>, first: seq<Step>, rest: seq<Step>)
    requires |first| <= 1 && After(tracked, first).Some?
    ensures After(tracked, first + rest) == After(After(tracked, first).value, rest)
  {
    if first == [] {
      assert first + rest == rest;
    } else {
      assert (first + rest)[1..] == rest && first[1..] == [];
    }
  }

  lemma {:induction false} RunTracks(s: State, actions: seq<Action>, dongle: nat)
    requires CanRun(s, actions)
    ensures After(AddressesOf(s.tracking, dongle), StepsOf(actions, dongle))
         == Some(AddressesOf(Run(s, actions).tracking, dongle))
    decreases actions
  {
    if actions != [] {
      ActionTracks(s, actions[0], dongle);
      AfterConcat(AddressesOf(s.tracking, dongle), StepOf(actions[0], dongle), StepsOf(actions[1..], dongle));
      RunTracks(Apply(s, actions[0]), actions[1..], dongle);
    }
  }

  // ---- Both sides ----

  /** A log and a run that say the same about the device agree on the addresses that are open and tracked. */
  lemma LogAndRunAgree(log: seq<M.Sent>, s: State, actions: seq<Action>, dongle: nat)
    requires Alternates(log) && Initial(s) && CanRun(s, actions) && StepsOf(actions, dongle) == Steps(log, s.uuid)
    ensures forall a: Uuid :: Tracker(dongle, a) in Run(s, actions).tracking <==> OpenAt(log, a, s.uuid)
  {
    LogTracks(log, s.uuid);
    RunTracks(s, actions, dongle);
    assert AddressesOf(s.tracking, dongle) == {};
    forall a: Uuid
      ensures Tracker(dongle, a) in Run(s, actions).tracking <==> OpenAt(log, a, s.uuid)
    {
      AddressesMean(Run(s, actions).tracking, dongle, a);
    }
  }

  /**
   * As long as a manager and the handlers' side have taken the same steps, an address is tracked for the device
   * exactly while the manager records it with that UUID; and whatever the manager does next is possible.
   */
  lemma ManagerAndHandlersAgree(manager: M.HubManager, s: State, actions: seq<Action>, dongle: nat, a: Uuid)
    requires manager.Valid() && Initial(s) && CanRun(s, actions)
    requires StepsOf(actions, dongle) == Steps(manager.log, s.uuid)
    ensures var tracked := Tracker(dongle, a) in Run(s, actions).tracking;
            && (tracked <==> a in manager.hubDeviceUuids && manager.hubDeviceUuids[a] == s.uuid)
            && (a !in manager.hubDevices ==> !tracked)
  {
    ManagerAlternates(manager);
    LogAndRunAgree(manager.log, s, actions, dongle);
    assert M.Ledger(manager.log, manager.hubDeviceUuids, a);
    assert Tracker(dongle, a) in Run(s, actions).tracking <==> OpenAt(manager.log, a, s.uuid);
  }

  lemma ManagerAlternates(manager: M.HubManager)
    requires manager.Valid()
    ensures Alternates(manager.log)
  {
    forall a: Uuid
      ensures M.BalanceOf(M.About(manager.log, a)) != M.Broken
    {
      assert M.Ledger(manager.log, manager.hubDeviceUuids, a);
    }
  }

  /** After a manager's task is over, its dongle tracks the device nowhere. */
  lemma NothingTrackedAfterwards(log: seq<M.Sent>, s: State, actions: seq<Action>, dongle: nat, a: Uuid)
    requires forall b: Uuid :: M.Bracketed(M.About(log, b))
    requires Initial(s) && CanRun(s, actions) && StepsOf(actions, dongle) == Steps(log, s.uuid)
    ensures Tracker(dongle, a) !in Run(s, actions).tracking
  {
    forall b: Uuid
      ensures M.BalanceOf(M.About(log, b)) != M.Broken
    {
      assert M.Bracketed(M.About(log, b));
    }
    LogAndRunAgree(log, s, actions, dongle);
    assert M.Bracketed(M.About(log, a));
    assert Tracker(dongle, a) in Run(s, actions).tracking <==> OpenAt(log, a, s.uuid);
  }
}
