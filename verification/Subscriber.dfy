/**
 * A device-list subscription beside any number of list mutators. A mutator changes the list and then,
 * as a separate step, notifies; the subscription subscribes, takes a snapshot, and takes another one
 * for every notification it receives.
 */
module Subscriber {
  import opened Common
  import opened DeviceWire
  import opened Dispatcher
  import opened KeyedList
  import opened Desktop

  type MutatorId = nat

  /** A copy of the list, with the number of the list version it was taken from. */
  datatype Snapshot = Snapshot(devices: seq<Device>, version: nat)

  datatype Stream = NotSubscribed | MustSnapshot | Holding(snapshot: Snapshot) | Waiting | Ended

  datatype State = State(
    /** Every value the list has had; the last one is current. */
    versions: seq<seq<Device>>,
    /** Mutators between their change and their notification. */
    midway: set<MutatorId>,
    stream: Stream,
    /** Notifications in the subscription's queue, and how many it can hold before the oldest is overwritten. */
    pending: nat,
    capacity: nat,
    sent: seq<Snapshot>,
    /** Notifications since the subscription began. */
    notified: nat)

  datatype Action =
    | Mutate(mutator: MutatorId, list: seq<Device>)
    | Notify(notifier: MutatorId)
    | Subscribe
    | TakeSnapshot
    | Send(delivered: bool)
    | Receive
    | Close

  function Current(s: State): seq<Device>
    requires s.versions != []
  {
    s.versions[|s.versions| - 1]
  }

  predicate Initial(s: State) {
    && |s.versions| == 1 && s.midway == {} && s.stream == NotSubscribed
    && s.pending == 0 && s.sent == [] && s.notified == 0
  }

  predicate Enabled(s: State, a: Action) {
    match a
    case Mutate(id, _) => id !in s.midway
    case Notify(id) => id in s.midway
    case Subscribe => s.stream.NotSubscribed?
    case TakeSnapshot => s.stream.MustSnapshot? && s.versions != []
    case Send(delivered) => s.stream.Holding? && (s.sent == [] ==> delivered)
    case Receive => s.stream.Waiting? && s.pending > 0
    case Close => s.stream.Waiting?
  }

  /**
   * A send that is refused ends the stream, and so does a lagging receive. The outcome of the first send is
   * ignored by the source; it cannot be refused, since the reply channel is empty and its receiver still held.
   */
  function Apply(s: State, a: Action): State
    requires Enabled(s, a)
  {
    match a
    case Mutate(id, list) => s.(versions := s.versions + [list], midway := s.midway + {id})
    case Notify(id) =>
      var s1 := s.(midway := s.midway - {id});
      if s.stream.NotSubscribed? || s.stream.Ended? then s1
      else s1.(pending := s.pending + 1, notified := s.notified + 1)
    case Subscribe => s.(stream := MustSnapshot)
    case TakeSnapshot => s.(stream := Holding(Snapshot(Current(s), |s.versions| - 1)))
    case Send(delivered) =>
      if delivered then s.(stream := Waiting, sent := s.sent + [s.stream.snapshot])
      else s.(stream := Ended)
    case Receive =>
      if s.pending > s.capacity then s.(stream := Ended)
      else s.(stream := MustSnapshot, pending := s.pending - 1)
    case Close => s.(stream := Ended)
  }

  predicate CanRun(s: State, actions: seq<Action>)
    decreases actions
  {
    actions != [] ==> Enabled(s, actions[0]) && CanRun(Apply(s, actions[0]), actions[1..])
  }

  function Run(s: State, actions: seq<Action>): State
    requires CanRun(s, actions)
    decreases actions
  {
    if actions == [] then s else Run(Apply(s, actions[0]), actions[1..])
  }

  /** Snapshots taken so far, delivered or about to be. */
  function Taken(s: State): seq<Snapshot> {
    if s.stream.Holding? then s.sent + [s.stream.snapshot] else s.sent
  }

  /** Nothing is under way: no queued notification, no half-finished mutator, and the stream is at its receive. */
  predicate Quiet(s: State) {
    s.stream.Waiting? && s.pending == 0 && s.midway == {}
  }

  /** Every snapshot is a value the list really had, and snapshots never go back in time. */
  ghost predicate Ordered(s: State) {
    && (forall i | 0 <= i < |Taken(s)| ::
          Taken(s)[i].version < |s.versions| && Taken(s)[i].devices == s.versions[Taken(s)[i].version])
    && (forall i, j | 0 <= i < j < |Taken(s)| :: Taken(s)[i].version <= Taken(s)[j].version)
  }

  ghost predicate Invariant(s: State) {
    && s.versions != []
    && Ordered(s)
    && (s.stream.NotSubscribed? ==> s.sent == [] && s.pending == 0 && s.notified == 0)
    // one snapshot for the subscription and one for each notification received
    && (!s.stream.NotSubscribed? && !s.stream.Ended? ==>
          |Taken(s)| + (if s.stream.MustSnapshot? then 1 else 0) + s.pending == s.notified + 1)
    // a snapshot that is out of date will be followed by another
    && (s.stream.Holding? || s.stream.Waiting? ==>
          && Taken(s) != []
          && (s.pending > 0 || s.midway != {} || Taken(s)[|Taken(s)| - 1].version == |s.versions| - 1))
  }

  /** A new snapshot is of the current version, so it keeps the order. */
  lemma SnapshotKeepsInvariant(s: State)
    requires Invariant(s) && Enabled(s, TakeSnapshot)
    ensures Invariant(Apply(s, TakeSnapshot))
  {
    var t := Apply(s, TakeSnapshot);
    assert Taken(s) == s.sent;
    assert Taken(t) == s.sent + [Snapshot(Current(s), |s.versions| - 1)];
    assert forall i | 0 <= i < |s.sent| :: Taken(t)[i] == Taken(s)[i];
  }

  lemma SendKeepsInvariant(s: State, delivered: bool)
    requires Invariant(s) && Enabled(s, Send(delivered))
    ensures Invariant(Apply(s, Send(delivered)))
  {
    var t := Apply(s, Send(delivered));
    assert Taken(s) == s.sent + [s.stream.snapshot];
    if delivered {
      assert Taken(t) == Taken(s);
    } else {
      assert Taken(t) == s.sent;
      assert forall i | 0 <= i < |s.sent| :: Taken(t)[i] == Taken(s)[i];
    }
  }

  lemma MutateKeepsInvariant(s: State, mutator: MutatorId, list: seq<Device>)
    requires Invariant(s) && Enabled(s, Mutate(mutator, list))
    ensures Invariant(Apply(s, Mutate(mutator, list)))
  {
    var t := Apply(s, Mutate(mutator, list));
    assert Taken(t) == Taken(s) && mutator in t.midway;
    assert forall v | 0 <= v < |s.versions| :: t.versions[v] == s.versions[v];
  }

  lemma ApplyKeepsInvariant(s: State, a: Action)
    requires Invariant(s) && Enabled(s, a)
    ensures Invariant(Apply(s, a))
  {
    match a {
      case TakeSnapshot => SnapshotKeepsInvariant(s);
      case Send(delivered) => SendKeepsInvariant(s, delivered);
      case Mutate(mutator, list) => MutateKeepsInvariant(s, mutator, list);
      case _ => assert Taken(Apply(s, a)) == Taken(s);
    }
  }

  lemma {:induction false} RunKeepsInvariant(s: State, actions: seq<Action>)
    requires Invariant(s) && CanRun(s, actions)
    ensures Invariant(Run(s, actions))
    decreases actions
  {
    if actions != [] {
      ApplyKeepsInvariant(s, actions[0]);
      RunKeepsInvariant(Apply(s, actions[0]), actions[1..]);
    }
  }

  // ---- The state, read off the actions ----

  /** The values the list was given, in order. */
  function Lists(actions: seq<Action>): seq<seq<Device>> {
    if actions == [] then []
    else
      var last := actions[|actions| - 1];
      Lists(actions[..|actions| - 1]) + if last.Mutate? then [last.list] else []
  }

  /** Notifications since the subscription began. */
  function Notices(actions: seq<Action>): nat {
    if actions == [] then 0
    else
      var init, last := actions[..|actions| - 1], actions[|actions| - 1];
      Notices(init) + if last.Notify? && Subscribe in init then 1 else 0
  }

  function Receipts(actions: seq<Action>): nat {
    if actions == [] then 0
    else Receipts(actions[..|actions| - 1]) + if actions[|actions| - 1] == Receive then 1 else 0
  }

  /** A step that ends the stream: it is closed, its client is gone, or it receives when its queue has overflowed. */
  predicate EndsAt(actions: seq<Action>, i: nat, capacity: nat)
    requires i < |actions|
  {
    match actions[i]
    case Close => true
    case Send(delivered) => !delivered
    case Receive => Notices(actions[..i]) - Receipts(actions[..i]) > capacity
    case _ => false
  }

  ghost predicate Ends(actions: seq<Action>, capacity: nat) {
    exists i: nat :: i < |actions| && EndsAt(actions, i, capacity)
  }

  lemma EndsOneMore(actions: seq<Action>, a: Action, capacity: nat)
    ensures Ends(actions + [a], capacity) <==>
            Ends(actions, capacity) || EndsAt(actions + [a], |actions|, capacity)
  {
    var more := actions + [a];
    forall i: nat | i < |actions|
      ensures EndsAt(more, i, capacity) <==> EndsAt(actions, i, capacity)
    {
      assert more[i] == actions[i] && more[..i] == actions[..i];
    }
  }

  /** What the actions so far say about the state they lead to. */
  ghost predicate Follows(s: State, actions: seq<Action>, t: State) {
    && t.versions == s.versions + Lists(actions) && t.capacity == s.capacity
    && (t.stream.Ended? <==> Ends(actions, s.capacity))
    && (t.stream.NotSubscribed? <==> Subscribe !in actions)
    && (!t.stream.Ended? ==> t.notified == Notices(actions) && t.pending == Notices(actions) - Receipts(actions))
  }

  lemma FollowsOneMore(s: State, actions: seq<Action>, t: State, a: Action)
    requires Follows(s, actions, t) && Enabled(t, a)
    ensures Follows(s, actions + [a], Apply(t, a))
  {
    var more := actions + [a];
    assert more[..|actions|] == actions && more[|actions|] == a;
    EndsOneMore(actions, a, s.capacity);
  }

  lemma {:induction false} RunFollows(s: State, actions: seq<Action>, t: State, more: seq<Action>)
    requires Follows(s, actions, t) && CanRun(t, more)
    ensures Follows(s, actions + more, Run(t, more))
    decreases more
  {
    if more == [] {
      assert actions + more == actions;
    } else {
      FollowsOneMore(s, actions, t, more[0]);
      assert actions + more == (actions + [more[0]]) + more[1..];
      RunFollows(s, actions + [more[0]], Apply(t, more[0]), more[1..]);
    }
  }

  /**
   * In every run the list has had the values it was given, and the stream has ended exactly if it was closed, its
   * client had gone when a snapshot was sent, or it received with more notifications waiting than its queue holds.
   */
  lemma EndsExactly(s: State, actions: seq<Action>)
    requires Initial(s) && CanRun(s, actions)
    ensures var t := Run(s, actions);
            && t.versions == s.versions + Lists(actions)
            && (t.stream.Ended? <==> Ends(actions, s.capacity))
            && (!t.stream.Ended? ==>
                  t.notified == Notices(actions) && t.pending == Notices(actions) - Receipts(actions))
  {
    assert Follows(s, [], s);
    RunFollows(s, [], s, actions);
    assert [] + actions == actions;
  }

  /**
   * Freshness: under every interleaving, once nothing is under way the last snapshot sent is the list as it was
   * last set. Along the way the snapshots are real list values in order, one per notification and one more.
   */
  lemma QuietStreamIsFresh(s: State, actions: seq<Action>)
    requires Initial(s) && CanRun(s, actions)
    ensures var t := Run(s, actions); var lists := s.versions + Lists(actions);
            && t.versions == lists
            && Ordered(t)
            && (Quiet(t) ==>
                  && t.sent != [] && t.sent[|t.sent| - 1].devices == lists[|lists| - 1]
                  && |t.sent| == Notices(actions) + 1)
  {
    RunKeepsInvariant(s, actions);
    EndsExactly(s, actions);
  }

  // ---- Progress ----

  /** What brings a stream to its receive. */
  function ToReceive(stream: Stream): seq<Action> {
    match stream
    case NotSubscribed => [Subscribe, TakeSnapshot, Send(true)]
    case MustSnapshot => [TakeSnapshot, Send(true)]
    case Holding(_) => [Send(true)]
    case _ => []
  }

  function Notifies(mutators: seq<MutatorId>): seq<Action> {
    if mutators == [] then [] else [Notify(mutators[0])] + Notifies(mutators[1..])
  }

  function Rounds(n: nat): seq<Action> {
    if n == 0 then [] else [Receive, TakeSnapshot, Send(true)] + Rounds(n - 1)
  }

  lemma {:induction false} InTurn(s: State, first: seq<Action>, rest: seq<Action>)
    requires CanRun(s, first)
    ensures CanRun(s, first + rest) <==> CanRun(Run(s, first), rest)
    ensures CanRun(s, first + rest) ==> Run(s, first + rest) == Run(Run(s, first), rest)
    decreases first
  {
    if first == [] {
      assert first + rest == rest;
    } else {
      assert (first + rest)[1..] == first[1..] + rest;
      InTurn(Apply(s, first[0]), first[1..], rest);
    }
  }

  lemma Delivers(s: State)
    requires s.stream.MustSnapshot? && s.versions != []
    ensures CanRun(s, [TakeSnapshot, Send(true)])
    ensures Run(s, [TakeSnapshot, Send(true)]) ==
            s.(stream := Waiting, sent := s.sent + [Snapshot(Current(s), |s.versions| - 1)])
  {
    var holding := Apply(s, TakeSnapshot);
    assert [TakeSnapshot, Send(true)][1..] == [Send(true)] && [Send(true)][1..] == [];
    assert Run(holding, [Send(true)]) == Apply(holding, Send(true));
  }

  /** The stream gets to its receive, and the list and its mutators stay as they are. */
  lemma ReachesReceive(s: State)
    requires Invariant(s) && !s.stream.Ended?
    ensures var steps := ToReceive(s.stream);
            && CanRun(s, steps)
            && var t := Run(s, steps);
               && t.stream.Waiting? && t.versions == s.versions && t.midway == s.midway
               && t.pending == s.pending && t.capacity == s.capacity
  {
    match s.stream {
      case NotSubscribed =>
        assert ToReceive(s.stream)[1..] == [TakeSnapshot, Send(true)];
        Delivers(Apply(s, Subscribe));
      case MustSnapshot => Delivers(s);
      case Holding(_) => assert [Send(true)][1..] == [];
      case Waiting =>
    }
  }

  lemma {:induction false} MutatorsNotify(s: State, mutators: seq<MutatorId>)
    requires s.stream.Waiting? && Distinct(mutators) && forall m :: m in mutators <==> m in s.midway
    ensures CanRun(s, Notifies(mutators))
    ensures Run(s, Notifies(mutators)) ==
            s.(midway := {}, pending := s.pending + |mutators|, notified := s.notified + |mutators|)
    decreases mutators
  {
    if mutators == [] {
      assert s.midway == {};
    } else {
      var m, rest := mutators[0], mutators[1..];
      assert Notifies(mutators)[1..] == Notifies(rest);
      assert forall m' :: m' in mutators <==> m' == m || m' in rest;
      MutatorsNotify(Apply(s, Notify(m)), rest);
    }
  }

  lemma {:induction false} RoundsDrain(s: State)
    requires s.stream.Waiting? && s.versions != [] && s.pending <= s.capacity && s.midway == {}
    ensures CanRun(s, Rounds(s.pending))
    ensures var t := Run(s, Rounds(s.pending)); Quiet(t) && t.versions == s.versions
    decreases s.pending
  {
    if s.pending > 0 {
      var round := [Receive, TakeSnapshot, Send(true)];
      var received := Apply(s, Receive);
      assert round[1..] == [TakeSnapshot, Send(true)];
      Delivers(received);
      InTurn(s, round, Rounds(s.pending - 1));
      RoundsDrain(Run(s, round));
    }
  }

  /**
   * Progress: from any point of any run at which the stream has not ended and its queue has room for the
   * notifications still owed, it becomes quiet, with the current list sent, once the mutators that are midway have
   * notified, in whatever order, and every notification has been received.
   */
  lemma CatchesUp(s: State, mutators: seq<MutatorId>)
    requires Invariant(s) && !s.stream.Ended? && s.pending + |mutators| <= s.capacity
    requires Distinct(mutators) && forall m :: m in mutators <==> m in s.midway
    ensures var steps := ToReceive(s.stream) + Notifies(mutators) + Rounds(s.pending + |mutators|);
            && CanRun(s, steps)
            && var t := Run(s, steps);
               Quiet(t) && t.sent != [] && t.sent[|t.sent| - 1].devices == Current(s)
  {
    var first, second, third := ToReceive(s.stream), Notifies(mutators), Rounds(s.pending + |mutators|);
    ReachesReceive(s);
    var waiting := Run(s, first);
    MutatorsNotify(waiting, mutators);
    var notified := Run(waiting, second);
    RoundsDrain(notified);
    InTurn(s, first, second);
    InTurn(s, first + second, third);
    RunKeepsInvariant(s, first + second + third);
  }

  /** A client that rebuilds its slab from the last snapshot of a quiet stream mirrors the server's device map. */
  lemma QuietClientMirrorsServer(s: State, actions: seq<Action>, entries: seq<Entry>, m: DeviceMap,
                                 keys: map<Uuid, nat>)
    requires Initial(s) && CanRun(s, actions) && Quiet(Run(s, actions))
    requires Run(s, actions).versions != [] && Current(Run(s, actions)) == Devices(entries)
    requires Represents(Uuids(entries), entries, m)
    requires var sent := Run(s, actions).sent;
             sent != [] && IsIndex(keys, Carried(sent[|sent| - 1].devices, RoundTrip))
    ensures var sent := Run(s, actions).sent; sent[|sent| - 1].devices == Devices(entries)
    ensures Mirrors(keys, Carried(Devices(entries), RoundTrip), m, RoundTrip)
  {
    QuietStreamIsFresh(s, actions);
    WireKeepsUuids();
    CarriedListMirrors(entries, m, RoundTrip, keys);
  }
}
