/**
 * The shot delay of one device with a live handler. It lives in a map and in a watch channel;
 * setters write first the one and then the other, under separate locks, and the handler copies every
 * new watch value back into the map. Any number of setters and the handler interleave freely.
 */
module ShotDelay {
  import opened Common

  /** A setter is a request being served, or the handler itself serving a queued `SetShotDelay`. */
  type SetterId = nat

  /**
   * Where the handler is: waiting, between the two writes of a queued message, or between reading the watch
   * and writing the map.
   */
  datatype Handler = Waiting | Setting(ms: U16) | Echoing(read: U32)

  datatype State = State(
    delays: Option<U16>,
    watch: U32,
    /** Whether the handler has read the latest watch value; every send clears it, even of an equal value. */
    seen: bool,
    midway: map<SetterId, U16>,
    queue: seq<U16>,
    handler: Handler)

  datatype Action =
    | WriteMap(setter: SetterId, ms: U16)
    | SendWatch(sender: SetterId)
    | Enqueue(queued: U16)
    | TakeMessage
    | FinishMessage
    | ReadWatch
    | WriteEcho

  /**
   * The handler has just subscribed: the stream still owes it the current value. Setters may be midway
   * and messages may be queued already.
   */
  predicate Initial(s: State) {
    s.watch < 0x1_0000 && !s.seen && s.handler == Waiting
  }

  predicate Enabled(s: State, a: Action) {
    match a
    case WriteMap(id, _) => id !in s.midway
    case SendWatch(id) => id in s.midway
    case Enqueue(_) => true
    case TakeMessage => s.handler == Waiting && s.queue != []
    case FinishMessage => s.handler.Setting?
    case ReadWatch => s.handler == Waiting && !s.seen
    case WriteEcho => s.handler.Echoing?
  }

  /** The echo's cast keeps the low sixteen bits. */
  function Cast(x: U32): U16 {
    x % 0x1_0000
  }

  function Apply(s: State, a: Action): State
    requires Enabled(s, a)
  {
    match a
    case WriteMap(id, ms) => s.(delays := Some(ms), midway := s.midway[id := ms])
    case SendWatch(id) => s.(watch := s.midway[id], seen := false, midway := s.midway - {id})
    case Enqueue(ms) => s.(queue := s.queue + [ms])
    case TakeMessage => s.(delays := Some(s.queue[0]), queue := s.queue[1..], handler := Setting(s.queue[0]))
    case FinishMessage => s.(watch := s.handler.ms, seen := false, handler := Waiting)
    case ReadWatch => s.(seen := true, handler := Echoing(s.watch))
    case WriteEcho => s.(delays := Some(Cast(s.handler.read)), handler := Waiting)
  }

  ghost predicate CanRun(s: State, actions: seq<Action>)
    decreases actions
  {
    actions != [] ==> Enabled(s, actions[0]) && CanRun(Apply(s, actions[0]), actions[1..])
  }

  function Run(s: State, actions: seq<Action>): State
    requires CanRun(s, actions)
    decreases actions
  {
    if actions == [] then s else Run(Apply(s, actions[0]), actions[1..])
  }

  /** No setter is between its two writes and the handler has dealt with the latest watch value. */
  predicate Settled(s: State) {
    s.midway == map[] && s.handler == Waiting && s.seen
  }

  predicate Invariant(s: State) {
    && s.watch < 0x1_0000
    && (s.handler.Echoing? ==> s.handler.read < 0x1_0000)
    && (s.handler.Echoing? && s.seen ==> s.handler.read == s.watch)
    && (Settled(s) ==> s.delays == Some(Cast(s.watch)))
  }

  lemma ApplyKeepsInvariant(s: State, a: Action)
    requires Invariant(s) && Enabled(s, a)
    ensures Invariant(Apply(s, a))
  {
    if a.SendWatch? {
      assert !Apply(s, a).seen;
    }
    if a.WriteMap? {
      assert a.setter in Apply(s, a).midway;
    }
  }

  lemma {:induction false} RunKeepsInvariant(s: State, actions: seq<Action>)
    requires Invariant(s) && CanRun(s, actions)
    ensures Invariant(Run(s, actions))
    decreases actions
  {
    if actions != [] {
      ApplyKeepsInvariant(s, actions[0]);
      RunKeepsInvariant(Apply(s, actions[0]), actions[1..]);
    }
  }

  // ---- The state, read off the actions ----

  /** The delays that the handler is to serve, in order: one it was serving already, those queued, those enqueued. */
  function Requests(s: State, actions: seq<Action>): seq<U16> {
    if actions == [] then (if s.handler.Setting? then [s.handler.ms] else []) + s.queue
    else
      var init, last := actions[..|actions| - 1], actions[|actions| - 1];
      Requests(s, init) + if last.Enqueue? then [last.queued] else []
  }

  /** How many of them it has finished. */
  function Finished(actions: seq<Action>): nat {
    if actions == [] then 0
    else Finished(actions[..|actions| - 1]) + if actions[|actions| - 1] == FinishMessage then 1 else 0
  }

  /** What a setter wrote into the map and has not sent yet. */
  function Owed(s: State, actions: seq<Action>, id: SetterId): Option<U16> {
    if actions == [] then if id in s.midway then Some(s.midway[id]) else None
    else
      var init := actions[..|actions| - 1];
      match actions[|actions| - 1]
      case WriteMap(setter, ms) => if setter == id then Some(ms) else Owed(s, init, id)
      case SendWatch(sender) => if sender == id then None else Owed(s, init, id)
      case _ => Owed(s, init, id)
  }

  function Nth(values: seq<U16>, n: nat): Option<U16> {
    if n < |values| then Some(values[n]) else None
  }

  /**
   * Every value sent to the watch, in order: a setter sends what it wrote into the map itself, and the
   * handler sends the requests one after the other, first come, first served.
   */
  function Sends(s: State, actions: seq<Action>): seq<Option<U16>> {
    if actions == [] then []
    else
      var init := actions[..|actions| - 1];
      match actions[|actions| - 1]
      case SendWatch(id) => Sends(s, init) + [Owed(s, init, id)]
      case FinishMessage => Sends(s, init) + [Nth(Requests(s, init), Finished(init))]
      case _ => Sends(s, init)
  }

  /** The value sent last, or the one that the run started from. */
  function Asked(s: State, actions: seq<Action>): Option<U32> {
    var sends := Sends(s, actions);
    if sends == [] then Some(s.watch)
    else match sends[|sends| - 1]
      case Some(ms) => Some(ms)
      case None => None
  }

  /** What the handler read from the watch last. */
  function Read(s: State, actions: seq<Action>): Option<U32> {
    if actions == [] then if s.handler.Echoing? then Some(s.handler.read) else None
    else
      var init := actions[..|actions| - 1];
      if actions[|actions| - 1] == ReadWatch then Asked(s, init) else Read(s, init)
  }

  /** What was written into the map last: by a setter, for the request next in line, or as an echo. */
  function Written(s: State, actions: seq<Action>): Option<U16> {
    if actions == [] then s.delays
    else
      var init := actions[..|actions| - 1];
      match actions[|actions| - 1]
      case WriteMap(_, ms) => Some(ms)
      case TakeMessage => Nth(Requests(s, init), Finished(init))
      case WriteEcho => (match Read(s, init) case Some(read) => Some(Cast(read)) case None => None)
      case _ => Written(s, init)
  }

  /** The state is what the actions say: the requests not finished, in order, what setters owe, and both stores. */
  ghost predicate Follows(s: State, actions: seq<Action>, t: State) {
    && Finished(actions) <= |Requests(s, actions)|
    && (if t.handler.Setting? then [t.handler.ms] else []) + t.queue == Requests(s, actions)[Finished(actions)..]
    && (forall id: SetterId :: Owes(s, actions, t, id))
    && Some(t.watch) == Asked(s, actions)
    && (t.handler.Echoing? ==> Some(t.handler.read) == Read(s, actions))
    && t.delays == Written(s, actions)
  }

  predicate Owes(s: State, actions: seq<Action>, t: State, id: SetterId) {
    (if id in t.midway then Some(t.midway[id]) else None) == Owed(s, actions, id)
  }

  lemma FollowsSetter(s: State, actions: seq<Action>, t: State, a: Action)
    requires Follows(s, actions, t) && Enabled(t, a) && (a.WriteMap? || a.SendWatch? || a.Enqueue?)
    ensures Follows(s, actions + [a], Apply(t, a))
  {
    assert (actions + [a])[..|actions|] == actions;
    forall id: SetterId
      ensures Owes(s, actions + [a], Apply(t, a), id)
    {
      assert Owes(s, actions, t, id);
    }
    if a.SendWatch? {
      assert Owes(s, actions, t, a.sender);
    }
    if a.Enqueue? {
      var requests, n := Requests(s, actions), Finished(actions);
      assert (requests + [a.queued])[n..] == requests[n..] + [a.queued];
    }
  }

  lemma NextRequest(requests: seq<U16>, n: nat, ms: U16, rest: seq<U16>)
    requires n <= |requests| && [ms] + rest == requests[n..]
    ensures n < |requests| && requests[n] == ms && rest == requests[n + 1..]
  {
    assert requests[n..][0] == ms;
    assert ([ms] + rest)[1..] == rest && requests[n..][1..] == requests[n + 1..];
  }

  lemma FollowsTake(s: State, actions: seq<Action>, t: State)
    requires Follows(s, actions, t) && Enabled(t, TakeMessage)
    ensures Follows(s, actions + [TakeMessage], Apply(t, TakeMessage))
  {
    assert (actions + [TakeMessage])[..|actions|] == actions;
    OwesTheSame(s, actions, t, TakeMessage);
    assert [] + t.queue == t.queue == [t.queue[0]] + t.queue[1..];
    NextRequest(Requests(s, actions), Finished(actions), t.queue[0], t.queue[1..]);
  }

  lemma FollowsFinish(s: State, actions: seq<Action>, t: State)
    requires Follows(s, actions, t) && Enabled(t, FinishMessage)
    ensures Follows(s, actions + [FinishMessage], Apply(t, FinishMessage))
  {
    assert (actions + [FinishMessage])[..|actions|] == actions;
    OwesTheSame(s, actions, t, FinishMessage);
    NextRequest(Requests(s, actions), Finished(actions), t.handler.ms, t.queue);
    assert [] + t.queue == t.queue;
  }

  lemma OwesTheSame(s: State, actions: seq<Action>, t: State, a: Action)
    requires Follows(s, actions, t) && Enabled(t, a) && !a.WriteMap? && !a.SendWatch?
    ensures forall id: SetterId :: Owes(s, actions + [a], Apply(t, a), id)
  {
    assert (actions + [a])[..|actions|] == actions;
    forall id: SetterId
      ensures Owes(s, actions + [a], Apply(t, a), id)
    {
      assert Owes(s, actions, t, id);
    }
  }

  lemma FollowsEcho(s: State, actions: seq<Action>, t: State, a: Action)
    requires Follows(s, actions, t) && Enabled(t, a) && (a.ReadWatch? || a.WriteEcho?)
    ensures Follows(s, actions + [a], Apply(t, a))
  {
    assert (actions + [a])[..|actions|] == actions;
    OwesTheSame(s, actions, t, a);
  }

  lemma {:induction false} RunFollows(s: State, actions: seq<Action>, t: State, more: seq<Action>)
    requires Follows(s, actions, t) && CanRun(t, more)
    ensures Follows(s, actions + more, Run(t, more))
    decreases more
  {
    if more == [] {
      assert actions + more == actions;
    } else {
      var a := more[0];
      if a.WriteMap? || a.SendWatch? || a.Enqueue? {
        FollowsSetter(s, actions, t, a);
      } else if a == TakeMessage {
        FollowsTake(s, actions, t);
      } else if a == FinishMessage {
        FollowsFinish(s, actions, t);
      } else {
        FollowsEcho(s, actions, t, a);
      }
      assert actions + more == (actions + [a]) + more[1..];
      RunFollows(s, actions + [a], Apply(t, a), more[1..]);
    }
  }

  /**
   * From any state, over every run, the handler serves requests in the order in which they were made, every setter
   * sends what it last wrote itself, and the watch and the map hold what was sent and written last.
   */
  lemma FirstComeFirstServed(s: State, actions: seq<Action>)
    requires CanRun(s, actions)
    ensures Follows(s, actions, Run(s, actions))
  {
    assert Requests(s, [])[0..] == Requests(s, []);
    forall id: SetterId
      ensures Owes(s, [], s, id)
    {
    }
    RunFollows(s, [], s, actions);
    assert [] + actions == actions;
  }

  /**
   * Convergence: under every interleaving, whenever no setter is midway and the handler has echoed the
   * latest watch value, the map agrees with the watch, and both hold the value that was asked for last. Watch
   * values always fit in sixteen bits, so the echo loses nothing.
   */
  lemma Converges(s: State, actions: seq<Action>)
    requires Initial(s) && CanRun(s, actions)
    ensures var t := Run(s, actions);
            && t.watch < 0x1_0000
            && (t.handler.Echoing? ==> Cast(t.handler.read) == t.handler.read)
            && (Settled(t) ==> t.delays == Asked(s, actions) == Some(t.watch))
  {
    RunKeepsInvariant(s, actions);
    FirstComeFirstServed(s, actions);
  }

  /** Without the handler's echo the two can disagree for good: two setters that cross leave different values behind. */
  lemma EchoIsNeeded(s: State, x: U16, y: U16)
    requires Initial(s) && s.midway == map[] && x != y
    ensures var crossing := [WriteMap(0, x), WriteMap(1, y), SendWatch(1), SendWatch(0)];
            && CanRun(s, crossing)
            && Run(s, crossing).midway == map[] && Run(s, crossing).delays == Some(y) && Run(s, crossing).watch == x
  {
    var s1 := Apply(s, WriteMap(0, x));
    var s2 := Apply(s1, WriteMap(1, y));
    var s3 := Apply(s2, SendWatch(1));
    First(s, WriteMap(0, x), [WriteMap(1, y), SendWatch(1), SendWatch(0)]);
    First(s1, WriteMap(1, y), [SendWatch(1), SendWatch(0)]);
    First(s2, SendWatch(1), [SendWatch(0)]);
    First(s3, SendWatch(0), []);
    assert Apply(s3, SendWatch(0)).midway == map[];
  }

  /** One action of a run, and the rest. */
  lemma First(s: State, a: Action, rest: seq<Action>)
    ensures CanRun(s, [a] + rest) <==> Enabled(s, a) && CanRun(Apply(s, a), rest)
    ensures CanRun(s, [a] + rest) ==> Run(s, [a] + rest) == Run(Apply(s, a), rest)
  {
    assert ([a] + rest)[1..] == rest;
  }

  /** What brings the handler back to waiting, and what serves so many queued requests. */
  function ToWaiting(h: Handler): seq<Action> {
    match h
    case Setting(_) => [FinishMessage]
    case Echoing(_) => [WriteEcho]
    case Waiting => []
  }

  function Serve(n: nat): seq<Action> {
    if n == 0 then [] else [TakeMessage, FinishMessage] + Serve(n - 1)
  }

  function Work(s: State): seq<Action> {
    ToWaiting(s.handler) + Serve(|s.queue|)
  }

  function Echo(due: bool): seq<Action> {
    if due then [ReadWatch, WriteEcho] else []
  }

  /** The handler's own work to reach a settled state once setters are quiet: its queue, then the echo if it is due. */
  function Finish(s: State): seq<Action> {
    Work(s) + Echo(s.handler.Setting? || s.queue != [] || !s.seen)
  }

  lemma {:induction false} InTurn(s: State, first: seq<Action>, rest: seq<Action>)
    requires CanRun(s, first)
    ensures CanRun(s, first + rest) <==> CanRun(Run(s, first), rest)
    ensures CanRun(s, first + rest) ==> Run(s, first + rest) == Run(Run(s, first), rest)
    decreases first
  {
    if first == [] {
      assert first + rest == rest;
    } else {
      assert (first + rest)[1..] == first[1..] + rest;
      InTurn(Apply(s, first[0]), first[1..], rest);
    }
  }

  lemma GetsWaiting(s: State)
    ensures CanRun(s, ToWaiting(s.handler))
    ensures var t := Run(s, ToWaiting(s.handler));
            && t.handler == Waiting && t.midway == s.midway && t.queue == s.queue
            && t.seen == (s.seen && !s.handler.Setting?)
  {
    if s.handler != Waiting {
      var a := ToWaiting(s.handler)[0];
      First(s, a, []);
      assert ToWaiting(s.handler) == [a] + [] && Run(Apply(s, a), []) == Apply(s, a);
    }
  }

  lemma {:induction false} ServesQueue(s: State)
    requires s.handler == Waiting
    ensures CanRun(s, Serve(|s.queue|)) && |Serve(|s.queue|)| == 2 * |s.queue|
    ensures var t := Run(s, Serve(|s.queue|));
            && t.handler == Waiting && t.midway == s.midway && t.queue == [] && t.seen == (s.seen && s.queue == [])
    decreases |s.queue|
  {
    if s.queue != [] {
      var taken := Apply(s, TakeMessage);
      var rest := Serve(|s.queue| - 1);
      ServesQueue(Apply(taken, FinishMessage));
      First(taken, FinishMessage, rest);
      First(s, TakeMessage, [FinishMessage] + rest);
      assert Serve(|s.queue|) == [TakeMessage] + ([FinishMessage] + rest);
    }
  }

  lemma Works(s: State)
    ensures CanRun(s, Work(s))
    ensures |Work(s)| == 2 * |s.queue| + if s.handler == Waiting then 0 else 1
    ensures var t := Run(s, Work(s));
            && t.handler == Waiting && t.midway == s.midway && t.queue == []
            && t.seen == (s.seen && !s.handler.Setting? && s.queue == [])
  {
    GetsWaiting(s);
    ServesQueue(Run(s, ToWaiting(s.handler)));
    InTurn(s, ToWaiting(s.handler), Serve(|s.queue|));
  }

  lemma Echoes(s: State)
    requires s.handler == Waiting && s.midway == map[] && s.queue == []
    ensures CanRun(s, Echo(!s.seen)) && |Echo(!s.seen)| <= 2
    ensures var t := Run(s, Echo(!s.seen)); Settled(t) && t.queue == []
  {
    if !s.seen {
      First(s, ReadWatch, [WriteEcho]);
      First(Apply(s, ReadWatch), WriteEcho, []);
      assert Echo(true) == [ReadWatch] + [WriteEcho] && [WriteEcho] == [WriteEcho] + [];
    }
  }

  lemma SettledAgrees(s: State, actions: seq<Action>)
    requires Invariant(s) && CanRun(s, actions) && Settled(Run(s, actions))
    ensures Run(s, actions).delays == Some(Run(s, actions).watch)
  {
    RunKeepsInvariant(s, actions);
  }

  lemma Finishes(s: State, worked: State)
    requires s.midway == map[] && CanRun(s, Work(s)) && worked == Run(s, Work(s))
    ensures CanRun(s, Finish(s)) && |Finish(s)| <= 3 + 2 * |s.queue|
    ensures var t := Run(s, Finish(s)); Settled(t) && t.queue == []
  {
    Works(s);
    Echoes(worked);
    InTurn(s, Work(s), Echo(!worked.seen));
    assert Finish(s) == Work(s) + Echo(!worked.seen);
  }

  /**
   * From every reachable state in which no setter is midway, the handler serves what is queued, in two steps each, and
   * at most three steps more settle it.
   */
  lemma {:induction false} HandlerSettles(s: State)
    requires Invariant(s) && s.midway == map[]
    ensures |Finish(s)| <= 3 + 2 * |s.queue| && CanRun(s, Finish(s))
    ensures var t := Run(s, Finish(s)); Settled(t) && t.queue == [] && t.delays == Some(t.watch)
  {
    Works(s);
    Finishes(s, Run(s, Work(s)));
    SettledAgrees(s, Finish(s));
  }
}
