/** The ring buffer of tracking events, nearest-timestamp lookup, and the two clients that use it. */
module TrackingHistory {
  import opened Common

  /** `sample` stands for the pose, aim point and distance, which nothing here computes with. */
  datatype TrackingEvent = TrackingEvent(timestamp: U32, screenId: U32, sample: nat)

  function AbsDiff(a: U32, b: U32): U32 {
    if a < b then b - a else a - b
  }

  function Min(a: nat, b: nat): nat {
    if a < b then a else b
  }

  function Last<T>(s: seq<T>, n: nat): seq<T>
    requires n <= |s|
  {
    s[|s| - n..]
  }

  /** The slot holding the `k`-th oldest of the kept events, when the next write goes to `head`. */
  function SlotOfAge(k: nat, kept: nat, capacity: nat, head: nat): nat {
    if kept < capacity then k
    else if head + k < capacity then head + k
    else head + k - capacity
  }

  function Values(slots: seq<Option<TrackingEvent>>): (events: seq<TrackingEvent>)
    requires forall i | 0 <= i < |slots| :: slots[i].Some?
  {
    seq(|slots|, i requires 0 <= i < |slots| => slots[i].value)
  }

  lemma NextHead(head: nat, capacity: nat)
    requires head < capacity
    ensures (head + 1) % capacity == if head + 1 == capacity then 0 else head + 1
    ensures (head + capacity - 1) % capacity == if head == 0 then capacity - 1 else head - 1
  {
    if head + 1 == capacity {
      ModOfSum(0, capacity);
    } else {
      ModSmall(head + 1, capacity);
    }
    if head == 0 {
      ModSmall(capacity - 1, capacity);
    } else {
      ModOfSum(head - 1, capacity);
    }
  }

  lemma ModSmall(a: nat, b: nat)
    requires a < b
    ensures a % b == a
  {
  }

  lemma ModOfSum(a: nat, b: nat)
    requires a < b
    ensures (a + b) % b == a
  {
    assert a + b == b * 1 + a;
  }

  /**
   * `r` is an event of least distance to `t` among the slots, the lowest slot on ties;
   * an event at the greatest possible distance is never picked.
   */
  ghost predicate IsClosest(slots: seq<TrackingEvent>, t: U32, r: Option<TrackingEvent>) {
    match r
    case None => forall i | 0 <= i < |slots| :: AbsDiff(slots[i].timestamp, t) == U32_MAX
    case Some(e) =>
      exists i :: && 0 <= i < |slots| && slots[i] == e && AbsDiff(e.timestamp, t) < U32_MAX
                  && (forall j | 0 <= j < |slots| :: AbsDiff(e.timestamp, t) <= AbsDiff(slots[j].timestamp, t))
                  && (forall j | 0 <= j < i :: AbsDiff(e.timestamp, t) < AbsDiff(slots[j].timestamp, t))
  }

  lemma ClosestIsUnique(slots: seq<TrackingEvent>, t: U32, r: Option<TrackingEvent>, r': Option<TrackingEvent>)
    requires IsClosest(slots, t, r) && IsClosest(slots, t, r')
    ensures r == r'
  {
    if r.Some? && r'.Some? {
      var i :| && 0 <= i < |slots| && slots[i] == r.value
               && (forall j | 0 <= j < i :: AbsDiff(r.value.timestamp, t) < AbsDiff(slots[j].timestamp, t));
      var i' :| && 0 <= i' < |slots| && slots[i'] == r'.value
                && (forall j | 0 <= j < i' :: AbsDiff(r'.value.timestamp, t) < AbsDiff(slots[j].timestamp, t));
      assert i == i';
    }
  }

  class TrackingHistory {
    var buffer: array<Option<TrackingEvent>>
    var head: nat
    var full: bool
    const capacity: nat
    /** Every event ever pushed, oldest first. */
    ghost var pushed: seq<TrackingEvent>

    ghost predicate Valid()
      reads this, buffer
    {
      && buffer.Length == capacity
      && (if capacity == 0 then head == 0 && !full && pushed == [] else head < capacity)
      && (if full then |pushed| >= capacity + head else |pushed| == head)
      && (forall i | 0 <= i < head :: buffer[i] == Some(pushed[|pushed| - head + i]))
      && (forall i | head <= i < capacity ::
            buffer[i] == if full then Some(pushed[|pushed| - head - capacity + i]) else None)
    }

    function ScanLength(): nat
      reads this
    {
      if full then capacity else head
    }

    /** The events in slot order, over the slots that a lookup scans. */
    ghost function Slots(): seq<TrackingEvent>
      requires Valid()
      reads this, buffer
    {
      Values(buffer[..ScanLength()])
    }

    constructor (capacity: nat)
      ensures Valid() && fresh(buffer)
      ensures this.capacity == capacity && pushed == []
    {
      buffer := new Option<TrackingEvent>[capacity](_ => None);
      head, full := 0, false;
      this.capacity := capacity;
      pushed := [];
    }

    /** With no capacity the source panics on the first push. */
    method Push(event: TrackingEvent)
      requires Valid() && capacity > 0
      modifies this, buffer
      ensures Valid() && buffer == old(buffer)
      ensures pushed == old(pushed) + [event]
    {
      NextHead(head, capacity);
      buffer[head] := Some(event);
      pushed := pushed + [event];
      head := (head + 1) % capacity;
      if head == 0 {
        full := true;
      }
    }

    lemma SlotHoldsPush(k: nat)
      requires Valid() && k < ScanLength()
      ensures SlotOfAge(k, ScanLength(), capacity, head) < ScanLength() <= |pushed|
      ensures Slots()[SlotOfAge(k, ScanLength(), capacity, head)] == Last(pushed, ScanLength())[k]
    {
      var slot := SlotOfAge(k, ScanLength(), capacity, head);
      assert buffer[slot] == Some(pushed[|pushed| - ScanLength() + k]);
    }

    /** The scanned slots hold exactly the last min(n, capacity) pushes, each once; the other slots are empty. */
    lemma SlotsAreLastPushes()
      requires Valid()
      ensures ScanLength() == Min(|pushed|, capacity)
      ensures forall i | ScanLength() <= i < capacity :: buffer[i] == None
      ensures forall k: nat | k < ScanLength() :: SlotOfAge(k, ScanLength(), capacity, head) < ScanLength()
      ensures forall j: nat, k: nat | j < k < ScanLength() ::
                SlotOfAge(j, ScanLength(), capacity, head) != SlotOfAge(k, ScanLength(), capacity, head)
      ensures forall k: nat | k < ScanLength() ::
                Slots()[SlotOfAge(k, ScanLength(), capacity, head)] == Last(pushed, ScanLength())[k]
    {
      forall k: nat | k < ScanLength()
        ensures SlotOfAge(k, ScanLength(), capacity, head) < ScanLength()
        ensures Slots()[SlotOfAge(k, ScanLength(), capacity, head)] == Last(pushed, ScanLength())[k]
      {
        SlotHoldsPush(k);
      }
    }

    lemma ScannedIffRecent(e: TrackingEvent)
      requires Valid() && ScanLength() <= |pushed|
      ensures e in Slots() <==> e in Last(pushed, ScanLength())
    {
      var n, recent := ScanLength(), Last(pushed, ScanLength());
      if e in Slots() {
        var i :| 0 <= i < n && Slots()[i] == e;
        var k := if !full then i else if i < head then i + capacity - head else i - head;
        SlotHoldsPush(k);
        assert recent[k] == e;
      }
      if e in recent {
        var k :| 0 <= k < n && recent[k] == e;
        SlotHoldsPush(k);
      }
    }

    /**
     * What a lookup finds, in terms of the pushes: one of the last min(n, capacity) events and none of
     * them nearer; nothing exactly when all of them are at the greatest possible distance.
     */
    lemma ClosestAmongLastPushes(t: U32, r: Option<TrackingEvent>)
      requires Valid() && IsClosest(Slots(), t, r)
      ensures ScanLength() == Min(|pushed|, capacity)
      ensures var recent := Last(pushed, Min(|pushed|, capacity));
              && (r.None? <==> forall e | e in recent :: AbsDiff(e.timestamp, t) == U32_MAX)
              && (r.Some? ==> r.value in recent
                              && forall e | e in recent :: AbsDiff(r.value.timestamp, t) <= AbsDiff(e.timestamp, t))
    {
      SlotsAreLastPushes();
      var recent := Last(pushed, ScanLength());
      forall e
        ensures e in Slots() <==> e in recent
      {
        ScannedIffRecent(e);
      }
      if r.Some? {
        assert r.value in Slots();
      }
    }

    method Latest() returns (r: Option<TrackingEvent>)
      requires Valid()
      ensures r == if pushed == [] then None else Some(pushed[|pushed| - 1])
    {
      if head == 0 && !full {
        return None;
      }
      NextHead(head, capacity);
      var idx := (head + capacity - 1) % capacity;
      r := buffer[idx];
    }

    method GetClosest(timestamp: U32) returns (best: Option<TrackingEvent>)
      requires Valid()
      ensures IsClosest(Slots(), timestamp, best)
    {
      var len := if full then capacity else head;
      best := None;
      var bestDiff: U32 := U32_MAX;
      for i := 0 to len
        invariant IsClosest(Slots()[..i], timestamp, best)
        invariant bestDiff == if best.Some? then AbsDiff(best.value.timestamp, timestamp) else U32_MAX
      {
        if buffer[i].Some? {
          var ev := buffer[i].value;
          assert Slots()[..i + 1] == Slots()[..i] + [ev];
          var diff := AbsDiff(ev.timestamp, timestamp);
          if diff < bestDiff {
            bestDiff := diff;
            best := Some(ev);
            assert Slots()[..i + 1][i] == ev;
          } else if best.Some? {
            KeepClosest(Slots()[..i], ev, timestamp, best);
          }
        }
      }
      assert Slots()[..len] == Slots();
    }
  }

  lemma KeepClosest(slots: seq<TrackingEvent>, ev: TrackingEvent, t: U32, best: Option<TrackingEvent>)
    requires best.Some? && IsClosest(slots, t, best) && AbsDiff(ev.timestamp, t) >= AbsDiff(best.value.timestamp, t)
    ensures IsClosest(slots + [ev], t, best)
  {
    var i :| && 0 <= i < |slots| && slots[i] == best.value
             && (forall j | 0 <= j < i :: AbsDiff(best.value.timestamp, t) < AbsDiff(slots[j].timestamp, t));
    assert (slots + [ev])[i] == best.value;
  }

  /** An accessory has no clock of its own; its impacts carry this timestamp. */
  const ACCESSORY_TIMESTAMP := U32_MAX

  /** The one number that gives `a` back when `b` is added in 32 bits. */
  function WrappingSub(a: U32, b: U32): (r: U32)
    ensures r + b == a || r + b == a + 0x1_0000_0000
  {
    (a - b) % 0x1_0000_0000
  }

  /** Milliseconds to microseconds in 32 bits; for every 16-bit delay the product is the true one. */
  function DelayMicros(delayMs: U16): (us: U32)
    ensures us == delayMs * 1000
  {
    (delayMs * 1000) % 0x1_0000_0000
  }

  /** The desktop's timestamp: an empty history leaves the sentinel as it is. */
  method DesktopLookup(history: TrackingHistory, impact: U32, delayMs: U16)
    returns (timestamp: U32, event: Option<TrackingEvent>)
    requires history.Valid()
    ensures history.pushed == [] && impact == ACCESSORY_TIMESTAMP ==> timestamp == ACCESSORY_TIMESTAMP
    ensures !(history.pushed == [] && impact == ACCESSORY_TIMESTAMP) ==>
              timestamp == WrappingSub(Base(history.pushed, impact), DelayMicros(delayMs))
    ensures IsClosest(history.Slots(), timestamp, event)
  {
    var delayUs := DelayMicros(delayMs);
    if impact == U32_MAX {
      var latest := history.Latest();
      timestamp := if latest.Some? then WrappingSub(latest.value.timestamp, delayUs) else U32_MAX;
    } else {
      timestamp := WrappingSub(impact, delayUs);
    }
    event := history.GetClosest(timestamp);
  }

  /** The Python client subtracts the delay from the sentinel too, over unbounded integers, then masks. */
  method PythonLookup(history: TrackingHistory, impact: U32, delayMs: U16)
    returns (timestamp: U32, event: Option<TrackingEvent>)
    requires history.Valid()
    ensures timestamp == WrappingSub(Base(history.pushed, impact), DelayMicros(delayMs))
    ensures IsClosest(history.Slots(), timestamp, event)
  {
    var delayUs: int := delayMs as int * 1000;
    var base: int := impact;
    if impact == ACCESSORY_TIMESTAMP {
      var latest := history.Latest();
      base := if latest.Some? then latest.value.timestamp else ACCESSORY_TIMESTAMP;
    }
    timestamp := (base - delayUs) % 0x1_0000_0000;
    event := history.GetClosest(timestamp);
  }

  ghost function Base(pushed: seq<TrackingEvent>, impact: U32): U32 {
    if impact != ACCESSORY_TIMESTAMP || pushed == [] then impact else pushed[|pushed| - 1].timestamp
  }

  /**
   * Both clients select the same event for every history, impact and delay. Their timestamps differ
   * exactly for an accessory impact on an empty history with a non-zero delay.
   */
  method ClientsAgree(history: TrackingHistory, impact: U32, delayMs: U16)
    returns (desktopTime: U32, pythonTime: U32, desktop: Option<TrackingEvent>, python: Option<TrackingEvent>)
    requires history.Valid()
    ensures desktop == python
    ensures desktopTime == pythonTime <==>
            !(impact == ACCESSORY_TIMESTAMP && history.pushed == [] && delayMs != 0)
    ensures IsClosest(history.Slots(), pythonTime, python)
  {
    desktopTime, desktop := DesktopLookup(history, impact, delayMs);
    pythonTime, python := PythonLookup(history, impact, delayMs);
    if history.pushed == [] {
      assert history.Slots() == [];
    } else {
      ClosestIsUnique(history.Slots(), pythonTime, desktop, python);
    }
  }
}
