/** The gateway's in-process event bus (agent_gateway/internal/events/bus.go): a fixed ring of recent
    events and a set of subscribers with bounded channels.  The ring stands for the publish log. */
module EventBus {
  import opened Text

  const DEFAULT_BUFFER_SIZE: nat := 256
  const SUBSCRIBER_BUFFER_SIZE: nat := 32

  datatype Event = Event(id: string, kind: string, agentId: string, sessionId: string, payload: int)

  // ---------------------------------------------------------------- what the ring stands for

  /** The last `n` entries of the publish log. */
  function LastN(log: seq<Event>, n: nat): (r: seq<Event>) {
    if |log| <= n then log else log[|log| - n..]
  }

  /** The log positions from `lo` up to `hi`. */
  function Interval(lo: nat, hi: nat): (r: seq<nat>)
    ensures |r| == if lo <= hi then hi - lo else 0
    ensures forall k :: 0 <= k < |r| ==> r[k] == lo + k
  {
    if lo < hi then seq(hi - lo, k requires 0 <= k => lo + k) else []
  }

  /** Position of the first event with this id, or the length when there is none. */
  function FirstWithId(events: seq<Event>, id: string): (i: nat)
    ensures i <= |events|
    ensures i < |events| ==> events[i].id == id
    ensures forall k :: 0 <= k < i ==> events[k].id != id
  {
    if events == [] || events[0].id == id then 0 else 1 + FirstWithId(events[1..], id)
  }

  /** What a subscriber that last saw `id` is replayed: everything for no id, nothing for an id that
      is no longer buffered, and otherwise whatever follows it. */
  function Since(events: seq<Event>, id: string): seq<Event> {
    var i := FirstWithId(events, id);
    if id == "" then events
    else if i == |events| then []
    else events[i + 1..]
  }

  /** Where the replay for `id` begins: right behind the first event with that id. */
  ghost predicate IsResumePoint(events: seq<Event>, id: string, first: nat) {
    && (id == "" <==> first == 0)
    && first <= |events| + 1
    && (0 < first <= |events| ==> events[first - 1].id == id)
    && forall k :: 0 <= k < first - 1 ==> events[k].id != id
  }

  lemma ResumePoint(events: seq<Event>, id: string) returns (first: nat)
    ensures IsResumePoint(events, id, first)
    ensures Since(events, id) == if first <= |events| then events[first..] else []
  {
    first := if id == "" then 0 else FirstWithId(events, id) + 1;
  }

  lemma LastNPush(log: seq<Event>, n: nat, e: Event)
    requires n > 0
    ensures LastN(LastN(log, n) + [e], n) == LastN(log + [e], n)
  {
  }

  /** An id that is still buffered resumes exactly behind its own log entry. */
  lemma SinceBuffered(log: seq<Event>, n: nat, k: nat)
    requires k < |log| && |log| - n <= k && log[k].id != ""
    requires forall i, j :: 0 <= i < j < |log| ==> log[i].id != log[j].id
    ensures Since(LastN(log, n), log[k].id) == log[k + 1..]
  {
    var ring, id := LastN(log, n), log[k].id;
    var base := |log| - |ring|;
    var i := FirstWithId(ring, id);
    assert ring[k - base] == log[k];
    assert i <= k - base;
    assert log[base + i] == ring[i];
    assert i == k - base;
    assert ring[i + 1..] == log[k + 1..];
  }

  /** An id that has left the ring replays nothing: the events in between are lost. */
  lemma SinceEvicted(log: seq<Event>, n: nat, k: nat)
    requires k < |log| - n && log[k].id != ""
    requires forall i, j :: 0 <= i < j < |log| ==> log[i].id != log[j].id
    ensures Since(LastN(log, n), log[k].id) == []
  {
    var ring := LastN(log, n);
    forall j | 0 <= j < |ring|
      ensures ring[j].id != log[k].id
    {
      assert ring[j] == log[|log| - n + j];
    }
  }

  // ---------------------------------------------------------------- Go channels and subscribers

  /** A buffered Go channel.  `panicked` records a send on, or a close of, a closed channel. */
  datatype Channel = Channel(buffer: seq<Event>, closed: bool, panicked: bool) {
    /** `select { case ch <- e: default: }` */
    function TrySend(e: Event): Channel {
      if closed then this.(panicked := true)
      else if |buffer| < SUBSCRIBER_BUFFER_SIZE then this.(buffer := buffer + [e])
      else this
    }

    function Close(): Channel {
      if closed then this.(panicked := true) else this.(closed := true)
    }
  }

  const EMPTY_CHANNEL := Channel([], false, false)

  datatype SubscriberState = SubscriberState(ch: Channel, closed: bool) {
    predicate Consistent() { ch.closed == closed && !ch.panicked && |ch.buffer| <= SUBSCRIBER_BUFFER_SIZE }

    function Delivered(e: Event): (s: SubscriberState)
      ensures Consistent() ==> s.Consistent() && s.closed == closed
      ensures Consistent() && !closed && |ch.buffer| < SUBSCRIBER_BUFFER_SIZE ==> s.ch.buffer == ch.buffer + [e]
      ensures closed || |ch.buffer| == SUBSCRIBER_BUFFER_SIZE ==> s.ch.buffer == ch.buffer
    {
      if closed then this else this.(ch := ch.TrySend(e))
    }

    function Closed(): (s: SubscriberState)
      ensures Consistent() ==> s.Consistent() && s.closed && s.ch.buffer == ch.buffer
    {
      if closed then this else SubscriberState(ch.Close(), true)
    }
  }

  const NEW_SUBSCRIBER := SubscriberState(EMPTY_CHANNEL, false)

  class Subscriber {
    var ch: Channel
    var closed: bool

    function State(): SubscriberState
      reads this
    {
      SubscriberState(ch, closed)
    }

    constructor ()
      ensures State() == NEW_SUBSCRIBER
    {
      ch, closed := EMPTY_CHANNEL, false;
    }

    /** `delivered` is false exactly when the code returns ErrSubscriberQueueFull. */
    method Deliver(event: Event) returns (delivered: bool)
      requires State().Consistent()
      modifies this
      ensures State() == old(State()).Delivered(event) && State().Consistent()
      ensures delivered <==> old(closed) || |old(ch).buffer| < SUBSCRIBER_BUFFER_SIZE
    {
      if closed {
        return true;
      }
      delivered := |ch.buffer| < SUBSCRIBER_BUFFER_SIZE;
      ch := ch.TrySend(event);
    }

    method Close()
      requires State().Consistent()
      modifies this
      ensures State() == old(State()).Closed() && State().Consistent()
    {
      if closed {
        return;
      }
      closed := true;
      ch := ch.Close();
    }
  }

  // ---------------------------------------------------------------- the bus

  /** `(start + i) % n` without the division. */
  function Slot(start: nat, i: nat, n: nat): (k: nat)
    requires start < n && i <= n
    ensures k < n
  {
    if start + i < n then start + i else start + i - n
  }

  lemma SlotIsModulo(start: nat, i: nat, n: nat)
    requires start < n && i <= n
    ensures (start + i) % n == Slot(start, i, n)
  {
    if start + i < n {
      assert (start + i) % n == start + i;
    } else {
      assert start + i == n + Slot(start, i, n) && Slot(start, i, n) % n == Slot(start, i, n);
    }
  }

  /** The `count` entries of a ring that starts at `start`, in order. */
  function Unroll(ring: seq<Event>, start: nat, count: nat): (r: seq<Event>)
    requires start < |ring| && count <= |ring|
    ensures |r| == count
  {
    if count == 0 then [] else Unroll(ring, start, count - 1) + [ring[Slot(start, count - 1, |ring|)]]
  }

  lemma {:induction false} UnrollAt(ring: seq<Event>, start: nat, count: nat, i: nat)
    requires start < |ring| && i < count <= |ring|
    ensures Unroll(ring, start, count)[i] == ring[Slot(start, i, |ring|)]
  {
    if i < count - 1 {
      UnrollAt(ring, start, count - 1, i);
    }
  }

  lemma {:induction false} UnrollUpdated(ring: seq<Event>, count: nat, k: nat, e: Event)
    requires count <= k < |ring|
    ensures Unroll(ring[k := e], 0, count) == Unroll(ring, 0, count)
  {
    if count > 0 {
      UnrollUpdated(ring, count - 1, k, e);
    }
  }

  lemma UnrollWithRoom(ring: seq<Event>, count: nat, e: Event)
    requires count < |ring|
    ensures Unroll(ring[count := e], 0, count + 1) == Unroll(ring, 0, count) + [e]
  {
    UnrollUpdated(ring, count, count, e);
  }

  lemma SlotAfter(start: nat, i: nat, n: nat)
    requires start < n && i < n
    ensures var k := Slot(Slot(start, 1, n), i, n);
            if i + 1 < n then k == Slot(start, i + 1, n) && k != start else k == start
  {
  }

  lemma UnrollFullAt(ring: seq<Event>, start: nat, e: Event, i: nat)
    requires start < |ring| && i < |ring|
    ensures Unroll(ring[start := e], Slot(start, 1, |ring|), |ring|)[i] ==
            if i + 1 < |ring| then Unroll(ring, start, |ring|)[i + 1] else e
  {
    var n := |ring|;
    UnrollAt(ring[start := e], Slot(start, 1, n), n, i);
    SlotAfter(start, i, n);
    if i + 1 < n {
      UnrollAt(ring, start, n, i + 1);
    }
  }

  lemma UnrollFull(ring: seq<Event>, start: nat, e: Event)
    requires start < |ring|
    ensures Unroll(ring[start := e], Slot(start, 1, |ring|), |ring|) == Unroll(ring, start, |ring|)[1..] + [e]
  {
    var n := |ring|;
    var before, after := Unroll(ring, start, n), Unroll(ring[start := e], Slot(start, 1, n), n);
    forall i | 0 <= i < n
      ensures after[i] == if i + 1 < n then before[i + 1] else e
    {
      UnrollFullAt(ring, start, e, i);
    }
    ShiftedIs(before, after, e);
  }

  lemma ShiftedIs(before: seq<Event>, after: seq<Event>, e: Event)
    requires |before| == |after| > 0
    requires forall i :: 0 <= i < |after| ==> after[i] == if i + 1 < |before| then before[i + 1] else e
    ensures after == before[1..] + [e]
  {
  }

  class Bus {
    const ring: array<Event>
    var ringStart: nat
    var ringCount: nat
    var subscribers: set<Subscriber>
    ghost var log: seq<Event>

    /** The buffered events, oldest first. */
    ghost function Contents(): seq<Event>
      reads this, ring
      requires RingOk()
    {
      Unroll(ring[..], ringStart, ringCount)
    }

    predicate RingOk()
      reads this
    {
      ringStart < ring.Length && ringCount <= ring.Length && (ringCount < ring.Length ==> ringStart == 0)
    }

    ghost predicate Valid()
      reads this, ring, subscribers
    {
      && RingOk()
      && Contents() == LastN(log, ring.Length)
      && forall s :: s in subscribers ==> s.State().Consistent() && !s.closed
    }

    constructor (bufferSize: int)
      ensures Valid() && fresh(ring) && log == [] && subscribers == {}
      ensures ring.Length == if bufferSize <= 0 then DEFAULT_BUFFER_SIZE else bufferSize
    {
      ring := new Event[if bufferSize <= 0 then DEFAULT_BUFFER_SIZE else bufferSize](_ => Event("", "", "", "", 0));
      ringStart, ringCount := 0, 0;
      subscribers := {};
      log := [];
    }

    /** The ring refines the log: pushing keeps exactly the last `ring.Length` events of it. */
    method PushToRing(event: Event)
      requires Valid()
      modifies `ringStart, `ringCount, `log, ring
      ensures Valid()
      ensures log == old(log) + [event]
      ensures Contents() == LastN(old(Contents()) + [event], ring.Length)
    {
      LastNPush(log, ring.Length, event);
      log := log + [event];
      SlotIsModulo(ringStart, ringCount, ring.Length);
      if ringCount < ring.Length {
        UnrollWithRoom(ring[..], ringCount, event);
        var idx := (ringStart + ringCount) % ring.Length;
        ring[idx] := event;
        ringCount := ringCount + 1;
        return;
      }
      UnrollFull(ring[..], ringStart, event);
      SlotIsModulo(ringStart, 1, ring.Length);
      ring[ringStart] := event;
      ringStart := (ringStart + 1) % ring.Length;
    }

    /** The `i`-th oldest entry, by its array index. */
    method EntryAt(i: nat) returns (event: Event)
      requires RingOk() && i < ringCount
      ensures event == Contents()[i]
    {
      SlotIsModulo(ringStart, i, ring.Length);
      UnrollAt(ring[..], ringStart, ringCount, i);
      var idx := (ringStart + i) % ring.Length;
      event := ring[idx];
    }

    /** One scan of the ring, collecting whatever follows the first match. */
    method Scan(lastEventID: string, ghost events: seq<Event>, ghost first: nat) returns (out: seq<Event>)
      requires RingOk() && events == Contents() && IsResumePoint(events, lastEventID, first)
      ensures out == if first <= |events| then events[first..] else []
    {
      out := [];
      var startCollect := lastEventID == "";
      for i := 0 to ringCount
        invariant startCollect <==> first <= i
        invariant out == if startCollect then events[first..i] else []
      {
        var event := EntryAt(i);
        if !startCollect {
          if event.id == lastEventID {
            startCollect := true;
          }
          continue;
        }
        out := out + [event];
      }
      assert startCollect ==> events[first..ringCount] == events[first..];
    }

    /** The replay for a resume id, computed from the ring by one scan. */
    method SnapshotSince(lastEventID: string) returns (out: seq<Event>)
      requires RingOk()
      ensures out == Since(Contents(), lastEventID)
    {
      ghost var first := ResumePoint(Contents(), lastEventID);
      out := Scan(lastEventID, Contents(), first);
    }

    /** Registers a subscriber and takes its replay in one critical section. */
    method Subscribe(lastEventID: string) returns (sub: Subscriber, buffered: seq<Event>)
      requires Valid()
      modifies `subscribers
      ensures Valid() && fresh(sub)
      ensures subscribers == old(subscribers) + {sub} && sub.State() == NEW_SUBSCRIBER
      ensures buffered == Since(LastN(log, ring.Length), lastEventID)
    {
      sub := new Subscriber();
      subscribers := subscribers + {sub};
      buffered := SnapshotSince(lastEventID);
    }

    method Unsubscribe(sub: Subscriber)
      requires Valid()
      modifies `subscribers, sub
      ensures Valid()
      ensures subscribers == old(subscribers) - {sub}
      ensures sub.State() == if sub in old(subscribers) then old(sub.State()).Closed() else old(sub.State())
    {
      if sub !in subscribers {
        return;
      }
      subscribers := subscribers - {sub};
      sub.Close();
    }

    /** One Publish that no other operation overlaps: the event enters the ring and is offered once to
        every subscriber of that moment. */
    method Publish(event: Event)
      requires Valid()
      modifies `ringStart, `ringCount, `log, ring, subscribers
      ensures Valid()
      ensures log == old(log) + [event]
      ensures forall s :: s in subscribers ==> s.State() == old(s.State()).Delivered(event)
    {
      PushToRing(event);
      var pending := subscribers;
      while pending != {}
        invariant pending <= subscribers
        invariant Valid() && log == old(log) + [event]
        invariant forall s :: s in pending ==> s.State() == old(s.State())
        invariant forall s :: s in subscribers - pending ==> s.State() == old(s.State()).Delivered(event)
      {
        var sub :| sub in pending;
        var _ := sub.Deliver(event);
        pending := pending - {sub};
      }
    }
  }
}
