/** Every interleaving of Publish, Subscribe and Close on one bus.  Publish is one step under the bus
    lock (push and copy the subscribers) followed by one delivery step per copied subscriber, each
    under that subscriber's own lock and in any order. */
module BusProtocol {
  import opened Text
  import opened EventBus

  type SubId = nat

  /** One subscription.  `offered` and `accepted` list log positions: those a delivery step was run
      for, and those the channel had room for. */
  datatype Member = Member(
    lastId: string,
    replay: seq<Event>,
    sub: SubscriberState,
    joinedAt: nat,
    leftAt: Option<nat>,
    offered: seq<nat>,
    accepted: seq<nat>,
    received: seq<Event>)

  /** `inflight` maps the log position of a Publish to the subscribers it still has to serve. */
  datatype State = State(
    capacity: nat,
    log: seq<Event>,
    ring: seq<Event>,
    subscribers: set<SubId>,
    members: map<SubId, Member>,
    inflight: map<nat, set<SubId>>)

  datatype Action =
    | Push(event: Event)
    | Deliver(index: nat, sid: SubId)
    | Subscribe(newId: SubId, lastId: string)
    | Close(target: SubId)
    | Receive(reader: SubId)

  function Init(capacity: nat): State {
    State(capacity, [], [], {}, map[], map[])
  }

  function PushStep(s: State, e: Event): State {
    s.(log := s.log + [e],
       ring := LastN(s.ring + [e], s.capacity),
       inflight := s.inflight[|s.log| := s.subscribers])
  }

  /** Runs `deliver` for one copied subscriber; it does not look at the bus. */
  function DeliverStep(s: State, index: nat, sid: SubId): State {
    if index < |s.log| && index in s.inflight && sid in s.inflight[index] && sid in s.members then
      var m := s.members[sid];
      var sub := m.sub.Delivered(s.log[index]);
      var accepted := if sub.ch.buffer == m.sub.ch.buffer then m.accepted else m.accepted + [index];
      s.(members := s.members[sid := m.(sub := sub, offered := m.offered + [index], accepted := accepted)],
         inflight := s.inflight[index := s.inflight[index] - {sid}])
    else s
  }

  function SubscribeStep(s: State, sid: SubId, lastId: string): State {
    if sid in s.members then s
    else
      var m := Member(lastId, Since(s.ring, lastId), NEW_SUBSCRIBER, |s.log|, None, [], [], []);
      s.(subscribers := s.subscribers + {sid}, members := s.members[sid := m])
  }

  function CloseStep(s: State, sid: SubId): State {
    if sid in s.subscribers && sid in s.members then
      var m := s.members[sid];
      s.(subscribers := s.subscribers - {sid},
         members := s.members[sid := m.(sub := m.sub.Closed(), leftAt := Some(|s.log|))])
    else s
  }

  /** The subscription's reader takes one event; a closed channel may still be drained. */
  function ReceiveStep(s: State, sid: SubId): State {
    if sid in s.members && s.members[sid].sub.ch.buffer != [] then
      var m := s.members[sid];
      var rest := m.sub.ch.(buffer := m.sub.ch.buffer[1..]);
      s.(members := s.members[sid := m.(sub := m.sub.(ch := rest), received := m.received + [m.sub.ch.buffer[0]])])
    else s
  }

  function Step(s: State, a: Action): State {
    match a
    case Push(e) => PushStep(s, e)
    case Deliver(i, sid) => DeliverStep(s, i, sid)
    case Subscribe(sid, lastId) => SubscribeStep(s, sid, lastId)
    case Close(sid) => CloseStep(s, sid)
    case Receive(sid) => ReceiveStep(s, sid)
  }

  /** The state after a list of steps; a step that is not enabled changes nothing. */
  function Run(s: State, actions: seq<Action>): State {
    if actions == [] then s else Step(Run(s, actions[..|actions| - 1]), actions[|actions| - 1])
  }

  // ---------------------------------------------------------------- what every step keeps

  /** Where a subscription's window of live events ends. */
  function WindowEnd(s: State, m: Member): nat {
    if m.leftAt.Some? then m.leftAt.value else |s.log|
  }

  predicate IsPending(s: State, index: nat, sid: SubId) {
    index in s.inflight && sid in s.inflight[index]
  }

  function OfferCount(offered: seq<nat>, index: nat): nat {
    multiset(offered)[index]
  }

  function EventsAt(log: seq<Event>, indices: seq<nat>): (r: seq<Event>)
    requires forall i :: i in indices ==> i < |log|
    ensures |r| == |indices|
  {
    seq(|indices|, k requires 0 <= k < |indices| => assert indices[k] in indices; log[indices[k]])
  }

  /** Each log position in the window is either still to be offered or has been offered, once. */
  ghost predicate ExactOffers(s: State, sid: SubId, m: Member) {
    forall i: nat ::
      OfferCount(m.offered, i) + (if IsPending(s, i, sid) then 1 else 0)
      == if m.joinedAt <= i < WindowEnd(s, m) then 1 else 0
  }

  ghost predicate ChannelHistory(s: State, m: Member) {
    && (forall i :: i in m.accepted ==> i < |s.log|)
    && m.received + m.sub.ch.buffer == EventsAt(s.log, m.accepted)
    && (forall i :: OfferCount(m.accepted, i) <= OfferCount(m.offered, i))
  }

  ghost predicate MemberInv(s: State, sid: SubId, m: Member) {
    && m.sub.Consistent()
    && m.joinedAt <= WindowEnd(s, m) <= |s.log|
    && (m.leftAt.Some? <==> m.sub.closed)
    && (sid in s.subscribers <==> m.leftAt.None?)
    && m.replay == Since(LastN(s.log[..m.joinedAt], s.capacity), m.lastId)
    && ExactOffers(s, sid, m)
    && ChannelHistory(s, m)
  }

  ghost predicate Inv(s: State) {
    && s.capacity > 0
    && s.ring == LastN(s.log, s.capacity)
    && s.subscribers <= s.members.Keys
    && (forall i :: i in s.inflight ==> i < |s.log|)
    && (forall i, sid :: i in s.inflight && sid in s.inflight[i] ==> sid in s.members)
    && (forall sid :: sid in s.members ==> MemberInv(s, sid, s.members[sid]))
  }

  lemma EventsAtPrefix(log: seq<Event>, e: Event, indices: seq<nat>)
    requires forall i :: i in indices ==> i < |log|
    ensures EventsAt(log + [e], indices) == EventsAt(log, indices)
  {
    forall k | 0 <= k < |indices|
      ensures EventsAt(log + [e], indices)[k] == EventsAt(log, indices)[k]
    {
      assert indices[k] in indices;
    }
  }

  lemma PushKeeps(s: State, e: Event)
    requires Inv(s)
    ensures Inv(PushStep(s, e))
  {
    var t := PushStep(s, e);
    LastNPush(s.log, s.capacity, e);
    forall sid | sid in t.members
      ensures MemberInv(t, sid, t.members[sid])
    {
      var m := s.members[sid];
      assert MemberInv(s, sid, m);
      assert t.log[..m.joinedAt] == s.log[..m.joinedAt];
      forall i: nat
        ensures OfferCount(m.offered, i) + (if IsPending(t, i, sid) then 1 else 0)
             == if m.joinedAt <= i < WindowEnd(t, m) then 1 else 0
      {
        assert !IsPending(s, |s.log|, sid);
        assert i != |s.log| ==> IsPending(t, i, sid) == IsPending(s, i, sid);
      }
      EventsAtPrefix(s.log, e, m.accepted);
    }
  }

  lemma DeliverKeepsOwn(s: State, index: nat, sid: SubId)
    requires Inv(s) && IsPending(s, index, sid)
    ensures var t := DeliverStep(s, index, sid); sid in t.members && MemberInv(t, sid, t.members[sid])
  {
    var t := DeliverStep(s, index, sid);
    var m, n := s.members[sid], t.members[sid];
    assert MemberInv(s, sid, m);
    forall i: nat
      ensures OfferCount(n.offered, i) == OfferCount(m.offered, i) + if i == index then 1 else 0
      ensures IsPending(t, i, sid) <==> IsPending(s, i, sid) && i != index
    {
    }
    DeliverHistory(s, m, index);
    assert ExactOffers(t, sid, n);
  }

  lemma DeliverKeepsOther(s: State, index: nat, sid: SubId, other: SubId)
    requires Inv(s) && IsPending(s, index, sid) && other in s.members && other != sid
    ensures var t := DeliverStep(s, index, sid); other in t.members && MemberInv(t, other, t.members[other])
  {
    var t := DeliverStep(s, index, sid);
    assert MemberInv(s, other, s.members[other]);
    assert forall i: nat :: IsPending(t, i, other) == IsPending(s, i, other);
  }

  lemma DeliverKeeps(s: State, index: nat, sid: SubId)
    requires Inv(s) && IsPending(s, index, sid)
    ensures Inv(DeliverStep(s, index, sid))
  {
    var t := DeliverStep(s, index, sid);
    forall other | other in t.members
      ensures MemberInv(t, other, t.members[other])
    {
      if other == sid {
        DeliverKeepsOwn(s, index, sid);
      } else {
        DeliverKeepsOther(s, index, sid, other);
      }
    }
  }

  lemma DeliverHistory(s: State, m: Member, index: nat)
    requires m.sub.Consistent() && ChannelHistory(s, m) && index < |s.log|
    ensures
      var sub := m.sub.Delivered(s.log[index]);
      var accepted := if sub.ch.buffer == m.sub.ch.buffer then m.accepted else m.accepted + [index];
      ChannelHistory(s, m.(sub := sub, offered := m.offered + [index], accepted := accepted))
  {
    var sub := m.sub.Delivered(s.log[index]);
    assert forall i :: OfferCount(m.offered + [index], i) == OfferCount(m.offered, i) + if i == index then 1 else 0;
    if sub.ch.buffer != m.sub.ch.buffer {
      assert forall i :: OfferCount(m.accepted + [index], i) == OfferCount(m.accepted, i) + if i == index then 1 else 0;
      assert sub.ch.buffer == m.sub.ch.buffer + [s.log[index]];
      assert EventsAt(s.log, m.accepted + [index]) == EventsAt(s.log, m.accepted) + [s.log[index]];
    }
  }

  lemma OthersKeep(s: State, t: State, sid: SubId)
    requires Inv(s) && t.log == s.log && t.inflight == s.inflight && t.capacity == s.capacity
    requires t.subscribers - {sid} == s.subscribers - {sid}
    requires forall k :: k in t.members && k != sid ==> k in s.members && t.members[k] == s.members[k]
    ensures forall k :: k in t.members && k != sid ==> MemberInv(t, k, t.members[k])
  {
    forall k | k in t.members && k != sid
      ensures MemberInv(t, k, t.members[k])
    {
      assert MemberInv(s, k, s.members[k]);
      assert k in t.subscribers <==> k in t.subscribers - {sid};
      assert k in s.subscribers <==> k in s.subscribers - {sid};
      assert forall i: nat :: IsPending(t, i, k) == IsPending(s, i, k);
    }
  }

  lemma SubscribeKeeps(s: State, sid: SubId, lastId: string)
    requires Inv(s)
    ensures Inv(SubscribeStep(s, sid, lastId))
  {
    if sid !in s.members {
      OthersKeep(s, SubscribeStep(s, sid, lastId), sid);
      SubscribeKeepsOwn(s, sid, lastId);
    }
  }

  lemma SubscribeKeepsOwn(s: State, sid: SubId, lastId: string)
    requires Inv(s) && sid !in s.members
    ensures var t := SubscribeStep(s, sid, lastId); MemberInv(t, sid, t.members[sid])
  {
    var t := SubscribeStep(s, sid, lastId);
    assert s.log[..|s.log|] == s.log;
    assert forall i: nat :: !IsPending(t, i, sid);
  }

  lemma CloseKeepsOwn(s: State, sid: SubId)
    requires Inv(s) && sid in s.subscribers
    ensures var t := CloseStep(s, sid); sid in t.members && MemberInv(t, sid, t.members[sid])
  {
    var t := CloseStep(s, sid);
    assert MemberInv(s, sid, s.members[sid]);
    assert forall i: nat :: IsPending(t, i, sid) == IsPending(s, i, sid);
  }

  lemma CloseKeeps(s: State, sid: SubId)
    requires Inv(s)
    ensures Inv(CloseStep(s, sid))
  {
    if sid in s.subscribers {
      OthersKeep(s, CloseStep(s, sid), sid);
      CloseKeepsOwn(s, sid);
    }
  }

  lemma ReceiveKeepsOwn(s: State, t: State, sid: SubId)
    requires Inv(s) && sid in s.members && sid in t.members
    requires t == s.(members := t.members)
    requires
      var m, n := s.members[sid], t.members[sid];
      && n == m.(sub := n.sub, received := n.received)
      && n.sub.Consistent() && n.sub.closed == m.sub.closed
      && n.received + n.sub.ch.buffer == m.received + m.sub.ch.buffer
    ensures MemberInv(t, sid, t.members[sid])
  {
    var m := s.members[sid];
    assert MemberInv(s, sid, m);
    assert ExactOffers(s, sid, m);
    assert forall i: nat :: IsPending(t, i, sid) == IsPending(s, i, sid);
  }

  lemma ReceiveMovesFirst(s: State, sid: SubId)
    requires sid in s.members && s.members[sid].sub.ch.buffer != [] && s.members[sid].sub.Consistent()
    ensures var t := ReceiveStep(s, sid);
            && sid in t.members && t == s.(members := t.members)
            && var m, n := s.members[sid], t.members[sid];
               && n == m.(sub := n.sub, received := n.received)
               && n.sub.Consistent() && n.sub.closed == m.sub.closed
               && n.received + n.sub.ch.buffer == m.received + m.sub.ch.buffer
  {
    var m := s.members[sid];
    assert m.received + m.sub.ch.buffer == (m.received + [m.sub.ch.buffer[0]]) + m.sub.ch.buffer[1..];
  }

  lemma ReceiveKeeps(s: State, sid: SubId)
    requires Inv(s)
    ensures Inv(ReceiveStep(s, sid))
  {
    if sid in s.members && s.members[sid].sub.ch.buffer != [] {
      assert MemberInv(s, sid, s.members[sid]);
      ReceiveMovesFirst(s, sid);
      OthersKeep(s, ReceiveStep(s, sid), sid);
      ReceiveKeepsOwn(s, ReceiveStep(s, sid), sid);
    }
  }

  lemma StepKeeps(s: State, a: Action)
    requires Inv(s)
    ensures Inv(Step(s, a))
  {
    match a
    case Push(e) => PushKeeps(s, e);
    case Deliver(i, sid) =>
      if IsPending(s, i, sid) {
        DeliverKeeps(s, i, sid);
      }
    case Subscribe(sid, lastId) => SubscribeKeeps(s, sid, lastId);
    case Close(sid) => CloseKeeps(s, sid);
    case Receive(sid) => ReceiveKeeps(s, sid);
  }

  lemma {:induction false} RunKeeps(capacity: nat, actions: seq<Action>)
    requires capacity > 0
    ensures Inv(Run(Init(capacity), actions))
  {
    if actions != [] {
      RunKeeps(capacity, actions[..|actions| - 1]);
      StepKeeps(Run(Init(capacity), actions[..|actions| - 1]), actions[|actions| - 1]);
    }
  }

  // ---------------------------------------------------------------- main results

  /** Exact handover.  A subscription's replay is taken from precisely the events logged before it
      joined, every later event is offered to it exactly once or is still on its way, and no earlier
      event is ever offered: replay and live events neither overlap nor leave a gap. */
  lemma ExactHandover(capacity: nat, actions: seq<Action>, sid: SubId)
    requires capacity > 0 && sid in Run(Init(capacity), actions).members
    ensures
      var s := Run(Init(capacity), actions);
      var m := s.members[sid];
      && m.joinedAt <= WindowEnd(s, m) <= |s.log|
      && m.replay == Since(LastN(s.log[..m.joinedAt], capacity), m.lastId)
      && (forall i: nat ::
            OfferCount(m.offered, i) + (if IsPending(s, i, sid) then 1 else 0)
            == if m.joinedAt <= i < WindowEnd(s, m) then 1 else 0)
  {
    RunKeeps(capacity, actions);
    CapacityIsFixed(capacity, actions);
    var s := Run(Init(capacity), actions);
    assert MemberInv(s, sid, s.members[sid]);
  }

  lemma {:induction false} CapacityIsFixed(capacity: nat, actions: seq<Action>)
    ensures Run(Init(capacity), actions).capacity == capacity
  {
    if actions != [] {
      CapacityIsFixed(capacity, actions[..|actions| - 1]);
    }
  }

  /** Once no Publish is under way, what was offered is a permutation of the whole window. */
  lemma QuiescentOffers(capacity: nat, actions: seq<Action>, sid: SubId)
    requires capacity > 0 && sid in Run(Init(capacity), actions).members
    requires forall i :: !IsPending(Run(Init(capacity), actions), i, sid)
    ensures
      var s := Run(Init(capacity), actions);
      var m := s.members[sid];
      && m.joinedAt <= WindowEnd(s, m)
      && multiset(m.offered) == multiset(Interval(m.joinedAt, WindowEnd(s, m)))
  {
    ExactHandover(capacity, actions, sid);
    var s := Run(Init(capacity), actions);
    var m := s.members[sid];
    forall i: nat
      ensures OfferCount(m.offered, i) == multiset(Interval(m.joinedAt, WindowEnd(s, m)))[i]
    {
      IntervalCount(m.joinedAt, WindowEnd(s, m), i);
    }
  }

  lemma {:induction false} IntervalCount(lo: nat, hi: nat, i: nat)
    requires lo <= hi
    ensures multiset(Interval(lo, hi))[i] == if lo <= i < hi then 1 else 0
    decreases hi
  {
    if lo < hi {
      assert Interval(lo, hi) == Interval(lo, hi - 1) + [hi - 1];
      IntervalCount(lo, hi - 1, i);
    }
  }

  /** No interleaving sends on, or closes, a closed channel; a subscription's channel is closed exactly
      when it has left the bus; and what its reader got plus what is buffered is what was accepted,
      each event offered to it at most once. */
  lemma ChannelsAreSafe(capacity: nat, actions: seq<Action>, sid: SubId)
    requires capacity > 0 && sid in Run(Init(capacity), actions).members
    ensures
      var s := Run(Init(capacity), actions);
      var m := s.members[sid];
      && !m.sub.ch.panicked
      && m.sub.ch.closed == m.sub.closed == (sid !in s.subscribers)
      && |m.sub.ch.buffer| <= SUBSCRIBER_BUFFER_SIZE
      && (forall i :: i in m.accepted ==> i < |s.log|)
      && m.received + m.sub.ch.buffer == EventsAt(s.log, m.accepted)
      && (forall i :: OfferCount(m.accepted, i) <= OfferCount(m.offered, i) <= 1)
  {
    RunKeeps(capacity, actions);
    var s := Run(Init(capacity), actions);
    assert MemberInv(s, sid, s.members[sid]);
    assert ExactOffers(s, sid, s.members[sid]);
  }
}
