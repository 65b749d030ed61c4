/** Each subscription's life on the bus, read off the list of steps (agent_gateway/internal/events/bus.go;
    the steps are those of BusProtocol). */
module BusHistory {
  import opened Text
  import opened EventBus
  import opened BusProtocol
  import opened Histories

  function Pushed(actions: seq<Action>): seq<Event> {
    if actions == [] then []
    else
      var last := actions[|actions| - 1];
      Pushed(actions[..|actions| - 1]) + if last.Push? then [last.event] else []
  }

  /** The log is what was published, in that order. */
  lemma {:induction false} LogIsPushed(capacity: nat, actions: seq<Action>)
    ensures Run(Init(capacity), actions).log == Pushed(actions)
  {
    if actions != [] {
      LogIsPushed(capacity, actions[..|actions| - 1]);
      StepLogs(Run(Init(capacity), actions[..|actions| - 1]), actions[|actions| - 1]);
    }
  }

  lemma StepLogs(s: State, a: Action)
    ensures Step(s, a).log == s.log + if a.Push? then [a.event] else []
  {
  }

  // ---------------------------------------------------------------- joining and leaving

  datatype Life = Unborn | Joined(lastId: string, at: nat) | Gone(lastId: string, at: nat, leftAt: nat)

  /** The first Subscribe joins, at the end of the log so far, and the first Close after it leaves. */
  function LifeOf(actions: seq<Action>, sid: SubId): Life {
    if actions == [] then Unborn
    else
      var init, last := actions[..|actions| - 1], actions[|actions| - 1];
      match LifeOf(init, sid)
      case Unborn => if last.Subscribe? && last.newId == sid then Joined(last.lastId, |Pushed(init)|) else Unborn
      case Joined(lastId, at) => if last == Close(sid) then Gone(lastId, at, |Pushed(init)|) else Joined(lastId, at)
      case gone => gone
  }

  ghost predicate Lives(s: State, sid: SubId, life: Life) {
    match life
    case Unborn => sid !in s.members && sid !in s.subscribers
    case Joined(lastId, at) =>
      && sid in s.members && sid in s.subscribers
      && var m := s.members[sid]; m.lastId == lastId && m.joinedAt == at && m.leftAt.None?
    case Gone(lastId, at, leftAt) =>
      && sid in s.members && sid !in s.subscribers
      && var m := s.members[sid]; m.lastId == lastId && m.joinedAt == at && m.leftAt == Some(leftAt)
  }

  function NextLife(life: Life, a: Action, sid: SubId, n: nat): Life {
    match life
    case Unborn => if a.Subscribe? && a.newId == sid then Joined(a.lastId, n) else Unborn
    case Joined(lastId, at) => if a == Close(sid) then Gone(lastId, at, n) else life
    case _ => life
  }

  lemma StepLives(s: State, a: Action, sid: SubId, life: Life)
    requires Lives(s, sid, life)
    ensures Lives(Step(s, a), sid, NextLife(life, a, sid, |s.log|))
  {
  }

  /** In every run a subscription has joined and left when its own steps say so, and nobody else's. */
  lemma {:induction false} LifeIsItsSteps(capacity: nat, actions: seq<Action>, sid: SubId)
    ensures Lives(Run(Init(capacity), actions), sid, LifeOf(actions, sid))
  {
    if actions != [] {
      var init, last := actions[..|actions| - 1], actions[|actions| - 1];
      LifeIsItsSteps(capacity, init, sid);
      LogIsPushed(capacity, init);
      StepLives(Run(Init(capacity), init), last, sid, LifeOf(init, sid));
      assert NextLife(LifeOf(init, sid), last, sid, |Pushed(init)|) == LifeOf(actions, sid);
    }
  }

  // ---------------------------------------------------------------- what a subscription gets

  /** The delivery of position `i` comes while the subscription is open and its channel has room: fewer
      events accepted and not yet received than its buffer holds. */
  predicate Admits(s: State, a: Action, sid: SubId, i: nat) {
    && a == Deliver(i, sid) && IsPending(s, i, sid) && sid in s.members && s.members[sid].leftAt.None?
    && |s.members[sid].accepted| - |s.members[sid].received| < SUBSCRIBER_BUFFER_SIZE
  }

  predicate AdmitsAt(capacity: nat, actions: seq<Action>, sid: SubId, i: nat, k: nat) {
    k < |actions| && Admits(Run(Init(capacity), actions[..k]), actions[k], sid, i)
  }

  predicate HasAccepted(s: State, sid: SubId, i: nat) {
    sid in s.members && i in s.members[sid].accepted
  }

  lemma DeliveredAccepts(s: State, sid: SubId, i: nat)
    requires Inv(s) && IsPending(s, i, sid)
    ensures var t := DeliverStep(s, i, sid);
            && sid in s.members && sid in t.members
            && t.members[sid].accepted ==
               s.members[sid].accepted + if Admits(s, Deliver(i, sid), sid, i) then [i] else []
  {
    var m := s.members[sid];
    assert MemberInv(s, sid, m);
    assert |m.received| + |m.sub.ch.buffer| == |m.accepted|;
    assert m.accepted + [] == m.accepted;
    if !m.sub.closed && |m.sub.ch.buffer| < SUBSCRIBER_BUFFER_SIZE {
      assert m.sub.Delivered(s.log[i]).ch.buffer != m.sub.ch.buffer;
    }
  }

  lemma OtherStepAccepts(s: State, a: Action, sid: SubId, i: nat)
    requires Inv(s) && !(a.Deliver? && a.sid == sid && IsPending(s, a.index, sid))
    ensures HasAccepted(Step(s, a), sid, i) <==> HasAccepted(s, sid, i)
  {
  }

  lemma AcceptStep(s: State, a: Action, sid: SubId, i: nat)
    requires Inv(s)
    ensures HasAccepted(Step(s, a), sid, i) <==> HasAccepted(s, sid, i) || Admits(s, a, sid, i)
  {
    if a.Deliver? && a.sid == sid && IsPending(s, a.index, sid) {
      DeliveredAccepts(s, sid, a.index);
    } else {
      OtherStepAccepts(s, a, sid, i);
    }
  }

  predicate AcceptedBy(capacity: nat, actions: seq<Action>, sid: SubId, i: nat, n: nat) {
    n <= |actions| && HasAccepted(Run(Init(capacity), actions[..n]), sid, i)
  }

  lemma AcceptedNext(capacity: nat, actions: seq<Action>, sid: SubId, i: nat, n: nat)
    requires capacity > 0 && n < |actions|
    ensures AcceptedBy(capacity, actions, sid, i, n + 1) <==>
            AcceptedBy(capacity, actions, sid, i, n) || AdmitsAt(capacity, actions, sid, i, n)
  {
    assert actions[..n + 1][..n] == actions[..n];
    RunKeeps(capacity, actions[..n]);
    AcceptStep(Run(Init(capacity), actions[..n]), actions[n], sid, i);
  }

  function AcceptedFlag(capacity: nat, actions: seq<Action>, sid: SubId, i: nat): nat -> bool {
    (n: nat) => AcceptedBy(capacity, actions, sid, i, n)
  }

  function AdmitFlag(capacity: nat, actions: seq<Action>, sid: SubId, i: nat): nat -> bool {
    (n: nat) => AdmitsAt(capacity, actions, sid, i, n)
  }

  lemma AcceptedFollows(capacity: nat, actions: seq<Action>, sid: SubId, i: nat, flag: nat -> bool, cause: nat -> bool)
    requires capacity > 0
    requires flag == AcceptedFlag(capacity, actions, sid, i) && cause == AdmitFlag(capacity, actions, sid, i)
    ensures !flag(0) && forall n: nat :: n < |actions| ==> (flag(n + 1) <==> flag(n) || cause(n))
  {
    assert actions[..0] == [];
    forall n: nat | n < |actions|
      ensures flag(n + 1) <==> flag(n) || cause(n)
    {
      AcceptedNext(capacity, actions, sid, i, n);
    }
  }

  /** Which events a subscription accepts: exactly those whose delivery came while it was open with room
      in its channel.  Any other that was offered was dropped for a full queue, or after it had left. */
  lemma AcceptedIff(capacity: nat, actions: seq<Action>, sid: SubId, i: nat)
    requires capacity > 0
    ensures HasAccepted(Run(Init(capacity), actions), sid, i) <==>
            exists k: nat :: k < |actions| && AdmitsAt(capacity, actions, sid, i, k)
  {
    var flag, cause := AcceptedFlag(capacity, actions, sid, i), AdmitFlag(capacity, actions, sid, i);
    AcceptedFollows(capacity, actions, sid, i, flag, cause);
    Latched(flag, cause, |actions|);
    assert actions[..|actions|] == actions;
    assert flag(|actions|) <==> HasAccepted(Run(Init(capacity), actions), sid, i);
    assert forall k: nat :: cause(k) <==> AdmitsAt(capacity, actions, sid, i, k);
  }

  /** The reader got the oldest accepted event it had not received, or nothing if there was none. */
  predicate GotNext(log: seq<Event>, before: Member, after: Member) {
    && after.accepted == before.accepted && |before.received| <= |before.accepted|
    && if |before.received| == |before.accepted| then after.received == before.received
       else
         var next := before.accepted[|before.received|];
         next < |log| && after.received == before.received + [log[next]]
  }

  /** A reader that asks gets the oldest accepted event it has not received, as long as there is one, even
      from a subscription that has left. */
  lemma ReceivesNext(capacity: nat, actions: seq<Action>, sid: SubId)
    requires capacity > 0 && sid in Run(Init(capacity), actions).members
    ensures var s := Run(Init(capacity), actions);
            var t := Run(Init(capacity), actions + [Receive(sid)]);
            sid in t.members && GotNext(s.log, s.members[sid], t.members[sid])
  {
    assert (actions + [Receive(sid)])[..|actions|] == actions;
    RunKeeps(capacity, actions);
    ReceiveGets(Run(Init(capacity), actions), sid);
  }

  lemma ReceiveGets(s: State, sid: SubId)
    requires Inv(s) && sid in s.members
    ensures var t := ReceiveStep(s, sid); sid in t.members && GotNext(s.log, s.members[sid], t.members[sid])
  {
    ReceivedIs(s, s.members[sid], sid);
    ReceiveIs(s, sid);
    assert s.members[sid].received + [] == s.members[sid].received;
  }

  lemma ReceiveIs(s: State, sid: SubId)
    requires sid in s.members
    ensures var t := ReceiveStep(s, sid);
            && sid in t.members && t.members[sid].accepted == s.members[sid].accepted
            && var buffer := s.members[sid].sub.ch.buffer;
               t.members[sid].received == s.members[sid].received + if buffer == [] then [] else [buffer[0]]
  {
  }

  lemma ReceivedIs(s: State, m: Member, sid: SubId)
    requires Inv(s) && sid in s.members && m == s.members[sid]
    ensures |m.received| <= |m.accepted|
    ensures if |m.received| == |m.accepted| then m.sub.ch.buffer == []
            else m.sub.ch.buffer != [] && m.accepted[|m.received|] < |s.log| &&
                 m.sub.ch.buffer[0] == s.log[m.accepted[|m.received|]]
  {
    assert MemberInv(s, sid, m);
    var all := m.received + m.sub.ch.buffer;
    assert |all| == |m.accepted|;
    if m.sub.ch.buffer != [] {
      assert m.accepted[|m.received|] in m.accepted;
      assert all[|m.received|] == m.sub.ch.buffer[0];
      assert all[|m.received|] == EventsAt(s.log, m.accepted)[|m.received|];
    }
  }
}
