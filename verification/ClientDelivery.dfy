/** What reaches a client of the event stream and what is dropped on the way (the steps are those of
    ClientResume: agent_gateway's bus.go and websocket_controller.go, agent_chat's agent_service.go). */
module ClientDelivery {
  import opened Text
  import opened EventBus
  import opened ClientResume

  // ---------------------------------------------------------------- the log

  function Published(actions: seq<Action>): seq<Event> {
    if actions == [] then []
    else
      var last := actions[|actions| - 1];
      Published(actions[..|actions| - 1]) + if last.Publish? then [last.event] else []
  }

  lemma StepLogs(s: State, a: Action)
    ensures Step(s, a).log == s.log + if a.Publish? then [a.event] else []
    ensures Step(s, a).capacity == s.capacity
  {
  }

  /** The log is what was published, in that order, whether anyone was connected or not. */
  lemma {:induction false} LogIsPublished(capacity: nat, actions: seq<Action>)
    ensures Run(Init(capacity), actions).log == Published(actions)
  {
    if actions != [] {
      LogIsPublished(capacity, actions[..|actions| - 1]);
      StepLogs(Run(Init(capacity), actions[..|actions| - 1]), actions[|actions| - 1]);
    }
  }

  // ---------------------------------------------------------------- what is dropped

  /** Step `k` published an event that connection `n`, live, wants, while its bus channel was full. */
  predicate DropsAt(capacity: nat, actions: seq<Action>, n: nat, k: nat) {
    k < |actions| && Drops(Run(Init(capacity), actions[..k]), actions[k], n)
  }

  predicate Drops(s: State, a: Action, n: nat) {
    && a.Publish? && s.conn.Some? && |s.past| == n && s.now.filter(a.event)
    && |s.conn.value.ch| >= SUBSCRIBER_BUFFER_SIZE
  }

  lemma SessionStep(s: State, a: Action, n: nat)
    requires n < |Sessions(Step(s, a))|
    ensures n < |Sessions(s)| ==> (Sessions(Step(s, a))[n].gap <==> Sessions(s)[n].gap || Drops(s, a, n))
    ensures n >= |Sessions(s)| ==> !Sessions(Step(s, a))[n].gap && !Drops(s, a, n)
    ensures |Sessions(s)| <= |Sessions(Step(s, a))| <= |Sessions(s)| + 1
  {
  }

  ghost predicate DropsBefore(capacity: nat, actions: seq<Action>, n: nat, m: nat) {
    exists k: nat :: k < m && DropsAt(capacity, actions, n, k)
  }

  lemma DropsBeforeNext(capacity: nat, actions: seq<Action>, n: nat, m: nat)
    ensures DropsBefore(capacity, actions, n, m + 1) <==>
            DropsBefore(capacity, actions, n, m) || DropsAt(capacity, actions, n, m)
  {
    if k: nat :| k < m + 1 && DropsAt(capacity, actions, n, k) {
      assert k < m || k == m;
    }
  }

  lemma {:induction false} NoDropsYet(capacity: nat, actions: seq<Action>, n: nat, m: nat)
    requires m <= |actions| && n >= |Sessions(Run(Init(capacity), actions[..m]))|
    ensures !DropsBefore(capacity, actions, n, m)
  {
    if m > 0 {
      var s, a := Run(Init(capacity), actions[..m - 1]), actions[m - 1];
      assert actions[..m][..m - 1] == actions[..m - 1];
      FewerBefore(s, a);
      NoDropsYet(capacity, actions, n, m - 1);
      DropsBeforeNext(capacity, actions, n, m - 1);
    }
  }

  lemma FewerBefore(s: State, a: Action)
    ensures |Sessions(s)| <= |Sessions(Step(s, a))|
  {
  }

  lemma {:induction false} GapWithin(capacity: nat, actions: seq<Action>, n: nat, m: nat)
    requires m <= |actions| && n < |Sessions(Run(Init(capacity), actions[..m]))|
    ensures Sessions(Run(Init(capacity), actions[..m]))[n].gap <==> DropsBefore(capacity, actions, n, m)
  {
    if m > 0 {
      var s, a := Run(Init(capacity), actions[..m - 1]), actions[m - 1];
      assert actions[..m][..m - 1] == actions[..m - 1];
      SessionStep(s, a, n);
      if n < |Sessions(s)| {
        GapWithin(capacity, actions, n, m - 1);
      } else {
        NoDropsYet(capacity, actions, n, m - 1);
      }
      DropsBeforeNext(capacity, actions, n, m - 1);
    } else {
      assert actions[..0] == [];
    }
  }

  /** When a connection has a gap: if and only if, while it was live, an event passing its filter was
      published with the bus channel full, 32 events queued. */
  lemma GapIff(capacity: nat, actions: seq<Action>, n: nat)
    requires n < |Sessions(Run(Init(capacity), actions))|
    ensures Sessions(Run(Init(capacity), actions))[n].gap <==>
            exists k: nat :: k < |actions| && DropsAt(capacity, actions, n, k)
  {
    assert actions[..|actions|] == actions;
    GapWithin(capacity, actions, n, |actions|);
  }

  // ---------------------------------------------------------------- what gets on its way

  /** A published event gets on its way to a connected client, behind everything before it, if and only if
      it passes the filter and the bus channel has room. */
  lemma PublishReaches(capacity: nat, actions: seq<Action>, e: Event)
    requires capacity > 0 && GoodIds(Run(Init(capacity), actions).log)
    requires Run(Init(capacity), actions).conn.Some?
    ensures var s := Run(Init(capacity), actions);
            var t := Run(Init(capacity), actions + [Publish(e)]);
            && t.now.events == s.now.events
            && Undelivered(t) == Undelivered(s) +
                 if s.now.filter(e) && |s.conn.value.ch| < SUBSCRIBER_BUFFER_SIZE then [|s.log|] else []
  {
    var s := Run(Init(capacity), actions);
    assert (actions + [Publish(e)])[..|actions|] == actions;
    RunKeeps(capacity, actions);
    PublishUndelivered(s, e);
  }

  lemma PublishUndelivered(s: State, e: Event)
    requires s.conn.Some? && InLog(s.log, s.conn.value.Rest())
    ensures Undelivered(PublishStep(s, e)) == Undelivered(s) +
              if s.now.filter(e) && |s.conn.value.ch| < SUBSCRIBER_BUFFER_SIZE then [|s.log|] else []
  {
    var c, i, grown := s.conn.value, |s.log|, s.log + [e];
    var added := if |c.ch| < SUBSCRIBER_BUFFER_SIZE then [i] else [];
    RestOfPublished(c, added);
    KeptGrows(s.log, e, s.now.filter, c.Rest());
    KeptConcat(grown, s.now.filter, c.Rest(), added);
    KeptOne(grown, s.now.filter, i);
    assert PublishStep(s, e).conn.value == c.(ch := c.ch + added);
    assert c.wire + (Kept(s.log, s.now.filter, c.Rest()) + Kept(grown, s.now.filter, added)) ==
           Undelivered(s) + Kept(grown, s.now.filter, added);
  }

  /** A new connection has the filter it asked for, has forwarded nothing, and carries all that passes of
      the log from its replay point on. */
  lemma ConnectReplays(capacity: nat, actions: seq<Action>, filter: Filter)
    requires Run(Init(capacity), actions).conn.None?
    ensures var s := Run(Init(capacity), actions);
            var t := Run(Init(capacity), actions + [Connect(filter)]);
            && t.conn.Some? && t.past == s.past + [s.now] && t.log == s.log && t.lastId == s.lastId
            && t.now.filter == filter && t.now.events == [] && t.now.start == ReplayFrom(s)
            && Undelivered(t) == KeptRange(s.log, filter, ReplayFrom(s), |s.log|)
  {
    var s := Run(Init(capacity), actions);
    assert (actions + [Connect(filter)])[..|actions|] == actions;
    var waiting := Interval(ReplayFrom(s), |s.log|);
    RestOfConnected(waiting);
    KeptInterval(s.log, filter, ReplayFrom(s), |s.log|);
    assert [] + Kept(s.log, filter, waiting) == Kept(s.log, filter, waiting);
  }

  // ---------------------------------------------------------------- and arrives

  predicate IsQuiet(a: Action) {
    a.Take? || a.Put? || a.Write? || a.Read?
  }

  /** How many steps the queued events still need. */
  function Backlog(c: Conn): nat {
    |c.wire| + 2 * |c.replay| + 2 * |c.out| + (if c.hand.Some? then 3 else 0) + 4 * |c.ch|
  }

  /** The connection's state after `t` continues that after `s`: nothing was lost or reordered. */
  ghost predicate Continues(s: State, t: State) {
    && t.log == s.log && t.past == s.past && s.conn.Some? && t.conn.Some?
    && t.now.filter == s.now.filter
    && t.now.events + Undelivered(t) == s.now.events + Undelivered(s)
  }

  ghost predicate Progresses(s: State, t: State) {
    Continues(s, t) && Backlog(t.conn.value) < Backlog(s.conn.value)
  }

  lemma WireIsLogged(s: State)
    requires Inv(s) && s.conn.Some? && s.conn.value.wire != []
    ensures s.conn.value.wire[0] < |s.log|
  {
    assert KeepsAt(s.log, s.now.filter, s.conn.value.wire[0]);
  }

  lemma ReadSame(f: seq<nat>, w: seq<nat>, kept: seq<nat>)
    requires w != []
    ensures f + [w[0]] + (w[1..] + kept) == f + (w + kept)
  {
    assert w == [w[0]] + w[1..];
  }

  lemma ReadContinues(s: State)
    requires s.conn.Some? && s.conn.value.wire != [] && s.conn.value.wire[0] < |s.log|
    ensures Progresses(s, ReadStep(s))
  {
    var c := s.conn.value;
    assert ReadStep(s).conn.value.Rest() == c.Rest();
    ReadSame(s.now.events, c.wire, Kept(s.log, s.now.filter, c.Rest()));
  }

  lemma WriteSame(log: seq<Event>, q: Filter, w: seq<nat>, i: nat, r: seq<nat>)
    ensures w + Mark(log, q, i) + Kept(log, q, r) == w + Kept(log, q, [i] + r)
  {
    KeptConcat(log, q, [i], r);
    KeptOne(log, q, i);
  }

  lemma WriteContinues(s: State)
    requires s.conn.Some? && (s.conn.value.replay != [] || s.conn.value.out != [])
    ensures Progresses(s, WriteStep(s))
  {
    var c := s.conn.value;
    var i := if c.replay != [] then c.replay[0] else c.out[0];
    var d := if c.replay != [] then c.(replay := c.replay[1..]) else c.(out := c.out[1..]);
    RestOfWritten(c);
    WriteSame(s.log, s.now.filter, c.wire, i, d.Rest());
    Written(s, c, d, i);
  }

  lemma Written(s: State, c: Conn, d: Conn, i: nat)
    requires s.conn == Some(c) && (c.replay != [] || c.out != [])
    requires i == if c.replay != [] then c.replay[0] else c.out[0]
    requires d == if c.replay != [] then c.(replay := c.replay[1..]) else c.(out := c.out[1..])
    requires c.wire + Mark(s.log, s.now.filter, i) + Kept(s.log, s.now.filter, d.Rest()) ==
             c.wire + Kept(s.log, s.now.filter, c.Rest())
    ensures Progresses(s, WriteStep(s))
  {
    var e := d.(wire := c.wire + Mark(s.log, s.now.filter, i));
    assert WriteStep(s) == s.(conn := Some(e));
    assert e.Rest() == d.Rest();
  }

  lemma PutContinues(s: State)
    requires s.conn.Some? && s.conn.value.hand.Some? && |s.conn.value.out| < ADAPTER_BUFFER_SIZE
    ensures Progresses(s, PutStep(s))
  {
    RestOfPut(s.conn.value);
  }

  lemma TakeContinues(s: State)
    requires s.conn.Some? && s.conn.value.hand.None? && s.conn.value.ch != []
    ensures Progresses(s, TakeStep(s))
  {
    RestOfTaken(s.conn.value);
  }

  predicate WireOk(s: State) {
    s.conn.Some? && (s.conn.value.wire != [] ==> s.conn.value.wire[0] < |s.log|)
  }

  /** While something is queued, some step moves it on. */
  lemma SomeProgress(s: State)
    requires WireOk(s) && Backlog(s.conn.value) > 0
    ensures || Progresses(s, ReadStep(s)) || Progresses(s, WriteStep(s))
            || Progresses(s, PutStep(s)) || Progresses(s, TakeStep(s))
  {
    var c := s.conn.value;
    if c.wire != [] {
      ReadContinues(s);
    } else if c.replay != [] || c.out != [] {
      WriteContinues(s);
    } else if c.hand.Some? {
      PutContinues(s);
    } else {
      TakeContinues(s);
    }
  }

  lemma MovesOn(s: State) returns (a: Action, t: State)
    requires Inv(s) && s.conn.Some? && Backlog(s.conn.value) > 0
    ensures IsQuiet(a) && t == Step(s, a) && Progresses(s, t) && Inv(t)
  {
    if s.conn.value.wire != [] {
      WireIsLogged(s);
    }
    SomeProgress(s);
    a, t := ChooseStep(s, [ReadStep(s), WriteStep(s), PutStep(s), TakeStep(s)], (t: State) => Progresses(s, t));
    StepLogs(s, a);
    StepKeeps(s, a);
  }

  lemma ChooseStep(s: State, steps: seq<State>, good: State -> bool) returns (a: Action, t: State)
    requires steps == [ReadStep(s), WriteStep(s), PutStep(s), TakeStep(s)]
    requires good(steps[0]) || good(steps[1]) || good(steps[2]) || good(steps[3])
    ensures IsQuiet(a) && t == Step(s, a) && good(t)
  {
    if good(steps[0]) {
      a, t := Read, steps[0];
    } else if good(steps[1]) {
      a, t := Write, steps[1];
    } else if good(steps[2]) {
      a, t := Put, steps[2];
    } else {
      a, t := Take, steps[3];
    }
  }

  ghost predicate Delivers(s: State, more: seq<Action>) {
    && (forall k :: 0 <= k < |more| ==> IsQuiet(more[k]))
    && s.conn.Some?
    && var t := Run(s, more);
       && t.log == s.log && t.past == s.past && t.conn.Some? && Undelivered(t) == []
       && t.now.events == s.now.events + Undelivered(s)
  }

  lemma RunLast(s: State, actions: seq<Action>, init: seq<Action>, last: Action)
    requires actions == init + [last]
    ensures Run(s, actions) == Step(Run(s, init), last)
  {
    assert actions[..|actions| - 1] == init;
  }

  lemma {:induction false} RunFirst(s: State, a: Action, more: seq<Action>)
    ensures Run(s, [a] + more) == Run(Step(s, a), more)
    decreases |more|
  {
    if more == [] {
      assert [a] + more == [a] && [a][..0] == [];
    } else {
      var n := |more| - 1;
      RunFirst(s, a, more[..n]);
      RunLast(s, [a] + more, [a] + more[..n], more[n]);
      RunLast(Step(s, a), more, more[..n], more[n]);
    }
  }

  lemma DeliversFirst(s: State, a: Action, t: State, rest: seq<Action>) returns (more: seq<Action>)
    requires IsQuiet(a) && t == Step(s, a) && Continues(s, t) && Delivers(t, rest)
    ensures Delivers(s, more)
  {
    more := [a] + rest;
    RunFirst(s, a, rest);
  }

  lemma {:induction false} DrainFrom(s: State) returns (more: seq<Action>)
    requires Inv(s) && s.conn.Some?
    ensures Delivers(s, more)
    decreases if s.conn.Some? then Backlog(s.conn.value) else 0
  {
    more := [];
    if Backlog(s.conn.value) == 0 {
      NothingQueued(s);
    } else {
      var a, t := MovesOn(s);
      var rest := DrainFrom(t);
      more := DeliversFirst(s, a, t, rest);
    }
  }

  lemma NothingQueued(s: State)
    requires s.conn.Some? && Backlog(s.conn.value) == 0
    ensures Delivers(s, [])
  {
    var c := s.conn.value;
    assert c.Rest() == [];
    assert s.now.events + [] == s.now.events;
  }

  /** No event that is on its way can get stuck: from any reachable state with a live connection, the
      pipeline's own steps forward exactly what is still undelivered, in order, and leave nothing. */
  lemma DrainDelivers(capacity: nat, actions: seq<Action>)
    requires capacity > 0 && GoodIds(Run(Init(capacity), actions).log)
    requires Run(Init(capacity), actions).conn.Some?
    ensures exists more :: Delivers(Run(Init(capacity), actions), more)
  {
    RunKeeps(capacity, actions);
    var more := DrainFrom(Run(Init(capacity), actions));
  }

  // ---------------------------------------------------------------- the filter

  /** The three query parameters filter each on its own: a blank one keeps every event, any other exactly
      those with the trimmed value in its own field. */
  lemma ParametersAreIndependent(q: Query, e: Event)
    ensures EventFilter(q, e) <==>
            && EventFilter(Query(q.sessionId, "", ""), e)
            && EventFilter(Query("", q.agentId, ""), e)
            && EventFilter(Query("", "", q.kind), e)
    ensures EventFilter(Query(q.sessionId, "", ""), e) <==> Trim(q.sessionId) in {"", e.sessionId}
    ensures EventFilter(Query("", q.agentId, ""), e) <==> Trim(q.agentId) in {"", e.agentId}
    ensures EventFilter(Query("", "", q.kind), e) <==> Trim(q.kind) in {"", e.kind}
  {
    assert Trim("") == "";
  }
}
