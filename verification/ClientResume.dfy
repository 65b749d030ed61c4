/** One desktop client reading the gateway's event stream across disconnects: the websocket adapter's
    pipeline on the gateway side (websocket_controller.go, wshub) and the client's stream loop, which
    reconnects with the id of the last event it forwarded (agent_chat agent_service.go).
    Publishes do not overlap here, so an event reaches the subscription in the step that logs it. */
module ClientResume {
  import opened Text
  import opened EventBus

  // ---------------------------------------------------------------- the subscription filter

  datatype Query = Query(sessionId: string, agentId: string, kind: string)

  /** `eventFilter`: every non-blank query parameter must match. */
  predicate EventFilter(q: Query, e: Event) {
    && (Trim(q.sessionId) != "" ==> e.sessionId == Trim(q.sessionId))
    && (Trim(q.agentId) != "" ==> e.agentId == Trim(q.agentId))
    && (Trim(q.kind) != "" ==> e.kind == Trim(q.kind))
  }

  /** The results below hold for any filter, chosen anew at each connection. */
  type Filter = Event -> bool

  function FilterOf(q: Query): Filter {
    (e: Event) => EventFilter(q, e)
  }

  predicate KeepsAt(log: seq<Event>, q: Filter, i: nat) {
    i < |log| && q(log[i])
  }

  /** The log positions among `indices` whose events pass the filter, in order. */
  function Kept(log: seq<Event>, q: Filter, indices: seq<nat>): (r: seq<nat>) {
    if indices == [] then []
    else
      Kept(log, q, indices[..|indices| - 1]) + Mark(log, q, indices[|indices| - 1])
  }

  function Mark(log: seq<Event>, q: Filter, i: nat): seq<nat> {
    if KeepsAt(log, q, i) then [i] else []
  }

  /** The filtered log from position `lo` up to `hi`. */
  function KeptRange(log: seq<Event>, q: Filter, lo: nat, hi: nat): seq<nat>
    decreases hi
  {
    if lo >= hi then [] else KeptRange(log, q, lo, hi - 1) + Mark(log, q, hi - 1)
  }

  ghost predicate Increasing(indices: seq<nat>) {
    forall i, j :: 0 <= i < j < |indices| ==> indices[i] < indices[j]
  }

  // ---------------------------------------------------------------- state and steps

  /** One connection, as log positions in the order they travel: the replay slice and the adapter's
      channel `out`, the event its goroutine holds, the bus channel `ch`; then the socket `wire`. */
  datatype Conn = Conn(replay: seq<nat>, out: seq<nat>, hand: Option<nat>, ch: seq<nat>, wire: seq<nat>) {
    function Rest(): seq<nat> {
      replay + out + (if hand.Some? then [hand.value] else []) + ch
    }
  }

  /** One connection's share: the filter it asked for, the log position its replay began at, the positions
      forwarded over it, whether an event passing the filter was dropped by a full channel, and whether
      its resume id was no longer in the ring. */
  datatype Session = Session(filter: Filter, start: nat, events: seq<nat>, gap: bool, lost: bool)

  /** `past` are the ended connections and `now` the latest, live while there is a `conn`; before the first
      connection it is an empty one. */
  datatype State = State(
    capacity: nat,
    log: seq<Event>,
    lastId: string,
    past: seq<Session>,
    now: Session,
    conn: Option<Conn>)

  datatype Action = Publish(event: Event) | Connect(filter: Filter) | Take | Put | Write | Read | Disconnect

  const ADAPTER_BUFFER_SIZE: nat := 32

  function Init(capacity: nat): State {
    State(capacity, [], "", [], Session((e: Event) => true, 0, [], false, false), None)
  }

  function EventsOf(sessions: seq<Session>): seq<nat> {
    if sessions == [] then [] else EventsOf(sessions[..|sessions| - 1]) + sessions[|sessions| - 1].events
  }

  /** Everything the client has forwarded, as log positions. */
  function Forwarded(s: State): seq<nat> {
    EventsOf(s.past) + s.now.events
  }

  function PublishStep(s: State, e: Event): State {
    var i := |s.log|;
    var t := s.(log := s.log + [e]);
    if s.conn.None? then t
    else if |s.conn.value.ch| < SUBSCRIBER_BUFFER_SIZE then
      t.(conn := Some(s.conn.value.(ch := s.conn.value.ch + [i])))
    else t.(now := s.now.(gap := s.now.gap || s.now.filter(e)))
  }

  /** The replay is a suffix of the log, whatever the resume id. */
  function ReplayFrom(s: State): nat
    ensures ReplayFrom(s) <= |s.log|
  {
    |s.log| - |Since(LastN(s.log, s.capacity), Trim(s.lastId))|
  }

  predicate ResumeIdLost(s: State) {
    var ring := LastN(s.log, s.capacity);
    Trim(s.lastId) != "" && FirstWithId(ring, Trim(s.lastId)) == |ring|
  }

  function ConnectStep(s: State, filter: Filter): State {
    if s.conn.Some? then s else Connected(s, filter, ReplayFrom(s), ResumeIdLost(s))
  }

  /** A new connection that replays the log from `from` on. */
  function Connected(s: State, filter: Filter, from: nat, lost: bool): State {
    s.(past := s.past + [s.now],
       now := Session(filter, from, [], false, lost),
       conn := Some(Conn(Interval(from, |s.log|), [], None, [], [])))
  }

  /** `forward`: the adapter's goroutine receives from the bus channel. */
  function TakeStep(s: State): State {
    if s.conn.Some? && s.conn.value.hand.None? && s.conn.value.ch != [] then
      var c := s.conn.value;
      s.(conn := Some(c.(hand := Some(c.ch[0]), ch := c.ch[1..])))
    else s
  }

  /** `forward`: the goroutine sends what it holds to the adapter channel. */
  function PutStep(s: State): State {
    if s.conn.Some? && s.conn.value.hand.Some? && |s.conn.value.out| < ADAPTER_BUFFER_SIZE then
      var c := s.conn.value;
      s.(conn := Some(c.(out := c.out + [c.hand.value], hand := None)))
    else s
  }

  /** The hub writes the replay first and only then reads the adapter channel. */
  function WriteStep(s: State): State {
    if s.conn.None? then s
    else
      var c := s.conn.value;
      if c.replay != [] then
        s.(conn := Some(c.(replay := c.replay[1..], wire := c.wire + Mark(s.log, s.now.filter, c.replay[0]))))
      else if c.out != [] then
        s.(conn := Some(c.(out := c.out[1..], wire := c.wire + Mark(s.log, s.now.filter, c.out[0]))))
      else s
  }

  /** The resume id after forwarding an event. */
  function NextId(lastId: string, e: Event): string {
    if e.id == "" then lastId else e.id
  }

  /** The client forwards an event and remembers its id, unless the id is empty. */
  function ReadStep(s: State): State {
    if s.conn.Some? && s.conn.value.wire != [] && s.conn.value.wire[0] < |s.log| then
      var c := s.conn.value;
      var i := c.wire[0];
      s.(conn := Some(c.(wire := c.wire[1..])),
         now := s.now.(events := s.now.events + [i]),
         lastId := NextId(s.lastId, s.log[i]))
    else s
  }

  function Step(s: State, a: Action): State {
    match a
    case Publish(e) => PublishStep(s, e)
    case Connect(filter) => ConnectStep(s, filter)
    case Take => TakeStep(s)
    case Put => PutStep(s)
    case Write => WriteStep(s)
    case Read => ReadStep(s)
    case Disconnect => s.(conn := None)
  }

  function Run(s: State, actions: seq<Action>): State {
    if actions == [] then s else Step(Run(s, actions[..|actions| - 1]), actions[|actions| - 1])
  }

  // ---------------------------------------------------------------- filtered runs of the log

  ghost predicate InLog(log: seq<Event>, indices: seq<nat>) {
    forall k :: 0 <= k < |indices| ==> indices[k] < |log|
  }

  lemma {:induction false} KeptConcat(log: seq<Event>, q: Filter, a: seq<nat>, b: seq<nat>)
    ensures Kept(log, q, a + b) == Kept(log, q, a) + Kept(log, q, b)
    decreases |b|
  {
    if b == [] {
      assert a + b == a;
    } else {
      assert (a + b)[..|a + b| - 1] == a + b[..|b| - 1];
      KeptConcat(log, q, a, b[..|b| - 1]);
    }
  }

  lemma {:induction false} KeptGrows(log: seq<Event>, e: Event, q: Filter, indices: seq<nat>)
    requires InLog(log, indices)
    ensures Kept(log + [e], q, indices) == Kept(log, q, indices)
    decreases |indices|
  {
    if indices != [] {
      KeptGrows(log, e, q, indices[..|indices| - 1]);
    }
  }

  /** Positions of kept events between `lo` and `hi`, in order. */
  ghost predicate KeptBetween(log: seq<Event>, q: Filter, r: seq<nat>, lo: nat, hi: nat) {
    Increasing(r) && forall k :: 0 <= k < |r| ==> lo <= r[k] < hi && KeepsAt(log, q, r[k])
  }

  lemma {:induction false} KeptInterval(log: seq<Event>, q: Filter, lo: nat, hi: nat)
    ensures Kept(log, q, Interval(lo, hi)) == KeptRange(log, q, lo, hi)
    decreases hi
  {
    if lo < hi {
      KeptInterval(log, q, lo, hi - 1);
      assert Interval(lo, hi) == Interval(lo, hi - 1) + [hi - 1];
      KeptConcat(log, q, Interval(lo, hi - 1), [hi - 1]);
      KeptOne(log, q, hi - 1);
    }
  }

  lemma {:induction false} RangeSplit(log: seq<Event>, q: Filter, lo: nat, mid: nat, hi: nat)
    requires lo <= mid <= hi
    ensures KeptRange(log, q, lo, hi) == KeptRange(log, q, lo, mid) + KeptRange(log, q, mid, hi)
    decreases hi
  {
    if mid < hi {
      RangeSplit(log, q, lo, mid, hi - 1);
    }
  }

  lemma {:induction false} RangeGrows(log: seq<Event>, e: Event, q: Filter, lo: nat, hi: nat)
    requires hi <= |log|
    ensures KeptRange(log + [e], q, lo, hi) == KeptRange(log, q, lo, hi)
    decreases hi
  {
    if lo < hi {
      RangeGrows(log, e, q, lo, hi - 1);
    }
  }

  lemma {:induction false} RangeIncreasing(log: seq<Event>, q: Filter, lo: nat, hi: nat)
    ensures KeptBetween(log, q, KeptRange(log, q, lo, hi), lo, hi)
    decreases hi
  {
    if lo < hi {
      RangeIncreasing(log, q, lo, hi - 1);
      BetweenGrows(log, q, KeptRange(log, q, lo, hi - 1), lo, hi);
    }
  }

  lemma BetweenGrows(log: seq<Event>, q: Filter, r: seq<nat>, lo: nat, hi: nat)
    requires lo < hi && KeptBetween(log, q, r, lo, hi - 1)
    ensures KeptBetween(log, q, r + Mark(log, q, hi - 1), lo, hi)
  {
  }

  /** The part of a filtered range up to and including one of its members is the filtered shorter
      range: what a client has seen of a contiguous run is itself contiguous. */
  lemma RangePrefix(log: seq<Event>, q: Filter, lo: nat, hi: nat, seen: seq<nat>, more: seq<nat>)
    requires lo <= hi && seen != []
    requires seen + more == KeptRange(log, q, lo, hi)
    ensures lo <= seen[|seen| - 1] < hi
    ensures seen == KeptRange(log, q, lo, seen[|seen| - 1] + 1)
  {
    var x := seen[|seen| - 1];
    assert (seen + more)[|seen| - 1] == x;
    RangeIncreasing(log, q, lo, hi);
    RangeSplit(log, q, lo, x + 1, hi);
    SplitAt(seen, more, KeptRange(log, q, lo, x + 1), KeptRange(log, q, x + 1, hi), x);
  }

  lemma SplitAt(a: seq<nat>, b: seq<nat>, c: seq<nat>, d: seq<nat>, x: nat)
    requires a + b == c + d && Increasing(a + b)
    requires a != [] && c != [] && a[|a| - 1] == x == c[|c| - 1]
    ensures a == c && b == d
  {
    assert (a + b)[|a| - 1] == x;
    assert (c + d)[|c| - 1] == x;
    assert |a| == |c|;
    assert (a + b)[..|a|] == a && (c + d)[..|c|] == c;
    assert (a + b)[|a|..] == b && (c + d)[|c|..] == d;
  }

  // ---------------------------------------------------------------- what every step keeps

  /** Event ids as the gateway's publishers make them: distinct, not empty, no outer white space. */
  ghost predicate GoodIds(log: seq<Event>) {
    && (forall i :: 0 <= i < |log| ==> log[i].id != "" && Trimmed(log[i].id))
    && (forall i, j :: 0 <= i < j < |log| ==> log[i].id != log[j].id)
  }

  function SeenUpTo(forwarded: seq<nat>): nat {
    if forwarded == [] then 0 else forwarded[|forwarded| - 1] + 1
  }

  ghost predicate AllKept(log: seq<Event>, q: Filter, indices: seq<nat>) {
    forall k :: 0 <= k < |indices| ==> KeepsAt(log, q, indices[k])
  }

  /** What the client has forwarded, and the id it will resume from. */
  ghost predicate ClientOk(log: seq<Event>, forwarded: seq<nat>, lastId: string) {
    && Increasing(forwarded)
    && InLog(log, forwarded)
    && lastId == (if forwarded == [] then "" else log[forwarded[|forwarded| - 1]].id)
  }

  /** What a connection still carries follows what was forwarded. */
  ghost predicate PipeOk(log: seq<Event>, q: Filter, forwarded: seq<nat>, wire: seq<nat>, rest: seq<nat>) {
    AllKept(log, q, wire) && InLog(log, rest) && Increasing(forwarded + wire + rest)
  }

  /** A connection's events, wire and queues hold exactly the filtered log from `start` on. */
  ghost predicate PipeFull(log: seq<Event>, q: Filter, start: nat, events: seq<nat>, wire: seq<nat>, rest: seq<nat>) {
    start <= |log| && events + wire + Kept(log, q, rest) == KeptRange(log, q, start, |log|)
  }

  ghost predicate Contiguous(log: seq<Event>, q: Filter, start: nat, events: seq<nat>) {
    events == [] || (
      && start < SeenUpTo(events) <= |log|
      && events == KeptRange(log, q, start, SeenUpTo(events)))
  }

  /** Without a gap, an ended connection forwarded a contiguous run of the log under its own filter. */
  ghost predicate Tracks(log: seq<Event>, x: Session) {
    AllKept(log, x.filter, x.events) && (!x.gap ==> Contiguous(log, x.filter, x.start, x.events))
  }

  /** Unless the resume id was lost, it began right behind the last event forwarded before it. */
  predicate Resumes(before: seq<nat>, x: Session) {
    before != [] && !x.lost ==> x.start == SeenUpTo(before)
  }

  ghost predicate PastOk(log: seq<Event>, past: seq<Session>) {
    forall i :: 0 <= i < |past| ==> Tracks(log, past[i]) && Resumes(EventsOf(past[..i]), past[i])
  }

  /** The latest connection: while live, nothing is missing between what was forwarded and what is queued. */
  ghost predicate NowOk(log: seq<Event>, now: Session, forwarded: seq<nat>, conn: Option<Conn>) {
    && AllKept(log, now.filter, now.events)
    && (conn.Some? ==> PipeOk(log, now.filter, forwarded, conn.value.wire, conn.value.Rest()))
    && (!now.gap ==>
          if conn.Some? then PipeFull(log, now.filter, now.start, now.events, conn.value.wire, conn.value.Rest())
          else Contiguous(log, now.filter, now.start, now.events))
  }

  ghost predicate Inv(s: State) {
    && s.capacity > 0 && GoodIds(s.log)
    && PastOk(s.log, s.past) && Resumes(EventsOf(s.past), s.now)
    && ClientOk(s.log, Forwarded(s), s.lastId)
    && NowOk(s.log, s.now, Forwarded(s), s.conn)
  }

  lemma PublishPipe(log: seq<Event>, e: Event, q: Filter, f: seq<nat>, w: seq<nat>, r: seq<nat>, added: seq<nat>)
    requires InLog(log, f) && PipeOk(log, q, f, w, r)
    requires added == [|log|] || added == []
    ensures PipeOk(log + [e], q, f, w, r + added)
  {
    assert f + w + (r + added) == (f + w + r) + added;
  }

  lemma PublishFull(log: seq<Event>, e: Event, q: Filter, start: nat, f: seq<nat>, w: seq<nat>, r: seq<nat>, added: seq<nat>)
    requires InLog(log, r) && PipeFull(log, q, start, f, w, r)
    requires added == [|log|] || (added == [] && !q(e))
    ensures PipeFull(log + [e], q, start, f, w, r + added)
  {
    var n, grown := |log|, log + [e];
    KeptGrows(log, e, q, r);
    RangeGrows(log, e, q, start, n);
    var before, marked := Kept(log, q, r), Mark(grown, q, n);
    assert Kept(grown, q, r + added) == before + marked by {
      KeptConcat(grown, q, r, added);
      KeptOne(grown, q, n);
    }
    Regroup(f, w, before, marked);
  }

  lemma Regroup(a: seq<nat>, b: seq<nat>, c: seq<nat>, d: seq<nat>)
    ensures a + b + (c + d) == (a + b + c) + d
    ensures a + (b + c) + d == a + b + (c + d)
  {
  }

  lemma KeptOne(log: seq<Event>, q: Filter, i: nat)
    ensures Kept(log, q, [i]) == Mark(log, q, i)
  {
    assert [i][..0] == [];
  }

  lemma ClientGrows(log: seq<Event>, e: Event, forwarded: seq<nat>, lastId: string)
    requires ClientOk(log, forwarded, lastId)
    ensures ClientOk(log + [e], forwarded, lastId)
  {
  }

  lemma ContiguousGrows(log: seq<Event>, e: Event, q: Filter, start: nat, events: seq<nat>)
    requires Contiguous(log, q, start, events)
    ensures Contiguous(log + [e], q, start, events)
  {
    if events != [] {
      RangeGrows(log, e, q, start, SeenUpTo(events));
    }
  }

  lemma PastGrows(log: seq<Event>, e: Event, past: seq<Session>)
    requires PastOk(log, past)
    ensures PastOk(log + [e], past)
  {
    forall i | 0 <= i < |past|
      ensures Tracks(log + [e], past[i])
    {
      if !past[i].gap {
        ContiguousGrows(log, e, past[i].filter, past[i].start, past[i].events);
      }
    }
  }

  lemma PublishNow(log: seq<Event>, e: Event, now: Session, f: seq<nat>, c: Conn, added: seq<nat>)
    requires InLog(log, f) && NowOk(log, now, f, Some(c))
    requires added == [|log|] || added == []
    ensures var gap := now.gap || (added == [] && now.filter(e));
            NowOk(log + [e], now.(gap := gap), f, Some(c.(ch := c.ch + added)))
  {
    RestOfPublished(c, added);
    PublishPipe(log, e, now.filter, f, c.wire, c.Rest(), added);
    if !now.gap && (added != [] || !now.filter(e)) {
      PublishFull(log, e, now.filter, now.start, now.events, c.wire, c.Rest(), added);
    }
  }

  lemma PublishKeeps(s: State, e: Event)
    requires Inv(s) && GoodIds(s.log + [e])
    ensures Inv(PublishStep(s, e))
  {
    ClientGrows(s.log, e, Forwarded(s), s.lastId);
    PastGrows(s.log, e, s.past);
    if s.conn.None? {
      if !s.now.gap {
        ContiguousGrows(s.log, e, s.now.filter, s.now.start, s.now.events);
      }
      return;
    }
    var c := s.conn.value;
    var added := if |c.ch| < SUBSCRIBER_BUFFER_SIZE then [|s.log|] else [];
    RestOfPublished(c, added);
    PublishNow(s.log, e, s.now, Forwarded(s), c, added);
    assert added != [] ==> s.now.(gap := s.now.gap || false) == s.now;
  }

  lemma RestOfPublished(c: Conn, added: seq<nat>)
    ensures c.(ch := c.ch + added).Rest() == c.Rest() + added
    ensures added == [] ==> c.(ch := c.ch + added) == c
  {
    assert c.ch + [] == c.ch;
  }

  /** A new connection's replay begins right after the last forwarded event, if that is buffered. */
  lemma ReplayStart(s: State, k: nat)
    requires GoodIds(s.log) && k < |s.log| && s.lastId == s.log[k].id
    ensures ReplayFrom(s) == if |s.log| - s.capacity <= k then k + 1 else |s.log|
    ensures ResumeIdLost(s) <==> k < |s.log| - s.capacity
  {
    var ring := LastN(s.log, s.capacity);
    var i := FirstWithId(ring, s.lastId);
    if |s.log| - s.capacity <= k {
      SinceBuffered(s.log, s.capacity, k);
      assert ring[k - (|s.log| - |ring|)] == s.log[k];
    } else {
      SinceEvicted(s.log, s.capacity, k);
      assert forall j :: 0 <= j < |ring| ==> ring[j] == s.log[|s.log| - s.capacity + j];
    }
  }

  lemma ConnectPipe(log: seq<Event>, q: Filter, f: seq<nat>, from: nat)
    requires from <= |log| && Increasing(f) && SeenUpTo(f) <= from
    ensures PipeOk(log, q, f, [], Interval(from, |log|))
  {
    assert f + [] + Interval(from, |log|) == f + Interval(from, |log|);
  }

  lemma ConnectFull(log: seq<Event>, q: Filter, from: nat)
    requires from <= |log|
    ensures PipeFull(log, q, from, [], [], Interval(from, |log|))
  {
    KeptInterval(log, q, from, |log|);
    var kept := Kept(log, q, Interval(from, |log|));
    assert [] + [] + kept == kept;
  }

  lemma PastPush(log: seq<Event>, past: seq<Session>, x: Session)
    requires PastOk(log, past) && Tracks(log, x) && Resumes(EventsOf(past), x)
    ensures PastOk(log, past + [x]) && EventsOf(past + [x]) == EventsOf(past) + x.events
  {
    assert (past + [x])[..|past|] == past;
    forall i | 0 <= i < |past|
      ensures (past + [x])[..i] == past[..i]
    {
    }
  }

  lemma ConnectedNow(log: seq<Event>, now: Session, f: seq<nat>)
    requires now.start <= |log| && now.events == [] && !now.gap && Increasing(f) && SeenUpTo(f) <= now.start
    ensures NowOk(log, now, f, Some(Conn(Interval(now.start, |log|), [], None, [], [])))
  {
    RestOfConnected(Interval(now.start, |log|));
    ConnectPipe(log, now.filter, f, now.start);
    ConnectFull(log, now.filter, now.start);
  }

  lemma ConnectedKeeps(s: State, filter: Filter, from: nat, lost: bool)
    requires Inv(s) && s.conn.None? && SeenUpTo(Forwarded(s)) <= from <= |s.log|
    requires Forwarded(s) != [] && !lost ==> from == SeenUpTo(Forwarded(s))
    ensures Inv(Connected(s, filter, from, lost))
  {
    var t, f := Connected(s, filter, from, lost), Forwarded(s);
    PastPush(s.log, s.past, s.now);
    assert Forwarded(t) == f + [] == f;
    ConnectedNow(s.log, t.now, f);
  }

  lemma RestOfConnected(replay: seq<nat>)
    ensures Conn(replay, [], None, [], []).Rest() == replay
  {
    assert replay + [] == replay;
  }

  lemma ConnectKeeps(s: State, filter: Filter)
    requires Inv(s) && s.conn.None?
    ensures Inv(ConnectStep(s, filter))
  {
    ReplayFollows(s, Forwarded(s));
    ConnectedKeeps(s, filter, ReplayFrom(s), ResumeIdLost(s));
  }

  lemma ReplayFollows(s: State, f: seq<nat>)
    requires GoodIds(s.log) && ClientOk(s.log, f, s.lastId)
    ensures SeenUpTo(f) <= ReplayFrom(s) <= |s.log|
    ensures f != [] && !ResumeIdLost(s) ==> ReplayFrom(s) == SeenUpTo(f)
  {
    if f != [] {
      ReplayStart(s, f[|f| - 1]);
    }
  }

  lemma MoveKeeps(s: State, t: State)
    requires Inv(s) && s.conn.Some? && t.conn.Some? && t == s.(conn := t.conn)
    requires t.conn.value.wire == s.conn.value.wire && t.conn.value.Rest() == s.conn.value.Rest()
    ensures Inv(t)
  {
  }

  lemma TakeKeeps(s: State)
    requires Inv(s)
    ensures Inv(TakeStep(s))
  {
    if TakeStep(s) != s {
      RestOfTaken(s.conn.value);
      MoveKeeps(s, TakeStep(s));
    }
  }

  lemma RestOfTaken(c: Conn)
    requires c.hand.None? && c.ch != []
    ensures c.(hand := Some(c.ch[0]), ch := c.ch[1..]).Rest() == c.Rest()
  {
    assert c.ch == [c.ch[0]] + c.ch[1..];
  }

  lemma PutKeeps(s: State)
    requires Inv(s)
    ensures Inv(PutStep(s))
  {
    if PutStep(s) != s {
      RestOfPut(s.conn.value);
      MoveKeeps(s, PutStep(s));
    }
  }

  lemma RestOfPut(c: Conn)
    requires c.hand.Some?
    ensures c.(out := c.out + [c.hand.value], hand := None).Rest() == c.Rest()
  {
  }

  lemma WritePipe(log: seq<Event>, q: Filter, f: seq<nat>, w: seq<nat>, i: nat, r: seq<nat>)
    requires PipeOk(log, q, f, w, [i] + r)
    ensures PipeOk(log, q, f, w + Mark(log, q, i), r)
  {
    var all := f + w + ([i] + r);
    assert forall k :: 0 <= k < |r| ==> r[k] == ([i] + r)[k + 1];
    if KeepsAt(log, q, i) {
      assert f + (w + [i]) + r == all;
    } else {
      var some := f + w + r;
      assert f + (w + []) + r == some;
      assert forall k :: 0 <= k < |some| ==> some[k] == all[if k < |f + w| then k else k + 1];
    }
  }

  lemma WriteFull(log: seq<Event>, q: Filter, start: nat, f: seq<nat>, w: seq<nat>, i: nat, r: seq<nat>)
    requires PipeFull(log, q, start, f, w, [i] + r)
    ensures PipeFull(log, q, start, f, w + Mark(log, q, i), r)
  {
    KeptConcat(log, q, [i], r);
    KeptOne(log, q, i);
    var marked, kept := Mark(log, q, i), Kept(log, q, r);
    Regroup(f, w, marked, kept);
  }

  lemma RestOfWritten(c: Conn)
    ensures c.replay != [] ==> c.Rest() == [c.replay[0]] + c.(replay := c.replay[1..]).Rest()
    ensures c.replay == [] && c.out != [] ==> c.Rest() == [c.out[0]] + c.(out := c.out[1..]).Rest()
  {
  }

  lemma WriteKeeps(s: State)
    requires Inv(s)
    ensures Inv(WriteStep(s))
  {
    if s.conn.Some? && (s.conn.value.replay != [] || s.conn.value.out != []) {
      var c, d := s.conn.value, WriteStep(s).conn.value;
      var i := if c.replay != [] then c.replay[0] else c.out[0];
      RestOfWritten(c);
      assert d.Rest() == (if c.replay != [] then c.(replay := c.replay[1..]) else c.(out := c.out[1..])).Rest();
      WritePipe(s.log, s.now.filter, Forwarded(s), c.wire, i, d.Rest());
      if !s.now.gap {
        WriteFull(s.log, s.now.filter, s.now.start, s.now.events, c.wire, i, d.Rest());
      }
    }
  }

  lemma ReadPipe(log: seq<Event>, q: Filter, f: seq<nat>, w: seq<nat>, r: seq<nat>, lastId: string)
    requires w != [] && ClientOk(log, f, lastId) && PipeOk(log, q, f, w, r)
    ensures KeepsAt(log, q, w[0])
    ensures ClientOk(log, f + [w[0]], log[w[0]].id) && PipeOk(log, q, f + [w[0]], w[1..], r)
  {
    var all := f + w + r;
    assert f + [w[0]] + w[1..] + r == all;
    assert f + [w[0]] == all[..|f| + 1];
    assert Increasing(all[..|f| + 1]);
  }

  lemma ReadFull(log: seq<Event>, q: Filter, start: nat, f: seq<nat>, w: seq<nat>, r: seq<nat>)
    requires w != [] && PipeFull(log, q, start, f, w, r)
    ensures PipeFull(log, q, start, f + [w[0]], w[1..], r)
  {
    assert f + [w[0]] + w[1..] == f + w;
  }

  lemma ReadNow(log: seq<Event>, now: Session, f: seq<nat>, c: Conn, lastId: string)
    requires c.wire != [] && ClientOk(log, f, lastId) && NowOk(log, now, f, Some(c))
    ensures var i := c.wire[0];
            && KeepsAt(log, now.filter, i) && ClientOk(log, f + [i], log[i].id)
            && NowOk(log, now.(events := now.events + [i]), f + [i], Some(c.(wire := c.wire[1..])))
  {
    ReadPipe(log, now.filter, f, c.wire, c.Rest(), lastId);
    if !now.gap {
      ReadFull(log, now.filter, now.start, now.events, c.wire, c.Rest());
    }
    assert c.(wire := c.wire[1..]).Rest() == c.Rest();
  }

  lemma ReadKeeps(s: State)
    requires Inv(s)
    ensures Inv(ReadStep(s))
  {
    if s.conn.Some? && s.conn.value.wire != [] {
      var c := s.conn.value;
      ReadNow(s.log, s.now, Forwarded(s), c, s.lastId);
      assert Forwarded(ReadStep(s)) == Forwarded(s) + [c.wire[0]];
    }
  }

  lemma DisconnectFull(log: seq<Event>, q: Filter, start: nat, f: seq<nat>, w: seq<nat>, r: seq<nat>)
    requires PipeFull(log, q, start, f, w, r)
    ensures Contiguous(log, q, start, f)
  {
    if f != [] {
      var kept := Kept(log, q, r);
      assert f + (w + kept) == f + w + kept;
      RangePrefix(log, q, start, |log|, f, w + kept);
    }
  }

  lemma DisconnectKeeps(s: State)
    requires Inv(s)
    ensures Inv(s.(conn := None))
  {
    if !s.now.gap && s.conn.Some? {
      var c := s.conn.value;
      DisconnectFull(s.log, s.now.filter, s.now.start, s.now.events, c.wire, c.Rest());
    }
  }

  lemma StepKeeps(s: State, a: Action)
    requires Inv(s) && GoodIds(Step(s, a).log)
    ensures Inv(Step(s, a))
  {
    match a
    case Publish(e) => PublishKeeps(s, e);
    case Connect(filter) =>
      if s.conn.None? {
        ConnectKeeps(s, filter);
      }
    case Take => TakeKeeps(s);
    case Put => PutKeeps(s);
    case Write => WriteKeeps(s);
    case Read => ReadKeeps(s);
    case Disconnect => DisconnectKeeps(s);
  }

  lemma {:induction false} RunKeeps(capacity: nat, actions: seq<Action>)
    requires capacity > 0 && GoodIds(Run(Init(capacity), actions).log)
    ensures Inv(Run(Init(capacity), actions))
  {
    if actions != [] {
      var init, last := actions[..|actions| - 1], actions[|actions| - 1];
      var s := Run(Init(capacity), init);
      assert s.log <= Step(s, last).log;
      assert forall i :: 0 <= i < |s.log| ==> Step(s, last).log[i] == s.log[i];
      RunKeeps(capacity, init);
      StepKeeps(s, last);
    }
  }

  // ---------------------------------------------------------------- main results

  /** All connections so far, the latest last. */
  function Sessions(s: State): seq<Session> {
    s.past + [s.now]
  }

  /** Everything still on its way to the client, filtered. */
  function Undelivered(s: State): seq<nat> {
    if s.conn.None? then [] else s.conn.value.wire + Kept(s.log, s.now.filter, s.conn.value.Rest())
  }

  /** What the live connection has forwarded and still carries is all of the filtered log from its start. */
  ghost predicate DeliversAll(s: State) {
    s.now.events + Undelivered(s) == KeptRange(s.log, s.now.filter, s.now.start, |s.log|)
  }

  lemma SessionsOk(s: State)
    requires Inv(s)
    ensures PastOk(s.log, Sessions(s)) && EventsOf(Sessions(s)) == Forwarded(s)
  {
    DisconnectKeeps(s);
    PastPush(s.log, s.past, s.now);
  }

  lemma LiveDeliversAll(s: State)
    requires Inv(s) && s.conn.Some? && !s.now.gap
    ensures DeliversAll(s)
  {
    FullIs(s.log, s.now.filter, s.now.start, s.now.events, s.conn.value.wire, s.conn.value.Rest());
  }

  lemma FullIs(log: seq<Event>, q: Filter, start: nat, events: seq<nat>, w: seq<nat>, r: seq<nat>)
    requires PipeFull(log, q, start, events, w, r)
    ensures events + (w + Kept(log, q, r)) == KeptRange(log, q, start, |log|)
  {
    assert events + (w + Kept(log, q, r)) == events + w + Kept(log, q, r);
  }

  lemma InvMeans(s: State)
    requires Inv(s)
    ensures Increasing(Forwarded(s)) && Forwarded(s) == EventsOf(Sessions(s))
    ensures PastOk(s.log, Sessions(s))
    ensures s.conn.Some? && !s.now.gap ==> DeliversAll(s)
  {
    SessionsOk(s);
    if s.conn.Some? && !s.now.gap {
      LiveDeliversAll(s);
    }
  }

  /** Across any disconnects, channel overflows and changes of filter the client forwards strictly
      increasing log positions, so nothing is repeated or reordered.  Over each connection it forwards only
      what that connection's filter keeps; unless an event passing it was dropped, a contiguous run of the
      log so filtered; and unless its resume id had left the ring, starting right behind the last event
      forwarded before.  Once a connection without a drop has delivered everything, it has forwarded all of
      the filtered log from its start on. */
  lemma ResumeIsExact(capacity: nat, actions: seq<Action>)
    requires capacity > 0 && GoodIds(Run(Init(capacity), actions).log)
    ensures
      var s := Run(Init(capacity), actions);
      && Increasing(Forwarded(s)) && Forwarded(s) == EventsOf(Sessions(s))
      && PastOk(s.log, Sessions(s))
      && (s.conn.Some? && !s.now.gap ==> DeliversAll(s))
  {
    RunKeeps(capacity, actions);
    InvMeans(Run(Init(capacity), actions));
  }

  /** Where the first connection that forwarded anything began. */
  function FirstStart(sessions: seq<Session>): nat {
    if sessions == [] then 0
    else
      var init := sessions[..|sessions| - 1];
      if EventsOf(init) != [] then FirstStart(init) else sessions[|sessions| - 1].start
  }

  /** The connection forwarded nothing, or had this filter and lost nothing. */
  ghost predicate IsClean(x: Session, q: Filter) {
    x.events != [] ==> x.filter == q && !x.gap && !x.lost
  }

  ghost predicate AllClean(sessions: seq<Session>, q: Filter) {
    forall i :: 0 <= i < |sessions| ==> IsClean(sessions[i], q)
  }

  lemma PastPrefix(log: seq<Event>, past: seq<Session>, n: nat)
    requires PastOk(log, past) && n <= |past|
    ensures PastOk(log, past[..n])
  {
    forall i | 0 <= i < n
      ensures past[..n][..i] == past[..i]
    {
    }
  }

  lemma JoinRuns(log: seq<Event>, q: Filter, start: nat, a: seq<nat>, b: seq<nat>)
    requires a != [] && b != [] && Contiguous(log, q, start, a) && Contiguous(log, q, SeenUpTo(a), b)
    ensures Contiguous(log, q, start, a + b)
  {
    RangeSplit(log, q, start, SeenUpTo(a), SeenUpTo(b));
    assert SeenUpTo(a + b) == SeenUpTo(b);
  }

  lemma {:induction false} CleanIsContiguous(log: seq<Event>, q: Filter, sessions: seq<Session>)
    requires PastOk(log, sessions) && AllClean(sessions, q)
    ensures Contiguous(log, q, FirstStart(sessions), EventsOf(sessions))
  {
    if sessions != [] {
      var n := |sessions| - 1;
      var init, last := sessions[..n], sessions[n];
      PastPrefix(log, sessions, n);
      CleanIsContiguous(log, q, init);
      assert Tracks(log, last) && Resumes(EventsOf(init), last) && IsClean(last, q);
      if last.events == [] {
        assert EventsOf(sessions) == EventsOf(init);
      } else if EventsOf(init) == [] {
        assert EventsOf(sessions) == last.events;
      } else {
        JoinRuns(log, q, FirstStart(init), EventsOf(init), last.events);
      }
    }
  }

  /** With one filter, no drop and no lost resume id, all connections together forward one contiguous run of
      the filtered log. */
  lemma OneFilterIsContiguous(capacity: nat, q: Filter, actions: seq<Action>)
    requires capacity > 0 && GoodIds(Run(Init(capacity), actions).log)
    requires AllClean(Sessions(Run(Init(capacity), actions)), q)
    ensures var s := Run(Init(capacity), actions);
            Contiguous(s.log, q, FirstStart(Sessions(s)), Forwarded(s))
  {
    ResumeIsExact(capacity, actions);
    var s := Run(Init(capacity), actions);
    CleanIsContiguous(s.log, q, Sessions(s));
  }

  /** Over a connection that asked for certain query parameters the client gets only matching events. */
  lemma OnlyMatchingEvents(capacity: nat, actions: seq<Action>, i: nat, query: Query, k: nat)
    requires capacity > 0 && GoodIds(Run(Init(capacity), actions).log)
    requires var sessions := Sessions(Run(Init(capacity), actions));
             i < |sessions| && sessions[i].filter == FilterOf(query) && k < |sessions[i].events|
    ensures var s := Run(Init(capacity), actions);
            var position := Sessions(s)[i].events[k];
            position < |s.log| && EventFilter(query, s.log[position])
  {
    ResumeIsExact(capacity, actions);
    var s := Run(Init(capacity), actions);
    assert Tracks(s.log, Sessions(s)[i]);
    assert KeepsAt(s.log, Sessions(s)[i].filter, Sessions(s)[i].events[k]);
  }

  // ---------------------------------------------------------------- the resume id

  /** The logged events at these positions. */
  function LoggedAt(log: seq<Event>, indices: seq<nat>): seq<Event> {
    if indices == [] then []
    else
      var last := indices[|indices| - 1];
      LoggedAt(log, indices[..|indices| - 1]) + if last < |log| then [log[last]] else []
  }

  /** The id of the last event that has one. */
  function ResumeIdOf(events: seq<Event>): string {
    if events == [] then "" else NextId(ResumeIdOf(events[..|events| - 1]), events[|events| - 1])
  }

  lemma {:induction false} LoggedGrows(log: seq<Event>, e: Event, indices: seq<nat>)
    requires InLog(log, indices)
    ensures LoggedAt(log + [e], indices) == LoggedAt(log, indices)
  {
    if indices != [] {
      LoggedGrows(log, e, indices[..|indices| - 1]);
    }
  }

  ghost predicate RemembersLast(log: seq<Event>, forwarded: seq<nat>, lastId: string) {
    InLog(log, forwarded) && lastId == ResumeIdOf(LoggedAt(log, forwarded))
  }

  lemma ReadRemembers(log: seq<Event>, f: seq<nat>, lastId: string, i: nat)
    requires RemembersLast(log, f, lastId) && i < |log|
    ensures RemembersLast(log, f + [i], NextId(lastId, log[i]))
  {
    assert (f + [i])[..|f|] == f;
    var before := LoggedAt(log, f);
    assert LoggedAt(log, f + [i]) == before + [log[i]] && (before + [log[i]])[..|before|] == before;
  }

  lemma ConnectedForwards(s: State, filter: Filter, from: nat, lost: bool)
    ensures Forwarded(Connected(s, filter, from, lost)) == Forwarded(s)
  {
    assert (s.past + [s.now])[..|s.past|] == s.past;
    assert Forwarded(s) + [] == Forwarded(s);
  }

  lemma PublishForwards(s: State, e: Event)
    ensures var t := PublishStep(s, e);
            Forwarded(t) == Forwarded(s) && t.log == s.log + [e] && t.lastId == s.lastId
  {
  }

  lemma ReadForwards(s: State)
    requires ReadStep(s) != s
    ensures var i, t := s.conn.value.wire[0], ReadStep(s);
            && i < |s.log| && t.log == s.log && t.lastId == NextId(s.lastId, s.log[i])
            && Forwarded(t) == Forwarded(s) + [i]
  {
  }

  lemma StepRemembers(s: State, a: Action)
    requires RemembersLast(s.log, Forwarded(s), s.lastId)
    ensures var t := Step(s, a); RemembersLast(t.log, Forwarded(t), t.lastId)
  {
    match a
    case Publish(e) => PublishRemembers(s, e);
    case Connect(filter) => ConnectRemembers(s, filter);
    case Read => ReadStepRemembers(s);
    case Take => QuietForwards(s, a);
    case Put => QuietForwards(s, a);
    case Write => QuietForwards(s, a);
    case Disconnect => QuietForwards(s, a);
  }

  lemma ConnectRemembers(s: State, filter: Filter)
    requires RemembersLast(s.log, Forwarded(s), s.lastId)
    ensures var t := ConnectStep(s, filter); RemembersLast(t.log, Forwarded(t), t.lastId)
  {
    ConnectedRemembers(s, filter, ReplayFrom(s), ResumeIdLost(s));
  }

  /** The other steps forward nothing. */
  lemma QuietForwards(s: State, a: Action)
    requires a.Take? || a.Put? || a.Write? || a.Disconnect?
    ensures var t := Step(s, a); t.log == s.log && Forwarded(t) == Forwarded(s) && t.lastId == s.lastId
  {
    if a.Write? {
      WriteForwards(s);
    }
  }

  lemma PublishRemembers(s: State, e: Event)
    requires RemembersLast(s.log, Forwarded(s), s.lastId)
    ensures var t := PublishStep(s, e); RemembersLast(t.log, Forwarded(t), t.lastId)
  {
    LoggedGrows(s.log, e, Forwarded(s));
    PublishForwards(s, e);
  }

  lemma ConnectedRemembers(s: State, filter: Filter, from: nat, lost: bool)
    requires RemembersLast(s.log, Forwarded(s), s.lastId)
    ensures var t := Connected(s, filter, from, lost); RemembersLast(t.log, Forwarded(t), t.lastId)
  {
    ConnectedForwards(s, filter, from, lost);
  }

  lemma ReadStepRemembers(s: State)
    requires RemembersLast(s.log, Forwarded(s), s.lastId)
    ensures var t := ReadStep(s); RemembersLast(t.log, Forwarded(t), t.lastId)
  {
    if ReadStep(s) != s {
      ReadForwards(s);
      ReadRemembers(s.log, Forwarded(s), s.lastId, s.conn.value.wire[0]);
    }
  }

  lemma WriteForwards(s: State)
    ensures var t := WriteStep(s); t.log == s.log && Forwarded(t) == Forwarded(s) && t.lastId == s.lastId
  {
  }

  /** Whatever the ids are, the resume id is that of the last forwarded event that has one. */
  lemma {:induction false} ResumeIdIsLastForwarded(capacity: nat, actions: seq<Action>)
    ensures var s := Run(Init(capacity), actions); RemembersLast(s.log, Forwarded(s), s.lastId)
  {
    if actions != [] {
      ResumeIdIsLastForwarded(capacity, actions[..|actions| - 1]);
      StepRemembers(Run(Init(capacity), actions[..|actions| - 1]), actions[|actions| - 1]);
    }
  }

  // ---------------------------------------------------------------- the client's own fields

  const MAX_AUDIT_EVENTS: nat := 5000

  /** The fields of AgentService that the stream callback updates. */
  class StreamClient {
    var lastEventID: string
    var messages: seq<Event>
    var auditEvents: seq<Event>
    var currentSessionID: string
    var activeSessions: set<string>

    /** Every event forwarded so far, and those of them that go into the audit cache. */
    ghost var forwarded: seq<Event>
    ghost var audits: seq<Event>

    /** The resume id is that of the last forwarded event that has one; the audit cache holds the newest
        audit events. */
    ghost predicate Valid()
      reads this
    {
      lastEventID == ResumeIdOf(forwarded) && auditEvents == LastN(audits, MAX_AUDIT_EVENTS)
    }

    constructor ()
      ensures Valid() && forwarded == [] && audits == []
    {
      lastEventID, messages, auditEvents := "", [], [];
      currentSessionID, activeSessions := "", {};
      forwarded, audits := [], [];
    }

    method SetLastStreamEventID(id: string)
      modifies `lastEventID
      ensures lastEventID == if id == "" then old(lastEventID) else id
    {
      if id == "" {
        return;
      }
      lastEventID := id;
    }

    /** `isAudit` stands for the event's mapped kind. */
    method ForwardGatewayEvent(event: Event, isAudit: bool)
      requires Valid()
      modifies `lastEventID, `messages, `auditEvents, `forwarded, `audits
      ensures Valid() && forwarded == old(forwarded) + [event]
      ensures audits == old(audits) + if isAudit then [event] else []
      ensures messages == old(messages) + [event]
    {
      messages := messages + [event];
      if isAudit {
        LastNPush(audits, MAX_AUDIT_EVENTS, event);
        audits := audits + [event];
        auditEvents := auditEvents + [event];
        var overflow := |auditEvents| - MAX_AUDIT_EVENTS;
        if overflow > 0 {
          auditEvents := auditEvents[overflow..];
        }
      }
      SetLastStreamEventID(event.id);
      forwarded := forwarded + [event];
      assert forwarded[..|forwarded| - 1] == old(forwarded);
    }

    /** The resume id and session filter a new connection uses: the current session, or the only
        active one, or none. */
    method StreamSubscriptionState() returns (lastId: string, sessionId: string)
      ensures lastId == lastEventID
      ensures Trim(currentSessionID) != "" ==> sessionId == currentSessionID
      ensures Trim(currentSessionID) == "" && |activeSessions| == 1 ==> activeSessions == {sessionId}
      ensures Trim(currentSessionID) == "" && |activeSessions| != 1 ==> sessionId == ""
    {
      lastId := lastEventID;
      if Trim(currentSessionID) != "" {
        return lastId, currentSessionID;
      }
      if |activeSessions| == 1 {
        sessionId :| sessionId in activeSessions;
        assert |activeSessions - {sessionId}| == 0;
        return lastId, sessionId;
      }
      return lastId, "";
    }
  }
}
