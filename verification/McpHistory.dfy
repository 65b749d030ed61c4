/** Where the manager's status table comes from: the writes an operation makes to a server's entry, in
    order (agent_gateway/internal/runtime/mcp/manager.go; the steps are those of McpProtocol). */
module McpHistory {
  import opened Text
  import opened McpManager
  import opened McpProtocol

  // ---------------------------------------------------------------- the writes of a run

  datatype Write =
    | Began(cfg: Config)
    | FailedWith(cfg: Config, error: string)
    | Replaced(cfg: Config, client: Client, tools: seq<Tool>)
    | Detached(cfg: Config, phase: Phase)
    | ShutDown

  /** The write this step makes to the server, if any; `known` says whether it has an entry. */
  function WriteOf(w: World, a: Action, key: Key, known: bool): seq<Write> {
    if w.m.closed then []
    else
      match a
      case StartRefresh(tid, k, cfg) => if tid !in w.threads && k == key then [Began(cfg)] else []
      case StartClose(tid, k, cfg, phase) =>
        if tid !in w.threads && k == key && phase in {Disconnected, Disabled} then [Detached(cfg, phase)] else []
      case StartShutdown(tid, order) =>
        if tid !in w.threads && known && IsEnumeration(order, w.m.servers.Keys) then [ShutDown] else []
      case Replace(tid) =>
        if tid in w.threads && w.threads[tid].Ready? && w.threads[tid].key == key
        then [Replaced(w.threads[tid].cfg, w.threads[tid].client, w.threads[tid].tools)] else []
      case Fail(tid, error) =>
        if tid in w.threads && w.threads[tid].Failing? && w.threads[tid].key == key
        then [FailedWith(w.threads[tid].cfg, error)] else []
      case _ => []
  }

  /** All writes to the server in a run, in order. */
  function Writes(actions: seq<Action>, key: Key): seq<Write> {
    if actions == [] then []
    else
      var before := Writes(actions[..|actions| - 1], key);
      before + WriteOf(Run(Init(), actions[..|actions| - 1]), actions[|actions| - 1], key, before != [])
  }

  // ---------------------------------------------------------------- what they leave

  function PhaseOf(last: Write): Phase {
    match last
    case Began(_) => Connecting
    case FailedWith(_, _) => Failed
    case Replaced(_, _, _) => Connected
    case Detached(_, phase) => phase
    case ShutDown => Closed
  }

  /** The last write says; a shutdown keeps what there was. */
  function ErrorOf(h: seq<Write>): string {
    if h == [] then ""
    else
      match h[|h| - 1]
      case FailedWith(_, error) => error
      case ShutDown => ErrorOf(h[..|h| - 1])
      case _ => ""
  }

  /** What was installed last, unless it has been detached since. */
  function InstalledOf(h: seq<Write>): Option<(Client, seq<Tool>)> {
    if h == [] then None
    else
      match h[|h| - 1]
      case Replaced(_, client, tools) => Some((client, tools))
      case Detached(_, _) => None
      case ShutDown => None
      case _ => InstalledOf(h[..|h| - 1])
  }

  function ToolsOf(h: seq<Write>): seq<Tool> {
    if InstalledOf(h).Some? then InstalledOf(h).value.1 else []
  }

  /** The last name written: an unnamed close keeps the one there was. */
  function NameOf(h: seq<Write>): string {
    if h == [] then ""
    else
      match h[|h| - 1]
      case Detached(cfg, _) => if cfg.name != "" then cfg.name else NameOf(h[..|h| - 1])
      case ShutDown => NameOf(h[..|h| - 1])
      case write => write.cfg.name
  }

  /** The transport of the last attempt or installation. */
  function TransportOf(h: seq<Write>): string {
    if h == [] then ""
    else
      match h[|h| - 1]
      case Began(cfg) => cfg.transport
      case Replaced(cfg, _, _) => cfg.transport
      case _ => TransportOf(h[..|h| - 1])
  }

  /** The server's entry shows its writes.  The tool count is that of the tools kept, except that a new
      attempt counts none. */
  ghost predicate Shows(servers: map<Key, Connection>, key: Key, h: seq<Write>) {
    if h == [] then key !in servers
    else
      && key in servers
      && var conn := servers[key];
         && conn.client == (if InstalledOf(h).Some? then Some(InstalledOf(h).value.0) else None)
         && conn.tools == ToolsOf(h)
         && conn.status == Status(key, NameOf(h), PhaseOf(h[|h| - 1]), TransportOf(h),
                                  if h[|h| - 1].Began? then 0 else |ToolsOf(h)|, ErrorOf(h))
  }

  lemma OneMore(h: seq<Write>, write: Write)
    ensures (h + [write])[..|h|] == h
  {
  }

  lemma BeganShows(m: Table, key: Key, h: seq<Write>, cfg: Config)
    requires !m.closed && Shows(m.servers, key, h)
    ensures Shows(SetConnecting(m, key, cfg, cfg.transport).servers, key, h + [Began(cfg)])
  {
    OneMore(h, Began(cfg));
  }

  lemma FailedShows(m: Table, key: Key, h: seq<Write>, cfg: Config, error: string)
    requires !m.closed && Shows(m.servers, key, h)
    ensures Shows(RecordFailure(m, key, cfg, error).servers, key, h + [FailedWith(cfg, error)])
  {
    OneMore(h, FailedWith(cfg, error));
  }

  lemma InstalledShows(m: Table, key: Key, h: seq<Write>, cfg: Config, c: Client, tools: seq<Tool>)
    requires !m.closed && Shows(m.servers, key, h)
    ensures Shows(ReplaceConnected(m, key, cfg, cfg.transport, c, tools).servers, key, h + [Replaced(cfg, c, tools)])
  {
    OneMore(h, Replaced(cfg, c, tools));
  }

  lemma DetachedShows(m: Table, key: Key, h: seq<Write>, cfg: Config, phase: Phase)
    requires !m.closed && Shows(m.servers, key, h)
    ensures Shows(CloseServer(m, key, cfg, phase, "").servers, key, h + [Detached(cfg, phase)])
  {
    OneMore(h, Detached(cfg, phase));
  }

  lemma ShutDownShows(m: Table, key: Key, h: seq<Write>)
    requires !m.closed && Shows(m.servers, key, h)
    ensures Shows(CloseAll(m).servers, key, h + if h != [] then [ShutDown] else [])
  {
    OneMore(h, ShutDown);
  }

  lemma StepShows(w: World, a: Action, key: Key, h: seq<Write>)
    requires Shows(w.m.servers, key, h)
    ensures Shows(Step(w, a).m.servers, key, h + WriteOf(w, a, key, h != []))
  {
    var t := Step(w, a);
    if WriteOf(w, a, key, h != []) == [] {
      Unwritten(w, a, key);
      assert h + [] == h;
    } else {
      match a
      case StartRefresh(_, _, cfg) => BeganShows(w.m, key, h, cfg);
      case StartClose(_, _, cfg, phase) => DetachedShows(w.m, key, h, cfg, phase);
      case StartShutdown(_, _) => ShutDownShows(w.m, key, h);
      case Replace(tid) =>
        InstalledShows(w.m, key, h, w.threads[tid].cfg, w.threads[tid].client, w.threads[tid].tools);
      case Fail(tid, error) => FailedShows(w.m, key, h, w.threads[tid].cfg, error);
    }
  }

  /** A step that writes nothing to the server leaves its entry as it is. */
  lemma Unwritten(w: World, a: Action, key: Key)
    requires WriteOf(w, a, key, key in w.m.servers) == []
    ensures key in Step(w, a).m.servers <==> key in w.m.servers
    ensures key in w.m.servers ==> Step(w, a).m.servers[key] == w.m.servers[key]
  {
  }

  /** In every run a server's entry is what its own writes leave: the phase and the error of the last one
      (a failure keeps the client and the tools and counts them, an attempt clears the error), the client
      and tools installed last unless detached since, the last name and the last transport. */
  lemma {:induction false} StatusIsLastWrite(actions: seq<Action>, key: Key)
    ensures Shows(Run(Init(), actions).m.servers, key, Writes(actions, key))
  {
    if actions != [] {
      var n := |actions| - 1;
      StatusIsLastWrite(actions[..n], key);
      StepShows(Run(Init(), actions[..n]), actions[n], key, Writes(actions[..n], key));
    }
  }

  // ---------------------------------------------------------------- one refresh

  /** What a step tells the refresh `tid`: whether its connector, or its listing, succeeded. */
  function AnswerOf(w: World, a: Action, tid: Tid): seq<bool> {
    if tid !in w.threads then []
    else
      var pc := w.threads[tid];
      match a
      case ConnectReturns(t, result) =>
        if t == tid && (pc.Connect1? || pc.Connect2?) && (result.Some? ==> result.value !in w.issued)
        then [result.Some?] else []
      case ListReturns(t, listed) => if t == tid && (pc.List1? || pc.List2?) then [listed.Some?] else []
      case _ => []
  }

  function Answers(actions: seq<Action>, tid: Tid): seq<bool> {
    if actions == [] then []
    else
      Answers(actions[..|actions| - 1], tid) +
      AnswerOf(Run(Init(), actions[..|actions| - 1]), actions[|actions| - 1], tid)
  }

  /** Connected and listed, at once or after one reconnect. */
  predicate Succeeds(answers: seq<bool>) {
    answers == [true, true] || answers == [true, false, true, true]
  }

  /** A connector failed, or the second listing did. */
  predicate Fails(answers: seq<bool>) {
    answers == [false] || answers == [true, false, false] || answers == [true, false, true, false]
  }

  /** Where an operation is, by what it has been told; a refresh whose configuration fails its checks asks
      nothing before it records the failure. */
  predicate PcFits(pc: Pc, answers: seq<bool>) {
    match pc
    case Connect1(_, _) => answers == []
    case List1(_, _, _) => answers == [true]
    case Discard1(_, _, _) => answers == [true, false]
    case Connect2(_, _) => answers == [true, false]
    case List2(_, _, _) => answers == [true, false, true]
    case Discard2(_, _, _) => answers == [true, false, true, false]
    case Ready(_, _, _, _) => Succeeds(answers)
    case Failing(_, _) => answers == [] || Fails(answers)
    case _ => true
  }

  ghost predicate Fits(w: World, tid: Tid, answers: seq<bool>) {
    if tid in w.threads then PcFits(w.threads[tid], answers) else answers == []
  }

  lemma OwnStepFits(w: World, a: Action, tid: Tid, answers: seq<bool>)
    requires Fits(w, tid, answers) && a.tid == tid
    ensures Fits(Step(w, a), tid, answers + AnswerOf(w, a, tid))
  {
    assert answers + [] == answers;
  }

  lemma OtherStepFits(w: World, a: Action, tid: Tid, answers: seq<bool>)
    requires Fits(w, tid, answers) && a.tid != tid
    ensures Fits(Step(w, a), tid, answers + AnswerOf(w, a, tid))
  {
    assert answers + [] == answers;
  }

  /** In every run a refresh is about to install its client if and only if it connected and listed, at once
      or after exactly one reconnect; it is about to record a failure only when a connector failed or the
      second listing did; and in between it is where its answers put it. */
  lemma {:induction false} OneReconnect(actions: seq<Action>, tid: Tid)
    ensures Fits(Run(Init(), actions), tid, Answers(actions, tid))
  {
    if actions != [] {
      var n := |actions| - 1;
      var w, a := Run(Init(), actions[..n]), actions[n];
      OneReconnect(actions[..n], tid);
      if a.tid == tid {
        OwnStepFits(w, a, tid, Answers(actions[..n], tid));
      } else {
        OtherStepFits(w, a, tid, Answers(actions[..n], tid));
      }
    }
  }

  // ---------------------------------------------------------------- a call

  /** In every run a call gets the client installed last, unless that has been detached, or the manager shut
      down, since; and otherwise it ends at once. */
  lemma CallGetsInstalled(actions: seq<Action>, tid: Tid, key: Key)
    requires tid !in Run(Init(), actions).threads
    ensures var w, h := Run(Init(), actions), Writes(actions, key);
            var t := Step(w, StartCall(tid, key));
            && tid in t.threads
            && t.threads[tid] == if !w.m.closed && InstalledOf(h).Some? then Calling(InstalledOf(h).value.0) else Done
  {
    StatusIsLastWrite(actions, key);
    CallGetsClient(Run(Init(), actions), tid, key);
  }

  lemma CallGetsClient(w: World, tid: Tid, key: Key)
    requires tid !in w.threads
    ensures var t := Step(w, StartCall(tid, key));
            && tid in t.threads
            && t.threads[tid] == if !w.m.closed && InstalledClient(w.m, key).Some?
                                 then Calling(InstalledClient(w.m, key).value) else Done
  {
  }

  // ---------------------------------------------------------------- shutting down comes to an end

  function Repeated<S>(f: S -> S, n: nat, s: S): S {
    if n == 0 then s else f(Repeated(f, n - 1, s))
  }

  function Times(a: Action, n: nat): seq<Action> {
    if n == 0 then [] else Times(a, n - 1) + [a]
  }

  lemma {:induction false} RunTimes(w: World, a: Action, n: nat, f: World -> World)
    requires f == StepBy(a)
    ensures Run(w, Times(a, n)) == Repeated(f, n, w)
  {
    if n > 0 {
      RunTimes(w, a, n - 1, f);
      assert Times(a, n)[..|Times(a, n)| - 1] == Times(a, n - 1);
    }
  }

  function StepBy(a: Action): World -> World {
    (w: World) => Step(w, a)
  }

  /** The operation has closed the first `n` of its clients and has the others to go. */
  ghost predicate ClosedSoFar(w: World, t: World, tid: Tid, cs: seq<Client>, n: nat) {
    n <= |cs| && t.m == w.m && tid in t.threads && t.threads[tid] == Draining(cs[n..]) && t.closeLog == w.closeLog + cs[..n]
  }

  lemma ClosesOneMore(w: World, t: World, tid: Tid, cs: seq<Client>, n: nat)
    requires w.m.inflight == 0 && ClosedSoFar(w, t, tid, cs, n)
    ensures n < |cs| ==> ClosedSoFar(w, Step(t, CloseClient(tid)), tid, cs, n + 1)
    ensures n == |cs| ==> Drained(w, Step(t, CloseClient(tid)), tid, cs)
  {
    assert n < |cs| ==> cs[n..][0] == cs[n] && cs[n..][1..] == cs[n + 1..] && cs[..n] + [cs[n]] == cs[..n + 1];
    assert cs[..|cs|] == cs;
  }

  lemma {:induction false} ClosesInOrder(w: World, tid: Tid, cs: seq<Client>, n: nat, close: World -> World)
    requires w.m.inflight == 0 && n <= |cs| && close == StepBy(CloseClient(tid))
    requires tid in w.threads && w.threads[tid] == Draining(cs)
    ensures ClosedSoFar(w, Repeated(close, n, w), tid, cs, n)
  {
    if n == 0 {
      assert cs[0..] == cs && w.closeLog + cs[..0] == w.closeLog;
    } else {
      ClosesInOrder(w, tid, cs, n - 1, close);
      ClosesOneMore(w, Repeated(close, n - 1, w), tid, cs, n - 1);
    }
  }

  ghost predicate Drained(w: World, t: World, tid: Tid, cs: seq<Client>) {
    tid in t.threads && t.threads[tid] == Done && t.closeLog == w.closeLog + cs
  }

  /** Once no call is in flight, Manager.Close closes all the clients it collected, in order, and returns. */
  lemma DrainFinishes(w: World, tid: Tid, cs: seq<Client>)
    requires tid in w.threads && w.threads[tid] == Draining(cs) && w.m.inflight == 0
    ensures Drained(w, Run(w, Times(CloseClient(tid), |cs| + 1)), tid, cs)
  {
    var close := StepBy(CloseClient(tid));
    ClosesInOrder(w, tid, cs, |cs|, close);
    ClosesOneMore(w, Repeated(close, |cs|, w), tid, cs, |cs|);
    RunTimes(w, CloseClient(tid), |cs| + 1, close);
  }

  /** In every run a call that is in flight can return, and then counts no longer. */
  lemma CallCanReturn(actions: seq<Action>, tid: Tid, c: Client)
    requires IsCalling(Run(Init(), actions), tid, c)
    ensures var w := Run(Init(), actions);
            var t := Step(w, CallReturns(tid));
            w.m.inflight > 0 && t.m.inflight == w.m.inflight - 1 && tid in t.threads && t.threads[tid] == Done
  {
    RunTableOk(actions);
    assert tid in CallsOf(Run(Init(), actions).threads);
  }
}
