/** Any number of concurrent RefreshTools, CloseServer, CallTool and Close operations on one manager
    (agent_gateway/internal/runtime/mcp/manager.go).  Connecting, listing tools and closing a client
    happen outside the lock, so an operation is a sequence of steps that others interleave with. */
module McpProtocol {
  import opened Text
  import opened McpManager

  type Tid = nat

  /** Where an operation is between two of its steps, with the clients it holds. */
  datatype Pc =
    | Connect1(key: Key, cfg: Config)                          // setConnecting done, Connect pending
    | List1(key: Key, cfg: Config, client: Client)             // ListTools pending
    | Discard1(key: Key, cfg: Config, client: Client)          // ListTools failed, Close pending
    | Connect2(key: Key, cfg: Config)                          // reconnect pending
    | List2(key: Key, cfg: Config, client: Client)
    | Discard2(key: Key, cfg: Config, client: Client)
    | Failing(key: Key, cfg: Config)                           // recordFailure pending
    | Ready(key: Key, cfg: Config, client: Client, tools: seq<Tool>) // replaceConnected pending
    | Closing(client: Client)                                  // a detached or refused client
    | Calling(client: Client)                                  // inside client.CallTool
    | Draining(clients: seq<Client>)                           // Manager.Close after its lock step
    | Done

  /** The clients only this operation may close. */
  function Owned(pc: Pc): seq<Client> {
    match pc
    case List1(_, _, c) => [c]
    case Discard1(_, _, c) => [c]
    case List2(_, _, c) => [c]
    case Discard2(_, _, c) => [c]
    case Ready(_, _, c, _) => [c]
    case Closing(c) => [c]
    case Draining(cs) => cs
    case _ => []
  }

  datatype Place = Held(tid: Tid) | Installed(key: Key) | Shut

  /** `issued` are the clients the connector has returned, `closeLog` every Client.Close so far, and
      `where` an auxiliary record of who answers for each client. */
  datatype World = World(
    m: Table,
    threads: map<Tid, Pc>,
    issued: set<Client>,
    closeLog: seq<Client>,
    where: map<Client, Place>)

  datatype Action =
    | StartRefresh(tid: Tid, key: Key, cfg: Config)
    | StartInvalid(tid: Tid, key: Key, cfg: Config)
    | StartClose(tid: Tid, key: Key, cfg: Config, phase: Phase)
    | StartCall(tid: Tid, key: Key)
    | StartShutdown(tid: Tid, order: seq<Key>)
    | ConnectReturns(tid: Tid, result: Option<Client>)
    | ListReturns(tid: Tid, listed: Option<seq<Tool>>)
    | Replace(tid: Tid)
    | Fail(tid: Tid, error: string)                            // recordFailure with what went wrong
    | CloseClient(tid: Tid)
    | CallReturns(tid: Tid)

  function Init(): World {
    World(NO_SERVERS, map[], {}, [], map[])
  }

  function Goto(w: World, tid: Tid, pc: Pc): World {
    w.(threads := w.threads[tid := pc])
  }

  /** RefreshTools of an enabled, valid configuration. */
  function StartRefreshStep(w: World, tid: Tid, key: Key, cfg: Config): World {
    if tid in w.threads then w
    else if w.m.closed then Goto(w, tid, Done)
    else Goto(w.(m := SetConnecting(w.m, key, cfg, cfg.transport)), tid, Connect1(key, cfg))
  }

  /** RefreshTools of a configuration that fails one of its checks. */
  function StartInvalidStep(w: World, tid: Tid, key: Key, cfg: Config): World {
    if tid in w.threads then w else Goto(w, tid, Failing(key, cfg))
  }

  /** CloseServer, or RefreshTools of a disabled server. */
  function StartCloseStep(w: World, tid: Tid, key: Key, cfg: Config, phase: Phase): World {
    if tid in w.threads || phase !in {Disconnected, Disabled} then w
    else if w.m.closed then Goto(w, tid, Done)
    else
      var t := w.(m := CloseServer(w.m, key, cfg, phase, ""));
      match InstalledClient(w.m, key)
      case None => Goto(t, tid, Done)
      case Some(c) => Goto(t, tid, Closing(c)).(where := w.where[c := Held(tid)])
  }

  function StartCallStep(w: World, tid: Tid, key: Key): World {
    if tid in w.threads then w
    else if w.m.closed then Goto(w, tid, Done)
    else
      match InstalledClient(w.m, key)
      case None => Goto(w, tid, Done)
      case Some(c) => Goto(w.(m := w.m.(inflight := w.m.inflight + 1)), tid, Calling(c))
  }

  function StartShutdownStep(w: World, tid: Tid, order: seq<Key>): World {
    if tid in w.threads || !IsEnumeration(order, w.m.servers.Keys) then w
    else if w.m.closed then Goto(w, tid, Done)
    else
      var clients := ClientsOf(w.m, order);
      Goto(w.(m := CloseAll(w.m)), tid, Draining(clients)).(
        where := map c | c in w.where :: if c in clients then Held(tid) else w.where[c])
  }

  /** A connector returns a new object or an error. */
  function ConnectReturnsStep(w: World, tid: Tid, result: Option<Client>): World {
    if tid !in w.threads then w
    else
      var pc := w.threads[tid];
      if !pc.Connect1? && !pc.Connect2? then w
      else
        match result
        case None => Goto(w, tid, Failing(pc.key, pc.cfg))
        case Some(c) =>
          if c in w.issued then w
          else
            var next := if pc.Connect1? then List1(pc.key, pc.cfg, c) else List2(pc.key, pc.cfg, c);
            Goto(w, tid, next).(issued := w.issued + {c}, where := w.where[c := Held(tid)])
  }

  function ListReturnsStep(w: World, tid: Tid, listed: Option<seq<Tool>>): World {
    if tid !in w.threads then w
    else
      match w.threads[tid]
      case List1(key, cfg, c) =>
        Goto(w, tid, if listed.Some? then Ready(key, cfg, c, listed.value) else Discard1(key, cfg, c))
      case List2(key, cfg, c) =>
        Goto(w, tid, if listed.Some? then Ready(key, cfg, c, listed.value) else Discard2(key, cfg, c))
      case _ => w
  }

  function ReplaceStep(w: World, tid: Tid): World {
    if tid !in w.threads || !w.threads[tid].Ready? then w
    else
      var Ready(key, cfg, c, tools) := w.threads[tid];
      if w.m.closed then Goto(w, tid, Closing(c))
      else
        var t := w.(m := ReplaceConnected(w.m, key, cfg, cfg.transport, c, tools));
        match InstalledClient(w.m, key)
        case None => Goto(t, tid, Done).(where := w.where[c := Installed(key)])
        case Some(replaced) =>
          Goto(t, tid, Closing(replaced)).(where := w.where[c := Installed(key)][replaced := Held(tid)])
  }

  function FailStep(w: World, tid: Tid, error: string): World {
    if tid !in w.threads || !w.threads[tid].Failing? then w
    else
      var Failing(key, cfg) := w.threads[tid];
      Goto(w.(m := RecordFailure(w.m, key, cfg, error)), tid, Done)
  }

  /** Client.Close.  Manager.Close waits for the calls in flight before its first one. */
  function CloseClientStep(w: World, tid: Tid): World {
    if tid !in w.threads then w
    else
      match w.threads[tid]
      case Discard1(key, cfg, c) => Shutting(w, tid, c, Connect2(key, cfg))
      case Discard2(key, cfg, c) => Shutting(w, tid, c, Failing(key, cfg))
      case Closing(c) => Shutting(w, tid, c, Done)
      case Draining(cs) =>
        if w.m.inflight > 0 then w
        else if cs == [] then Goto(w, tid, Done)
        else Shutting(w, tid, cs[0], Draining(cs[1..]))
      case _ => w
  }

  function Shutting(w: World, tid: Tid, c: Client, next: Pc): World {
    Goto(w, tid, next).(closeLog := w.closeLog + [c], where := w.where[c := Shut])
  }

  function CallReturnsStep(w: World, tid: Tid): World {
    if tid !in w.threads || !w.threads[tid].Calling? || w.m.inflight == 0 then w
    else Goto(w.(m := w.m.(inflight := w.m.inflight - 1)), tid, Done)
  }

  function Step(w: World, a: Action): World {
    match a
    case StartRefresh(tid, key, cfg) => StartRefreshStep(w, tid, key, cfg)
    case StartInvalid(tid, key, cfg) => StartInvalidStep(w, tid, key, cfg)
    case StartClose(tid, key, cfg, phase) => StartCloseStep(w, tid, key, cfg, phase)
    case StartCall(tid, key) => StartCallStep(w, tid, key)
    case StartShutdown(tid, order) => StartShutdownStep(w, tid, order)
    case ConnectReturns(tid, result) => ConnectReturnsStep(w, tid, result)
    case ListReturns(tid, listed) => ListReturnsStep(w, tid, listed)
    case Replace(tid) => ReplaceStep(w, tid)
    case Fail(tid, error) => FailStep(w, tid, error)
    case CloseClient(tid) => CloseClientStep(w, tid)
    case CallReturns(tid) => CallReturnsStep(w, tid)
  }

  function Run(w: World, actions: seq<Action>): World {
    if actions == [] then w else Step(Run(w, actions[..|actions| - 1]), actions[|actions| - 1])
  }

  // ---------------------------------------------------------------- conservation of clients

  predicate At(w: World, c: Client, p: Place) {
    match p
    case Held(tid) => tid in w.threads && c in Owned(w.threads[tid])
    case Installed(key) => InstalledClient(w.m, key) == Some(c)
    case Shut => c in w.closeLog
  }

  ghost predicate NoDuplicates(s: seq<Client>) {
    forall i, j :: 0 <= i < j < |s| ==> s[i] != s[j]
  }

  /** Every issued client is in exactly the place on record, and no other client is anywhere. */
  ghost predicate Conserved(w: World) {
    && w.where.Keys == w.issued
    && (forall c, p :: At(w, c, p) <==> c in w.where && w.where[c] == p)
    && (forall tid :: tid in w.threads ==> NoDuplicates(Owned(w.threads[tid])))
    && NoDuplicates(w.closeLog)
  }

  /** A step that moves no client. */
  lemma Unmoved(w: World, t: World)
    requires Conserved(w)
    requires t.issued == w.issued && t.closeLog == w.closeLog && t.where == w.where
    requires forall key :: InstalledClient(t.m, key) == InstalledClient(w.m, key)
    requires w.threads.Keys <= t.threads.Keys
    requires forall tid :: tid in t.threads ==>
      Owned(t.threads[tid]) == if tid in w.threads then Owned(w.threads[tid]) else []
    ensures Conserved(t)
  {
    forall c, p
      ensures At(t, c, p) <==> At(w, c, p)
    {
    }
  }

  /** A step that moves one client to `dest` and nothing else. */
  lemma Moved(w: World, t: World, c: Client, dest: Place)
    requires Conserved(w)
    requires t.where == w.where[c := dest] && t.issued == w.issued + {c}
    requires forall x, p :: At(t, x, p) <==> if x == c then p == dest else At(w, x, p)
    requires forall tid :: tid in t.threads ==> NoDuplicates(Owned(t.threads[tid]))
    requires NoDuplicates(t.closeLog)
    ensures Conserved(t)
  {
  }

  lemma StartClosePlace(w: World, tid: Tid, key: Key, cfg: Config, phase: Phase, c: Client, x: Client, p: Place)
    requires Conserved(w) && tid !in w.threads && phase in {Disconnected, Disabled} && !w.m.closed
    requires InstalledClient(w.m, key) == Some(c)
    ensures At(StartCloseStep(w, tid, key, cfg, phase), x, p) <==> if x == c then p == Held(tid) else At(w, x, p)
  {
    var t := StartCloseStep(w, tid, key, cfg, phase);
    assert At(w, c, Installed(key)) && !At(w, x, Held(tid));
    assert At(w, c, p) <==> p == Installed(key);
    match p
    case Held(other) =>
    case Installed(k) => assert InstalledClient(t.m, k) == if k == key then None else InstalledClient(w.m, k);
    case Shut =>
  }

  lemma StartCloseConserves(w: World, tid: Tid, key: Key, cfg: Config, phase: Phase)
    requires Conserved(w)
    ensures Conserved(StartCloseStep(w, tid, key, cfg, phase))
  {
    var t := StartCloseStep(w, tid, key, cfg, phase);
    if tid in w.threads || phase !in {Disconnected, Disabled} || w.m.closed || InstalledClient(w.m, key).None? {
      Unmoved(w, t);
      return;
    }
    StartCloseMoves(w, tid, key, cfg, phase, InstalledClient(w.m, key).value);
  }

  lemma StartCloseMoves(w: World, tid: Tid, key: Key, cfg: Config, phase: Phase, c: Client)
    requires Conserved(w) && tid !in w.threads && phase in {Disconnected, Disabled} && !w.m.closed
    requires InstalledClient(w.m, key) == Some(c)
    ensures Conserved(StartCloseStep(w, tid, key, cfg, phase))
  {
    var t := StartCloseStep(w, tid, key, cfg, phase);
    assert At(w, c, Installed(key));
    forall x, p
      ensures At(t, x, p) <==> if x == c then p == Held(tid) else At(w, x, p)
    {
      StartClosePlace(w, tid, key, cfg, phase, c, x, p);
    }
    assert t.issued == w.issued + {c};
    Moved(w, t, c, Held(tid));
  }

  lemma ConnectConserves(w: World, tid: Tid, result: Option<Client>)
    requires Conserved(w)
    ensures Conserved(ConnectReturnsStep(w, tid, result))
  {
    var t := ConnectReturnsStep(w, tid, result);
    if t.issued == w.issued {
      Unmoved(w, t);
      return;
    }
    var c := result.value;
    forall x, p
      ensures At(t, x, p) <==> if x == c then p == Held(tid) else At(w, x, p)
    {
      assert !At(w, c, p);
    }
    Moved(w, t, c, Held(tid));
  }

  lemma ReplaceConserves(w: World, tid: Tid)
    requires Conserved(w)
    ensures Conserved(ReplaceStep(w, tid))
  {
    var t := ReplaceStep(w, tid);
    if tid !in w.threads || !w.threads[tid].Ready? || w.m.closed {
      Unmoved(w, t);
      return;
    }
    var Ready(key, cfg, c, tools) := w.threads[tid];
    var replaced := InstalledClient(w.m, key);
    assert At(w, c, Held(tid));
    assert replaced.Some? ==> At(w, replaced.value, Installed(key)) && replaced.value != c;
    assert t.issued == w.issued == t.where.Keys;
    forall x, p
      ensures At(t, x, p) <==> x in t.where && t.where[x] == p
    {
      ReplacePlace(w, tid, x, p);
    }
  }

  lemma ReplacePlace(w: World, tid: Tid, x: Client, p: Place)
    requires Conserved(w) && tid in w.threads && w.threads[tid].Ready? && !w.m.closed
    ensures var t := ReplaceStep(w, tid); At(t, x, p) <==> x in t.where && t.where[x] == p
  {
    var t := ReplaceStep(w, tid);
    var Ready(key, cfg, c, tools) := w.threads[tid];
    var replaced := InstalledClient(w.m, key);
    assert At(w, c, Held(tid));
    assert At(w, x, Held(tid)) <==> x == c;
    assert At(w, x, Installed(key)) <==> replaced == Some(x);
    assert forall k :: InstalledClient(t.m, k) == if k == key then Some(c) else InstalledClient(w.m, k);
    assert forall q :: At(w, c, q) <==> q == Held(tid);
    assert replaced.Some? ==> At(w, replaced.value, Installed(key));
    assert replaced.Some? ==> forall q :: At(w, replaced.value, q) <==> q == Installed(key);
    match p
    case Held(other) =>
      assert other == tid ==> Owned(t.threads[tid]) == if replaced.Some? then [replaced.value] else [];
      assert At(t, x, p) <==> if other == tid then replaced == Some(x) else At(w, x, p);
    case Installed(k) =>
      assert At(t, x, p) <==> if k == key then x == c else At(w, x, p);
    case Shut =>
      assert At(t, x, p) <==> At(w, x, p);
  }

  lemma ShuttingConserves(w: World, tid: Tid, c: Client, next: Pc)
    requires Conserved(w) && tid in w.threads
    requires Owned(w.threads[tid]) == [c] + Owned(next)
    ensures Conserved(Shutting(w, tid, c, next))
  {
    var t := Shutting(w, tid, c, next);
    var before, after := Owned(w.threads[tid]), Owned(next);
    assert before[0] == c && before[1..] == after;
    assert At(w, c, Held(tid));
    forall x, p
      ensures At(t, x, p) <==> if x == c then p == Shut else At(w, x, p)
    {
      match p
      case Held(other) =>
        assert other != tid ==> !At(w, c, p);
        assert x in before <==> x == c || x in after;
      case Installed(k) => assert !At(w, c, p);
      case Shut => assert !At(w, c, p);
    }
    assert !At(w, c, Shut);
    assert t.issued == w.issued + {c};
    Moved(w, t, c, Shut);
  }

  lemma {:induction false} ClientsOfMembers(m: Table, keys: seq<Key>)
    ensures forall c :: c in ClientsOf(m, keys) <==> exists k :: k in keys && InstalledClient(m, k) == Some(c)
    decreases |keys|
  {
    if keys != [] {
      var init, last := keys[..|keys| - 1], keys[|keys| - 1];
      ClientsOfMembers(m, init);
      assert forall k :: k in keys <==> k in init || k == last;
    }
  }

  lemma {:induction false} ClientsOfDistinct(m: Table, keys: seq<Key>)
    requires forall i, j :: 0 <= i < j < |keys| ==> keys[i] != keys[j]
    requires forall c, k, l :: InstalledClient(m, k) == Some(c) && InstalledClient(m, l) == Some(c) ==> k == l
    ensures NoDuplicates(ClientsOf(m, keys))
    decreases |keys|
  {
    if keys != [] {
      var init, last := keys[..|keys| - 1], keys[|keys| - 1];
      ClientsOfDistinct(m, init);
      ClientsOfMembers(m, init);
      if InstalledClient(m, last).Some? {
        var c := InstalledClient(m, last).value;
        assert c !in ClientsOf(m, init);
      }
    }
  }

  /** The clients Close collects are the installed ones, each once. */
  lemma CollectedClients(w: World, order: seq<Key>)
    requires Conserved(w) && IsEnumeration(order, w.m.servers.Keys)
    ensures NoDuplicates(ClientsOf(w.m, order))
    ensures forall x :: x in ClientsOf(w.m, order) <==> x in w.where && w.where[x].Installed?
  {
    ClientsOfMembers(w.m, order);
    forall c, k, l | InstalledClient(w.m, k) == Some(c) && InstalledClient(w.m, l) == Some(c)
      ensures k == l
    {
      assert At(w, c, Installed(k)) && At(w, c, Installed(l));
    }
    ClientsOfDistinct(w.m, order);
    assert forall k :: k in order <==> k in w.m.servers.Keys;
    forall x
      ensures x in ClientsOf(w.m, order) <==> x in w.where && w.where[x].Installed?
    {
      if x in ClientsOf(w.m, order) {
        var k :| k in order && InstalledClient(w.m, k) == Some(x);
        assert At(w, x, Installed(k));
      }
      if x in w.where && w.where[x].Installed? {
        assert At(w, x, Installed(w.where[x].key));
      }
    }
  }

  lemma ShutdownPlace(w: World, tid: Tid, order: seq<Key>, x: Client, p: Place)
    requires Conserved(w) && tid !in w.threads && IsEnumeration(order, w.m.servers.Keys) && !w.m.closed
    requires x in ClientsOf(w.m, order) <==> x in w.where && w.where[x].Installed?
    ensures var t := StartShutdownStep(w, tid, order); At(t, x, p) <==> x in t.where && t.where[x] == p
  {
    var t := StartShutdownStep(w, tid, order);
    assert !At(w, x, Held(tid));
    assert At(w, x, p) <==> x in w.where && w.where[x] == p;
    match p
    case Held(other) =>
    case Installed(k) => assert InstalledClient(t.m, k) == None;
    case Shut =>
  }

  lemma ShutdownConserves(w: World, tid: Tid, order: seq<Key>)
    requires Conserved(w)
    ensures Conserved(StartShutdownStep(w, tid, order))
  {
    var t := StartShutdownStep(w, tid, order);
    if tid in w.threads || !IsEnumeration(order, w.m.servers.Keys) || w.m.closed {
      Unmoved(w, t);
      return;
    }
    CollectedClients(w, order);
    forall x, p
      ensures At(t, x, p) <==> x in t.where && t.where[x] == p
    {
      ShutdownPlace(w, tid, order, x, p);
    }
  }

  lemma CloseClientConserves(w: World, tid: Tid)
    requires Conserved(w)
    ensures Conserved(CloseClientStep(w, tid))
  {
    var t := CloseClientStep(w, tid);
    if t.closeLog == w.closeLog {
      Unmoved(w, t);
      return;
    }
    match w.threads[tid]
    case Discard1(key, cfg, c) => ShuttingConserves(w, tid, c, Connect2(key, cfg));
    case Discard2(key, cfg, c) => ShuttingConserves(w, tid, c, Failing(key, cfg));
    case Closing(c) => ShuttingConserves(w, tid, c, Done);
    case Draining(cs) => ShuttingConserves(w, tid, cs[0], Draining(cs[1..]));
    case _ =>
  }

  lemma GotoConserves(w: World, m: Table, tid: Tid, pc: Pc)
    requires Conserved(w)
    requires forall key :: InstalledClient(m, key) == InstalledClient(w.m, key)
    requires Owned(pc) == if tid in w.threads then Owned(w.threads[tid]) else []
    ensures Conserved(Goto(w.(m := m), tid, pc))
  {
    Unmoved(w, Goto(w.(m := m), tid, pc));
  }

  lemma TableStepsKeepClients(m: Table, key: Key, cfg: Config, error: string)
    ensures forall k :: InstalledClient(SetConnecting(m, key, cfg, cfg.transport), k) == InstalledClient(m, k)
    ensures forall k :: InstalledClient(RecordFailure(m, key, cfg, error), k) == InstalledClient(m, k)
  {
  }

  lemma OtherStepConserves(w: World, a: Action)
    requires Conserved(w)
    requires a.StartRefresh? || a.StartInvalid? || a.StartCall? || a.ListReturns? || a.Fail? || a.CallReturns?
    ensures Conserved(Step(w, a))
  {
    match a
    case StartRefresh(tid, key, cfg) =>
      TableStepsKeepClients(w.m, key, cfg, "");
      if tid !in w.threads {
        GotoConserves(w, StartRefreshStep(w, tid, key, cfg).m, tid, StartRefreshStep(w, tid, key, cfg).threads[tid]);
      }
    case StartInvalid(tid, key, cfg) =>
      if tid !in w.threads {
        GotoConserves(w, w.m, tid, Failing(key, cfg));
      }
    case StartCall(tid, key) =>
      if tid !in w.threads {
        GotoConserves(w, StartCallStep(w, tid, key).m, tid, StartCallStep(w, tid, key).threads[tid]);
      }
    case ListReturns(tid, listed) =>
      if ListReturnsStep(w, tid, listed) != w {
        GotoConserves(w, w.m, tid, ListReturnsStep(w, tid, listed).threads[tid]);
      }
    case Fail(tid, error) =>
      if tid in w.threads && w.threads[tid].Failing? {
        TableStepsKeepClients(w.m, w.threads[tid].key, w.threads[tid].cfg, error);
        GotoConserves(w, FailStep(w, tid, error).m, tid, Done);
      }
    case CallReturns(tid) =>
      if CallReturnsStep(w, tid) != w {
        GotoConserves(w, CallReturnsStep(w, tid).m, tid, Done);
      }
  }

  lemma StepConserves(w: World, a: Action)
    requires Conserved(w)
    ensures Conserved(Step(w, a))
  {
    match a
    case StartClose(tid, key, cfg, phase) => StartCloseConserves(w, tid, key, cfg, phase);
    case StartShutdown(tid, order) => ShutdownConserves(w, tid, order);
    case ConnectReturns(tid, result) => ConnectConserves(w, tid, result);
    case Replace(tid) => ReplaceConserves(w, tid);
    case CloseClient(tid) => CloseClientConserves(w, tid);
    case _ => OtherStepConserves(w, a);
  }

  lemma {:induction false} RunConserves(actions: seq<Action>)
    ensures Conserved(Run(Init(), actions))
  {
    if actions != [] {
      RunConserves(actions[..|actions| - 1]);
      StepConserves(Run(Init(), actions[..|actions| - 1]), actions[|actions| - 1]);
    }
  }

  /** Client conservation: in every interleaving each client the connector ever returned is in
      exactly one place (held by one operation, installed under one key, or closed), and none is
      closed twice. */
  lemma ClientConservation(actions: seq<Action>)
    ensures
      var w := Run(Init(), actions);
      && (forall c :: c in w.issued ==> exists p :: At(w, c, p) && forall q :: At(w, c, q) ==> q == p)
      && (forall c, p :: At(w, c, p) ==> c in w.issued)
      && NoDuplicates(w.closeLog)
  {
    RunConserves(actions);
    var w := Run(Init(), actions);
    forall c | c in w.issued
      ensures exists p :: At(w, c, p) && forall q :: At(w, c, q) ==> q == p
    {
      assert At(w, c, w.where[c]);
    }
  }

  // ---------------------------------------------------------------- status and shutdown

  ghost predicate StatusOk(conn: Connection) {
    && conn.status.toolCount == (if conn.status.phase == Connecting then 0 else |conn.tools|)
    && (conn.client.None? ==> conn.tools == [])
    && (conn.status.phase == Connected ==> conn.client.Some?)
    && (conn.status.phase in {Disconnected, Disabled, Closed} ==> conn.client.None?)
  }

  ghost predicate ServersOk(m: Table) {
    forall k :: k in m.servers ==>
      StatusOk(m.servers[k]) && (m.servers[k].status.phase == Closed <==> m.closed)
  }

  /** The CallTool operations under way. */
  function CallsOf(threads: map<Tid, Pc>): set<Tid> {
    set tid | tid in threads && threads[tid].Calling?
  }

  /** Running calls are counted, and Manager.Close drains only after closing the table. */
  ghost predicate ThreadsOk(w: World) {
    && w.m.inflight == |CallsOf(w.threads)|
    && (forall tid :: tid in w.threads && w.threads[tid].Draining? ==> w.m.closed)
  }

  ghost predicate TableOk(w: World) {
    ServersOk(w.m) && ThreadsOk(w)
  }

  lemma RegionsKeepStatus(m: Table, key: Key, cfg: Config)
    requires ServersOk(m)
    ensures ServersOk(SetConnecting(m, key, cfg, cfg.transport))
    ensures forall c, tools :: ServersOk(ReplaceConnected(m, key, cfg, cfg.transport, c, tools))
    ensures forall error :: ServersOk(RecordFailure(m, key, cfg, error))
    ensures forall phase :: phase in {Disconnected, Disabled} ==> ServersOk(CloseServer(m, key, cfg, phase, ""))
    ensures ServersOk(CloseAll(m))
  {
    assert m.closed || (StatusOk(Ensured(m.servers, key, cfg)) && Ensured(m.servers, key, cfg).status.phase != Closed);
  }

  lemma GotoThreads(w: World, tid: Tid, pc: Pc)
    ensures CallsOf(Goto(w, tid, pc).threads)
         == if pc.Calling? then CallsOf(w.threads) + {tid} else CallsOf(w.threads) - {tid}
  {
  }

  lemma ServersStepOk(w: World, a: Action)
    requires ServersOk(w.m)
    ensures ServersOk(Step(w, a).m)
  {
    match a
    case StartRefresh(_, key, cfg) => RegionsKeepStatus(w.m, key, cfg);
    case StartClose(_, key, cfg, _) => RegionsKeepStatus(w.m, key, cfg);
    case StartShutdown(_, _) => RegionsKeepStatus(w.m, "", Config("", "", ""));
    case Replace(tid) =>
      if tid in w.threads && w.threads[tid].Ready? {
        RegionsKeepStatus(w.m, w.threads[tid].key, w.threads[tid].cfg);
      }
    case Fail(tid, error) =>
      if tid in w.threads && w.threads[tid].Failing? {
        RegionsKeepStatus(w.m, w.threads[tid].key, w.threads[tid].cfg);
      }
    case _ =>
  }

  /** Each step moves one operation, and the call counter moves with it. */
  lemma CounterFollowsCalls(w: World, a: Action)
    ensures var t := Step(w, a);
      t == w || (
        && a.tid in t.threads && t.threads == w.threads[a.tid := t.threads[a.tid]]
        && t.m.inflight - w.m.inflight ==
             (if t.threads[a.tid].Calling? then 1 else 0) -
             (if a.tid in w.threads && w.threads[a.tid].Calling? then 1 else 0)
        && (t.threads[a.tid].Draining? ==> t.m.closed || (a.tid in w.threads && w.threads[a.tid].Draining?))
        && (w.m.closed ==> t.m.closed))
  {
  }

  lemma ThreadsStepOk(w: World, a: Action)
    requires ThreadsOk(w)
    ensures ThreadsOk(Step(w, a))
  {
    var t := Step(w, a);
    CounterFollowsCalls(w, a);
    if t != w {
      GotoThreads(w, a.tid, t.threads[a.tid]);
      assert a.tid in CallsOf(w.threads) <==> a.tid in w.threads && w.threads[a.tid].Calling?;
    }
  }

  lemma TableStepOk(w: World, a: Action)
    requires TableOk(w)
    ensures TableOk(Step(w, a))
  {
    ServersStepOk(w, a);
    ThreadsStepOk(w, a);
  }

  lemma {:induction false} RunTableOk(actions: seq<Action>)
    ensures TableOk(Run(Init(), actions))
  {
    if actions != [] {
      RunTableOk(actions[..|actions| - 1]);
      TableStepOk(Run(Init(), actions[..|actions| - 1]), actions[|actions| - 1]);
    }
  }

  /** What a status snapshot means, in every interleaving: Connected implies an installed client that
      nobody has closed and a tool count equal to the tool list; Disconnected, Disabled and Closed
      imply no client and no tools. */
  lemma StatusIsTruthful(actions: seq<Action>, key: Key)
    requires key in Run(Init(), actions).m.servers
    ensures
      var w := Run(Init(), actions);
      var conn := w.m.servers[key];
      && (conn.status.phase == Connected ==>
            && conn.client.Some? && conn.client.value in w.issued && conn.client.value !in w.closeLog
            && conn.status.toolCount == |conn.tools|)
      && (conn.status.phase in {Disconnected, Disabled, Closed} ==>
            conn.client.None? && conn.tools == [] && conn.status.toolCount == 0)
  {
    RunTableOk(actions);
    RunConserves(actions);
    var w := Run(Init(), actions);
    assert StatusOk(w.m.servers[key]);
    if w.m.servers[key].client.Some? {
      var c := w.m.servers[key].client.value;
      assert At(w, c, Installed(key));
      assert !At(w, c, Shut);
    }
  }

  lemma ClosedStepFrozen(w: World, a: Action)
    requires w.m.closed
    ensures Step(w, a).m.closed && Step(w, a).m.servers == w.m.servers
  {
  }

  lemma {:induction false} ClosedIsFrozen(w: World, more: seq<Action>)
    requires w.m.closed
    ensures Run(w, more).m.closed && Run(w, more).m.servers == w.m.servers
  {
    if more != [] {
      ClosedIsFrozen(w, more[..|more| - 1]);
      ClosedStepFrozen(Run(w, more[..|more| - 1]), more[|more| - 1]);
    }
  }

  /** Shutdown: once the lock step of Close has run, whatever the other operations do afterwards, no
      server has a client or tools and every status stays Closed. */
  lemma ShutdownIsFinal(before: seq<Action>, more: seq<Action>, key: Key)
    requires Run(Init(), before).m.closed && key in Run(Run(Init(), before), more).m.servers
    ensures
      var conn := Run(Run(Init(), before), more).m.servers[key];
      conn.client.None? && conn.tools == [] && conn.status.phase == Closed && conn.status.toolCount == 0
  {
    RunTableOk(before);
    ClosedIsFrozen(Run(Init(), before), more);
    assert StatusOk(Run(Init(), before).m.servers[key]);
  }

  /** Manager.Close closes a client only when no CallTool is running, and none starts any more. */
  lemma DrainWaitsForCalls(actions: seq<Action>, tid: Tid, more: seq<Action>)
    requires
      var w := Run(Init(), actions);
      tid in w.threads && w.threads[tid].Draining? && CloseClientStep(w, tid) != w
    ensures CallsOf(Run(Init(), actions).threads) == {}
    ensures CallsOf(Run(Run(Init(), actions), more).threads) == {}
  {
    var w := Run(Init(), actions);
    RunTableOk(actions);
    assert w.m.inflight == 0;
    NoCallsStart(w, more);
  }

  lemma NoCallStarts(w: World, a: Action)
    requires w.m.closed && CallsOf(w.threads) == {}
    ensures CallsOf(Step(w, a).threads) == {}
  {
    var t := Step(w, a);
    if t != w {
      assert t.threads == w.threads[a.tid := t.threads[a.tid]];
      GotoThreads(w, a.tid, t.threads[a.tid]);
    }
  }

  lemma {:induction false} NoCallsStart(w: World, more: seq<Action>)
    requires w.m.closed && CallsOf(w.threads) == {}
    ensures CallsOf(Run(w, more).threads) == {}
  {
    if more != [] {
      NoCallsStart(w, more[..|more| - 1]);
      ClosedIsFrozen(w, more[..|more| - 1]);
      NoCallStarts(Run(w, more[..|more| - 1]), more[|more| - 1]);
    }
  }

  // ---------------------------------------------------------------- when a running call loses its client

  /** The step takes `c` away from `key` for the operation to close: a CloseServer or disable, or the
      replacement by a RefreshTools. */
  predicate Detaches(w: World, a: Action, key: Key, c: Client) {
    && !w.m.closed && InstalledClient(w.m, key) == Some(c)
    && ((a.StartClose? && a.key == key && a.tid !in w.threads && a.phase in {Disconnected, Disabled})
        || (a.Replace? && a.tid in w.threads && w.threads[a.tid].Ready? && w.threads[a.tid].key == key))
  }

  /** What became of a client that was installed under `key` when a call got it. */
  datatype Fate = Kept | DetachedBy(tid: Tid) | ClosedInUse

  function NextFate(fate: Fate, w: World, a: Action, key: Key, c: Client): Fate {
    if fate.Kept? && Detaches(w, a, key, c) then DetachedBy(a.tid)
    else if fate.DetachedBy? && a == CloseClient(fate.tid) then ClosedInUse
    else fate
  }

  function FateOf(w: World, more: seq<Action>, key: Key, c: Client): Fate {
    if more == [] then Kept
    else
      var n := |more| - 1;
      NextFate(FateOf(w, more[..n], key, c), Run(w, more[..n]), more[n], key, c)
  }

  /** Kept: still installed, or collected by Manager.Close, which waits for the call. */
  ghost predicate FateShows(w: World, fate: Fate, key: Key, c: Client) {
    match fate
    case Kept =>
      || InstalledClient(w.m, key) == Some(c)
      || (w.m.closed && exists t :: t in w.threads && w.threads[t].Draining? && c in Owned(w.threads[t]))
    case DetachedBy(t) => t in w.threads && w.threads[t] == Closing(c)
    case ClosedInUse => c in w.closeLog
  }

  predicate IsCalling(w: World, tid: Tid, c: Client) {
    tid in w.threads && w.threads[tid] == Calling(c)
  }

  /** A call under way after a step was under way before it. */
  lemma WasCalling(w: World, a: Action, tid: Tid, c: Client)
    requires tid in w.threads && IsCalling(Step(w, a), tid, c)
    ensures IsCalling(w, tid, c)
  {
  }

  lemma {:induction false} WasCallingAll(w: World, more: seq<Action>, tid: Tid, c: Client, k: nat)
    requires tid in w.threads && IsCalling(Run(w, more), tid, c) && k <= |more|
    ensures IsCalling(Run(w, more[..k]), tid, c)
    decreases |more|
  {
    if k == |more| {
      assert more[..k] == more;
    } else {
      var n := |more| - 1;
      StillThere(w, more[..n], tid);
      WasCalling(Run(w, more[..n]), more[n], tid, c);
      WasCallingAll(w, more[..n], tid, c, k);
      assert more[..n][..k] == more[..k];
    }
  }

  lemma ThreadsGrow(w: World, a: Action)
    ensures w.threads.Keys <= Step(w, a).threads.Keys
  {
  }

  lemma {:induction false} StillThere(w: World, more: seq<Action>, tid: Tid)
    requires tid in w.threads
    ensures tid in Run(w, more).threads
  {
    if more != [] {
      StillThere(w, more[..|more| - 1], tid);
      ThreadsGrow(Run(w, more[..|more| - 1]), more[|more| - 1]);
    }
  }

  lemma InstalledStep(w: World, a: Action, key: Key, c: Client)
    requires Conserved(w) && InstalledClient(w.m, key) == Some(c) && !Detaches(w, a, key, c) && !a.StartShutdown?
    ensures InstalledClient(Step(w, a).m, key) == Some(c)
  {
    match a
    case StartRefresh(_, k, cfg) => TableStepsKeepClients(w.m, k, cfg, "");
    case Fail(tid, error) =>
      if tid in w.threads && w.threads[tid].Failing? {
        TableStepsKeepClients(w.m, w.threads[tid].key, w.threads[tid].cfg, error);
      }
    case StartClose(_, _, _, _) =>
    case Replace(_) =>
    case _ =>
  }

  /** Manager.Close collects an installed client and then waits while a call is running. */
  lemma CollectedStep(w: World, tid: Tid, order: seq<Key>, key: Key, c: Client)
    requires InstalledClient(w.m, key) == Some(c)
    ensures FateShows(StartShutdownStep(w, tid, order), Kept, key, c)
  {
    ClientsOfMembers(w.m, order);
    if tid !in w.threads && IsEnumeration(order, w.m.servers.Keys) && !w.m.closed {
      assert key in (set k | k in order);
      var t := StartShutdownStep(w, tid, order);
      assert t.m.closed && t.threads[tid] == Draining(ClientsOf(w.m, order));
    }
  }

  lemma DrainingStep(w: World, a: Action, t: Tid, caller: Tid, c: Client)
    requires ThreadsOk(w) && w.m.closed && IsCalling(w, caller, c)
    requires t in w.threads && w.threads[t].Draining?
    ensures Step(w, a).m.closed && t in Step(w, a).threads && Step(w, a).threads[t] == w.threads[t]
  {
    assert caller in CallsOf(w.threads);
  }

  lemma ClosingStep(w: World, a: Action, t: Tid, c: Client)
    requires t in w.threads && w.threads[t] == Closing(c)
    ensures a != CloseClient(t) ==> t in Step(w, a).threads && Step(w, a).threads[t] == Closing(c)
    ensures a == CloseClient(t) ==> c in Step(w, a).closeLog
  {
    if a == CloseClient(t) {
      assert (w.closeLog + [c])[|w.closeLog|] == c;
    }
  }

  lemma DetachStep(w: World, a: Action, key: Key, c: Client)
    requires Detaches(w, a, key, c)
    ensures a.tid in Step(w, a).threads && Step(w, a).threads[a.tid] == Closing(c)
  {
  }

  lemma CloseLogGrows(w: World, a: Action)
    ensures w.closeLog <= Step(w, a).closeLog
  {
  }

  lemma FateStep(w: World, a: Action, caller: Tid, fate: Fate, key: Key, c: Client)
    requires Conserved(w) && ThreadsOk(w) && IsCalling(w, caller, c) && FateShows(w, fate, key, c)
    ensures FateShows(Step(w, a), NextFate(fate, w, a, key, c), key, c)
  {
    match fate
    case Kept =>
      if Detaches(w, a, key, c) {
        DetachStep(w, a, key, c);
      } else if InstalledClient(w.m, key) == Some(c) {
        if a.StartShutdown? {
          CollectedStep(w, a.tid, a.order, key, c);
        } else {
          InstalledStep(w, a, key, c);
        }
      } else {
        var t :| t in w.threads && w.threads[t].Draining? && c in Owned(w.threads[t]);
        DrainingStep(w, a, t, caller, c);
      }
    case DetachedBy(t) => ClosingStep(w, a, t, c);
    case ClosedInUse => CloseLogGrows(w, a);
  }

  lemma {:induction false} RunOk(w: World, more: seq<Action>)
    requires Conserved(w) && TableOk(w)
    ensures Conserved(Run(w, more)) && TableOk(Run(w, more))
  {
    if more != [] {
      var n := |more| - 1;
      RunOk(w, more[..n]);
      StepConserves(Run(w, more[..n]), more[n]);
      TableStepOk(Run(w, more[..n]), more[n]);
    }
  }

  lemma {:induction false} FateHolds(w: World, more: seq<Action>, caller: Tid, key: Key, c: Client)
    requires Conserved(w) && TableOk(w) && InstalledClient(w.m, key) == Some(c) && caller in w.threads
    requires IsCalling(Run(w, more), caller, c)
    ensures FateShows(Run(w, more), FateOf(w, more, key, c), key, c)
  {
    if more != [] {
      var n := |more| - 1;
      WasCallingAll(w, more, caller, c, n);
      RunOk(w, more[..n]);
      FateHolds(w, more[..n], caller, key, c);
      FateStep(Run(w, more[..n]), more[n], caller, FateOf(w, more[..n], key, c), key, c);
    }
  }

  /** Only in the last fate has the client been closed. */
  lemma FateIsExact(w: World, fate: Fate, key: Key, c: Client)
    requires Conserved(w) && FateShows(w, fate, key, c)
    ensures c in w.closeLog <==> fate.ClosedInUse?
    ensures !fate.Kept? ==> InstalledClient(w.m, key) != Some(c)
  {
    match fate
    case Kept =>
      if InstalledClient(w.m, key) == Some(c) {
        assert At(w, c, Installed(key));
      } else {
        var t :| t in w.threads && w.threads[t].Draining? && c in Owned(w.threads[t]);
        assert At(w, c, Held(t));
      }
      assert !At(w, c, Shut);
    case DetachedBy(t) =>
      assert At(w, c, Held(t));
      assert !At(w, c, Shut) && !At(w, c, Installed(key));
    case ClosedInUse =>
      assert At(w, c, Shut);
      assert !At(w, c, Installed(key));
  }

  /** Step `i` takes the client from its server and step `j` is the same operation's Client.Close. */
  predicate TakenAndClosed(w: World, more: seq<Action>, key: Key, c: Client, i: nat, j: nat) {
    && i < j < |more|
    && Detaches(Run(w, more[..i]), more[i], key, c)
    && more[j] == CloseClient(more[i].tid)
  }

  predicate TakenBy(w: World, more: seq<Action>, key: Key, c: Client, t: Tid, i: nat) {
    i < |more| && Detaches(Run(w, more[..i]), more[i], key, c) && more[i].tid == t
  }

  /** A fate other than Kept has its steps. */
  lemma {:induction false} FateSteps(w: World, more: seq<Action>, key: Key, c: Client)
    ensures var fate := FateOf(w, more, key, c);
            && (fate.DetachedBy? ==> exists i :: TakenBy(w, more, key, c, fate.tid, i))
            && (fate.ClosedInUse? ==> exists i, j :: TakenAndClosed(w, more, key, c, i, j))
  {
    if more != [] {
      var n := |more| - 1;
      var init, fate := more[..n], FateOf(w, more, key, c);
      var before := FateOf(w, init, key, c);
      FateSteps(w, init, key, c);
      assert forall i :: 0 <= i <= n ==> init[..i] == more[..i];
      if before.Kept? && fate.DetachedBy? {
        assert TakenBy(w, more, key, c, fate.tid, n);
      } else if before.DetachedBy? {
        var i :| TakenBy(w, init, key, c, before.tid, i);
        assert TakenBy(w, more, key, c, before.tid, i);
        if fate.ClosedInUse? {
          assert TakenAndClosed(w, more, key, c, i, n);
        }
      } else if before.ClosedInUse? {
        var i, j :| TakenAndClosed(w, init, key, c, i, j);
        assert TakenAndClosed(w, more, key, c, i, j);
      }
    }
  }

  lemma KeptUntilTaken(w: World, more: seq<Action>, caller: Tid, key: Key, c: Client, i: nat)
    requires Conserved(w) && TableOk(w) && InstalledClient(w.m, key) == Some(c) && caller in w.threads
    requires IsCalling(Run(w, more), caller, c) && i < |more|
    requires Detaches(Run(w, more[..i]), more[i], key, c)
    ensures FateOf(w, more[..i], key, c) == Kept
  {
    WasCallingAll(w, more, caller, c, i);
    FateHolds(w, more[..i], caller, key, c);
    RunOk(w, more[..i]);
    FateIsExact(Run(w, more[..i]), FateOf(w, more[..i], key, c), key, c);
  }

  lemma FateNext(w: World, more: seq<Action>, key: Key, c: Client, k: nat)
    requires k < |more|
    ensures FateOf(w, more[..k + 1], key, c) ==
            NextFate(FateOf(w, more[..k], key, c), Run(w, more[..k]), more[k], key, c)
  {
    assert more[..k + 1][..k] == more[..k];
  }

  /** Once the client has been taken by `t`, that operation's Client.Close closes it. */
  lemma {:induction false} TakenThenClosed(w: World, more: seq<Action>, key: Key, c: Client, t: Tid, i: nat, k: nat)
    requires i <= k <= |more| && FateOf(w, more[..i], key, c) == DetachedBy(t)
    ensures FateOf(w, more[..k], key, c) ==
            if CloseClient(t) in more[i..k] then ClosedInUse else DetachedBy(t)
    decreases k
  {
    if i < k {
      TakenThenClosed(w, more, key, c, t, i, k - 1);
      TakenNext(w, more, key, c, t, k - 1);
      MoreSteps(more, i, k, CloseClient(t));
    }
  }

  lemma TakenNext(w: World, more: seq<Action>, key: Key, c: Client, t: Tid, k: nat)
    requires k < |more| && FateOf(w, more[..k], key, c) in {DetachedBy(t), ClosedInUse}
    ensures FateOf(w, more[..k + 1], key, c) ==
            if more[k] == CloseClient(t) then ClosedInUse else FateOf(w, more[..k], key, c)
  {
    FateNext(w, more, key, c, k);
  }

  lemma MoreSteps(more: seq<Action>, i: nat, k: nat, a: Action)
    requires i < k <= |more|
    ensures a in more[i..k] <==> a in more[i..k - 1] || more[k - 1] == a
  {
    assert more[i..k] == more[i..k - 1] + [more[k - 1]];
  }

  /** When a running call loses its client.  From a state in which a call is using the client installed
      under `key`, and as long as the call runs, that client is closed if and only if a CloseServer, a
      disable or a RefreshTools of the same server took it and then closed it.  Manager.Close never
      does. */
  lemma CallLosesClientIff(before: seq<Action>, more: seq<Action>, caller: Tid, key: Key, c: Client)
    requires InstalledClient(Run(Init(), before).m, key) == Some(c) && IsCalling(Run(Init(), before), caller, c)
    requires IsCalling(Run(Run(Init(), before), more), caller, c)
    ensures var w := Run(Init(), before);
            c in Run(w, more).closeLog <==> exists i, j :: TakenAndClosed(w, more, key, c, i, j)
  {
    var w := Run(Init(), before);
    RunConserves(before);
    RunTableOk(before);
    RunOk(w, more);
    FateHolds(w, more, caller, key, c);
    FateIsExact(Run(w, more), FateOf(w, more, key, c), key, c);
    FateSteps(w, more, key, c);
    if i: nat, j: nat :| TakenAndClosed(w, more, key, c, i, j) {
      KeptUntilTaken(w, more, caller, key, c, i);
      FateNext(w, more, key, c, i);
      TakenThenClosed(w, more, key, c, more[i].tid, i + 1, |more|);
      assert more[i + 1..|more|][j - i - 1] == more[j] && more[..|more|] == more;
    }
  }

  /** The step belongs to an operation that may close the server's present client. */
  predicate TouchesClient(w: World, a: Action, key: Key) {
    || (a.StartClose? && a.key == key)
    || (a.Replace? && a.tid in w.threads && w.threads[a.tid].Ready? && w.threads[a.tid].key == key)
  }

  /** So a call keeps its client while no CloseServer, disable or RefreshTools of the same server
      overlaps it, whatever else runs, Manager.Close included. */
  lemma CallKeepsClient(before: seq<Action>, more: seq<Action>, caller: Tid, key: Key, c: Client)
    requires InstalledClient(Run(Init(), before).m, key) == Some(c) && IsCalling(Run(Init(), before), caller, c)
    requires IsCalling(Run(Run(Init(), before), more), caller, c)
    requires forall i :: 0 <= i < |more| ==> !TouchesClient(Run(Run(Init(), before), more[..i]), more[i], key)
    ensures c !in Run(Run(Init(), before), more).closeLog
  {
    CallLosesClientIff(before, more, caller, key, c);
  }

  /** Such a run exists. */
  lemma CloseServerMayInterruptACall()
    ensures exists actions, tid, c ::
      var w := Run(Init(), actions);
      tid in w.threads && w.threads[tid] == Calling(c) && c in w.closeLog
  {
    var w, actions := ThenConnected([], Init(), 0, "s", 7);
    var longer := CalledThenClosed(actions, w, 1, 2, "s", 7);
  }

  predicate IsIdle(w: World, tid: Tid) {
    tid !in w.threads && !w.m.closed
  }

  /** A refresh that connects to a server that had no client. */
  lemma ThenConnected(actions: seq<Action>, w: World, tid: Tid, key: Key, c: Client) returns (next: World, longer: seq<Action>)
    requires Run(Init(), actions) == w && IsIdle(w, tid) && c !in w.issued && InstalledClient(w.m, key).None?
    ensures Run(Init(), longer) == next && InstalledClient(next.m, key) == Some(c) && !next.m.closed
    ensures next.threads.Keys == w.threads.Keys + {tid}
  {
    var cfg := Config(key, key, "stdio");
    var w1, a1 := RunThen(actions, w, StartRefresh(tid, key, cfg));
    assert w1.threads == w.threads[tid := Connect1(key, cfg)] && w1.issued == w.issued && !w1.m.closed;
    var w2, a2 := RunThen(a1, w1, ConnectReturns(tid, Some(c)));
    assert w2.threads == w1.threads[tid := List1(key, cfg, c)] && w2.m == w1.m;
    next, longer := ThenListed(a2, w2, tid, key, cfg, c);
  }

  lemma ThenListed(actions: seq<Action>, w: World, tid: Tid, key: Key, cfg: Config, c: Client)
    returns (next: World, longer: seq<Action>)
    requires Run(Init(), actions) == w && !w.m.closed && tid in w.threads && w.threads[tid] == List1(key, cfg, c)
    ensures Run(Init(), longer) == next && InstalledClient(next.m, key) == Some(c) && !next.m.closed
    ensures next.threads.Keys == w.threads.Keys
  {
    var w1, a1 := RunThen(actions, w, ListReturns(tid, Some([])));
    assert w1.threads == w.threads[tid := Ready(key, cfg, c, [])] && w1.m == w.m;
    next, longer := RunThen(a1, w1, Replace(tid));
  }

  lemma CalledThenClosed(actions: seq<Action>, w: World, caller: Tid, closer: Tid, key: Key, c: Client)
    returns (longer: seq<Action>)
    requires Run(Init(), actions) == w && IsIdle(w, caller) && IsIdle(w, closer) && caller != closer
    requires InstalledClient(w.m, key) == Some(c)
    ensures var t := Run(Init(), longer);
            caller in t.threads && t.threads[caller] == Calling(c) && c in t.closeLog
  {
    var w1, a1 := RunThen(actions, w, StartCall(caller, key));
    assert w1.threads == w.threads[caller := Calling(c)] && w1.m.servers == w.m.servers && !w1.m.closed;
    var w2, a2 := RunThen(a1, w1, StartClose(closer, key, Config(key, "", ""), Disconnected));
    assert w2.threads == w1.threads[closer := Closing(c)];
    var w3, a3 := RunThen(a2, w2, CloseClient(closer));
    assert w3.closeLog[|w3.closeLog| - 1] == c;
    longer := a3;
  }

  lemma RunThen(actions: seq<Action>, w: World, a: Action) returns (next: World, longer: seq<Action>)
    requires Run(Init(), actions) == w
    ensures longer == actions + [a] && next == Step(w, a) && Run(Init(), longer) == next
  {
    longer, next := actions + [a], Step(w, a);
    assert longer[..|longer| - 1] == actions;
  }
}
