/** The scheduler loop's one-slot wake channel and its timer delay
    (agent_gateway/internal/runtime/scheduler/scheduler.go). */
module Wake {
  import opened Text

  const HOUR := 3_600_000_000_000
  const MINUTE := 60_000_000_000

  // ---------------------------------------------------------------- the delay

  ghost predicate IsEarliest(times: seq<Option<nat>>, t: nat) {
    Some(t) in times && forall i :: 0 <= i < |times| && times[i].Some? ==> t <= times[i].value
  }

  /** The delay `d` waits exactly until the earliest armed task, an hour when none is armed, and a minute
      when the tasks could not be listed. */
  ghost predicate IsDelay(listed: Option<seq<Option<nat>>>, now: nat, d: nat) {
    match listed
    case None => d == MINUTE
    case Some(times) =>
      && ((forall i :: 0 <= i < |times| ==> times[i].None?) ==> d == HOUR)
      && (forall t: nat :: IsEarliest(times, t) ==> d == if t > now then t - now else 0)
  }

  /** The enabled tasks' next runs, scanned for the earliest; `listed` is None when ListEnabled fails. */
  method DelayUntilNext(listed: Option<seq<Option<nat>>>, now: nat) returns (delay: nat)
    ensures IsDelay(listed, now, delay)
    ensures listed.Some? && (exists i :: 0 <= i < |listed.value| && listed.value[i].Some?) ==>
              exists t: nat :: IsEarliest(listed.value, t)
  {
    if listed.None? {
      return MINUTE;
    }
    var times := listed.value;
    var next: Option<nat> := None;
    for i := 0 to |times|
      invariant next.None? ==> forall j :: 0 <= j < i ==> times[j].None?
      invariant next.Some? ==> next in times && forall j :: 0 <= j < i && times[j].Some? ==> next.value <= times[j].value
    {
      if times[i].None? {
        continue;
      }
      if next.None? || times[i].value < next.value {
        next := times[i];
      }
    }
    if next.None? {
      assert forall t: nat :: !IsEarliest(times, t);
      return HOUR;
    }
    assert IsEarliest(times, next.value);
    if next.value <= now {
      return 0;
    }
    return next.value - now;
  }

  // ---------------------------------------------------------------- the protocol

  type Tid = nat

  /** Reading is the loop before ListEnabled; Waiting holds what the last ListEnabled saw, None if it
      failed; Checking is CheckDue after the timer. */
  datatype Loop = Reading | Waiting(version: nat, seen: Option<seq<Option<nat>>>) | Checking

  /** A restart's recovery is no Change: it writes before its loop starts, and so belongs to the store
      that loop begins with.  `pending` are the writers whose Wake has not returned, with the version they wrote, and `acked`
      the latest version whose Wake has. */
  datatype State = State(
    store: seq<Option<nat>>,
    version: nat,
    pending: map<Tid, nat>,
    acked: nat,
    token: bool,
    loop: Loop)

  datatype Action =
    | Change(tid: Tid, store: seq<Option<nat>>)     // a completion or an administrator
    | CallWake(tid: Tid)
    | Read
    | ReadFails
    | ReceiveWake
    | Timer
    | LockWrite(store: seq<Option<nat>>)            // CheckDue's own locks, which nobody is woken for
    | Checked

  function Init(store: seq<Option<nat>>): State {
    State(store, 0, map[], 0, false, Reading)
  }

  function Step(s: State, a: Action): State {
    match a
    case Change(tid, store) =>
      if tid in s.pending then s
      else s.(store := store, version := s.version + 1, pending := s.pending[tid := s.version + 1])
    case CallWake(tid) =>
      if tid !in s.pending then s.(token := true)
      else
        var v := s.pending[tid];
        s.(token := true, acked := if v > s.acked then v else s.acked, pending := s.pending - {tid})
    case Read => if s.loop.Reading? then s.(loop := Waiting(s.version, Some(s.store))) else s
    case ReadFails => if s.loop.Reading? then s.(loop := Waiting(s.version, None)) else s
    case ReceiveWake => if s.loop.Waiting? && s.token then s.(token := false, loop := Reading) else s
    case Timer => if s.loop.Waiting? then s.(loop := Checking) else s
    case LockWrite(store) => if s.loop.Checking? then s.(store := store, version := s.version + 1) else s
    case Checked => if s.loop.Checking? then s.(loop := Reading) else s
  }

  function Run(s: State, actions: seq<Action>): State {
    if actions == [] then s else Step(Run(s, actions[..|actions| - 1]), actions[|actions| - 1])
  }

  ghost predicate Inv(s: State) {
    && s.acked <= s.version
    && (forall t :: t in s.pending ==> s.pending[t] <= s.version)
    && (s.loop.Waiting? ==>
          && s.loop.version <= s.version
          && (s.loop.version == s.version && s.loop.seen.Some? ==> s.loop.seen.value == s.store)
          && (s.loop.version == s.version || s.version == s.acked || exists t :: t in s.pending && s.pending[t] == s.version)
          && (s.acked > s.loop.version ==> s.token))
  }

  lemma StepKeeps(s: State, a: Action)
    requires Inv(s)
    ensures Inv(Step(s, a))
  {
    var t := Step(s, a);
    if a.Change? && t != s {
      assert a.tid in t.pending && t.pending[a.tid] == t.version;
    } else if a.CallWake? && a.tid in s.pending && s.loop.Waiting? && s.version != s.acked && s.loop.version != s.version {
      var w :| w in s.pending && s.pending[w] == s.version;
      assert w != a.tid ==> w in t.pending && t.pending[w] == t.version;
    }
  }

  lemma {:induction false} RunKeeps(store: seq<Option<nat>>, actions: seq<Action>)
    ensures Inv(Run(Init(store), actions))
  {
    if actions != [] {
      RunKeeps(store, actions[..|actions| - 1]);
      StepKeeps(Run(Init(store), actions[..|actions| - 1]), actions[|actions| - 1]);
    }
  }

  /** No lost wake-up: whenever the loop waits on what it read before a change whose Wake has returned, the
      channel holds a token; and when it waits with no token and no Wake outstanding, what it read is the
      current store, CheckDue's own writes included. */
  lemma NoLostWakeUp(store: seq<Option<nat>>, actions: seq<Action>)
    requires Run(Init(store), actions).loop.Waiting?
    ensures var s := Run(Init(store), actions);
      && (s.acked > s.loop.version ==> s.token)
      && (!s.token && s.pending == map[] && s.loop.seen.Some? ==> s.loop.seen.value == s.store)
  {
    RunKeeps(store, actions);
  }

  /** A change whose Wake has returned is then seen: the loop can take a token, and after that reads the
      store as it is. */
  lemma ChangeIsSeen(store: seq<Option<nat>>, actions: seq<Action>)
    requires Run(Init(store), actions).loop.Waiting?
    requires Run(Init(store), actions).acked > Run(Init(store), actions).loop.version
    ensures var s := Run(Init(store), actions);
            && Step(s, ReceiveWake).loop.Reading? && !Step(s, ReceiveWake).token
            && Step(Step(s, ReceiveWake), Read).loop == Waiting(s.version, Some(s.store))
  {
    NoLostWakeUp(store, actions);
  }

  /** The loop never gets stuck: in every run it can go on to check what is due. */
  lemma LoopCanCheck(store: seq<Option<nat>>, actions: seq<Action>)
    ensures exists more :: Run(Run(Init(store), actions), more).loop.Checking?
  {
    var s := Run(Init(store), actions);
    match s.loop
    case Reading =>
      var more := [Read, Timer];
      assert more[..1] == [Read] && [Read][..0] == [];
      assert Run(s, more).loop.Checking?;
    case Waiting(_, _) =>
      assert [Timer][..0] == [];
      assert Run(s, [Timer]).loop.Checking?;
    case Checking =>
      assert Run(s, []).loop.Checking?;
  }

  // ---------------------------------------------------------------- the scheduler's own fields

  class SchedulerLoop {
    var running: bool
    /** The context of the loop that was started last, while it can be cancelled. */
    var cancel: Option<nat>
    var token: bool
    /** Contexts made so far, and those not cancelled: each has one loop. */
    ghost var made: nat
    ghost var live: set<nat>
    ghost var protocol: State

    /** At most one loop is live, the one that Stop will cancel; and the wake slot is the protocol's. */
    ghost predicate Valid()
      reads this
    {
      && running == cancel.Some?
      && live == (if cancel.Some? then {cancel.value} else {})
      && (forall c :: c in live ==> c < made)
      && token == protocol.token && Inv(protocol)
    }

    constructor (ghost store: seq<Option<nat>>)
      ensures Valid() && live == {} && protocol == Init(store)
    {
      running, cancel, token, made, live, protocol := false, None, false, 0, {}, Init(store);
    }

    /** Starts a loop unless one is running; a failing recovery cancels the new context again. */
    method Start(context: nat, recoverOk: bool) returns (started: bool)
      requires Valid() && context == made
      modifies `running, `cancel, `made, `live
      ensures Valid()
      ensures started <==> old(live) == {} && recoverOk
      ensures live == if started then {context} else old(live)
    {
      if running {
        return false;
      }
      running, cancel, made, live := true, Some(context), made + 1, {context};
      if !recoverOk {
        running, cancel, live := false, None, {};
        return false;
      }
      return true;
    }

    /** Afterwards no loop is live, however often it is called. */
    method Stop()
      requires Valid()
      modifies `running, `cancel, `live
      ensures Valid() && live == {}
    {
      if !running {
        return;
      }
      live := live - {cancel.value};
      cancel := None;
      running := false;
    }

    /** A send that gives up when the slot is full: one CallWake of the protocol. */
    method Wake(ghost tid: Tid)
      requires Valid()
      modifies `token, `protocol
      ensures Valid() && protocol == Step(old(protocol), CallWake(tid))
    {
      StepKeeps(protocol, CallWake(tid));
      protocol := Step(protocol, CallWake(tid));
      if !token {
        token := true;
      }
    }

    /** The loop's receive: one ReceiveWake of the protocol. */
    method TakeToken() returns (woken: bool)
      requires Valid() && protocol.loop.Waiting?
      modifies `token, `protocol
      ensures Valid() && protocol == Step(old(protocol), ReceiveWake)
      ensures woken ==> protocol.loop.Reading?
    {
      StepKeeps(protocol, ReceiveWake);
      protocol := Step(protocol, ReceiveWake);
      woken := token;
      token := false;
    }
  }
}
