/** The scheduler's task table and its lock protocol on `next_run_at`
    (agent_gateway/internal/runtime/scheduler/scheduler.go,
    agent_gateway/internal/repositories/schedule_task_repository.go).  A database statement is one
    step; TryLock is two, the conditional update and the read-back. */
module Scheduler {
  import opened Text
  import opened Schedule

  type Id = string
  type Tid = nat

  /** A row of the task table; `next` is in milliseconds. */
  datatype Row = Row(enabled: bool, next: Option<nat>, kind: Kind, every: int, cron: string, deleteAfterRun: bool,
                     lastStatus: string)

  /** `scheduleFromModel`: an `at` schedule's time is the row's own next_run_at. */
  function PlanOf(row: Row): Plan {
    Plan(row.kind, if row.next.Some? then Some(row.next.value * MILLISECOND) else None, row.every, row.cron)
  }

  function ToMillis(t: Option<nat>): Option<nat> {
    if t.Some? then Some(t.value / MILLISECOND) else None
  }

  predicate IsDue(row: Row, now: nat) {
    row.enabled && row.next.Some? && row.next.value <= now
  }

  type Rows = map<Id, Row>

  predicate LockMatches(rows: Rows, id: Id, now: nat) {
    id in rows && IsDue(rows[id], now)
  }

  function Locked(rows: Rows, id: Id, now: nat): Rows {
    if LockMatches(rows, id, now) then rows[id := rows[id].(next := None)] else rows
  }

  function Completed(rows: Rows, id: Id, c: Completion): Rows {
    if id !in rows then rows
    else if c.delete then rows - {id}
    else
      rows[id := rows[id].(lastStatus := c.status,
                           enabled := rows[id].enabled && !c.disable,
                           next := if c.disable then None else ToMillis(c.next))]
  }

  function WithNext(rows: Rows, id: Id, next: Option<nat>): Rows {
    if id in rows then rows[id := rows[id].(next := ToMillis(next))] else rows
  }

  /** A stored next run makes an enabled row lockable from that millisecond on, and touches no other row. */
  lemma StoredIsLockable(rows: Rows, id: Id, next: nat, now: nat)
    ensures LockMatches(WithNext(rows, id, Some(next)), id, now) <==>
            id in rows && rows[id].enabled && next / MILLISECOND <= now
    ensures !LockMatches(WithNext(rows, id, None), id, now)
    ensures forall other :: other != id ==> (LockMatches(WithNext(rows, id, Some(next)), other, now) <==> LockMatches(rows, other, now))
  {
  }

  // ---------------------------------------------------------------- the repository object

  class TaskRepository {
    var rows: Rows

    /** The rows a TryLock at `now` could take. */
    method DueTasks(now: nat) returns (due: set<Id>)
      ensures forall id :: id in due <==> LockMatches(rows, id, now)
    {
      due := set id | id in rows && IsDue(rows[id], now);
    }

    method TryLockUpdate(id: Id, now: nat) returns (affected: nat)
      modifies this
      ensures rows == Locked(old(rows), id, now)
      ensures affected == if LockMatches(old(rows), id, now) then 1 else 0
    {
      if id !in rows || !rows[id].enabled || rows[id].next.None? || rows[id].next.value > now {
        return 0;
      }
      rows := rows[id := rows[id].(next := None)];
      return 1;
    }

    method CompleteTask(id: Id, c: Completion)
      modifies this
      ensures rows == Completed(old(rows), id, c)
    {
      if c.delete {
        rows := rows - {id};
        return;
      }
      if id in rows {
        var row := rows[id].(lastStatus := c.status, next := ToMillis(c.next));
        if c.disable {
          row := row.(enabled := false, next := None);
        }
        rows := rows[id := row];
      }
    }

    method UpdateNextRun(id: Id, next: Option<nat>)
      modifies this
      ensures rows == WithNext(old(rows), id, next)
    {
      if id in rows {
        rows := rows[id := rows[id].(next := ToMillis(next))];
      }
    }
  }

  // ---------------------------------------------------------------- the protocol

  datatype Pc =
    | LockTaken(id: Id)          // update done, read-back pending
    | Executing(id: Id, task: Row)
    | Recovering(id: Id, task: Row) // Start has read the row, its update is pending
    | Done

  /** `starts` lists the executions begun so far. */
  datatype World = World(rows: Rows, threads: map<Tid, Pc>, starts: seq<Id>)

  datatype Action =
    | TryLock(tid: Tid, id: Id, now: nat)
    | ReadBack(tid: Tid)
    | ReadBackFails(tid: Tid)                       // the read after the update returned an error
    | Finish(tid: Tid, ok: bool, finished: nat)
    | FinishUnsaved(tid: Tid)                       // the completion could not be stored
    | RecoverRead(tid: Tid, id: Id)                 // Start: ListEnabled
    | RecoverWrite(tid: Tid, now: nat)              // Start: NextRun and UpdateNextRun
    | AdminPut(id: Id, row: Row)
    | AdminDelete(id: Id)

  function TryLockStep(w: World, tid: Tid, id: Id, now: nat): World {
    if tid in w.threads || !LockMatches(w.rows, id, now) then w
    else w.(rows := Locked(w.rows, id, now), threads := w.threads[tid := LockTaken(id)])
  }

  function ReadBackStep(w: World, tid: Tid): World {
    if tid !in w.threads || !w.threads[tid].LockTaken? then w
    else
      var id := w.threads[tid].id;
      if id in w.rows then w.(threads := w.threads[tid := Executing(id, w.rows[id])], starts := w.starts + [id])
      else w.(threads := w.threads[tid := Done])
  }

  function FinishStep(search: CronFinder, w: World, tid: Tid, ok: bool, finished: nat): World {
    if tid !in w.threads || !w.threads[tid].Executing? then w
    else
      var Executing(id, task) := w.threads[tid];
      var c := Complete(search, PlanOf(task), task.deleteAfterRun, ok, finished);
      w.(rows := Completed(w.rows, id, c), threads := w.threads[tid := Done])
  }

  function RecoverReadStep(w: World, tid: Tid, id: Id): World {
    if tid in w.threads || id !in w.rows || !w.rows[id].enabled then w
    else w.(threads := w.threads[tid := Recovering(id, w.rows[id])])
  }

  function RecoverWriteStep(search: CronFinder, w: World, tid: Tid, now: nat): World {
    if tid !in w.threads || !w.threads[tid].Recovering? then w
    else
      var Recovering(id, task) := w.threads[tid];
      var t := w.(threads := w.threads[tid := Done]);
      if task.next.Some? && task.next.value * MILLISECOND > now then t
      else
        match NextRun(search, PlanOf(task), now)
        case Err(_) => t
        case Ok(next) => t.(rows := WithNext(w.rows, id, next))
  }

  function Step(search: CronFinder, w: World, a: Action): World {
    match a
    case TryLock(tid, id, now) => TryLockStep(w, tid, id, now)
    case ReadBack(tid) => ReadBackStep(w, tid)
    case ReadBackFails(tid) =>
      if tid in w.threads && w.threads[tid].LockTaken? then w.(threads := w.threads[tid := Done]) else w
    case Finish(tid, ok, finished) => FinishStep(search, w, tid, ok, finished)
    case FinishUnsaved(tid) =>
      if tid in w.threads && w.threads[tid].Executing? then w.(threads := w.threads[tid := Done]) else w
    case RecoverRead(tid, id) => RecoverReadStep(w, tid, id)
    case RecoverWrite(tid, now) => RecoverWriteStep(search, w, tid, now)
    case AdminPut(id, row) => w.(rows := w.rows[id := row])
    case AdminDelete(id) => w.(rows := w.rows - {id})
  }

  function Run(search: CronFinder, w: World, actions: seq<Action>): World {
    if actions == [] then w else Step(search, Run(search, w, actions[..|actions| - 1]), actions[|actions| - 1])
  }

  // ---------------------------------------------------------------- between two locks

  predicate LockSucceeds(w: World, a: Action, id: Id) {
    a.TryLock? && a.id == id && a.tid !in w.threads && LockMatches(w.rows, id, a.now)
  }

  /** The step stores a next_run_at for the task: a reschedule, a recovery or an administrator. */
  predicate WritesNext(search: CronFinder, w: World, a: Action, id: Id) {
    match a
    case Finish(tid, ok, finished) =>
      && tid in w.threads && w.threads[tid].Executing? && w.threads[tid].id == id
      && var task := w.threads[tid].task;
         Complete(search, PlanOf(task), task.deleteAfterRun, ok, finished).next.Some?
    case RecoverWrite(tid, now) =>
      && tid in w.threads && w.threads[tid].Recovering? && w.threads[tid].id == id
      && var r := NextRun(search, PlanOf(w.threads[tid].task), now); r.Ok? && r.value.Some?
    case AdminPut(other, row) => other == id && row.next.Some?
    case _ => false
  }

  predicate Unarmed(w: World, id: Id) {
    id in w.rows ==> w.rows[id].next.None?
  }

  lemma StaysUnarmed(search: CronFinder, w: World, a: Action, id: Id)
    requires Unarmed(w, id) && !WritesNext(search, w, a, id)
    ensures Unarmed(Step(search, w, a), id)
  {
  }

  lemma {:induction false} RunStaysUnarmed(search: CronFinder, w: World, actions: seq<Action>, id: Id)
    requires Unarmed(w, id)
    requires forall k :: 0 <= k < |actions| ==> !WritesNext(search, Run(search, w, actions[..k]), actions[k], id)
    ensures Unarmed(Run(search, w, actions), id)
  {
    if actions != [] {
      var init := actions[..|actions| - 1];
      assert forall k :: 0 <= k < |init| ==> init[..k] == actions[..k];
      RunStaysUnarmed(search, w, init, id);
      StaysUnarmed(search, Run(search, w, init), actions[|actions| - 1], id);
    }
  }

  /** Between two successful locks of a task some step stores a next_run_at for it, whatever else
      runs: overlapping checks, completions, restarts and administrators included. */
  lemma RelockNeedsRearm(search: CronFinder, w: World, lock: Action, between: seq<Action>, relock: Action, id: Id)
    requires LockSucceeds(w, lock, id)
    requires LockSucceeds(Run(search, Step(search, w, lock), between), relock, id)
    ensures exists k ::
      0 <= k < |between| && WritesNext(search, Run(search, Step(search, w, lock), between[..k]), between[k], id)
  {
    var u := Step(search, w, lock);
    if forall k :: 0 <= k < |between| ==> !WritesNext(search, Run(search, u, between[..k]), between[k], id) {
      RunStaysUnarmed(search, u, between, id);
    }
  }

  // ---------------------------------------------------------------- one execution at a time

  predicate InFlight(pc: Pc, id: Id) {
    (pc.LockTaken? || pc.Executing?) && pc.id == id
  }

  /** Steps of running schedulers only: no administrator and no further Start. */
  predicate IsWorkerStep(a: Action) {
    a.TryLock? || a.ReadBack? || a.ReadBackFails? || a.Finish? || a.FinishUnsaved?
  }

  ghost predicate OneInFlight(w: World) {
    && (forall s, t :: s in w.threads && t in w.threads && s != t ==>
          !((w.threads[s].LockTaken? || w.threads[s].Executing?) && InFlight(w.threads[t], w.threads[s].id)))
    && (forall t :: t in w.threads ==> !w.threads[t].Recovering?)
    && (forall t :: t in w.threads && (w.threads[t].LockTaken? || w.threads[t].Executing?) ==> Unarmed(w, w.threads[t].id))
  }

  lemma WorkerStepKeepsOne(search: CronFinder, w: World, a: Action)
    requires OneInFlight(w) && IsWorkerStep(a)
    ensures OneInFlight(Step(search, w, a))
  {
  }

  /** Without an administrator or a second Start, a task never has two executions in flight. */
  lemma {:induction false} NeverTwoInFlight(search: CronFinder, rows: Rows, actions: seq<Action>)
    requires forall k :: 0 <= k < |actions| ==> IsWorkerStep(actions[k])
    ensures OneInFlight(Run(search, World(rows, map[], []), actions))
  {
    if actions != [] {
      NeverTwoInFlight(search, rows, actions[..|actions| - 1]);
      WorkerStepKeepsOne(search, Run(search, World(rows, map[], []), actions[..|actions| - 1]), actions[|actions| - 1]);
    }
  }

  // ---------------------------------------------------------------- when executions overlap

  /** Two executions of the task are under way. */
  ghost predicate Overlap(w: World, id: Id) {
    exists s, t :: BothInFlight(w, id, s, t)
  }

  predicate BothInFlight(w: World, id: Id, s: Tid, t: Tid) {
    s != t && s in w.threads && t in w.threads && InFlight(w.threads[s], id) && InFlight(w.threads[t], id)
  }

  ghost predicate Busy(w: World, id: Id) {
    exists t :: t in w.threads && InFlight(w.threads[t], id)
  }

  /** A lock will succeed once the time has come. */
  predicate Armed(w: World, id: Id) {
    id in w.rows && w.rows[id].enabled && w.rows[id].next.Some?
  }

  /** A restart's recovery or an administrator stores a next run for the enabled task. */
  predicate Rearms(search: CronFinder, w: World, a: Action, id: Id) {
    && (a.RecoverWrite? || a.AdminPut?)
    && WritesNext(search, w, a, id) && Armed(Step(search, w, a), id)
  }

  /** At most one execution, and none of an armed task. */
  ghost predicate Apart(w: World, id: Id) {
    !Overlap(w, id) && (Busy(w, id) ==> !Armed(w, id))
  }

  /** From a state with executions apart, a step makes two of them exactly when it is a successful lock
      while one is under way. */
  lemma OverlapStepIff(search: CronFinder, w: World, a: Action, id: Id)
    requires !Overlap(w, id)
    ensures Overlap(Step(search, w, a), id) <==> Busy(w, id) && LockSucceeds(w, a, id)
  {
    var t := Step(search, w, a);
    if Busy(w, id) && LockSucceeds(w, a, id) {
      var s :| s in w.threads && InFlight(w.threads[s], id);
      assert BothInFlight(t, id, s, a.tid);
    }
    if r, s :| BothInFlight(t, id, r, s) {
      InFlightBefore(search, w, a, id, r);
      InFlightBefore(search, w, a, id, s);
      if !LockSucceeds(w, a, id) {
        assert BothInFlight(w, id, r, s);
      }
    }
  }

  /** An execution under way was under way before, unless the step locked the task for it. */
  lemma InFlightBefore(search: CronFinder, w: World, a: Action, id: Id, t: Tid)
    requires t in Step(search, w, a).threads && InFlight(Step(search, w, a).threads[t], id)
    ensures (t in w.threads && InFlight(w.threads[t], id)) || (LockSucceeds(w, a, id) && t == a.tid)
  {
  }

  /** What an execution that stays under way needs to find its task armed. */
  lemma ArmedStep(search: CronFinder, w: World, a: Action, id: Id)
    requires Apart(w, id) && !Rearms(search, w, a, id) && Busy(Step(search, w, a), id)
    ensures !Armed(Step(search, w, a), id)
  {
    var t := Step(search, w, a);
    var s :| s in t.threads && InFlight(t.threads[s], id);
    InFlightBefore(search, w, a, id, s);
    if a.Finish? && a.tid in w.threads && w.threads[a.tid].Executing? && w.threads[a.tid].id == id {
      assert s != a.tid;
      assert BothInFlight(w, id, s, a.tid);
    }
  }

  lemma ApartStep(search: CronFinder, w: World, a: Action, id: Id)
    requires Apart(w, id) && (Busy(Step(search, w, a), id) ==> !Rearms(search, w, a, id))
    ensures Apart(Step(search, w, a), id)
  {
    OverlapStepIff(search, w, a, id);
    if Busy(w, id) && LockSucceeds(w, a, id) {
      assert Armed(w, id);
    }
    if Busy(Step(search, w, a), id) {
      ArmedStep(search, w, a, id);
    }
  }

  /** The step arms the task while an execution of it is under way. */
  ghost predicate RearmsBusy(search: CronFinder, start: World, actions: seq<Action>, k: nat, id: Id) {
    && k < |actions|
    && Rearms(search, Run(search, start, actions[..k]), actions[k], id)
    && Busy(Run(search, start, actions[..k + 1]), id)
  }

  /** After `k` steps one more lock gives two executions. */
  ghost predicate CanOverlap(search: CronFinder, start: World, actions: seq<Action>, k: nat, id: Id) {
    k <= |actions| &&
    exists tid: Tid, now: nat :: Overlap(Step(search, Run(search, start, actions[..k]), TryLock(tid, id, now)), id)
  }

  lemma {:induction false} ApartWhileNotRearmed(search: CronFinder, start: World, actions: seq<Action>, k: nat, id: Id)
    requires Apart(start, id) && k <= |actions|
    requires forall i: nat :: i < k ==> !RearmsBusy(search, start, actions, i, id)
    ensures Apart(Run(search, start, actions[..k]), id)
  {
    if k == 0 {
      assert actions[..0] == [];
    } else {
      ApartWhileNotRearmed(search, start, actions, k - 1, id);
      assert actions[..k][..k - 1] == actions[..k - 1];
      assert !RearmsBusy(search, start, actions, k - 1, id);
      ApartStep(search, Run(search, start, actions[..k - 1]), actions[k - 1], id);
    }
  }

  lemma {:induction false} FreshFor(tids: set<Tid>) returns (tid: Tid)
    ensures forall t :: t in tids ==> t < tid
  {
    if tids == {} {
      tid := 0;
    } else {
      var t :| t in tids;
      var rest := FreshFor(tids - {t});
      tid := if rest > t then rest else t + 1;
      assert forall other :: other in tids ==> other == t || other in tids - {t};
    }
  }

  /** An armed task with an execution under way can be locked again. */
  lemma ArmedBusyOverlaps(search: CronFinder, w: World, id: Id) returns (tid: Tid, now: nat)
    requires Busy(w, id) && Armed(w, id)
    ensures Overlap(Step(search, w, TryLock(tid, id, now)), id)
  {
    tid := FreshFor(w.threads.Keys);
    now := w.rows[id].next.value;
    var t := Step(search, w, TryLock(tid, id, now));
    var s :| s in w.threads && InFlight(w.threads[s], id);
    assert BothInFlight(t, id, s, tid);
  }

  lemma OverlapNeedsArmed(search: CronFinder, w: World, id: Id, tid: Tid, now: nat)
    requires Apart(w, id)
    ensures !Overlap(Step(search, w, TryLock(tid, id, now)), id)
  {
    OverlapStepIff(search, w, TryLock(tid, id, now), id);
  }

  /** When executions can overlap.  In every run from a state without executions, two executions of a
      task become possible if and only if a restart's recovery or an administrator arms the enabled task
      while an execution of it is under way.  Until then there are never two. */
  lemma OverlapIff(search: CronFinder, rows: Rows, actions: seq<Action>, id: Id)
    ensures var start := World(rows, map[], []);
            (exists k: nat :: CanOverlap(search, start, actions, k, id)) <==>
            (exists k: nat :: RearmsBusy(search, start, actions, k, id))
  {
    var start := World(rows, map[], []);
    if k: nat :| RearmsBusy(search, start, actions, k, id) {
      assert actions[..k + 1][..k] == actions[..k];
      var tid, now := ArmedBusyOverlaps(search, Run(search, start, actions[..k + 1]), id);
      assert CanOverlap(search, start, actions, k + 1, id);
    } else {
      forall k: nat
        ensures !CanOverlap(search, start, actions, k, id)
      {
        if k <= |actions| {
          ApartWhileNotRearmed(search, start, actions, k, id);
          forall tid: Tid, now: nat {
            OverlapNeedsArmed(search, Run(search, start, actions[..k]), id, tid, now);
          }
        }
      }
    }
  }

  lemma NeverTwoUntilRearmed(search: CronFinder, rows: Rows, actions: seq<Action>, id: Id)
    requires forall k: nat :: !RearmsBusy(search, World(rows, map[], []), actions, k, id)
    ensures !Overlap(Run(search, World(rows, map[], []), actions), id)
  {
    ApartWhileNotRearmed(search, World(rows, map[], []), actions, |actions|, id);
    assert actions[..|actions|] == actions;
  }

  lemma RunThen(search: CronFinder, start: World, actions: seq<Action>, w: World, a: Action)
    returns (next: World, longer: seq<Action>)
    requires Run(search, start, actions) == w
    ensures longer == actions + [a] && next == Step(search, w, a) && Run(search, start, longer) == next
  {
    longer, next := actions + [a], Step(search, w, a);
    assert longer[..|longer| - 1] == actions;
  }

  /** Such a run exists: a second Start re-arms a task that is still executing. */
  lemma SecondStartOverlaps(search: CronFinder)
    ensures exists rows, actions ::
      var w := Run(search, World(rows, map[], []), actions);
      0 in w.threads && 2 in w.threads && w.threads[0].Executing? && w.threads[2].Executing?
      && w.threads[0].id == w.threads[2].id
  {
    var row := Row(true, Some(0), Every, MILLISECOND, "", false, "");
    var w0 := World(map["t" := row], map[], []);
    var w1, a1 := RunThen(search, w0, [], w0, TryLock(0, "t", 0));
    var w2, a2 := RunThen(search, w0, a1, w1, ReadBack(0));
    var w3, a3 := RunThen(search, w0, a2, w2, RecoverRead(1, "t"));
    var w4, a4 := RunThen(search, w0, a3, w3, RecoverWrite(1, 0));
    assert w4.rows["t"].next == Some(1);
    var w5, a5 := RunThen(search, w0, a4, w4, TryLock(2, "t", 1));
    var w6, a6 := RunThen(search, w0, a5, w5, ReadBack(2));
    assert w6.threads[0].Executing? && w6.threads[2].Executing?;
  }

  // ---------------------------------------------------------------- one-time tasks

  function StartsOf(starts: seq<Id>, id: Id): nat {
    multiset(starts)[id]
  }

  /** Lock holders that have not read the row back yet. */
  function TakenBy(w: World, id: Id): set<Tid> {
    set t | t in w.threads && w.threads[t].LockTaken? && w.threads[t].id == id
  }

  /** The row and every copy an operation holds of it are of kind `at`. */
  ghost predicate KindAt(w: World, id: Id) {
    && (id in w.rows ==> w.rows[id].kind == AtTime)
    && (forall t :: t in w.threads && (w.threads[t].Executing? || w.threads[t].Recovering?) && w.threads[t].id == id ==>
          w.threads[t].task.kind == AtTime)
  }

  /** Armed and never taken, or taken once and not armed. */
  ghost predicate SpentOnce(w: World, id: Id) {
    Spent(w, id) <= 1 && (Spent(w, id) == 1 ==> Unarmed(w, id))
  }

  ghost predicate AtMostOnce(w: World, id: Id) {
    KindAt(w, id) && SpentOnce(w, id)
  }

  predicate IsAdminStep(a: Action) {
    a.AdminPut? || a.AdminDelete?
  }

  lemma TakenGrows(w: World, t: World, tid: Tid, id: Id)
    requires tid in t.threads && t.threads == w.threads[tid := t.threads[tid]]
    ensures TakenBy(t, id) == TakenBy(w, id) - {tid} + if t.threads[tid].LockTaken? && t.threads[tid].id == id then {tid} else {}
  {
  }

  /** Recovery computes no next run for an `at` task: its time is the next_run_at that has passed or is gone. */
  lemma RecoveryNeverArmsAt(search: CronFinder, task: Row, now: nat)
    requires task.kind == AtTime && !(task.next.Some? && task.next.value * MILLISECOND > now)
    ensures var r := NextRun(search, PlanOf(task), now); r.Ok? ==> r.value.None?
  {
  }

  lemma KindStaysAt(search: CronFinder, w: World, a: Action, id: Id)
    requires KindAt(w, id) && !IsAdminStep(a)
    ensures KindAt(Step(search, w, a), id)
  {
  }

  /** No step but an administrator's arms an `at` task again. */
  lemma AtNeverArmed(search: CronFinder, w: World, a: Action, id: Id)
    requires KindAt(w, id) && !IsAdminStep(a) && Unarmed(w, id)
    ensures Unarmed(Step(search, w, a), id)
  {
    if a.RecoverWrite? && a.tid in w.threads && w.threads[a.tid].Recovering? {
      var Recovering(other, task) := w.threads[a.tid];
      if other == id && !(task.next.Some? && task.next.value * MILLISECOND > a.now) {
        RecoveryNeverArmsAt(search, task, a.now);
      }
    }
  }

  /** What an execution of a task has cost: its start, or the lock that will become one. */
  function Spent(w: World, id: Id): nat {
    StartsOf(w.starts, id) + |TakenBy(w, id)|
  }

  lemma LockSpends(w: World, tid: Tid, id: Id, now: nat, other: Id)
    ensures var t := TryLockStep(w, tid, id, now);
      if LockSucceeds(w, TryLock(tid, id, now), other) then Spent(t, other) == Spent(w, other) + 1 && Unarmed(t, other)
      else Spent(t, other) == Spent(w, other)
  {
    var t := TryLockStep(w, tid, id, now);
    if t != w {
      TakenGrows(w, t, tid, other);
      assert tid !in TakenBy(w, other);
      assert id != other ==> TakenBy(t, other) == TakenBy(w, other);
    }
  }

  lemma OthersSpendNothing(search: CronFinder, w: World, a: Action, id: Id)
    requires !a.TryLock? && !a.ReadBack? && !a.ReadBackFails?
    ensures Spent(Step(search, w, a), id) == Spent(w, id)
  {
    var t := Step(search, w, a);
    assert t.starts == w.starts;
    assert TakenBy(t, id) == TakenBy(w, id);
  }

  /** Only a successful lock spends, and it leaves the task unarmed. */
  lemma SpendStep(search: CronFinder, w: World, a: Action, id: Id)
    ensures var t := Step(search, w, a);
      Spent(t, id) <= Spent(w, id) || (LockSucceeds(w, a, id) && Spent(t, id) == Spent(w, id) + 1 && Unarmed(t, id))
  {
    if a.TryLock? {
      LockSpends(w, a.tid, a.id, a.now, id);
    } else if a.ReadBack? {
      if a.tid in w.threads && w.threads[a.tid].LockTaken? {
        ReadBackSpends(w, a.tid, id);
      }
    } else if a.ReadBackFails? {
      ReadBackFailsSpends(search, w, a.tid, id);
    } else {
      OthersSpendNothing(search, w, a, id);
    }
  }

  lemma ReadBackSpends(w: World, tid: Tid, id: Id)
    requires tid in w.threads && w.threads[tid].LockTaken?
    ensures Spent(ReadBackStep(w, tid), id) <= Spent(w, id)
  {
    var t := ReadBackStep(w, tid);
    TakenGrows(w, t, tid, id);
    if w.threads[tid].id == id {
      assert tid in TakenBy(w, id);
      assert TakenBy(t, id) == TakenBy(w, id) - {tid};
    } else {
      assert TakenBy(t, id) == TakenBy(w, id);
    }
  }

  /** A lock whose row cannot be read back never becomes a start. */
  lemma ReadBackFailsSpends(search: CronFinder, w: World, tid: Tid, id: Id)
    ensures var fails := tid in w.threads && w.threads[tid] == LockTaken(id);
            Spent(Step(search, w, ReadBackFails(tid)), id) == Spent(w, id) - if fails then 1 else 0
  {
    var t := Step(search, w, ReadBackFails(tid));
    if t != w {
      TakenGrows(w, t, tid, id);
      if w.threads[tid].id == id {
        assert tid in TakenBy(w, id) && TakenBy(t, id) == TakenBy(w, id) - {tid};
      } else {
        assert TakenBy(t, id) == TakenBy(w, id);
      }
    }
  }

  // ---------------------------------------------------------------- a lock that is lost

  lemma StartsGrow(search: CronFinder, w: World, a: Action, id: Id)
    ensures StartsOf(Step(search, w, a).starts, id) >= StartsOf(w.starts, id)
  {
  }

  lemma {:induction false} RunStartsGrow(search: CronFinder, w: World, actions: seq<Action>, id: Id)
    ensures StartsOf(Run(search, w, actions).starts, id) >= StartsOf(w.starts, id)
  {
    if actions != [] {
      RunStartsGrow(search, w, actions[..|actions| - 1], id);
      StartsGrow(search, Run(search, w, actions[..|actions| - 1]), actions[|actions| - 1], id);
    }
  }

  ghost predicate NoneWritesNext(search: CronFinder, w: World, actions: seq<Action>, id: Id) {
    forall k :: 0 <= k < |actions| ==> !WritesNext(search, Run(search, w, actions[..k]), actions[k], id)
  }

  /** From an unarmed task nothing is spent until a next_run_at is stored. */
  lemma {:induction false} UnarmedSpendsNothing(search: CronFinder, w: World, actions: seq<Action>, id: Id)
    requires Unarmed(w, id) && NoneWritesNext(search, w, actions, id)
    ensures Unarmed(Run(search, w, actions), id) && Spent(Run(search, w, actions), id) <= Spent(w, id)
  {
    if actions != [] {
      var init, last := actions[..|actions| - 1], actions[|actions| - 1];
      assert forall k :: 0 <= k < |init| ==> init[..k] == actions[..k];
      UnarmedSpendsNothing(search, w, init, id);
      StaysUnarmed(search, Run(search, w, init), last, id);
      SpendStep(search, Run(search, w, init), last, id);
    }
  }

  lemma {:induction false} RunSplit(search: CronFinder, w: World, actions: seq<Action>, j: nat)
    requires j <= |actions|
    ensures Run(search, w, actions) == Run(search, Run(search, w, actions[..j]), actions[j..])
    decreases |actions|
  {
    if j == |actions| {
      assert actions[..j] == actions;
    } else {
      var n := |actions| - 1;
      RunSplit(search, w, actions[..n], j);
      assert actions[..n][..j] == actions[..j] && actions[..n][j..] == actions[j..][..n - j];
    }
  }

  /** The run from a lock on, in which the lock's own read-back fails at step `j`. */
  predicate ReadBackFailsAt(search: CronFinder, u: World, tid: Tid, id: Id, actions: seq<Action>, j: nat) {
    && j < |actions| && actions[j] == ReadBackFails(tid)
    && var w := Run(search, u, actions[..j]); tid in w.threads && w.threads[tid] == LockTaken(id)
  }

  lemma NoneWritesNextParts(search: CronFinder, w: World, actions: seq<Action>, j: nat, id: Id)
    requires j <= |actions| && NoneWritesNext(search, w, actions, id)
    ensures NoneWritesNext(search, w, actions[..j], id)
    ensures NoneWritesNext(search, Run(search, w, actions[..j]), actions[j..], id)
  {
    assert forall k :: 0 <= k < j ==> actions[..j][..k] == actions[..k];
    forall k | 0 <= k < |actions| - j
      ensures !WritesNext(search, Run(search, Run(search, w, actions[..j]), actions[j..][..k]), actions[j..][k], id)
    {
      RunSplit(search, w, actions[..j + k], j);
      assert actions[..j + k][..j] == actions[..j] && actions[..j + k][j..] == actions[j..][..k];
      assert !WritesNext(search, Run(search, w, actions[..j + k]), actions[j + k], id);
    }
  }

  /** A lock whose read-back fails is lost: until some step stores a next_run_at for the task again, the
      task stays unarmed and nothing starts beyond the locks on it that were already pending. */
  lemma FailedReadBackStrands(search: CronFinder, w: World, tid: Tid, now: nat, actions: seq<Action>, j: nat, id: Id)
    requires LockSucceeds(w, TryLock(tid, id, now), id)
    requires var u := Step(search, w, TryLock(tid, id, now));
             ReadBackFailsAt(search, u, tid, id, actions, j) && NoneWritesNext(search, u, actions, id)
    ensures var t := Run(search, Step(search, w, TryLock(tid, id, now)), actions);
            && Unarmed(t, id)
            && StartsOf(t.starts, id) <= StartsOf(w.starts, id) + |TakenBy(w, id)|
            && (TakenBy(w, id) == {} ==> StartsOf(t.starts, id) == StartsOf(w.starts, id))
  {
    var u := Step(search, w, TryLock(tid, id, now));
    var before := Run(search, u, actions[..j]);
    var after := Run(search, u, actions[..j + 1]);
    LockSpends(w, tid, id, now, id);
    NoneWritesNextParts(search, u, actions, j, id);
    UnarmedSpendsNothing(search, u, actions[..j], id);
    assert actions[..j + 1][..j] == actions[..j];
    ReadBackFailsSpends(search, before, tid, id);
    NoneWritesNextParts(search, u, actions, j + 1, id);
    StaysUnarmed(search, before, actions[j], id);
    UnarmedSpendsNothing(search, after, actions[j + 1..], id);
    RunSplit(search, u, actions, j + 1);
    RunStartsGrow(search, u, actions, id);
  }

  lemma AtStep(search: CronFinder, w: World, a: Action, id: Id)
    requires AtMostOnce(w, id) && !IsAdminStep(a)
    ensures AtMostOnce(Step(search, w, a), id)
  {
    KindStaysAt(search, w, a, id);
    SpendStep(search, w, a, id);
    if Unarmed(w, id) {
      AtNeverArmed(search, w, a, id);
    }
  }

  lemma {:induction false} AtRun(search: CronFinder, rows: Rows, actions: seq<Action>, id: Id)
    requires id in rows && rows[id].kind == AtTime
    requires forall k :: 0 <= k < |actions| ==> !IsAdminStep(actions[k])
    ensures AtMostOnce(Run(search, World(rows, map[], []), actions), id)
  {
    if actions == [] {
      assert TakenBy(World(rows, map[], []), id) == {};
    } else {
      AtRun(search, rows, actions[..|actions| - 1], id);
      AtStep(search, Run(search, World(rows, map[], []), actions[..|actions| - 1]), actions[|actions| - 1], id);
    }
  }

  /** Without an administrator an `at` task executes at most once, however often the scheduler is
      started and however checks and completions interleave. */
  lemma AtTaskRunsAtMostOnce(search: CronFinder, rows: Rows, actions: seq<Action>, id: Id)
    requires id in rows && rows[id].kind == AtTime
    requires forall k :: 0 <= k < |actions| ==> !IsAdminStep(actions[k])
    ensures StartsOf(Run(search, World(rows, map[], []), actions).starts, id) <= 1
  {
    AtRun(search, rows, actions, id);
  }

  // ---------------------------------------------------------------- one-time tasks over a restart

  /** A restart is about to write the enabled `at` task it has read, unchanged since. */
  predicate RecoveringAt(w: World, tid: Tid, id: Id) {
    && tid in w.threads && w.threads[tid].Recovering? && w.threads[tid].id == id
    && id in w.rows && w.rows[id] == w.threads[tid].task && w.rows[id].enabled && w.rows[id].kind == AtTime
  }

  predicate IsFuture(next: Option<nat>, now: nat) {
    next.Some? && next.value * MILLISECOND > now
  }

  /** After its recovery an `at` task is armed if and only if its time is still to come. */
  lemma RecoveryKeepsAtIff(search: CronFinder, w: World, tid: Tid, id: Id, now: nat)
    requires RecoveringAt(w, tid, id)
    ensures Armed(Step(search, w, RecoverWrite(tid, now)), id) <==> IsFuture(w.rows[id].next, now)
  {
    if !IsFuture(w.rows[id].next, now) {
      RecoveryNeverArmsAt(search, w.rows[id], now);
    }
  }

  /** From an unarmed `at` task no run without an administrator arms it or takes another lock on it. */
  lemma {:induction false} UnarmedAtIsOver(search: CronFinder, w: World, actions: seq<Action>, id: Id)
    requires KindAt(w, id) && Unarmed(w, id)
    requires forall k :: 0 <= k < |actions| ==> !IsAdminStep(actions[k])
    ensures var t := Run(search, w, actions); KindAt(t, id) && Unarmed(t, id) && Spent(t, id) <= Spent(w, id)
  {
    if actions != [] {
      var init, last := actions[..|actions| - 1], actions[|actions| - 1];
      UnarmedAtIsOver(search, w, init, id);
      KindStaysAt(search, Run(search, w, init), last, id);
      AtNeverArmed(search, Run(search, w, init), last, id);
      SpendStep(search, Run(search, w, init), last, id);
    }
  }

  /** The task starts in some run from here without an administrator. */
  ghost predicate MayStart(search: CronFinder, w: World, id: Id) {
    exists actions :: StartsWithin(search, w, actions, id)
  }

  predicate StartsWithin(search: CronFinder, w: World, actions: seq<Action>, id: Id) {
    && (forall k :: 0 <= k < |actions| ==> !IsAdminStep(actions[k]))
    && StartsOf(Run(search, w, actions).starts, id) > StartsOf(w.starts, id)
  }

  /** A lock and its read-back start an armed task. */
  lemma ArmedMayStart(search: CronFinder, w: World, id: Id)
    requires Armed(w, id)
    ensures MayStart(search, w, id)
  {
    var tid := FreshFor(w.threads.Keys);
    var w1, a1 := RunThen(search, w, [], w, TryLock(tid, id, w.rows[id].next.value));
    var w2, a2 := RunThen(search, w, a1, w1, ReadBack(tid));
    assert w2.starts == w.starts + [id];
    assert StartsWithin(search, w, a2, id);
  }

  /** Which `at` tasks a restart loses: one with no lock pending can still start, in any run without an
      administrator, if and only if its time is later than the moment of recovery. */
  lemma RestartLosesAtIff(search: CronFinder, w: World, tid: Tid, id: Id, now: nat)
    requires RecoveringAt(w, tid, id) && KindAt(w, id) && TakenBy(w, id) == {}
    ensures MayStart(search, Step(search, w, RecoverWrite(tid, now)), id) <==> IsFuture(w.rows[id].next, now)
  {
    var t := Step(search, w, RecoverWrite(tid, now));
    RecoveryKeepsAtIff(search, w, tid, id, now);
    if IsFuture(w.rows[id].next, now) {
      ArmedMayStart(search, t, id);
    } else if MayStart(search, t, id) {
      var actions :| StartsWithin(search, t, actions, id);
      KindStaysAt(search, w, RecoverWrite(tid, now), id);
      assert TakenBy(t, id) == {};
      UnarmedAtIsOver(search, t, actions, id);
      assert false;
    }
  }
}
