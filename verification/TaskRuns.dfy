/** When a task can next be locked, once an execution of it has finished or a restart has recovered it
    (agent_gateway/internal/runtime/scheduler/runner.go, scheduler.go and the repository behind them). */
module TaskRuns {
  import opened Text
  import opened Search
  import opened Schedule
  import opened Scheduler

  /** The row can be locked from the instant on, and not before; lock times are whole milliseconds. */
  ghost predicate LockableFrom(rows: Rows, id: Id, instant: nat) {
    forall now: nat :: LockMatches(rows, id, now) <==> instant <= now * MILLISECOND
  }

  ghost predicate NeverLockable(rows: Rows, id: Id) {
    forall now: nat :: !LockMatches(rows, id, now)
  }

  lemma WholeMilliseconds(t: nat, now: nat)
    ensures t * MINUTE / MILLISECOND <= now <==> t * MINUTE <= now * MILLISECOND
  {
    StoredMinute(t);
    var stored := t * MINUTE / MILLISECOND;
    assert stored * MILLISECOND == t * MINUTE;
  }

  lemma StoredMinuteLocks(rows: Rows, id: Id, t: nat)
    requires id in rows && rows[id].enabled && rows[id].next == ToMillis(Some(t * MINUTE))
    ensures LockableFrom(rows, id, t * MINUTE)
  {
    forall now: nat
      ensures LockMatches(rows, id, now) <==> t * MINUTE <= now * MILLISECOND
    {
      WholeMilliseconds(t, now);
    }
  }

  /** What a cron task gets from an instant on: the first minute its expression matches, or no run at all
      when that is malformed or matches nothing before the limit. */
  ghost predicate CronScheduled(rows: Rows, id: Id, expr: string, after: nat) {
    var spec := ParseCron(expr);
    || (spec.Ok? && exists t: nat :: IsRunAt(spec.value, after, t, t * MINUTE) && LockableFrom(rows, id, t * MINUTE))
    || ((spec.Err? || forall t: nat :: after < t * MINUTE && t < SearchLimit(after) ==> !HitOf(spec.value)(t))
        && NeverLockable(rows, id))
  }

  lemma CronRowScheduled(rows: Rows, id: Id, plan: Plan, after: nat)
    requires plan.kind == CronExpr && id in rows && rows[id].enabled
    requires var r := NextRun(CronSearch(), plan, after);
             rows[id].next == if r.Ok? then ToMillis(r.value) else None
    ensures CronScheduled(rows, id, plan.cron, after)
  {
    CronPlanIsNextHit(plan, after);
    var r, spec := NextRun(CronSearch(), plan, after), ParseCron(plan.cron);
    if r.Ok? {
      var t: nat :| IsRunAt(spec.value, after, t, r.value.value);
      StoredMinuteLocks(rows, id, t);
    }
  }

  // ---------------------------------------------------------------- a finished execution

  predicate FinishesRow(w: World, tid: Tid, id: Id) {
    && tid in w.threads && w.threads[tid].Executing? && w.threads[tid].id == id
    && id in w.rows
  }

  lemma FinishedRow(w: World, tid: Tid, id: Id, ok: bool, finished: nat)
    requires FinishesRow(w, tid, id)
    ensures var task := w.threads[tid].task;
            var c := Complete(CronSearch(), PlanOf(task), task.deleteAfterRun, ok, finished);
            Step(CronSearch(), w, Finish(tid, ok, finished)).rows == Completed(w.rows, id, c)
  {
  }

  /** When an enabled cron task has finished, its row can be locked again from exactly the first minute after
      that at which its expression matches; or never, if there is none. */
  lemma FinishedCron(w: World, tid: Tid, id: Id, ok: bool, finished: nat)
    requires FinishesRow(w, tid, id) && w.rows[id].enabled && w.threads[tid].task.kind == CronExpr
    ensures CronScheduled(Step(CronSearch(), w, Finish(tid, ok, finished)).rows, id, w.threads[tid].task.cron, finished)
  {
    FinishedRow(w, tid, id, ok, finished);
    CronRowScheduled(Step(CronSearch(), w, Finish(tid, ok, finished)).rows, id, PlanOf(w.threads[tid].task), finished);
  }

  /** An enabled `every` task can be locked again from the millisecond its period ends in. */
  lemma FinishedEvery(w: World, tid: Tid, id: Id, ok: bool, finished: nat)
    requires FinishesRow(w, tid, id) && w.rows[id].enabled
    requires w.threads[tid].task.kind == Every && w.threads[tid].task.every > 0
    ensures var rows := Step(CronSearch(), w, Finish(tid, ok, finished)).rows;
            forall now: nat :: LockMatches(rows, id, now) <==>
                               (finished + w.threads[tid].task.every) / MILLISECOND <= now
  {
    FinishedRow(w, tid, id, ok, finished);
  }

  /** An `at` task is gone after its run if and only if it asked for that, and otherwise disabled with no
      next run; either way no lock takes it again.  A run touches no other row. */
  lemma FinishedAt(w: World, tid: Tid, id: Id, ok: bool, finished: nat)
    requires FinishesRow(w, tid, id) && w.threads[tid].task.kind == AtTime
    ensures var rows := Step(CronSearch(), w, Finish(tid, ok, finished)).rows;
            && (id !in rows <==> w.threads[tid].task.deleteAfterRun)
            && (id in rows ==> !rows[id].enabled && rows[id].next.None?)
            && NeverLockable(rows, id)
  {
    FinishedRow(w, tid, id, ok, finished);
  }

  /** What a finished run records, and that it touches no other row. */
  lemma FinishedStatus(w: World, tid: Tid, id: Id, ok: bool, finished: nat)
    requires FinishesRow(w, tid, id)
    ensures var rows := Step(CronSearch(), w, Finish(tid, ok, finished)).rows;
            var task := w.threads[tid].task;
            && (forall other :: other != id ==>
                  (other in rows <==> other in w.rows) && (other in rows ==> rows[other] == w.rows[other]))
            && (id in rows ==>
                  (rows[id].lastStatus == "ok" <==>
                     ok && (task.kind == AtTime || NextRun(CronSearch(), PlanOf(task), finished).Ok?)))
  {
    FinishedRow(w, tid, id, ok, finished);
    CompletionIs(CronSearch(), PlanOf(w.threads[tid].task), w.threads[tid].task.deleteAfterRun, ok, finished);
  }

  // ---------------------------------------------------------------- a restart

  predicate RecoversRow(w: World, tid: Tid, id: Id) {
    && tid in w.threads && w.threads[tid].Recovering? && w.threads[tid].id == id
    && id in w.rows && w.rows[id] == w.threads[tid].task && w.rows[id].enabled
  }

  /** A restart keeps a next run that is still to come, of any kind. */
  lemma RecoveryKeepsFuture(w: World, tid: Tid, id: Id, now: nat)
    requires RecoversRow(w, tid, id) && IsFuture(w.rows[id].next, now)
    ensures Step(CronSearch(), w, RecoverWrite(tid, now)).rows == w.rows
  {
  }

  /** It gives a cron task that has none, or only a passed one, the first matching minute from now on; with
      a malformed expression, or none that matches, it leaves the row as it is. */
  lemma RecoveredCron(w: World, tid: Tid, id: Id, now: nat)
    requires RecoversRow(w, tid, id) && !IsFuture(w.rows[id].next, now) && w.rows[id].kind == CronExpr
    ensures var rows := Step(CronSearch(), w, RecoverWrite(tid, now)).rows;
            if NextRun(CronSearch(), PlanOf(w.rows[id]), now).Ok? then CronScheduled(rows, id, w.rows[id].cron, now)
            else rows == w.rows
    ensures forall other :: other != id && other in w.rows ==>
              other in Step(CronSearch(), w, RecoverWrite(tid, now)).rows &&
              Step(CronSearch(), w, RecoverWrite(tid, now)).rows[other] == w.rows[other]
  {
    var rows := Step(CronSearch(), w, RecoverWrite(tid, now)).rows;
    var plan := PlanOf(w.rows[id]);
    var r := NextRun(CronSearch(), plan, now);
    if r.Ok? {
      assert rows == WithNext(w.rows, id, r.value);
      CronRowScheduled(rows, id, plan, now);
    }
  }

  /** A restart reads every enabled task, and so can write it. */
  lemma RecoveryReads(w: World, tid: Tid, id: Id)
    requires tid !in w.threads
    ensures var t := Step(CronSearch(), w, RecoverRead(tid, id));
            && t.rows == w.rows
            && (RecoversRow(t, tid, id) <==> id in w.rows && w.rows[id].enabled)
            && (!(id in w.rows && w.rows[id].enabled) ==> t == w)
  {
  }

  /** And a lock reads its row back and executes the task as it then is, unless the row is gone. */
  lemma ReadBackExecutes(w: World, tid: Tid, id: Id)
    requires tid in w.threads && w.threads[tid] == LockTaken(id)
    ensures var t := Step(CronSearch(), w, ReadBack(tid));
            && t.rows == w.rows
            && (id in w.rows <==> t.starts == w.starts + [id])
            && (id in w.rows <==> FinishesRow(t, tid, id))
            && (id in w.rows ==> t.threads[tid].task == w.rows[id])
            && (id !in w.rows ==> t.starts == w.starts && !(t.threads[tid].Executing?))
  {
    assert |w.starts + [id]| == |w.starts| + 1;
  }
}
