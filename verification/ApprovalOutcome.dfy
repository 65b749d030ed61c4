/** What a decision does to its request (agent_gateway/internal/runtime/acp/approval.go): the option a
    word stands for, the five outcomes of Decide, and that a waiting request can always return. */
module ApprovalOutcome {
  import opened Text
  import opened Approval

  // ---------------------------------------------------------------- words

  const ALLOW_WORDS := {"approved", "approved_once", "allow", "allow_once", "selected"}
  const ALWAYS_WORDS := {"always_approved", "allow_always"}
  const REJECT_WORDS := {"rejected", "denied", "reject", "reject_once"}
  const NEVER_WORDS := {"reject_always"}

  /** The first option of the one kind, else the first of the other, else none. */
  predicate Picks(options: seq<PermissionOption>, first: OptionKind, second: OptionKind, id: string) {
    if HasKind(options, first) then IsFirstOfKind(options, first, id)
    else if HasKind(options, second) then IsFirstOfKind(options, second, id)
    else id == ""
  }

  /** The option that a decision word stands for. */
  predicate WordPicks(options: seq<PermissionOption>, word: string, id: string) {
    if word in ALLOW_WORDS then Picks(options, AllowOnce, AllowAlways, id)
    else if word in ALWAYS_WORDS then Picks(options, AllowAlways, AllowOnce, id)
    else if word in REJECT_WORDS then Picks(options, RejectOnce, RejectAlways, id)
    else if word in NEVER_WORDS then Picks(options, RejectAlways, RejectOnce, id)
    else id == word
  }

  lemma PreferredIs(word: string)
    ensures word in ALLOW_WORDS ==> Preferred(word) == Some([AllowOnce, AllowAlways])
    ensures word in ALWAYS_WORDS ==> Preferred(word) == Some([AllowAlways, AllowOnce])
    ensures word in REJECT_WORDS ==> Preferred(word) == Some([RejectOnce, RejectAlways])
    ensures word in NEVER_WORDS ==> Preferred(word) == Some([RejectAlways, RejectOnce])
    ensures word !in ALLOW_WORDS + ALWAYS_WORDS + REJECT_WORDS + NEVER_WORDS ==> Preferred(word) == None
  {
  }

  lemma WordsMean(options: seq<PermissionOption>, decision: string)
    ensures WordPicks(options, Lower(Trim(decision)), OptionIdFromDecision(options, decision))
  {
    var word := Lower(Trim(decision));
    PreferredIs(word);
    if Preferred(word).Some? {
      TwoPreferred(options, Preferred(word).value);
    }
  }

  /** A word that says yes never picks an option that rejects, nor the other way round. */
  lemma WordsKeepSides(options: seq<PermissionOption>, decision: string, i: nat)
    requires i < |options| && options[i].id == OptionIdFromDecision(options, decision) != ""
    requires forall j, k :: 0 <= j < k < |options| ==> options[j].id != options[k].id
    ensures var word := Lower(Trim(decision));
            && (word in ALLOW_WORDS + ALWAYS_WORDS ==> options[i].kind in {AllowOnce, AllowAlways})
            && (word in REJECT_WORDS + NEVER_WORDS ==> options[i].kind in {RejectOnce, RejectAlways})
  {
    var word, id := Lower(Trim(decision)), OptionIdFromDecision(options, decision);
    PreferredIs(word);
    if Preferred(word).Some? {
      var kinds := Preferred(word).value;
      TwoPreferred(options, kinds);
      if HasKind(options, kinds[0]) {
        KindOfFirst(options, kinds[0], id, i);
      } else {
        KindOfFirst(options, kinds[1], id, i);
      }
    }
  }

  lemma KindOfFirst(options: seq<PermissionOption>, kind: OptionKind, id: string, i: nat)
    requires i < |options| && options[i].id == id && IsFirstOfKind(options, kind, id)
    requires forall j, k :: 0 <= j < k < |options| ==> options[j].id != options[k].id
    ensures options[i].kind == kind
  {
    var j :| 0 <= j < |options| && options[j] == PermissionOption(id, kind);
    assert i == j;
  }

  // ---------------------------------------------------------------- the outcomes of Decide

  /** An explicit option id goes before the word. */
  predicate Chooses(options: seq<PermissionOption>, d: Decision, id: string) {
    if Trim(d.optionId) != "" then id == Trim(d.optionId)
    else WordPicks(options, Lower(Trim(d.decision)), id)
  }

  lemma ChosenIs(options: seq<PermissionOption>, d: Decision)
    ensures Chooses(options, d, ChosenId(options, d))
  {
    WordsMean(options, d.decision);
  }

  function Choice(options: seq<PermissionOption>, d: Decision): string -> bool {
    (id: string) => Chooses(options, d, id)
  }

  /** The record after a successful Decide, `choice` being what the decision chooses. */
  predicate IsSettled(before: Record, d: Decision, now: nat, r: Record, choice: string -> bool) {
    && r.options == before.options && r.decidedAt == Some(now) && r.message == Trim(d.message)
    && if d.cancelled then r.status == Cancelled && r.optionId == before.optionId
       else r.status == Selected && choice(r.optionId) && HasOption(before.options, r.optionId)
  }

  lemma EntryBasics(e: Entry, d: Decision, now: nat)
    ensures var (after, out) := DecideEntry(e, d, now);
            && !out.NotFound? && (out.AlreadyDecided? <==> e.record.status != Pending)
            && (out.AlreadyDecided? ==> after == e && out.record == e.record)
            && (out.Decided? && e.done == [] ==>
                  after.done == [out.record] && after.record == out.record && after.overflowed == e.overflowed)
  {
  }

  lemma OutcomeOfChoice(e: Entry, d: Decision, now: nat, choice: string -> bool)
    requires e.record.status == Pending && choice(ChosenId(e.record.options, d))
    ensures var (after, out) := DecideEntry(e, d, now);
            && (out.Decided? ==> IsSettled(e.record, d, now, out.record, choice))
            && (out.InvalidOption? ==>
                  && !d.cancelled && after.record.status == Pending && after.done == e.done
                  && exists id :: choice(id) && !HasOption(e.record.options, id))
  {
    var id := ChosenId(e.record.options, d);
    assert DecideOption(e, Stamped(e, d, now), id).1.InvalidOption? <==> !HasOption(e.record.options, id);
  }

  /** Decide on an entry: a closed record answers with what it is; a cancellation, and a choice that was
      offered, settle the record and send it, once; any other choice leaves it pending. */
  lemma EntryOutcome(e: Entry, d: Decision, now: nat)
    ensures var (after, out) := DecideEntry(e, d, now);
            && (out.AlreadyDecided? <==> e.record.status != Pending)
            && (out.AlreadyDecided? ==> after == e && out.record == e.record)
            && (out.Decided? ==> IsSettled(e.record, d, now, out.record, Choice(e.record.options, d)))
            && (out.Decided? && e.done == [] ==> after.done == [out.record] && after.record == out.record)
            && (out.InvalidOption? ==>
                  && !d.cancelled && after.record.status == Pending && after.done == e.done
                  && exists id :: Choice(e.record.options, d)(id) && !HasOption(e.record.options, id))
  {
    EntryBasics(e, d, now);
    ChosenIs(e.record.options, d);
    if e.record.status == Pending {
      OutcomeOfChoice(e, d, now, Choice(e.record.options, d));
    }
  }

  /** And on the table of records: an unknown id is not found and changes nothing, and only the record
      decided on can change. */
  lemma TableOutcome(records: Records, rawId: Id, d: Decision, now: nat)
    ensures var (after, out) := DecideAll(records, rawId, d, now);
            && (out.NotFound? <==> Trim(rawId) !in records)
            && after.Keys == records.Keys
            && (forall other :: other in records && other != Trim(rawId) ==> after[other] == records[other])
            && (out.NotFound? || out.AlreadyDecided? ==> after == records)
            && (Trim(rawId) in records ==> (after[Trim(rawId)], out) == DecideEntry(records[Trim(rawId)], d, now))
  {
    var id := Trim(rawId);
    if id in records {
      EntryBasics(records[id], d, now);
      var (e, out) := DecideEntry(records[id], d, now);
      assert e == records[id] ==> records[id := e] == records;
    }
  }

  // ---------------------------------------------------------------- waiting requests return

  predicate Waits(w: World, tid: Tid, id: Id) {
    tid in w.requests && w.requests[tid] == Waiting(id)
  }

  predicate IsOpen(r: Request, id: Id) {
    (r.Waiting? || r.Cancelling?) && r.id == id
  }

  /** Open requests have records of their own, and a settled record waits in its channel until the request
      has received it. */
  ghost predicate WaitOk(w: World) {
    && (forall s, t :: s in w.requests && t in w.requests && s != t && (w.requests[s].Waiting? || w.requests[s].Cancelling?) ==>
          !IsOpen(w.requests[t], w.requests[s].id))
    && (forall t :: t in w.requests && (w.requests[t].Waiting? || w.requests[t].Cancelling?) ==>
          SendWaits(w.records, w.requests[t].id))
  }

  predicate SendWaits(records: Records, id: Id) {
    id in records && (records[id].record.status != Pending ==> records[id].done == [records[id].record])
  }

  lemma DecideSendWaits(records: Records, rawId: Id, d: Decision, now: nat, id: Id)
    requires SendWaits(records, id)
    requires id in records && records[id].record.status == Pending ==> records[id].done == []
    ensures SendWaits(DecideAll(records, rawId, d, now).0, id)
  {
    TableOutcome(records, rawId, d, now);
    if id == Trim(rawId) {
      EntryOutcome(records[id], d, now);
    }
  }

  lemma DecideWaitOk(w: World, rawId: Id, d: Decision, now: nat)
    requires Inv(w) && WaitOk(w)
    ensures WaitOk(Decide(w, rawId, d, now))
  {
    DecideKeepsRecords(w, rawId, d, now);
    forall t | t in w.requests && (w.requests[t].Waiting? || w.requests[t].Cancelling?)
      ensures SendWaits(Decide(w, rawId, d, now).records, w.requests[t].id)
    {
      var id := w.requests[t].id;
      assert SendWaits(w.records, id);
      assert EntryOk(w.records[id], w.decided[id]);
      DecideSendWaits(w.records, rawId, d, now, id);
    }
  }

  lemma OpenWaitOk(w: World, tid: Tid, id: Id, options: seq<PermissionOption>)
    requires WaitOk(w)
    ensures WaitOk(OpenStep(w, tid, id, options))
  {
    var t := OpenStep(w, tid, id, options);
    if t != w {
      forall x | x in w.requests && (w.requests[x].Waiting? || w.requests[x].Cancelling?)
        ensures w.requests[x].id != id && SendWaits(t.records, w.requests[x].id)
      {
        assert SendWaits(w.records, w.requests[x].id);
      }
      assert SendWaits(t.records, id);
    }
  }

  lemma ReleaseWaitOk(w: World, tid: Tid)
    requires WaitOk(w)
    ensures WaitOk(ReleaseStep(w, tid))
  {
    var t := ReleaseStep(w, tid);
    if t != w {
      var id := w.requests[tid].id;
      forall x | x in t.requests && (t.requests[x].Waiting? || t.requests[x].Cancelling?)
        ensures SendWaits(t.records, t.requests[x].id)
      {
        assert x != tid && !IsOpen(w.requests[x], id);
        assert SendWaits(w.records, w.requests[x].id);
      }
    }
  }

  lemma LeaveWaitOk(w: World, tid: Tid, r: Request)
    requires WaitOk(w) && tid in w.requests
    requires r.GaveUp? || (w.requests[tid].Waiting? && r == Cancelling(w.requests[tid].id))
    ensures WaitOk(w.(requests := w.requests[tid := r]))
  {
  }

  lemma StepWaitOk(w: World, a: Action)
    requires Inv(w) && WaitOk(w)
    ensures WaitOk(Step(w, a))
  {
    match a
    case Open(tid, id, options) => OpenWaitOk(w, tid, id, options);
    case DecideBy(rawId, d, now) => DecideWaitOk(w, rawId, d, now);
    case Release(tid) => ReleaseWaitOk(w, tid);
    case ContextDone(tid) =>
      if tid in w.requests && w.requests[tid].Waiting? {
        LeaveWaitOk(w, tid, Cancelling(w.requests[tid].id));
      }
    case CancelOwn(tid, now) =>
      if tid in w.requests && w.requests[tid].Cancelling? {
        var id := w.requests[tid].id;
        DecideKeepsRecords(w, id, CANCEL, now);
        DecideWaitOk(w, id, CANCEL, now);
        LeaveWaitOk(Decide(w, id, CANCEL, now), tid, GaveUp(id));
      }
  }

  lemma {:induction false} RunWaitOk(actions: seq<Action>)
    ensures WaitOk(Run(EMPTY, actions))
  {
    if actions != [] {
      RunWaitOk(actions[..|actions| - 1]);
      RunKeeps(actions[..|actions| - 1]);
      StepWaitOk(Run(EMPTY, actions[..|actions| - 1]), actions[|actions| - 1]);
    }
  }

  /** In every run a waiting request can return as soon as its record is settled, and only then, and it
      returns that record. */
  lemma SettledIsReleased(actions: seq<Action>, tid: Tid, id: Id)
    requires Waits(Run(EMPTY, actions), tid, id)
    ensures var w := Run(EMPTY, actions);
            var t := Run(EMPTY, actions + [Release(tid)]);
            && id in w.records && tid in t.requests
            && t.requests[tid] == if w.records[id].record.status == Pending then Waiting(id) else Answered(w.records[id].record)
  {
    var w := Run(EMPTY, actions);
    assert (actions + [Release(tid)])[..|actions|] == actions;
    RunWaitOk(actions);
    RunKeeps(actions);
    assert SendWaits(w.records, id) && EntryOk(w.records[id], w.decided[id]);
  }

  /** And it can always give up: its context ends, it decides its own record cancelled unless another
      decision came first, and it returns. */
  lemma WaitingCanGiveUp(actions: seq<Action>, tid: Tid, id: Id, now: nat)
    requires Waits(Run(EMPTY, actions), tid, id)
    ensures var w := Run(EMPTY, actions);
            var t := Step(Step(w, ContextDone(tid)), CancelOwn(tid, now));
            && id in w.records && id in t.records && tid in t.requests && t.requests[tid] == GaveUp(id)
            && t.records[id].record == if w.records[id].record.status == Pending
                                       then AsCancelled(w.records[id].record, now, CANCEL) else w.records[id].record
  {
    var w := Run(EMPTY, actions);
    RunKeepsRequests(actions);
    assert RequestOk(w, id);
    CancelledIs(w.records, id, now, CANCEL);
    GivesUp(w, tid, id, now);
  }

  function AsCancelled(r: Record, now: nat, d: Decision): Record {
    Record(r.options, Cancelled, r.optionId, Trim(d.message), Some(now))
  }

  lemma CancelledIs(records: Records, id: Id, now: nat, d: Decision)
    requires id in records && Trimmed(id) && d.cancelled
    ensures var after := DecideAll(records, id, d, now).0;
            && id in after
            && after[id].record == if records[id].record.status == Pending then AsCancelled(records[id].record, now, d)
                                   else records[id].record
  {
  }

  lemma GivesUp(w: World, tid: Tid, id: Id, now: nat)
    requires Waits(w, tid, id)
    ensures var t := Step(Step(w, ContextDone(tid)), CancelOwn(tid, now));
            && t.records == DecideAll(w.records, id, CANCEL, now).0
            && tid in t.requests && t.requests[tid] == GaveUp(id)
  {
    CancelStepIs(Step(w, ContextDone(tid)), tid, now);
  }

  /** A new request waits on a pending record with its options. */
  lemma OpenedWaits(w: World, tid: Tid, id: Id, options: seq<PermissionOption>)
    requires tid !in w.requests && id !in w.records && Trimmed(id)
    ensures var t := Step(w, Open(tid, id, options));
            Waits(t, tid, id) && id in t.records && t.records[id].record == Record(options, Pending, "", "", None)
  {
  }
}
