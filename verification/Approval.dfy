/** The permission approval broker (agent_gateway/internal/runtime/acp/approval.go): a request waits
    until one decider, or its own cancellation, settles its record. */
module Approval {
  import opened Text
  import opened Histories

  type Id = string
  type Tid = nat

  datatype OptionKind = AllowOnce | AllowAlways | RejectOnce | RejectAlways

  datatype PermissionOption = PermissionOption(id: string, kind: OptionKind)

  datatype Status = Pending | Selected | Cancelled

  datatype Record = Record(options: seq<PermissionOption>, status: Status, optionId: string, message: string,
                           decidedAt: Option<nat>)

  /** `done` is a channel with one slot; `overflowed` records a send that found it full. */
  datatype Entry = Entry(record: Record, done: seq<Record>, overflowed: bool)

  datatype Decision = Decision(optionId: string, decision: string, cancelled: bool, message: string)

  datatype Outcome = Decided(record: Record) | NotFound | AlreadyDecided(record: Record) | InvalidOption

  // ---------------------------------------------------------------- choosing an option

  /** The kinds a decision word prefers, in order; None for any other word. */
  function Preferred(word: string): Option<seq<OptionKind>> {
    if word in {"approved", "approved_once", "allow", "allow_once", "selected"} then Some([AllowOnce, AllowAlways])
    else if word in {"always_approved", "allow_always"} then Some([AllowAlways, AllowOnce])
    else if word in {"rejected", "denied", "reject", "reject_once"} then Some([RejectOnce, RejectAlways])
    else if word == "reject_always" then Some([RejectAlways, RejectOnce])
    else None
  }

  predicate HasKind(options: seq<PermissionOption>, kind: OptionKind) {
    exists i :: 0 <= i < |options| && options[i].kind == kind
  }

  /** `id` is the first option of `kind`. */
  predicate IsFirstOfKind(options: seq<PermissionOption>, kind: OptionKind, id: string) {
    exists i :: 0 <= i < |options| && options[i] == PermissionOption(id, kind)
      && forall j :: 0 <= j < i ==> options[j].kind != kind
  }

  function FirstOfKind(options: seq<PermissionOption>, kind: OptionKind): (r: Option<string>)
    ensures r.Some? <==> HasKind(options, kind)
    ensures r.Some? ==> IsFirstOfKind(options, kind, r.value)
  {
    if options == [] then None
    else
      match FirstOfKind(options[..|options| - 1], kind)
      case Some(id) =>
        assert IsFirstOfKind(options[..|options| - 1], kind, id);
        Some(id)
      case None => if options[|options| - 1].kind == kind then Some(options[|options| - 1].id) else None
  }

  function FirstPreferred(options: seq<PermissionOption>, kinds: seq<OptionKind>): string {
    if kinds == [] then ""
    else
      match FirstOfKind(options, kinds[0])
      case Some(id) => id
      case None => FirstPreferred(options, kinds[1..])
  }

  function OptionIdFromDecision(options: seq<PermissionOption>, decision: string): string {
    var word := Lower(Trim(decision));
    match Preferred(word)
    case None => word
    case Some(kinds) => FirstPreferred(options, kinds)
  }

  /** The first option of the first kind, else of the second, else nothing. */
  lemma TwoPreferred(options: seq<PermissionOption>, kinds: seq<OptionKind>)
    requires |kinds| == 2
    ensures var id := FirstPreferred(options, kinds);
            if HasKind(options, kinds[0]) then IsFirstOfKind(options, kinds[0], id)
            else if HasKind(options, kinds[1]) then IsFirstOfKind(options, kinds[1], id)
            else id == ""
  {
    var rest := kinds[1..];
    assert rest[0] == kinds[1] && rest[1..] == [];
    assert FirstPreferred(options, rest) ==
           if FirstOfKind(options, rest[0]).Some? then FirstOfKind(options, rest[0]).value else "";
  }

  /** The inner loop of `optionIDFromDecision`. */
  method FindKind(options: seq<PermissionOption>, kind: OptionKind) returns (r: Option<string>)
    ensures r == FirstOfKind(options, kind)
  {
    for i := 0 to |options|
      invariant FirstOfKind(options[..i], kind) == None
    {
      assert options[..i + 1][..i] == options[..i];
      if options[i].kind == kind {
        FirstOfKindKept(options, kind, i + 1);
        return Some(options[i].id);
      }
    }
    assert options[..|options|] == options;
    return None;
  }

  lemma {:induction false} FirstOfKindKept(options: seq<PermissionOption>, kind: OptionKind, i: nat)
    requires i <= |options| && FirstOfKind(options[..i], kind).Some?
    ensures FirstOfKind(options, kind) == FirstOfKind(options[..i], kind)
    decreases |options| - i
  {
    if i < |options| {
      assert options[..i + 1][..i] == options[..i];
      FirstOfKindKept(options, kind, i + 1);
    } else {
      assert options[..i] == options;
    }
  }

  /** `optionIDFromDecision`: kinds in order of preference, and for each the first option of that kind. */
  method ChooseOption(options: seq<PermissionOption>, decision: string) returns (id: string)
    ensures id == OptionIdFromDecision(options, decision)
  {
    var word := Lower(Trim(decision));
    if word == "" {
      return "";
    }
    var preferred := Preferred(word);
    if preferred.None? {
      return word;
    }
    id := PickPreferred(options, preferred.value);
  }

  method PickPreferred(options: seq<PermissionOption>, kinds: seq<OptionKind>) returns (id: string)
    ensures id == FirstPreferred(options, kinds)
  {
    for k := 0 to |kinds|
      invariant FirstPreferred(options, kinds) == FirstPreferred(options, kinds[k..])
    {
      assert kinds[k..][1..] == kinds[k + 1..];
      var found := FindKind(options, kinds[k]);
      if found.Some? {
        return found.value;
      }
    }
    return "";
  }

  predicate HasOption(options: seq<PermissionOption>, id: string) {
    id != "" && exists i :: 0 <= i < |options| && options[i].id == id
  }

  // ---------------------------------------------------------------- the broker's lock regions

  function ChosenId(options: seq<PermissionOption>, d: Decision): string {
    if Trim(d.optionId) != "" then Trim(d.optionId) else OptionIdFromDecision(options, d.decision)
  }

  method ResolveOption(options: seq<PermissionOption>, d: Decision) returns (optionId: string)
    ensures optionId == ChosenId(options, d)
  {
    optionId := Trim(d.optionId);
    if optionId == "" {
      optionId := ChooseOption(options, d.decision);
    }
  }

  /** Sending on the one-slot channel. */
  function Settle(e: Entry, record: Record): Entry {
    Entry(record, if e.done == [] then [record] else e.done, e.overflowed || e.done != [])
  }

  /** What one Decide does to an entry.  An invalid option leaves the record pending, but its decision
      time and message have been overwritten. */
  function DecideEntry(e: Entry, d: Decision, now: nat): (Entry, Outcome) {
    if e.record.status != Pending then (e, AlreadyDecided(e.record))
    else if d.cancelled then
      var r := Stamped(e, d, now).(status := Cancelled);
      (Settle(e, r), Decided(r))
    else DecideOption(e, Stamped(e, d, now), ChosenId(e.record.options, d))
  }

  function Stamped(e: Entry, d: Decision, now: nat): Record {
    e.record.(decidedAt := Some(now), message := Trim(d.message))
  }

  function DecideOption(e: Entry, stamped: Record, id: string): (Entry, Outcome) {
    if HasOption(e.record.options, id) then
      var r := stamped.(status := Selected, optionId := id);
      (Settle(e, r), Decided(r))
    else (e.(record := stamped), InvalidOption)
  }

  type Records = map<Id, Entry>

  function DecideAll(records: Records, id: Id, d: Decision, now: nat): (Records, Outcome) {
    if Trim(id) !in records then (records, NotFound)
    else
      var (e, out) := DecideEntry(records[Trim(id)], d, now);
      (records[Trim(id) := e], out)
  }

  class ApprovalBroker {
    var records: Records
    /** How many Decide calls have succeeded on each record. */
    ghost var decided: map<Id, nat>

    /** Every record is pending and undecided, or was decided exactly once and sent on its channel. */
    ghost predicate Valid()
      reads this
    {
      AllEntriesOk(records, decided)
    }

    constructor ()
      ensures Valid() && records == map[]
    {
      records, decided := map[], map[];
    }

    /** The request's new record can still be decided, once. */
    method Register(id: Id, options: seq<PermissionOption>)
      requires Valid()
      modifies this
      ensures Valid() && id in records && decided[id] == 0 && records[id].record.options == options
      ensures forall other :: other != id ==> (other in records <==> other in old(records))
      ensures forall other :: other != id && other in records ==> records[other] == old(records)[other]
    {
      NewEntryOk(options);
      records := records[id := NewEntry(options)];
      decided := decided[id := 0];
    }

    /** The decided record goes into the entry and its done channel. */
    method Send(entry: Entry, record: Record) returns (sent: Entry)
      ensures sent == Settle(entry, record)
    {
      sent := entry.(record := record);
      if sent.done == [] {
        sent := sent.(done := [record]);
      } else {
        sent := sent.(overflowed := true);
      }
    }

    /** What Decide does to a pending entry, between taking it from the map and putting it back. */
    method DecidePending(pending: Entry, d: Decision, now: nat) returns (entry: Entry, out: Outcome)
      requires pending.record.status == Pending
      ensures (entry, out) == DecideEntry(pending, d, now)
    {
      entry := pending.(record := Stamped(pending, d, now));
      if d.cancelled {
        entry := Send(entry, entry.record.(status := Cancelled));
      } else {
        var optionId := ResolveOption(entry.record.options, d);
        if !HasOption(entry.record.options, optionId) {
          return entry, InvalidOption;
        }
        entry := Send(entry, entry.record.(status := Selected, optionId := optionId));
      }
      out := Decided(entry.record);
    }

    /** The lock region of Decide. */
    method DecideLocked(rawId: Id, d: Decision, now: nat) returns (out: Outcome)
      modifies `records
      ensures (records, out) == DecideAll(old(records), rawId, d, now)
    {
      var id := Trim(rawId);
      if id !in records {
        return NotFound;
      }
      var entry := records[id];
      if entry.record.status != Pending {
        assert records[id := entry] == records;
        return AlreadyDecided(entry.record);
      }
      entry, out := DecidePending(entry, d, now);
      records := records[id := entry];
    }

    /** `Valid` says that Decide succeeds at most once per record and that its send never finds the
        channel full. */
    method Decide(rawId: Id, d: Decision, now: nat) returns (out: Outcome)
      requires Valid()
      modifies this
      ensures Valid() && (records, out) == DecideAll(old(records), rawId, d, now)
      ensures decided == CountDecided(old(decided), Trim(rawId), out)
    {
      out := DecideLocked(rawId, d, now);
      DecideAllOk(old(records), decided, rawId, d, now);
      decided := CountDecided(decided, Trim(rawId), out);
    }
  }

  function CountDecided(decided: map<Id, nat>, id: Id, out: Outcome): map<Id, nat> {
    if out.Decided? && id in decided then decided[id := decided[id] + 1] else decided
  }

  ghost predicate AllEntriesOk(records: Records, decided: map<Id, nat>) {
    decided.Keys == records.Keys && forall id :: id in records ==> EntryOk(records[id], decided[id])
  }

  lemma DecideAllOk(records: Records, decided: map<Id, nat>, rawId: Id, d: Decision, now: nat)
    requires AllEntriesOk(records, decided)
    ensures var (after, out) := DecideAll(records, rawId, d, now);
            AllEntriesOk(after, CountDecided(decided, Trim(rawId), out))
  {
    var id := Trim(rawId);
    if id in records {
      DecideEntryOk(records[id], decided[id], d, now);
    }
  }

  function NewEntry(options: seq<PermissionOption>): Entry {
    Entry(Record(options, Pending, "", "", None), [], false)
  }

  // ---------------------------------------------------------------- all interleavings

  /** A request: waiting, told to cancel and about to decide so itself, or returned. */
  datatype Request = Waiting(id: Id) | Cancelling(id: Id) | Answered(record: Record) | GaveUp(id: Id)

  /** `decided` counts the successful Decide calls per record. */
  datatype World = World(records: Records, requests: map<Tid, Request>, decided: map<Id, nat>)

  datatype Action =
    | Open(tid: Tid, id: Id, options: seq<PermissionOption>)
    | DecideBy(rawId: Id, d: Decision, now: nat)
    | Release(tid: Tid)                    // the request receives from its done channel
    | ContextDone(tid: Tid)                // the request's select picks the cancelled context
    | CancelOwn(tid: Tid, now: nat)        // and then decides its record cancelled

  const CANCEL := Decision("", "", true, "context canceled")

  function Decide(w: World, rawId: Id, d: Decision, now: nat): World {
    var (records, out) := DecideAll(w.records, rawId, d, now);
    w.(records := records, decided := CountDecided(w.decided, Trim(rawId), out))
  }

  /** Record ids are generated, so a request's id is new and has no outer white space. */
  function OpenStep(w: World, tid: Tid, id: Id, options: seq<PermissionOption>): World {
    if tid in w.requests || id in w.records || !Trimmed(id) then w
    else
      World(w.records[id := NewEntry(options)], w.requests[tid := Waiting(id)], w.decided[id := 0])
  }

  function ReleaseStep(w: World, tid: Tid): World {
    if tid in w.requests && w.requests[tid].Waiting? && w.requests[tid].id in w.records
       && w.records[w.requests[tid].id].done != [] then
      var id := w.requests[tid].id;
      var e := w.records[id];
      w.(records := w.records[id := e.(done := e.done[1..])], requests := w.requests[tid := Answered(e.done[0])])
    else w
  }

  function Step(w: World, a: Action): World {
    match a
    case Open(tid, id, options) => OpenStep(w, tid, id, options)
    case DecideBy(rawId, d, now) => Decide(w, rawId, d, now)
    case Release(tid) => ReleaseStep(w, tid)
    case ContextDone(tid) =>
      if tid in w.requests && w.requests[tid].Waiting? then
        w.(requests := w.requests[tid := Cancelling(w.requests[tid].id)])
      else w
    case CancelOwn(tid, now) =>
      if tid in w.requests && w.requests[tid].Cancelling? then
        Decide(w, w.requests[tid].id, CANCEL, now).(requests := w.requests[tid := GaveUp(w.requests[tid].id)])
      else w
  }

  function Run(w: World, actions: seq<Action>): World {
    if actions == [] then w else Step(Run(w, actions[..|actions| - 1]), actions[|actions| - 1])
  }

  const EMPTY := World(map[], map[], map[])

  /** A pending entry has sent nothing; a settled one has sent its record, once. */
  ghost predicate EntryOk(e: Entry, decided: nat) {
    && !e.overflowed
    && (e.record.status == Pending ==> e.done == [] && decided == 0)
    && (e.record.status != Pending ==> decided == 1 && (e.done == [] || e.done == [e.record]))
    && (e.record.status == Selected ==> HasOption(e.record.options, e.record.optionId))
  }

  ghost predicate Inv(w: World) {
    AllEntriesOk(w.records, w.decided)
  }

  lemma DecideKeeps(w: World, rawId: Id, d: Decision, now: nat)
    requires Inv(w)
    ensures Inv(Decide(w, rawId, d, now))
  {
    DecideAllOk(w.records, w.decided, rawId, d, now);
  }

  /** One Decide: exactly a pending entry can be decided, and then it is settled for good. */
  lemma DecideEntryOk(e: Entry, decided: nat, d: Decision, now: nat)
    requires EntryOk(e, decided)
    ensures var (f, out) := DecideEntry(e, d, now); EntryOk(f, if out.Decided? then decided + 1 else decided)
  {
  }

  lemma OpenKeeps(w: World, tid: Tid, id: Id, options: seq<PermissionOption>)
    requires Inv(w)
    ensures Inv(OpenStep(w, tid, id, options))
  {
    NewEntryOk(options);
  }

  lemma NewEntryOk(options: seq<PermissionOption>)
    ensures EntryOk(NewEntry(options), 0)
  {
  }

  lemma ReleaseKeeps(w: World, tid: Tid)
    requires Inv(w)
    ensures Inv(ReleaseStep(w, tid))
  {
    var t := ReleaseStep(w, tid);
    if t != w {
      var id := w.requests[tid].id;
      assert EntryOk(w.records[id], w.decided[id]);
      assert EntryOk(t.records[id], t.decided[id]);
    }
  }

  lemma StepKeeps(w: World, a: Action)
    requires Inv(w)
    ensures Inv(Step(w, a))
  {
    match a
    case Open(tid, id, options) => OpenKeeps(w, tid, id, options);
    case DecideBy(rawId, d, now) => DecideKeeps(w, rawId, d, now);
    case Release(tid) => ReleaseKeeps(w, tid);
    case ContextDone(tid) =>
      assert Step(w, a).records == w.records && Step(w, a).decided == w.decided;
    case CancelOwn(tid, now) =>
      if tid in w.requests && w.requests[tid].Cancelling? {
        DecideKeeps(w, w.requests[tid].id, CANCEL, now);
      }
  }

  lemma {:induction false} RunKeeps(actions: seq<Action>)
    ensures Inv(Run(EMPTY, actions))
  {
    if actions != [] {
      RunKeeps(actions[..|actions| - 1]);
      StepKeeps(Run(EMPTY, actions[..|actions| - 1]), actions[|actions| - 1]);
    }
  }

  /** One-shot decision: in every interleaving of deciders and cancellations at most one Decide per
      record succeeds, the send under the lock never finds the channel full, and a selected option is
      one that was offered. */
  lemma DecidedOnce(actions: seq<Action>, id: Id)
    requires id in Run(EMPTY, actions).records
    ensures var w := Run(EMPTY, actions);
      var e := w.records[id];
      && id in w.decided && w.decided[id] <= 1
      && (w.decided[id] == 0 <==> e.record.status == Pending)
      && !e.overflowed && |e.done| <= 1
      && (e.record.status == Selected ==> HasOption(e.record.options, e.record.optionId))
  {
    RunKeeps(actions);
    assert EntryOk(Run(EMPTY, actions).records[id], Run(EMPTY, actions).decided[id]);
  }

  lemma DecideFrozen(w: World, rawId: Id, d: Decision, now: nat, id: Id)
    requires id in w.records && w.records[id].record.status != Pending
    ensures id in Decide(w, rawId, d, now).records && Decide(w, rawId, d, now).records[id] == w.records[id]
    ensures Decide(w, rawId, d, now).requests == w.requests
  {
  }

  lemma SettledStepFrozen(w: World, a: Action, id: Id)
    requires id in w.records && w.records[id].record.status != Pending
    ensures id in Step(w, a).records && Step(w, a).records[id].record == w.records[id].record
  {
    match a
    case DecideBy(rawId, d, now) => DecideFrozen(w, rawId, d, now, id);
    case CancelOwn(tid, now) =>
      if tid in w.requests && w.requests[tid].Cancelling? {
        DecideFrozen(w, w.requests[tid].id, CANCEL, now, id);
      }
    case Open(_, _, _) =>
    case Release(_) =>
    case ContextDone(_) =>
  }

  /** Once a record has left pending it never changes again. */
  lemma {:induction false} SettledIsFinal(w: World, more: seq<Action>, id: Id)
    requires id in w.records && w.records[id].record.status != Pending
    ensures id in Run(w, more).records && Run(w, more).records[id].record == w.records[id].record
  {
    if more != [] {
      SettledIsFinal(w, more[..|more| - 1], id);
      SettledStepFrozen(Run(w, more[..|more| - 1]), more[|more| - 1], id);
    }
  }

  /** A request released by its channel returns the recorded decision, now and ever after. */
  lemma ReleasedSeesDecision(actions: seq<Action>, tid: Tid, more: seq<Action>)
    requires var w := Run(EMPTY, actions); tid in w.requests && w.requests[tid].Waiting? && ReleaseStep(w, tid) != w
    ensures var w := Run(EMPTY, actions);
      var id := w.requests[tid].id;
      var later := Run(ReleaseStep(w, tid), more);
      && ReleaseStep(w, tid).requests[tid].Answered? && id in later.records
      && later.records[id].record == ReleaseStep(w, tid).requests[tid].record
      && later.records[id].record.status != Pending
  {
    RunKeeps(actions);
    var w := Run(EMPTY, actions);
    var id := w.requests[tid].id;
    assert EntryOk(w.records[id], w.decided[id]);
    SettledIsFinal(ReleaseStep(w, tid), more, id);
  }

  /** A Decide with an option that was not offered fails and stays pending, but it has overwritten the
      decision time and the message. */
  lemma InvalidOptionStamps(e: Entry, d: Decision, now: nat)
    requires e.record.status == Pending
    ensures DecideEntry(e, d, now).1 == InvalidOption <==>
      !d.cancelled && !HasOption(e.record.options, ChosenId(e.record.options, d))
    ensures DecideEntry(e, d, now).1 == InvalidOption ==>
      DecideEntry(e, d, now).0 == e.(record := e.record.(decidedAt := Some(now), message := Trim(d.message)))
  {
  }

  lemma RunThen(actions: seq<Action>, w: World, a: Action) returns (next: World, longer: seq<Action>)
    requires Run(EMPTY, actions) == w
    ensures longer == actions + [a] && next == Step(w, a) && Run(EMPTY, longer) == next
  {
    longer, next := actions + [a], Step(w, a);
    assert longer[..|longer| - 1] == actions;
  }

  // ---------------------------------------------------------------- cancelled requests

  /** Requests name records that exist, by ids without outer white space. */
  ghost predicate RequestsOk(w: World) {
    forall tid :: tid in w.requests && !w.requests[tid].Answered? ==> RequestOk(w, w.requests[tid].id)
  }

  ghost predicate RequestOk(w: World, id: Id) {
    id in w.records && Trimmed(id)
  }

  lemma DecideKeepsRecords(w: World, rawId: Id, d: Decision, now: nat)
    ensures Decide(w, rawId, d, now).records.Keys == w.records.Keys
    ensures Decide(w, rawId, d, now).requests == w.requests
  {
  }

  lemma DecideKeepsRequests(w: World, rawId: Id, d: Decision, now: nat)
    requires RequestsOk(w)
    ensures RequestsOk(Decide(w, rawId, d, now))
  {
    DecideKeepsRecords(w, rawId, d, now);
  }

  lemma CancelStepIs(w: World, tid: Tid, now: nat)
    requires tid in w.requests && w.requests[tid].Cancelling?
    ensures Step(w, CancelOwn(tid, now)) ==
            WithRequest(Decide(w, w.requests[tid].id, CANCEL, now), w.requests, tid, GaveUp(w.requests[tid].id))
  {
  }

  function WithRequest(w: World, requests: map<Tid, Request>, tid: Tid, r: Request): World {
    w.(requests := requests[tid := r])
  }

  lemma WithRequestOk(w: World, requests: map<Tid, Request>, tid: Tid, id: Id)
    requires RequestsOk(w) && w.requests == requests && RequestOk(w, id)
    ensures RequestsOk(WithRequest(w, requests, tid, GaveUp(id)))
  {
  }

  lemma CancelKeepsRequests(w: World, tid: Tid, now: nat)
    requires RequestsOk(w) && tid in w.requests && w.requests[tid].Cancelling?
    ensures RequestsOk(Step(w, CancelOwn(tid, now)))
  {
    var id := w.requests[tid].id;
    assert RequestOk(w, id);
    var t := Decide(w, id, CANCEL, now);
    assert RequestsOk(t) && t.requests == w.requests && RequestOk(t, id) by {
      DecideKeepsRequests(w, id, CANCEL, now);
      DecideKeepsRecords(w, id, CANCEL, now);
    }
    WithRequestOk(t, w.requests, tid, id);
    CancelStepIs(w, tid, now);
  }

  lemma OpenKeepsRequests(w: World, tid: Tid, id: Id, options: seq<PermissionOption>)
    requires RequestsOk(w)
    ensures RequestsOk(OpenStep(w, tid, id, options))
  {
  }

  lemma ReleaseKeepsRequests(w: World, tid: Tid)
    requires RequestsOk(w)
    ensures RequestsOk(ReleaseStep(w, tid))
  {
  }

  lemma ContextDoneKeepsRequests(w: World, tid: Tid)
    requires RequestsOk(w)
    ensures RequestsOk(Step(w, ContextDone(tid)))
  {
  }

  lemma StepKeepsRequests(w: World, a: Action)
    requires RequestsOk(w)
    ensures RequestsOk(Step(w, a))
  {
    match a
    case DecideBy(rawId, d, now) => DecideKeepsRequests(w, rawId, d, now);
    case CancelOwn(tid, now) =>
      if tid in w.requests && w.requests[tid].Cancelling? {
        CancelKeepsRequests(w, tid, now);
      }
    case Open(tid, id, options) => OpenKeepsRequests(w, tid, id, options);
    case Release(tid) => ReleaseKeepsRequests(w, tid);
    case ContextDone(tid) => ContextDoneKeepsRequests(w, tid);
  }

  lemma {:induction false} RunKeepsRequests(actions: seq<Action>)
    ensures RequestsOk(Run(EMPTY, actions))
  {
    if actions != [] {
      RunKeepsRequests(actions[..|actions| - 1]);
      StepKeepsRequests(Run(EMPTY, actions[..|actions| - 1]), actions[|actions| - 1]);
    }
  }

  /** A Decide that settles the record on one of its options. */
  predicate Selects(w: World, a: Action, id: Id) {
    && a.DecideBy? && Trim(a.rawId) == id && id in w.records
    && w.records[id].record.status == Pending && !a.d.cancelled
    && HasOption(w.records[id].record.options, ChosenId(w.records[id].record.options, a.d))
  }

  predicate SelectsAt(actions: seq<Action>, i: nat, id: Id) {
    i < |actions| && Selects(Run(EMPTY, actions[..i]), actions[i], id)
  }

  /** The step at which the request's own cancellation takes the lock. */
  predicate CancelsAt(actions: seq<Action>, k: nat, tid: Tid, id: Id) {
    && k < |actions| && actions[k].CancelOwn? && actions[k].tid == tid
    && var w := Run(EMPTY, actions[..k]); tid in w.requests && w.requests[tid] == Cancelling(id)
  }

  /** A record becomes selected by such a Decide and in no other way. */
  lemma DecideSelectsIff(w: World, rawId: Id, d: Decision, now: nat, id: Id)
    requires id in w.records
    ensures IsSelected(Decide(w, rawId, d, now), id) <==> IsSelected(w, id) || Selects(w, DecideBy(rawId, d, now), id)
  {
  }

  lemma SelectStep(w: World, a: Action, id: Id)
    ensures IsSelected(Step(w, a), id) <==> IsSelected(w, id) || Selects(w, a, id)
  {
    match a
    case DecideBy(rawId, d, now) =>
      if id in w.records {
        DecideSelectsIff(w, rawId, d, now, id);
      } else {
        DecideKeepsRecords(w, rawId, d, now);
      }
    case CancelOwn(tid, now) =>
      if tid in w.requests && w.requests[tid].Cancelling? {
        DecideKeepsRecords(w, w.requests[tid].id, CANCEL, now);
        if id in w.records {
          DecideSelectsIff(w, w.requests[tid].id, CANCEL, now, id);
        }
      }
    case Open(_, _, _) =>
    case Release(_) =>
    case ContextDone(_) =>
  }

  predicate SelectedAfter(actions: seq<Action>, i: nat, id: Id) {
    i <= |actions| && IsSelected(Run(EMPTY, actions[..i]), id)
  }

  lemma SelectedAfterNext(actions: seq<Action>, i: nat, id: Id)
    requires i < |actions|
    ensures SelectedAfter(actions, i + 1, id) <==> SelectedAfter(actions, i, id) || SelectsAt(actions, i, id)
  {
    assert actions[..i + 1][..i] == actions[..i];
    SelectStep(Run(EMPTY, actions[..i]), actions[i], id);
  }

  lemma SelectedIff(actions: seq<Action>, n: nat, id: Id)
    requires n <= |actions|
    ensures SelectedAfter(actions, n, id) <==> exists i: nat :: i < n && SelectsAt(actions, i, id)
  {
    var flag, cause := (i: nat) => SelectedAfter(actions, i, id), (i: nat) => SelectsAt(actions, i, id);
    forall i: nat | i < n
      ensures flag(i + 1) <==> flag(i) || cause(i)
    {
      SelectedAfterNext(actions, i, id);
    }
    assert actions[..0] == [];
    Latched(flag, cause, n);
    assert forall i: nat :: cause(i) <==> SelectsAt(actions, i, id);
  }

  lemma GivesUpStep(w: World, a: Action, tid: Tid, id: Id)
    requires tid in Step(w, a).requests && Step(w, a).requests[tid] == GaveUp(id)
    ensures tid in w.requests
    ensures w.requests[tid] == GaveUp(id) || (a.CancelOwn? && a.tid == tid && w.requests[tid] == Cancelling(id))
  {
  }

  /** A request that gave up did so in one step. */
  lemma {:induction false} GaveUpAt(actions: seq<Action>, tid: Tid, id: Id) returns (k: nat)
    requires tid in Run(EMPTY, actions).requests && Run(EMPTY, actions).requests[tid] == GaveUp(id)
    ensures CancelsAt(actions, k, tid, id)
  {
    var n := |actions| - 1;
    GivesUpStep(Run(EMPTY, actions[..n]), actions[n], tid, id);
    if Run(EMPTY, actions[..n]).requests[tid] == GaveUp(id) {
      k := GaveUpAt(actions[..n], tid, id);
      assert actions[..n][..k] == actions[..k];
    } else {
      k := n;
    }
  }

  ghost predicate SettledAfter(actions: seq<Action>, i: nat, id: Id) {
    i <= |actions| && var w := Run(EMPTY, actions[..i]); id in w.records && w.records[id].record.status != Pending
  }

  lemma SettledAfterNext(actions: seq<Action>, i: nat, id: Id)
    requires SettledAfter(actions, i, id) && i < |actions|
    ensures SettledAfter(actions, i + 1, id)
    ensures SelectedAfter(actions, i + 1, id) <==> SelectedAfter(actions, i, id)
  {
    assert actions[..i + 1][..i] == actions[..i];
    SettledStepFrozen(Run(EMPTY, actions[..i]), actions[i], id);
  }

  lemma {:induction false} SettledSince(actions: seq<Action>, i: nat, n: nat, id: Id)
    requires SettledAfter(actions, i, id) && i <= n <= |actions|
    ensures SettledAfter(actions, n, id)
    ensures SelectedAfter(actions, n, id) <==> SelectedAfter(actions, i, id)
    decreases n
  {
    if i < n {
      SettledSince(actions, i, n - 1, id);
      SettledAfterNext(actions, n - 1, id);
    }
  }

  lemma CancelDecides(w: World, id: Id, now: nat)
    requires RequestOk(w, id)
    ensures var t := Decide(w, id, CANCEL, now);
            id in t.records && t.records[id].record.status != Pending && (IsSelected(t, id) <==> IsSelected(w, id))
  {
  }

  lemma CancelStepSettles(w: World, tid: Tid, now: nat, id: Id)
    requires tid in w.requests && w.requests[tid] == Cancelling(id) && RequestOk(w, id)
    ensures var t := Step(w, CancelOwn(tid, now));
            id in t.records && t.records[id].record.status != Pending && (IsSelected(t, id) <==> IsSelected(w, id))
  {
    CancelDecides(w, id, now);
    CancelStepIs(w, tid, now);
  }

  lemma CancelSettles(actions: seq<Action>, k: nat, tid: Tid, id: Id)
    requires CancelsAt(actions, k, tid, id)
    ensures SettledAfter(actions, k + 1, id)
    ensures SelectedAfter(actions, k + 1, id) <==> SelectedAfter(actions, k, id)
  {
    var w, now := Run(EMPTY, actions[..k]), actions[k].now;
    assert actions[..k + 1][..k] == actions[..k] && actions[k] == CancelOwn(tid, now);
    RunKeepsRequests(actions[..k]);
    assert RequestOk(w, w.requests[tid].id);
    CancelStepSettles(w, tid, now, id);
    assert Run(EMPTY, actions[..k + 1]) == Step(w, CancelOwn(tid, now));
  }

  /** When a cancelled request disagrees with its record.  Its own cancellation takes the lock at one
      step `k`; the record then is, and stays, selected if and only if some Decide had settled it on an
      offered option before that step, and is cancelled otherwise. */
  lemma CancelledRequestDisagreesIff(actions: seq<Action>, tid: Tid, id: Id) returns (k: nat)
    requires tid in Run(EMPTY, actions).requests && Run(EMPTY, actions).requests[tid] == GaveUp(id)
    ensures CancelsAt(actions, k, tid, id)
    ensures id in Run(EMPTY, actions).records && Run(EMPTY, actions).records[id].record.status != Pending
    ensures IsSelected(Run(EMPTY, actions), id) <==> exists i: nat :: i < k && SelectsAt(actions, i, id)
  {
    k := GaveUpAt(actions, tid, id);
    CancelSettles(actions, k, tid, id);
    SettledSince(actions, k + 1, |actions|, id);
    SelectedIff(actions, k, id);
    assert actions[..|actions|] == actions;
  }

  /** Its request gave up although its record says an option was selected. */
  ghost predicate Disagrees(w: World, tid: Tid, id: Id) {
    tid in w.requests && w.requests[tid] == GaveUp(id) && IsSelected(w, id)
  }

  /** Such a run exists. */
  lemma CancelledRequestMayDisagree()
    ensures exists actions, tid, id :: Disagrees(Run(EMPTY, actions), tid, id)
  {
    var options := [PermissionOption("ok", AllowOnce)];
    assert options[0].id == "ok" && HasOption(options, "ok");
    var longer := OpenedThenDisagrees(0, "r", options, Decision("ok", "", false, ""));
  }

  lemma OpenedThenDisagrees(tid: Tid, id: Id, options: seq<PermissionOption>, d: Decision) returns (longer: seq<Action>)
    requires Trimmed(id) && !d.cancelled && Trim(d.optionId) != "" && HasOption(options, Trim(d.optionId))
    ensures Disagrees(Run(EMPTY, longer), tid, id)
  {
    var w, actions := RunThen([], EMPTY, Open(tid, id, options));
    longer := SelectedThenCancelled(actions, w, tid, id, d);
  }

  ghost predicate IsWaiting(w: World, tid: Tid, id: Id) {
    Trimmed(id) && tid in w.requests && w.requests[tid] == Waiting(id) && id in w.records
  }

  predicate IsSelected(w: World, id: Id) {
    id in w.records && w.records[id].record.status == Selected
  }

  /** From any waiting request: decide its record, then let its own cancellation win. */
  lemma SelectedThenCancelled(actions: seq<Action>, w: World, tid: Tid, id: Id, d: Decision) returns (longer: seq<Action>)
    requires Run(EMPTY, actions) == w && IsWaiting(w, tid, id)
    requires w.records[id].record.status == Pending && !d.cancelled && Trim(d.optionId) != ""
    requires HasOption(w.records[id].record.options, Trim(d.optionId))
    ensures var t := Run(EMPTY, longer);
            tid in t.requests && t.requests[tid] == GaveUp(id) && IsSelected(t, id)
  {
    var w2, a2 := ThenSelected(actions, w, id, d);
    var w3, a3 := ThenCancelling(a2, w2, tid, id);
    longer := ThenGivenUp(a3, w3, tid, id);
  }

  lemma ThenSelected(actions: seq<Action>, w: World, id: Id, d: Decision) returns (next: World, longer: seq<Action>)
    requires Run(EMPTY, actions) == w && Trimmed(id) && id in w.records
    requires w.records[id].record.status == Pending && !d.cancelled && Trim(d.optionId) != ""
    requires HasOption(w.records[id].record.options, Trim(d.optionId))
    ensures Run(EMPTY, longer) == next && next.requests == w.requests && IsSelected(next, id)
  {
    next, longer := RunThen(actions, w, DecideBy(id, d, 1));
    DecideSelects(w, id, d, 1);
  }

  lemma ThenCancelling(actions: seq<Action>, w: World, tid: Tid, id: Id) returns (next: World, longer: seq<Action>)
    requires Run(EMPTY, actions) == w && IsWaiting(w, tid, id) && IsSelected(w, id)
    ensures Run(EMPTY, longer) == next && IsSelected(next, id)
    ensures tid in next.requests && next.requests[tid] == Cancelling(id)
  {
    next, longer := RunThen(actions, w, ContextDone(tid));
  }

  lemma ThenGivenUp(actions: seq<Action>, w: World, tid: Tid, id: Id) returns (longer: seq<Action>)
    requires Run(EMPTY, actions) == w && IsSelected(w, id)
    requires tid in w.requests && w.requests[tid] == Cancelling(id)
    ensures var t := Run(EMPTY, longer);
            tid in t.requests && t.requests[tid] == GaveUp(id) && IsSelected(t, id)
  {
    var next;
    next, longer := RunThen(actions, w, CancelOwn(tid, 2));
    DecideFrozen(w, id, CANCEL, 2, id);
  }

  lemma DecideSelects(w: World, id: Id, d: Decision, now: nat)
    requires Trimmed(id) && id in w.records
    requires w.records[id].record.status == Pending && !d.cancelled && Trim(d.optionId) != ""
    requires HasOption(w.records[id].record.options, Trim(d.optionId))
    ensures var t := Decide(w, id, d, now);
            t.requests == w.requests && id in t.records && t.records[id].record.status == Selected
  {
    SelectsOffered(w.records[id], d, now);
  }

  lemma SelectsOffered(e: Entry, d: Decision, now: nat)
    requires e.record.status == Pending && !d.cancelled && Trim(d.optionId) != ""
    requires HasOption(e.record.options, Trim(d.optionId))
    ensures DecideEntry(e, d, now).0.record.status == Selected && DecideEntry(e, d, now).1.Decided?
  {
  }
}
