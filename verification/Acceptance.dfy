/**
 The completion gate: the acceptance contract (packages/forge-state/src/acceptance.ts:66-151),
 the verification matrix (packages/forge-verification/src/verification-matrix.ts:23-101) and the
 tool handlers that drive them (packages/forge-agent/src/tools.ts:524-1001).
 */
module Acceptance {
  import opened Text

  datatype CriterionStatus = Verified | Failing | Skipped | NeedsReview | Blocked

  datatype Criterion = Criterion(id: string, description: string, status: CriterionStatus,
                                 evidenceRefs: seq<string>, requiredChecks: seq<string>)

  datatype CheckStatus = Passed | Failed | OtherStatus(name: string)

  datatype Entry = Entry(check: string, status: CheckStatus)

  /** A status written into the matrix: by a check that ran, or declared by the model. */
  datatype Event = Event(check: string, status: CheckStatus, declared: bool)

  /** A criterion marked verified when `seen` events had happened, by the model's update or by the matrix itself. */
  datatype Mark = Mark(id: string, requiredChecks: seq<string>, auto: bool, seen: nat)

  /** The contract and the matrix, with a record of how they came about. */
  datatype Ledger = Ledger(contract: Option<seq<Criterion>>, matrix: seq<Entry>, events: seq<Event>, marks: seq<Mark>)

  datatype CheckRun = CheckRun(kind: string, passed: bool)

  datatype Op =
    | UpdateAcceptance(id: string, rawStatus: string, evidenceRef: string)
    | AddCriterion(description: string, suffix: string, requiredChecks: seq<string>)
    | RunVerification(results: seq<CheckRun>)
    | RunCommand(kind: Option<string>, passed: bool)
    | RunTests(checkName: Option<string>, passed: bool)
    | VerifyCheck(check: string, status: CheckStatus)
    | FinishTask(completed: bool)
    | TestsVerified(filesTouched: bool)
    | Resume(criteria: seq<Criterion>)

  // ---------------------------------------------------------------- the matrix

  /** Where the first entry of a check is. */
  function Find(m: seq<Entry>, check: string): (k: Option<nat>)
    ensures k.Some? ==> k.value < |m| && m[k.value].check == check
    ensures k.None? ==> forall j :: 0 <= j < |m| ==> m[j].check != check
  {
    if m == [] then None
    else if m[0].check == check then Some(0)
    else match Find(m[1..], check) case None => None case Some(j) => Some(j + 1)
  }

  /** `updateStatus`, followed by `addEntry` when nothing was found and the handler asks for it. */
  function Recorded(m: seq<Entry>, check: string, status: CheckStatus, add: bool): seq<Entry> {
    var k := Find(m, check);
    if k.Some? then m[k.value := Entry(check, status)]
    else if add then m + [Entry(check, status)]
    else m
  }

  ghost predicate Unique(m: seq<Entry>) {
    forall j, k :: 0 <= j < k < |m| ==> m[j].check != m[k].check
  }

  predicate HasStatus(m: seq<Entry>, check: string, status: CheckStatus) {
    exists k :: 0 <= k < |m| && m[k] == Entry(check, status)
  }

  predicate SomeStatus(m: seq<Entry>, status: CheckStatus) {
    exists k :: 0 <= k < |m| && m[k].status == status
  }

  function CheckOf(passed: bool): CheckStatus {
    if passed then Passed else Failed
  }

  // ---------------------------------------------------------------- the contract

  /** The reference moves to the end of the list; an empty one is none. */
  function WithRef(refs: seq<string>, ref: string): seq<string> {
    if ref == "" then refs else Without(refs, ref) + [ref]
  }

  function Without(refs: seq<string>, ref: string): seq<string> {
    if refs == [] then [] else (if refs[0] == ref then [] else [refs[0]]) + Without(refs[1..], ref)
  }

  function Updated(c: Criterion, id: string, status: CriterionStatus, ref: string): Criterion {
    if c.id == id then c.(status := status, evidenceRefs := WithRef(c.evidenceRefs, ref)) else c
  }

  function UpdatedAll(cs: seq<Criterion>, id: string, status: CriterionStatus, ref: string): seq<Criterion> {
    seq(|cs|, k requires 0 <= k < |cs| => Updated(cs[k], id, status, ref))
  }

  lemma {:induction false} WithoutRef(refs: seq<string>, ref: string)
    ensures ref !in Without(refs, ref)
    ensures ref !in refs ==> Without(refs, ref) == refs
    ensures forall r :: r in refs && r != ref ==> r in Without(refs, ref)
    decreases |refs|
  {
    if refs != [] {
      WithoutRef(refs[1..], ref);
      assert refs == [refs[0]] + refs[1..];
    }
  }

  /**
   An update leaves ids, descriptions and required checks alone, and criteria with other ids
   altogether; the criteria with the id get the status, and the reference last and once,
   after every other reference they had.
   */
  lemma UpdateMeaning(cs: seq<Criterion>, id: string, status: CriterionStatus, ref: string, k: nat)
    requires k < |cs|
    ensures var c := UpdatedAll(cs, id, status, ref)[k];
            && c.id == cs[k].id && c.description == cs[k].description && c.requiredChecks == cs[k].requiredChecks
            && (cs[k].id != id ==> c == cs[k])
            && (cs[k].id == id ==>
                  && c.status == status
                  && (ref == "" ==> c.evidenceRefs == cs[k].evidenceRefs)
                  && (ref != "" ==> |c.evidenceRefs| > 0 && c.evidenceRefs[|c.evidenceRefs| - 1] == ref
                                    && ref !in c.evidenceRefs[..|c.evidenceRefs| - 1])
                  && forall r :: r in cs[k].evidenceRefs ==> r in c.evidenceRefs)
  {
    var refs := cs[k].evidenceRefs;
    WithoutRef(refs, ref);
    if cs[k].id == id && ref != "" {
      var c := UpdatedAll(cs, id, status, ref)[k];
      assert c.evidenceRefs == Without(refs, ref) + [ref];
      assert c.evidenceRefs[..|c.evidenceRefs| - 1] == Without(refs, ref);
    }
  }

  predicate Resolved(c: Criterion) {
    c.status.Verified? || c.status.Skipped?
  }

  /** What `verified + skipped === total` counts. */
  function CountResolved(cs: seq<Criterion>): nat {
    if cs == [] then 0 else CountResolved(cs[..|cs| - 1]) + (if Resolved(cs[|cs| - 1]) then 1 else 0)
  }

  predicate AllVerified(contract: Option<seq<Criterion>>) {
    contract.Some? && |contract.value| > 0 && CountResolved(contract.value) == |contract.value|
  }

  predicate Pending(c: Criterion) {
    !c.status.Verified? && !c.status.Failing? && !c.status.Blocked?
  }

  const AUTO_REF := "auto-verified"

  function AutoVerified(c: Criterion): Criterion {
    if Pending(c) then c.(status := Verified, evidenceRefs := WithRef(c.evidenceRefs, AUTO_REF)) else c
  }

  function AutoVerifiedAll(cs: seq<Criterion>): seq<Criterion> {
    seq(|cs|, k requires 0 <= k < |cs| => AutoVerified(cs[k]))
  }

  function AutoMarks(cs: seq<Criterion>, seen: nat): seq<Mark> {
    if cs == [] then []
    else AutoMarks(cs[..|cs| - 1], seen)
         + (if Pending(cs[|cs| - 1]) then [Mark(cs[|cs| - 1].id, cs[|cs| - 1].requiredChecks, true, seen)] else [])
  }

  // ---------------------------------------------------------------- the handlers

  /** The vocabulary of the tool schema and of the contract; anything else asks for review. */
  function StatusOf(raw: string): CriterionStatus {
    if raw == "passed" || raw == "verified" then Verified
    else if raw == "not_applicable" || raw == "skipped" then Skipped
    else if raw == "failed" then Failing
    else if raw == "blocked" then Blocked
    else NeedsReview
  }

  /** The required checks of the first criterion with an id. */
  function RequiredOf(cs: seq<Criterion>, id: string): seq<string> {
    if cs == [] then [] else if cs[0].id == id then cs[0].requiredChecks else RequiredOf(cs[1..], id)
  }

  /** The gate on marking a criterion verified. */
  predicate Evidence(m: seq<Entry>, required: seq<string>) {
    if |required| > 0 then forall k :: 0 <= k < |required| ==> HasStatus(m, required[k], Passed)
    else SomeStatus(m, Passed)
  }

  function AcId(n: nat, suffix: string): string {
    "ac-" + Decimal(n) + "-" + suffix
  }

  /** Passing checks and no failing one. */
  predicate Clean(m: seq<Entry>) {
    SomeStatus(m, Passed) && !SomeStatus(m, Failed)
  }

  function Note(l: Ledger, check: string, status: CheckStatus, declared: bool, add: bool): Ledger {
    if add || Find(l.matrix, check).Some? then
      l.(matrix := Recorded(l.matrix, check, status, add), events := l.events + [Event(check, status, declared)])
    else l
  }

  function NoteAll(l: Ledger, results: seq<CheckRun>): Ledger {
    if results == [] then l
    else
      var last := results[|results| - 1];
      Note(NoteAll(l, results[..|results| - 1]), last.kind, CheckOf(last.passed), false, true)
  }

  function AutoVerify(l: Ledger): Ledger {
    if l.contract.Some? && Clean(l.matrix)
    then l.(contract := Some(AutoVerifiedAll(l.contract.value)),
            marks := l.marks + AutoMarks(l.contract.value, |l.events|))
    else l
  }

  function UpdatedBy(l: Ledger, id: string, status: CriterionStatus, ref: string): Ledger {
    if l.contract.None? then l
    else
      var cs := l.contract.value;
      if status.Verified? then
        if Evidence(l.matrix, RequiredOf(cs, id))
        then l.(contract := Some(UpdatedAll(cs, id, status, ref)),
                marks := l.marks + [Mark(id, RequiredOf(cs, id), false, |l.events|)])
        else l
      else l.(contract := Some(UpdatedAll(cs, id, status, ref)))
  }

  function Added(description: string, suffix: string, required: seq<string>, n: nat): Criterion {
    Criterion(AcId(n, suffix), Trim(description), NeedsReview, [], required)
  }

  /** One handler call, or a task entered anew: it gets a new contract, and keeps the matrix of its earlier sessions. */
  function Apply(l: Ledger, op: Op): Ledger {
    match op
    case UpdateAcceptance(id, rawStatus, evidenceRef) => UpdatedBy(l, id, StatusOf(rawStatus), evidenceRef)
    case AddCriterion(description, suffix, required) =>
      if Trim(description) == "" || l.contract.None? then l
      else l.(contract := Some(l.contract.value
                               + [Added(description, suffix, required, |l.contract.value| + 1)]))
    case RunVerification(results) => NoteAll(l, results)
    case RunCommand(kind, passed) => if kind.Some? then Note(l, kind.value, CheckOf(passed), false, true) else l
    case RunTests(checkName, passed) =>
      if checkName.Some? then Note(l, checkName.value, CheckOf(passed), false, false) else l
    case VerifyCheck(check, status) => Note(l, check, status, true, true)
    case FinishTask(completed) => if completed && !AllVerified(l.contract) then AutoVerify(l) else l
    case TestsVerified(filesTouched) => if filesTouched then AutoVerify(l) else l
    case Resume(criteria) => l.(contract := Some(criteria), marks := [])
  }

  /** `finish_task` ends the task; any status but "completed" is always let through. */
  predicate FinishAccepted(l: Ledger, completed: bool) {
    !completed || AllVerified(Apply(l, FinishTask(completed)).contract)
  }

  /** The loop's own completion after a passing test verification. */
  predicate LoopCompletes(l: Ledger, filesTouched: bool) {
    filesTouched && Clean(l.matrix)
  }

  function ApplyAll(l: Ledger, ops: seq<Op>): Ledger {
    if ops == [] then l else Apply(ApplyAll(l, ops[..|ops| - 1]), ops[|ops| - 1])
  }

  // ---------------------------------------------------------------- finishing

  lemma {:induction false} CountResolvedAll(cs: seq<Criterion>)
    ensures CountResolved(cs) <= |cs|
    ensures CountResolved(cs) == |cs| <==> forall k :: 0 <= k < |cs| ==> Resolved(cs[k])
    decreases |cs|
  {
    if cs != [] {
      var front := cs[..|cs| - 1];
      CountResolvedAll(front);
      assert forall k :: 0 <= k < |front| ==> front[k] == cs[k];
    }
  }

  ghost predicate Complete(contract: Option<seq<Criterion>>) {
    contract.Some? && contract.value != [] && forall k :: 0 <= k < |contract.value| ==> Resolved(contract.value[k])
  }

  /**
   A "completed" is accepted exactly when, on entry, the contract is non-empty and either
   every criterion is verified or skipped, or a check has passed, none has failed, and no
   criterion is failed or blocked; and what it leaves is then complete.
   */
  lemma FinishIff(l: Ledger)
    ensures FinishAccepted(l, true) <==>
              Complete(l.contract)
              || (l.contract.Some? && l.contract.value != [] && Clean(l.matrix)
                  && forall k :: 0 <= k < |l.contract.value| ==>
                       !l.contract.value[k].status.Failing? && !l.contract.value[k].status.Blocked?)
    ensures FinishAccepted(l, true) ==> Complete(Apply(l, FinishTask(true)).contract)
    ensures FinishAccepted(l, false) && Apply(l, FinishTask(false)) == l
  {
    if l.contract.Some? {
      CountResolvedAll(l.contract.value);
      CountResolvedAll(AutoVerifiedAll(l.contract.value));
      AutoVerifiedComplete(l.contract.value);
    }
  }

  /** Automatic marking completes a contract exactly when it is non-empty and no criterion is failed or blocked. */
  lemma AutoVerifiedComplete(cs: seq<Criterion>)
    ensures Complete(Some(AutoVerifiedAll(cs))) <==>
              cs != [] && forall k :: 0 <= k < |cs| ==> !cs[k].status.Failing? && !cs[k].status.Blocked?
  {
    var done := AutoVerifiedAll(cs);
    assert forall k :: 0 <= k < |cs| ==>
      done[k] == AutoVerified(cs[k]) && (Resolved(done[k]) <==> !cs[k].status.Failing? && !cs[k].status.Blocked?);
  }

  /**
   When the loop completes a task after passing tests, the contract is complete exactly when
   it is there, non-empty, and no criterion is failed or blocked: the loop does not look.
   */
  lemma LoopCompletionIff(l: Ledger, filesTouched: bool)
    requires LoopCompletes(l, filesTouched)
    ensures Complete(Apply(l, TestsVerified(filesTouched)).contract) <==>
              l.contract.Some? && l.contract.value != []
              && forall k :: 0 <= k < |l.contract.value| ==>
                   !l.contract.value[k].status.Failing? && !l.contract.value[k].status.Blocked?
  {
    if l.contract.Some? { AutoVerifiedComplete(l.contract.value); }
  }

  /** So a failed criterion stays failed in a task the loop has completed. */
  lemma LoopCompletesWithFailure(id: string)
    ensures var failing := Ledger(Some([Criterion(id, "", Failing, [], [])]), [], [], []);
            var l := Apply(failing, RunCommand(Some("test"), true));
            LoopCompletes(l, true) && !Complete(Apply(l, TestsVerified(true)).contract)
  {
    var l := Apply(Ledger(Some([Criterion(id, "", Failing, [], [])]), [], [], []), RunCommand(Some("test"), true));
    assert l.matrix[0] == Entry("test", Passed);
    assert Apply(l, TestsVerified(true)).contract.value[0].status.Failing?;
  }

  // ---------------------------------------------------------------- the matrix is the last event

  function StatusIn(m: seq<Entry>, check: string): Option<CheckStatus> {
    match Find(m, check) case None => None case Some(k) => Some(m[k].status)
  }

  function Last(events: seq<Event>, check: string): Option<CheckStatus> {
    if events == [] then None
    else if events[|events| - 1].check == check then Some(events[|events| - 1].status)
    else Last(events[..|events| - 1], check)
  }

  lemma FindUnique(m: seq<Entry>, k: nat)
    requires Unique(m) && k < |m|
    ensures Find(m, m[k].check) == Some(k)
  {
  }

  lemma RecordedStatus(m: seq<Entry>, check: string, status: CheckStatus, add: bool, d: string)
    requires Unique(m)
    ensures Unique(Recorded(m, check, status, add))
    ensures StatusIn(Recorded(m, check, status, add), d)
            == if d == check && (add || Find(m, check).Some?) then Some(status) else StatusIn(m, d)
  {
    var r, k, i := Recorded(m, check, status, add), Find(m, check), Find(m, d);
    assert forall j :: 0 <= j < |m| ==> r[j].check == m[j].check;
    if k.None? && add {
      assert r[|m|] == Entry(check, status);
      if d == check { FindUnique(r, |m|); }
    }
    if i.Some? { FindUnique(r, i.value); }
  }

  ghost predicate MatrixSound(l: Ledger) {
    Unique(l.matrix) && forall check :: StatusIn(l.matrix, check) == Last(l.events, check)
  }

  lemma LastSnoc(events: seq<Event>, e: Event, check: string)
    ensures Last(events + [e], check) == if e.check == check then Some(e.status) else Last(events, check)
  {
    assert (events + [e])[..|events|] == events;
  }

  lemma NoteSound(l: Ledger, check: string, status: CheckStatus, declared: bool, add: bool)
    requires MatrixSound(l)
    ensures MatrixSound(Note(l, check, status, declared, add))
  {
    forall d
      ensures StatusIn(Note(l, check, status, declared, add).matrix, d)
              == Last(Note(l, check, status, declared, add).events, d)
    {
      RecordedStatus(l.matrix, check, status, add, d);
      LastSnoc(l.events, Event(check, status, declared), d);
    }
    RecordedStatus(l.matrix, check, status, add, check);
  }

  lemma {:induction false} NoteAllSound(l: Ledger, results: seq<CheckRun>)
    requires MatrixSound(l)
    ensures MatrixSound(NoteAll(l, results))
    decreases |results|
  {
    if results != [] {
      NoteAllSound(l, results[..|results| - 1]);
      var last := results[|results| - 1];
      NoteSound(NoteAll(l, results[..|results| - 1]), last.kind, CheckOf(last.passed), false, true);
    }
  }

  lemma ApplyMatrix(l: Ledger, op: Op)
    requires MatrixSound(l)
    ensures MatrixSound(Apply(l, op))
  {
    match op
    case RunVerification(results) => NoteAllSound(l, results);
    case RunCommand(kind, passed) => if kind.Some? { NoteSound(l, kind.value, CheckOf(passed), false, true); }
    case RunTests(checkName, passed) =>
      if checkName.Some? { NoteSound(l, checkName.value, CheckOf(passed), false, false); }
    case VerifyCheck(check, status) => NoteSound(l, check, status, true, true);
    case _ =>
  }

  /** What the gates read in the matrix, said of the events. */
  lemma GateReads(l: Ledger, required: seq<string>)
    requires MatrixSound(l)
    ensures forall check, s :: HasStatus(l.matrix, check, s) <==> Last(l.events, check) == Some(s)
    ensures forall s :: SomeStatus(l.matrix, s) <==> exists check :: Last(l.events, check) == Some(s)
  {
    forall check, s
      ensures HasStatus(l.matrix, check, s) <==> StatusIn(l.matrix, check) == Some(s)
    {
      if HasStatus(l.matrix, check, s) {
        var k :| 0 <= k < |l.matrix| && l.matrix[k] == Entry(check, s);
        FindUnique(l.matrix, k);
      }
    }
    forall s
      ensures SomeStatus(l.matrix, s) <==> exists check :: Last(l.events, check) == Some(s)
    {
      SomeReads(l, s);
    }
  }

  lemma SomeReads(l: Ledger, s: CheckStatus)
    requires MatrixSound(l)
    ensures SomeStatus(l.matrix, s) <==> exists check :: Last(l.events, check) == Some(s)
  {
    if SomeStatus(l.matrix, s) {
      var k :| 0 <= k < |l.matrix| && l.matrix[k].status == s;
      FindUnique(l.matrix, k);
      assert StatusIn(l.matrix, l.matrix[k].check) == Some(s);
      assert Last(l.events, l.matrix[k].check) == Some(s);
    } else {
      forall check
        ensures Last(l.events, check) != Some(s)
      {
        assert StatusIn(l.matrix, check) == Last(l.events, check);
        assert StatusIn(l.matrix, check) != Some(s);
      }
    }
  }

  // ---------------------------------------------------------------- ids

  predicate Generated(id: string) {
    |id| >= 3 && id[..3] == "ac-"
  }

  function AcNumber(id: string): nat
    requires Generated(id)
  {
    ParseDecimal(DigitPrefix(id[3..]))
  }

  /** A generated id carries the number it was made with, whatever its random suffix. */
  lemma AcIdNumber(n: nat, suffix: string)
    ensures Generated(AcId(n, suffix)) && AcNumber(AcId(n, suffix)) == n
  {
    var id, rest := AcId(n, suffix), "-" + suffix;
    assert id == "ac-" + (Decimal(n) + rest);
    assert id[..3] == "ac-" && id[3..] == Decimal(n) + rest;
    DigitPrefixOf(Decimal(n), rest);
    DecimalRoundTrip(n);
  }

  ghost predicate IdsSound(cs: seq<Criterion>) {
    && (forall j, k :: 0 <= j < k < |cs| ==> cs[j].id != cs[k].id)
    && (forall k :: 0 <= k < |cs| && Generated(cs[k].id) ==> AcNumber(cs[k].id) <= |cs|)
  }

  lemma AddedIds(cs: seq<Criterion>, c: Criterion, suffix: string)
    requires IdsSound(cs) && c.id == AcId(|cs| + 1, suffix)
    ensures IdsSound(cs + [c])
  {
    AcIdNumber(|cs| + 1, suffix);
  }

  ghost predicate ContractSound(l: Ledger) {
    l.contract.Some? ==> IdsSound(l.contract.value)
  }

  lemma {:induction false} NoteAllContract(l: Ledger, results: seq<CheckRun>)
    ensures NoteAll(l, results).contract == l.contract && NoteAll(l, results).marks == l.marks
    ensures l.events <= NoteAll(l, results).events
    decreases |results|
  {
    if results != [] { NoteAllContract(l, results[..|results| - 1]); }
  }

  lemma SameIds(cs: seq<Criterion>, ds: seq<Criterion>)
    requires IdsSound(cs) && |ds| == |cs| && forall k :: 0 <= k < |cs| ==> ds[k].id == cs[k].id
    ensures IdsSound(ds)
  {
  }

  /** A criterion's id and checks never change, and ids stay distinct. */
  lemma ApplyIds(l: Ledger, op: Op)
    requires ContractSound(l) && !op.Resume?
    ensures ContractSound(Apply(l, op))
    ensures l.contract.Some? ==>
              && Apply(l, op).contract.Some? && |Apply(l, op).contract.value| >= |l.contract.value|
              && forall k :: 0 <= k < |l.contract.value| ==>
                   Apply(l, op).contract.value[k].id == l.contract.value[k].id
                   && Apply(l, op).contract.value[k].requiredChecks == l.contract.value[k].requiredChecks
  {
    if op.RunVerification? {
      NoteAllContract(l, op.results);
    } else if l.contract.Some? {
      var cs := l.contract.value;
      match op
      case AddCriterion(description, suffix, required) =>
        var c := Added(description, suffix, required, |cs| + 1);
        AddedIds(cs, c, suffix);
        assert Apply(l, op).contract == if Trim(description) == "" then l.contract else Some(cs + [c]);
      case UpdateAcceptance(id, rawStatus, evidenceRef) =>
        SameIds(cs, UpdatedAll(cs, id, StatusOf(rawStatus), evidenceRef));
      case _ => SameIds(cs, AutoVerifiedAll(cs));
    }
  }

  // ---------------------------------------------------------------- marks

  /** The gate that was open when a mark was made, said of the events up to then. */
  ghost predicate Justified(m: Mark, events: seq<Event>)
    requires m.seen <= |events|
  {
    var seen := events[..m.seen];
    if m.auto
    then (exists check :: Last(seen, check) == Some(Passed)) && forall check :: Last(seen, check) != Some(Failed)
    else if |m.requiredChecks| > 0 then
      forall k :: 0 <= k < |m.requiredChecks| ==> Last(seen, m.requiredChecks[k]) == Some(Passed)
    else exists check :: Last(seen, check) == Some(Passed)
  }

  ghost predicate MarksSound(l: Ledger) {
    forall k :: 0 <= k < |l.marks| ==> l.marks[k].seen <= |l.events| && Justified(l.marks[k], l.events)
  }

  predicate MarkedIn(marks: seq<Mark>, c: Criterion) {
    exists k :: 0 <= k < |marks| && marks[k].id == c.id && marks[k].requiredChecks == c.requiredChecks
  }

  /** Every verified criterion was marked so, under its own required checks. */
  ghost predicate VerifiedSound(l: Ledger) {
    l.contract.Some? ==>
      forall k :: 0 <= k < |l.contract.value| && l.contract.value[k].status.Verified? ==>
        MarkedIn(l.marks, l.contract.value[k])
  }

  lemma {:induction false} AutoMarksForm(cs: seq<Criterion>, seen: nat)
    ensures forall k :: 0 <= k < |AutoMarks(cs, seen)| ==>
              AutoMarks(cs, seen)[k].auto && AutoMarks(cs, seen)[k].seen == seen
    ensures forall k :: 0 <= k < |cs| && Pending(cs[k]) ==> MarkedIn(AutoMarks(cs, seen), cs[k])
    decreases |cs|
  {
    if cs != [] {
      var front, last := cs[..|cs| - 1], cs[|cs| - 1];
      AutoMarksForm(front, seen);
      var before, all := AutoMarks(front, seen), AutoMarks(cs, seen);
      forall k | 0 <= k < |cs| && Pending(cs[k])
        ensures MarkedIn(all, cs[k])
      {
        if k < |front| {
          assert MarkedIn(before, front[k]);
          var j :| 0 <= j < |before| && before[j].id == cs[k].id && before[j].requiredChecks == cs[k].requiredChecks;
          assert all[j] == before[j];
        } else {
          assert all[|all| - 1] == Mark(last.id, last.requiredChecks, true, seen);
        }
      }
    }
  }

  lemma MarkedGrows(marks: seq<Mark>, more: seq<Mark>, c: Criterion)
    ensures MarkedIn(marks, c) || MarkedIn(more, c) ==> MarkedIn(marks + more, c)
  {
    if MarkedIn(marks, c) {
      var k :| 0 <= k < |marks| && marks[k].id == c.id && marks[k].requiredChecks == c.requiredChecks;
      assert (marks + more)[k] == marks[k];
    } else if MarkedIn(more, c) {
      var k :| 0 <= k < |more| && more[k].id == c.id && more[k].requiredChecks == c.requiredChecks;
      assert (marks + more)[|marks| + k] == more[k];
    }
  }

  lemma {:induction false} RequiredOfFound(cs: seq<Criterion>, k: nat)
    requires k < |cs| && forall i, j :: 0 <= i < j < |cs| ==> cs[i].id != cs[j].id
    ensures RequiredOf(cs, cs[k].id) == cs[k].requiredChecks
    decreases |cs|
  {
    if k > 0 { RequiredOfFound(cs[1..], k - 1); }
  }

  lemma JustifiedGrows(m: Mark, events: seq<Event>, more: seq<Event>)
    requires m.seen <= |events| && events <= more
    ensures Justified(m, events) ==> Justified(m, more)
  {
    assert events[..m.seen] == more[..m.seen];
  }

  lemma MarksGrow(l: Ledger, events: seq<Event>)
    requires MarksSound(l) && l.events <= events
    ensures MarksSound(l.(events := events))
  {
    forall k | 0 <= k < |l.marks|
      ensures Justified(l.marks[k], events)
    {
      JustifiedGrows(l.marks[k], l.events, events);
    }
  }

  lemma AutoVerifySound(l: Ledger)
    requires MatrixSound(l) && MarksSound(l) && VerifiedSound(l)
    ensures MarksSound(AutoVerify(l)) && VerifiedSound(AutoVerify(l))
  {
    if l.contract.Some? && Clean(l.matrix) {
      var cs, more := l.contract.value, AutoMarks(l.contract.value, |l.events|);
      GateReads(l, []);
      AutoMarksForm(cs, |l.events|);
      assert l.events[..|l.events|] == l.events;
      forall k | 0 <= k < |more|
        ensures Justified(more[k], l.events)
      {
      }
      forall k | 0 <= k < |cs| && AutoVerified(cs[k]).status.Verified?
        ensures MarkedIn(l.marks + more, AutoVerified(cs[k]))
      {
        MarkedGrows(l.marks, more, cs[k]);
        assert MarkedIn(l.marks + more, cs[k]);
      }
    }
  }

  lemma UpdateSound(l: Ledger, id: string, status: CriterionStatus, ref: string)
    requires MatrixSound(l) && MarksSound(l) && VerifiedSound(l) && ContractSound(l)
    ensures MarksSound(UpdatedBy(l, id, status, ref)) && VerifiedSound(UpdatedBy(l, id, status, ref))
  {
    if l.contract.Some? && (status.Verified? ==> Evidence(l.matrix, RequiredOf(l.contract.value, id))) {
      var cs, required := l.contract.value, RequiredOf(l.contract.value, id);
      var more := if status.Verified? then [Mark(id, required, false, |l.events|)] else [];
      if status.Verified? {
        GateReads(l, required);
        assert l.events[..|l.events|] == l.events;
        assert Justified(more[0], l.events);
      }
      assert UpdatedBy(l, id, status, ref).marks == l.marks + more;
      forall k | 0 <= k < |cs| && Updated(cs[k], id, status, ref).status.Verified?
        ensures MarkedIn(l.marks + more, Updated(cs[k], id, status, ref))
      {
        MarkedGrows(l.marks, more, cs[k]);
        if cs[k].id == id {
          RequiredOfFound(cs, k);
          assert more[0].id == cs[k].id && more[0].requiredChecks == cs[k].requiredChecks;
        }
        assert MarkedIn(l.marks + more, cs[k]);
      }
    }
  }

  ghost predicate Sound(l: Ledger) {
    MatrixSound(l) && ContractSound(l) && MarksSound(l) && VerifiedSound(l)
  }

  lemma NoteMarks(l: Ledger, check: string, status: CheckStatus, declared: bool, add: bool)
    requires MarksSound(l) && VerifiedSound(l)
    ensures MarksSound(Note(l, check, status, declared, add)) && VerifiedSound(Note(l, check, status, declared, add))
  {
    MarksGrow(l, l.events + [Event(check, status, declared)]);
  }

  lemma ApplyMarks(l: Ledger, op: Op)
    requires Sound(l) && !op.Resume?
    ensures MarksSound(Apply(l, op)) && VerifiedSound(Apply(l, op))
  {
    match op
    case UpdateAcceptance(id, rawStatus, evidenceRef) => UpdateSound(l, id, StatusOf(rawStatus), evidenceRef);
    case AddCriterion(description, suffix, required) => AddedVerified(l, description, suffix, required);
    case RunVerification(results) =>
      NoteAllContract(l, results);
      MarksGrow(l, NoteAll(l, results).events);
    case RunCommand(kind, passed) => if kind.Some? { NoteMarks(l, kind.value, CheckOf(passed), false, true); }
    case RunTests(checkName, passed) =>
      if checkName.Some? { NoteMarks(l, checkName.value, CheckOf(passed), false, false); }
    case VerifyCheck(check, status) => NoteMarks(l, check, status, true, true);
    case FinishTask(completed) => AutoVerifySound(l);
    case TestsVerified(filesTouched) => AutoVerifySound(l);
  }

  lemma AddedVerified(l: Ledger, description: string, suffix: string, required: seq<string>)
    requires Sound(l)
    ensures var op := AddCriterion(description, suffix, required);
            MarksSound(Apply(l, op)) && VerifiedSound(Apply(l, op))
  {
    var n := Apply(l, AddCriterion(description, suffix, required));
    if l.contract.Some? && Trim(description) != "" {
      var cs := l.contract.value;
      forall k | 0 <= k < |n.contract.value| && n.contract.value[k].status.Verified?
        ensures MarkedIn(n.marks, n.contract.value[k])
      {
        assert k < |cs| && n.contract.value[k] == cs[k];
      }
    }
  }

  /** A contract as it is made for a task: distinct ids, none generated, everything to be reviewed. */
  ghost predicate NewContract(cs: seq<Criterion>) {
    && (forall j, k :: 0 <= j < k < |cs| ==> cs[j].id != cs[k].id)
    && (forall k :: 0 <= k < |cs| ==> !Generated(cs[k].id) && cs[k].status.NeedsReview?)
  }

  /** A task entered for the first time: no check has run. */
  ghost predicate Fresh(l: Ledger) {
    l.matrix == [] && l.events == [] && l.marks == [] && (l.contract.Some? ==> NewContract(l.contract.value))
  }

  lemma FreshSound(l: Ledger)
    requires Fresh(l)
    ensures Sound(l)
  {
  }

  ghost predicate Proper(op: Op) {
    op.Resume? ==> NewContract(op.criteria)
  }

  /**
   Over every sequence of handler calls and resumptions, from a fresh task or any sound
   state: ids stay distinct, the matrix holds the last status of each check, every mark was
   made with its gate open, and every verified criterion has a mark of its own session.
   */
  lemma {:induction false} RunSound(l: Ledger, ops: seq<Op>)
    requires Sound(l) && forall k :: 0 <= k < |ops| ==> Proper(ops[k])
    ensures Sound(ApplyAll(l, ops))
    decreases |ops|
  {
    if ops != [] {
      RunSound(l, ops[..|ops| - 1]);
      var before, op := ApplyAll(l, ops[..|ops| - 1]), ops[|ops| - 1];
      assert Proper(op);
      ApplyMatrix(before, op);
      if !op.Resume? {
        ApplyIds(before, op);
        ApplyMarks(before, op);
      }
    }
  }

  // ---------------------------------------------------------------- a resumed task

  lemma ResumedClean(l: Ledger, criteria: seq<Criterion>)
    requires NewContract(criteria) && criteria != []
    ensures FinishAccepted(Apply(l, Resume(criteria)), true) <==> Clean(l.matrix)
  {
    FinishIff(Apply(l, Resume(criteria)));
    assert !Resolved(criteria[0]);
  }

  lemma CleanReads(l: Ledger)
    requires MatrixSound(l)
    ensures Clean(l.matrix) <==>
              && (exists check :: Last(l.events, check) == Some(Passed))
              && forall check :: Last(l.events, check) != Some(Failed)
  {
    SomeReads(l, Passed);
    SomeReads(l, Failed);
  }

  /**
   A resumed task can be finished at once, with no handler call in between, exactly when its
   earlier sessions left some check passed last and none failed last.
   */
  lemma ResumedFinishIff(l: Ledger, criteria: seq<Criterion>)
    requires MatrixSound(l) && NewContract(criteria) && criteria != []
    ensures FinishAccepted(Apply(l, Resume(criteria)), true) <==>
              && (exists check :: Last(l.events, check) == Some(Passed))
              && forall check :: Last(l.events, check) != Some(Failed)
    ensures Apply(Apply(l, Resume(criteria)), FinishTask(true)).events == l.events
  {
    ResumedClean(l, criteria);
    CleanReads(l);
  }

  // ---------------------------------------------------------------- what a call records

  /** What a call records, said of the call and of what was recorded before; `run_tests` knows only recorded checks. */
  function EventsBy(events: seq<Event>, op: Op): seq<Event> {
    match op
    case RunVerification(results) =>
      seq(|results|, k requires 0 <= k < |results| =>
            Event(results[k].kind, if results[k].passed then Passed else Failed, false))
    case RunCommand(kind, passed) =>
      if kind.Some? then [Event(kind.value, if passed then Passed else Failed, false)] else []
    case RunTests(checkName, passed) =>
      if checkName.Some? && Last(events, checkName.value).Some?
      then [Event(checkName.value, if passed then Passed else Failed, false)] else []
    case VerifyCheck(check, status) => [Event(check, status, true)]
    case _ => []
  }

  lemma {:induction false} NoteAllEvents(l: Ledger, results: seq<CheckRun>)
    ensures NoteAll(l, results).events == l.events + EventsBy(l.events, RunVerification(results))
    decreases |results|
  {
    if results == [] {
      assert l.events + [] == l.events;
    } else {
      var front, last := results[..|results| - 1], results[|results| - 1];
      NoteAllEvents(l, front);
      assert EventsBy(l.events, RunVerification(results))
          == EventsBy(l.events, RunVerification(front))
             + [Event(last.kind, if last.passed then Passed else Failed, false)];
    }
  }

  /** Every call appends exactly that; with it, the matrix of a sound state is known from the calls made. */
  lemma CallRecords(l: Ledger, op: Op)
    requires MatrixSound(l)
    ensures Apply(l, op).events == l.events + EventsBy(l.events, op)
    ensures forall check :: StatusIn(Apply(l, op).matrix, check) == Last(l.events + EventsBy(l.events, op), check)
  {
    ApplyMatrix(l, op);
    assert l.events + [] == l.events;
    if op.RunVerification? { NoteAllEvents(l, op.results); }
    if op.RunTests? && op.checkName.Some? {
      assert StatusIn(l.matrix, op.checkName.value) == Last(l.events, op.checkName.value);
    }
  }

  // ---------------------------------------------------------------- the words of an update

  /** What an update to verified asks for: every required check passed last or, where none is required, some check. */
  ghost predicate Backed(events: seq<Event>, required: seq<string>) {
    if required == [] then exists check :: Last(events, check) == Some(Passed)
    else forall check :: check in required ==> Last(events, check) == Some(Passed)
  }

  lemma BackedReads(l: Ledger, required: seq<string>)
    requires MatrixSound(l)
    ensures Evidence(l.matrix, required) <==> Backed(l.events, required)
  {
    GateReads(l, required);
    if required != [] {
      forall k | 0 <= k < |required|
        ensures required[k] in required
      {
      }
    }
  }

  /** What each word makes of the criterion it is said of, in a sound state; all others stay as they are. */
  lemma UpdateIff(l: Ledger, id: string, raw: string, ref: string, k: nat)
    requires MatrixSound(l) && ContractSound(l) && l.contract.Some? && k < |l.contract.value|
    ensures var r, c := Apply(l, UpdateAcceptance(id, raw, ref)), l.contract.value[k];
            && r.contract.Some? && |r.contract.value| == |l.contract.value|
            && (c.id != id ==> r.contract.value[k] == c)
            && (c.id == id ==>
                  r.contract.value[k].status
                  == if raw == "passed" || raw == "verified"
                     then (if Backed(l.events, c.requiredChecks) then Verified else c.status)
                     else if raw == "not_applicable" || raw == "skipped" then Skipped
                     else if raw == "failed" then Failing
                     else if raw == "blocked" then Blocked
                     else NeedsReview)
  {
    var c := l.contract.value[k];
    if c.id == id {
      RequiredOfFound(l.contract.value, k);
      BackedReads(l, c.requiredChecks);
    }
  }

  /** The only calls that can give a criterion each of its statuses; a resumption brings a new contract. */
  lemma StatusComesFrom(l: Ledger, op: Op, k: nat)
    requires l.contract.Some? && k < |l.contract.value| && !op.Resume?
    ensures Apply(l, op).contract.Some? && k < |Apply(l, op).contract.value|
    ensures var c, d := l.contract.value[k], Apply(l, op).contract.value[k];
            d.status != c.status ==>
              || (d.status.Verified? && (op == FinishTask(true) || op == TestsVerified(true)) && Clean(l.matrix))
              || (&& op.UpdateAcceptance? && op.id == c.id
                  && match d.status
                     case Verified => op.rawStatus == "passed" || op.rawStatus == "verified"
                     case Skipped => op.rawStatus == "not_applicable" || op.rawStatus == "skipped"
                     case Failing => op.rawStatus == "failed"
                     case Blocked => op.rawStatus == "blocked"
                     case NeedsReview => true)
  {
    if op.RunVerification? { NoteAllContract(l, op.results); }
  }

  /** Whatever is called, as long as nothing updates the criterion and the task is not entered anew. */
  predicate Spares(op: Op, id: string) {
    !op.Resume? && (op.UpdateAcceptance? ==> op.id != id)
  }

  lemma {:induction false} FailureStays(l: Ledger, ops: seq<Op>, k: nat)
    requires l.contract.Some? && k < |l.contract.value|
    requires l.contract.value[k].status.Failing? || l.contract.value[k].status.Blocked?
    requires forall i :: 0 <= i < |ops| ==> Spares(ops[i], l.contract.value[k].id)
    ensures var r := ApplyAll(l, ops);
            r.contract.Some? && k < |r.contract.value| && r.contract.value[k] == l.contract.value[k]
    decreases |ops|
  {
    if ops != [] {
      var front, op := ops[..|ops| - 1], ops[|ops| - 1];
      FailureStays(l, front, k);
      SparedStays(ApplyAll(l, front), op, k);
    }
  }

  lemma SparedStays(l: Ledger, op: Op, k: nat)
    requires l.contract.Some? && k < |l.contract.value| && Spares(op, l.contract.value[k].id)
    requires l.contract.value[k].status.Failing? || l.contract.value[k].status.Blocked?
    ensures var r := Apply(l, op);
            r.contract.Some? && k < |r.contract.value| && r.contract.value[k] == l.contract.value[k]
  {
    if op.RunVerification? { NoteAllContract(l, op.results); }
  }

  /**
   Once the model has said "failed" or "blocked" of a criterion, no finish is accepted before it
   says something else of it: whatever else is called, whatever passes, and however often.
   */
  lemma FailureRefusesFinish(l: Ledger, id: string, raw: string, ref: string, k: nat, ops: seq<Op>)
    requires l.contract.Some? && k < |l.contract.value| && l.contract.value[k].id == id
    requires raw == "failed" || raw == "blocked"
    requires forall i :: 0 <= i < |ops| ==> Spares(ops[i], id)
    ensures var r := ApplyAll(Apply(l, UpdateAcceptance(id, raw, ref)), ops);
            !FinishAccepted(r, true) && !Complete(Apply(r, TestsVerified(true)).contract)
  {
    var m := Apply(l, UpdateAcceptance(id, raw, ref));
    FailureStays(m, ops, k);
    var r := ApplyAll(m, ops);
    FinishIff(r);
    SparedStays(r, TestsVerified(true), k);
  }

  /** Automatic marking, criterion by criterion: one under review or skipped becomes verified, any other stays. */
  lemma AutoMeaning(l: Ledger, op: Op, k: nat)
    requires op == TestsVerified(true) || (op == FinishTask(true) && !Complete(l.contract))
    requires l.contract.Some? && k < |l.contract.value|
    ensures Apply(l, op).contract.Some? && |Apply(l, op).contract.value| == |l.contract.value|
    ensures var c, d := l.contract.value[k], Apply(l, op).contract.value[k];
            && d.id == c.id && d.description == c.description && d.requiredChecks == c.requiredChecks
            && if Clean(l.matrix) && (c.status.NeedsReview? || c.status.Skipped?)
               then d.status.Verified? && d.evidenceRefs != [] && d.evidenceRefs[|d.evidenceRefs| - 1] == AUTO_REF
               else d == c
  {
    CountResolvedAll(l.contract.value);
  }

  // ---------------------------------------------------------------- what was run and what was declared

  predicate DeclaresPass(op: Op) {
    op.VerifyCheck? && op.status.Passed?
  }

  ghost predicate PassesRan(events: seq<Event>) {
    forall k :: 0 <= k < |events| && events[k].status.Passed? ==> !events[k].declared
  }

  lemma {:induction false} NoteAllRan(l: Ledger, results: seq<CheckRun>)
    requires PassesRan(l.events)
    ensures PassesRan(NoteAll(l, results).events)
    decreases |results|
  {
    if results != [] { NoteAllRan(l, results[..|results| - 1]); }
  }

  lemma {:induction false} RunRan(l: Ledger, ops: seq<Op>)
    requires PassesRan(l.events) && forall k :: 0 <= k < |ops| ==> !DeclaresPass(ops[k])
    ensures PassesRan(ApplyAll(l, ops).events)
    decreases |ops|
  {
    if ops != [] {
      var before, op := ApplyAll(l, ops[..|ops| - 1]), ops[|ops| - 1];
      RunRan(l, ops[..|ops| - 1]);
      if op.RunVerification? { NoteAllRan(before, op.results); }
    }
  }

  /** The check ran and passed, and nothing has been recorded for it since. */
  ghost predicate Ran(events: seq<Event>, check: string) {
    exists k :: 0 <= k < |events| && events[k] == Event(check, Passed, false)
             && forall j :: k < j < |events| ==> events[j].check != check
  }

  lemma {:induction false} LastRan(events: seq<Event>, check: string)
    requires PassesRan(events) && Last(events, check) == Some(Passed)
    ensures Ran(events, check)
    decreases |events|
  {
    var front, last := events[..|events| - 1], events[|events| - 1];
    if last.check == check {
      assert events[|events| - 1] == Event(check, Passed, false);
    } else {
      assert PassesRan(front) by { assert forall k :: 0 <= k < |front| ==> front[k] == events[k]; }
      LastRan(front, check);
      var k :| 0 <= k < |front| && front[k] == Event(check, Passed, false)
               && forall j :: k < j < |front| ==> front[j].check != check;
      assert events[k] == Event(check, Passed, false);
    }
  }

  /**
   As long as `verify_check` is never used to declare a pass, a verified criterion rests on
   checks that ran, in this session or an earlier one of the task: when it was marked, all
   its required checks had run and passed last, or at least one check had when it requires
   none or the matrix marked it.
   */
  lemma VerifiedMeansRan(l: Ledger, ops: seq<Op>, k: nat)
    requires Sound(l) && PassesRan(l.events)
    requires forall i :: 0 <= i < |ops| ==> Proper(ops[i]) && !DeclaresPass(ops[i])
    requires var c := ApplyAll(l, ops).contract;
             c.Some? && k < |c.value| && c.value[k].status.Verified?
    ensures var r := ApplyAll(l, ops); var c := r.contract.value[k];
            exists m :: 0 <= m < |r.marks| && r.marks[m].id == c.id && r.marks[m].seen <= |r.events|
                     && var seen := r.events[..r.marks[m].seen];
                        if r.marks[m].auto || |c.requiredChecks| == 0 then exists check :: Ran(seen, check)
                        else forall j :: 0 <= j < |c.requiredChecks| ==> Ran(seen, c.requiredChecks[j])
  {
    RunSound(l, ops);
    RunRan(l, ops);
    var r := ApplyAll(l, ops);
    var c := r.contract.value[k];
    var m :| 0 <= m < |r.marks| && r.marks[m].id == c.id && r.marks[m].requiredChecks == c.requiredChecks;
    assert Justified(r.marks[m], r.events);
    var seen := r.events[..r.marks[m].seen];
    assert PassesRan(seen) by { assert forall i :: 0 <= i < |seen| ==> seen[i] == r.events[i]; }
    forall check | Last(seen, check) == Some(Passed)
      ensures Ran(seen, check)
    {
      LastRan(seen, check);
    }
  }

  /** Some check has run and passed. */
  ghost predicate SomeRan(events: seq<Event>) {
    exists k :: 0 <= k < |events| && events[k].status.Passed? && !events[k].declared
  }

  /** The model has declared some check passed. */
  ghost predicate SomeDeclared(events: seq<Event>) {
    exists k :: 0 <= k < |events| && events[k].status.Passed? && events[k].declared
  }

  predicate AllSkipped(contract: Option<seq<Criterion>>) {
    && contract.Some? && contract.value != []
    && forall k :: 0 <= k < |contract.value| ==> contract.value[k].status.Skipped?
  }

  /** Either way in which a "completed" is accepted once some pass is recorded. */
  ghost predicate Finishable(l: Ledger) {
    || Complete(l.contract)
    || (l.contract.Some? && l.contract.value != [] && Clean(l.matrix)
        && forall k :: 0 <= k < |l.contract.value| ==>
             !l.contract.value[k].status.Failing? && !l.contract.value[k].status.Blocked?)
  }

  lemma {:induction false} LastIsEvent(events: seq<Event>, check: string)
    requires Last(events, check).Some?
    ensures exists k :: 0 <= k < |events| && events[k].check == check && Some(events[k].status) == Last(events, check)
    decreases |events|
  {
    var front := events[..|events| - 1];
    if events[|events| - 1].check != check {
      LastIsEvent(front, check);
      var k :| 0 <= k < |front| && front[k].check == check && Some(front[k].status) == Last(front, check);
      assert events[k] == front[k];
    }
  }

  lemma PassRecorded(events: seq<Event>, seen: nat, check: string)
    requires seen <= |events| && Last(events[..seen], check) == Some(Passed)
    ensures SomeRan(events) || SomeDeclared(events)
  {
    LastIsEvent(events[..seen], check);
    var k :| 0 <= k < seen && events[..seen][k].check == check && Some(events[..seen][k].status) == Some(Passed);
    assert events[k].status.Passed?;
  }

  /** A gate can only have been open after a pass was recorded. */
  lemma JustifiedByPass(m: Mark, events: seq<Event>)
    requires m.seen <= |events| && Justified(m, events)
    ensures SomeRan(events) || SomeDeclared(events)
  {
    var seen := events[..m.seen];
    if !m.auto && |m.requiredChecks| > 0 {
      PassRecorded(events, m.seen, m.requiredChecks[0]);
    } else {
      var check :| Last(seen, check) == Some(Passed);
      PassRecorded(events, m.seen, check);
    }
  }

  /** In a sound state a verified criterion, or a passed check, means that some pass was recorded. */
  lemma PassBehind(l: Ledger)
    requires Sound(l)
    ensures Clean(l.matrix) ==> SomeRan(l.events) || SomeDeclared(l.events)
    ensures Complete(l.contract) && !AllSkipped(l.contract) ==> SomeRan(l.events) || SomeDeclared(l.events)
  {
    if Clean(l.matrix) {
      SomeReads(l, Passed);
      var check :| Last(l.events, check) == Some(Passed);
      assert l.events[..|l.events|] == l.events;
      PassRecorded(l.events, |l.events|, check);
    }
    if Complete(l.contract) && !AllSkipped(l.contract) {
      var k :| 0 <= k < |l.contract.value| && !l.contract.value[k].status.Skipped?;
      var c := l.contract.value[k];
      assert Resolved(c);
      assert MarkedIn(l.marks, c);
      var m :| 0 <= m < |l.marks| && l.marks[m].id == c.id && l.marks[m].requiredChecks == c.requiredChecks;
      JustifiedByPass(l.marks[m], l.events);
    }
  }

  /**
   Exactly how the model can be done on its own word: over every run, as long as no check
   has run and passed, "completed" is accepted if and only if all criteria are skipped, or
   the model has declared some check passed and the gate is open with it.
   */
  lemma OwnWordIff(l: Ledger, ops: seq<Op>)
    requires Sound(l) && forall k :: 0 <= k < |ops| ==> Proper(ops[k])
    ensures var r := ApplyAll(l, ops);
            !SomeRan(r.events) ==>
              (FinishAccepted(r, true) <==>
                 AllSkipped(r.contract) || (SomeDeclared(r.events) && Finishable(r)))
  {
    var r := ApplyAll(l, ops);
    RunSound(l, ops);
    FinishIff(r);
    PassBehind(r);
  }

  lemma NothingDeclared(events: seq<Event>)
    ensures PassesRan(events) <==> !SomeDeclared(events)
  {
  }

  /**
   Without a declared pass, whatever else the model calls, an accepted finish rests on a
   check that ran and passed, or on a contract skipped as a whole.
   */
  lemma FinishRests(l: Ledger, ops: seq<Op>)
    requires Sound(l) && PassesRan(l.events)
    requires forall k :: 0 <= k < |ops| ==> Proper(ops[k]) && !DeclaresPass(ops[k])
    requires FinishAccepted(ApplyAll(l, ops), true)
    ensures SomeRan(ApplyAll(l, ops).events) || AllSkipped(ApplyAll(l, ops).contract)
  {
    OwnWordIff(l, ops);
    RunRan(l, ops);
    NothingDeclared(ApplyAll(l, ops).events);
  }

  /** With nothing recorded at all, a task is finished exactly when all its criteria are skipped. */
  lemma NothingRunIff(l: Ledger, ops: seq<Op>)
    requires Fresh(l) && (forall k :: 0 <= k < |ops| ==> Proper(ops[k])) && ApplyAll(l, ops).events == []
    ensures FinishAccepted(ApplyAll(l, ops), true) <==> AllSkipped(ApplyAll(l, ops).contract)
  {
    FreshSound(l);
    OwnWordIff(l, ops);
  }

  /** `verify_check` lets the model declare a pass itself: it is then done without any check having run. */
  lemma SelfDeclaredDone(l: Ledger, check: string)
    requires Fresh(l) && l.contract.Some? && l.contract.value != []
    ensures var d := Apply(l, VerifyCheck(check, Passed));
            FinishAccepted(d, true) && Complete(Apply(d, FinishTask(true)).contract)
            && forall e :: e in Apply(d, FinishTask(true)).events ==> e.declared
  {
    var d := Apply(l, VerifyCheck(check, Passed));
    assert d.matrix == [Entry(check, Passed)] && d.events == [Event(check, Passed, true)];
    assert d.matrix[0] == Entry(check, Passed);
    FinishIff(d);
  }

  /** One call for each of the first `n` criteria, which marks it as not applicable. */
  function Skips(cs: seq<Criterion>, n: nat): seq<Op>
    requires n <= |cs|
  {
    seq(n, k requires 0 <= k < n => UpdateAcceptance(cs[k].id, "not_applicable", ""))
  }

  lemma {:induction false} SkipsEach(l: Ledger, cs: seq<Criterion>, n: nat)
    requires l.contract == Some(cs) && n <= |cs|
    ensures var r := ApplyAll(l, Skips(cs, n));
            && r.matrix == l.matrix && r.events == l.events
            && r.contract.Some? && |r.contract.value| == |cs|
            && (forall k :: 0 <= k < |cs| ==> r.contract.value[k].id == cs[k].id)
            && forall k :: 0 <= k < n ==> r.contract.value[k].status.Skipped?
  {
    if n > 0 {
      SkipsEach(l, cs, n - 1);
      assert Skips(cs, n)[..n - 1] == Skips(cs, n - 1);
      assert StatusOf("not_applicable") == Skipped;
    }
  }

  /** And without even that, by marking every criterion as not applicable: nothing is run, nothing declared passed. */
  lemma SkippedDone(l: Ledger, cs: seq<Criterion>)
    requires Fresh(l) && l.contract == Some(cs) && cs != []
    ensures var r := ApplyAll(l, Skips(cs, |cs|));
            AllSkipped(r.contract) && r.matrix == [] && r.events == [] && FinishAccepted(r, true)
  {
    SkipsEach(l, cs, |cs|);
    FinishIff(ApplyAll(l, Skips(cs, |cs|)));
  }

  // ---------------------------------------------------------------- required checks passed over

  /** Some required check of the criterion has no passed entry. */
  predicate Lacking(m: seq<Entry>, c: Criterion) {
    exists j :: 0 <= j < |c.requiredChecks| && !HasStatus(m, c.requiredChecks[j], Passed)
  }

  /** A handler call verifies the `k`-th criterion although its own required checks have not all passed. */
  ghost predicate PassesOver(l: Ledger, op: Op, k: nat) {
    && l.contract.Some? && k < |l.contract.value| && Apply(l, op).contract.Some?
    && |Apply(l, op).contract.value| == |l.contract.value|
    && !l.contract.value[k].status.Verified? && Apply(l, op).contract.value[k].status.Verified?
    && Lacking(l.matrix, l.contract.value[k])
  }

  ghost predicate SomePassedOver(l: Ledger, op: Op) {
    exists k: nat :: PassesOver(l, op, k)
  }

  predicate PendingLacks(l: Ledger) {
    && l.contract.Some?
    && exists k :: 0 <= k < |l.contract.value|
         && Pending(l.contract.value[k]) && Lacking(l.matrix, l.contract.value[k])
  }

  lemma AutoVerifyPassesOver(l: Ledger, op: Op)
    requires Apply(l, op) == AutoVerify(l)
    ensures SomePassedOver(l, op) <==> Clean(l.matrix) && PendingLacks(l)
  {
    if Clean(l.matrix) && PendingLacks(l) {
      var k :| 0 <= k < |l.contract.value|
               && Pending(l.contract.value[k]) && Lacking(l.matrix, l.contract.value[k]);
      assert PassesOver(l, op, k);
    }
    if k: nat :| PassesOver(l, op, k) {
      assert Pending(l.contract.value[k]) && Lacking(l.matrix, l.contract.value[k]);
    }
  }

  /**
   Finishing verifies some criterion against its own required checks exactly when not all
   criteria are resolved yet, the matrix has a pass and no failure, and a criterion neither
   verified, failed nor blocked requires a check that has not passed.
   */
  lemma FinishPassesOverIff(l: Ledger)
    ensures SomePassedOver(l, FinishTask(true)) <==>
              !AllVerified(l.contract) && Clean(l.matrix) && PendingLacks(l)
  {
    if AllVerified(l.contract) {
      assert Apply(l, FinishTask(true)) == l;
    } else {
      AutoVerifyPassesOver(l, FinishTask(true));
    }
  }

  /** The loop's own completion does so exactly under the same condition, resolved or not. */
  lemma LoopPassesOverIff(l: Ledger)
    ensures SomePassedOver(l, TestsVerified(true)) <==> Clean(l.matrix) && PendingLacks(l)
  {
    AutoVerifyPassesOver(l, TestsVerified(true));
  }

  /** The model's own update never does, since the gate reads the required checks of its criterion. */
  lemma UpdatePassesNothingOver(l: Ledger, id: string, rawStatus: string, ref: string)
    requires ContractSound(l)
    ensures !SomePassedOver(l, UpdateAcceptance(id, rawStatus, ref))
  {
    forall k: nat
      ensures !PassesOver(l, UpdateAcceptance(id, rawStatus, ref), k)
    {
      if l.contract.Some? && k < |l.contract.value| { RequiredOfFound(l.contract.value, k); }
    }
  }

  /** A pass of some other check makes `finish_task` verify a criterion its own required checks would refuse. */
  lemma RequiredChecksSkipped(id: string, required: seq<string>, kind: string)
    requires |required| > 0 && kind !in required
    ensures var l := Apply(Ledger(Some([Criterion(id, "", NeedsReview, [], required)]), [], [], []),
                           RunCommand(Some(kind), true));
            && UpdatedBy(l, id, Verified, "") == l
            && FinishAccepted(l, true)
            && Apply(l, FinishTask(true)).contract.value[0].status.Verified?
  {
    var waiting := Ledger(Some([Criterion(id, "", NeedsReview, [], required)]), [], [], []);
    var l := Apply(waiting, RunCommand(Some(kind), true));
    assert l.matrix == [Entry(kind, Passed)] && l.matrix[0] == Entry(kind, Passed);
    assert required[0] != kind;
    assert !HasStatus(l.matrix, required[0], Passed);
    FinishIff(l);
  }

  /** `run_tests` only updates checks already in the matrix: on an empty one no number of runs opens the gate. */
  lemma {:induction false} RunTestsAlone(l: Ledger, ops: seq<Op>)
    requires l.matrix == [] && forall k :: 0 <= k < |ops| ==> ops[k].RunTests?
    ensures ApplyAll(l, ops) == l && (FinishAccepted(l, true) <==> Complete(l.contract))
    decreases |ops|
  {
    FinishIff(l);
    if ops != [] {
      RunTestsAlone(l, ops[..|ops| - 1]);
      assert ops[|ops| - 1].RunTests?;
    }
  }

  // ---------------------------------------------------------------- synthesized contracts

  /** One criterion per high-signal domain. */
  function DomainText(domain: string): Option<string> {
    if domain == "auth" then Some("Authorization checks protect the affected routes")
    else if domain == "backend" then
      Some("Affected API endpoints return correct status codes and validate input")
    else if domain == "database" then Some("Migrations apply cleanly and preserve data integrity")
    else if domain == "frontend" then Some("Affected UI renders and handles its key states")
    else if domain == "tests" then Some("The project test suite passes")
    else None
  }

  function DomainCriterion(domain: string): Criterion
    requires DomainText(domain).Some?
  {
    Criterion(domain + "-1", DomainText(domain).value, NeedsReview, [], if domain == "tests" then ["test"] else [])
  }

  function TaskCriterion(summary: string): Criterion {
    Criterion("task-1", "Implementation satisfies the task: " + summary, NeedsReview, [], [])
  }

  lemma NotGenerated(id: string)
    requires |id| >= 2 && (id[0] != 'a' || id[1] != 'c')
    ensures !Generated(id)
  {
    assert |id| >= 3 ==> id[..3][0] == id[0] && id[..3][1] == id[1];
  }

  lemma DomainIds(d: string, e: string)
    requires DomainText(d).Some?
    ensures d + "-1" == e + "-1" ==> d == e
    ensures d + "-1" != "task-1" && !Generated(d + "-1") && !Generated("task-1")
  {
    if d + "-1" == e + "-1" {
      assert d == (d + "-1")[..|d + "-1"| - 2] == (e + "-1")[..|e + "-1"| - 2] == e;
    }
    var id := d + "-1";
    assert d == id[..|id| - 2];
    assert "task" == "task-1"[..|"task-1"| - 2];
    assert |d| >= 2 && id[1] == d[1] && d[1] != 'c';
    NotGenerated(id);
    NotGenerated("task-1");
  }

  predicate Described(cs: seq<Criterion>, text: string) {
    exists k :: 0 <= k < |cs| && cs[k].description == text
  }

  ghost predicate FromDomain(c: Criterion, domains: seq<string>) {
    exists d :: d in domains && DomainText(d).Some? && c == DomainCriterion(d)
  }

  /** The task's own criterion first, then one for each of some domains. */
  ghost predicate Synthesized(cs: seq<Criterion>, summary: string, domains: seq<string>) {
    && |cs| >= 1 && cs[0] == TaskCriterion(summary)
    && forall k :: 1 <= k < |cs| ==> FromDomain(cs[k], domains)
  }

  lemma DomainDescribed(cs: seq<Criterion>, summary: string, domains: seq<string>, d: string)
    requires Synthesized(cs, summary, domains) && DomainText(d).Some? && !Described(cs, DomainText(d).value)
    ensures forall k :: 0 <= k < |cs| ==> cs[k].id != d + "-1"
  {
    DomainIds(d, "task");
    forall k | 1 <= k < |cs|
      ensures cs[k].id != d + "-1"
    {
      assert FromDomain(cs[k], domains);
      var e :| e in domains && DomainText(e).Some? && cs[k] == DomainCriterion(e);
      DomainIds(e, d);
      assert cs[k].description == DomainText(e).value;
    }
  }

  ghost predicate IdsDiffer(cs: seq<Criterion>) {
    forall j, k :: 0 <= j < k < |cs| ==> cs[j].id != cs[k].id
  }

  lemma SynthesizedStep(cs: seq<Criterion>, summary: string, domains: seq<string>, d: string)
    requires Synthesized(cs, summary, domains) && IdsDiffer(cs)
    requires d in domains && DomainText(d).Some? && !Described(cs, DomainText(d).value)
    ensures var more := cs + [DomainCriterion(d)];
            && Synthesized(more, summary, domains) && IdsDiffer(more) && Described(more, DomainText(d).value)
            && forall t :: Described(cs, t) ==> Described(more, t)
  {
    var more := cs + [DomainCriterion(d)];
    DomainDescribed(cs, summary, domains, d);
    assert FromDomain(DomainCriterion(d), domains);
    assert more[|cs|].description == DomainText(d).value;
    forall t | Described(cs, t)
      ensures Described(more, t)
    {
      var k :| 0 <= k < |cs| && cs[k].description == t;
      assert more[k].description == t;
    }
  }

  lemma SynthesizedNew(cs: seq<Criterion>, summary: string, domains: seq<string>)
    requires Synthesized(cs, summary, domains) && IdsDiffer(cs)
    ensures NewContract(cs)
  {
    DomainIds("auth", "auth");
    forall k | 1 <= k < |cs|
      ensures !Generated(cs[k].id) && cs[k].status.NeedsReview?
    {
      assert FromDomain(cs[k], domains);
      var d :| d in domains && DomainText(d).Some? && cs[k] == DomainCriterion(d);
      DomainIds(d, d);
    }
  }

  /** The requested domains that the task text also names, or the named ones when there are none. */
  function Effective(inferred: seq<string>, requested: Option<seq<string>>, mentionsTests: bool): seq<string> {
    var grounded := if requested.Some? then Shared(requested.value, inferred) else inferred;
    var effective := if |grounded| > 0 then grounded else inferred;
    if mentionsTests && "tests" !in effective then effective + ["tests"] else effective
  }

  function Shared(requested: seq<string>, inferred: seq<string>): seq<string> {
    if requested == [] then []
    else (if requested[0] in inferred then [requested[0]] else []) + Shared(requested[1..], inferred)
  }

  /** Which domains a contract is about. */
  lemma EffectiveIff(inferred: seq<string>, requested: Option<seq<string>>, mentionsTests: bool, d: string)
    ensures d in Effective(inferred, requested, mentionsTests)
       <==> || (mentionsTests && d == "tests")
            || (d in inferred
                && (requested.None? || d in requested.value || forall e :: e in requested.value ==> e !in inferred))
  {
    if requested.Some? {
      SharedIff(requested.value, inferred, d);
      if Shared(requested.value, inferred) == [] {
        forall e | e in requested.value
          ensures e !in inferred
        {
          SharedIff(requested.value, inferred, e);
        }
      } else {
        SharedIff(requested.value, inferred, Shared(requested.value, inferred)[0]);
      }
    }
  }

  lemma {:induction false} SharedIff(requested: seq<string>, inferred: seq<string>, d: string)
    ensures d in Shared(requested, inferred) <==> d in requested && d in inferred
    decreases |requested|
  {
    if requested != [] {
      SharedIff(requested[1..], inferred, d);
      assert requested == [requested[0]] + requested[1..];
    }
  }

  /** Every known one of the first `n` domains has its criterion. */
  ghost predicate AllDescribed(cs: seq<Criterion>, domains: seq<string>, n: nat)
    requires n <= |domains|
  {
    forall j :: 0 <= j < n && DomainText(domains[j]).Some? ==> Described(cs, DomainText(domains[j]).value)
  }

  /** One more domain: its criterion is added unless its text stands there already. */
  method AddDomain(cs: seq<Criterion>, ghost summary: string, domains: seq<string>, n: nat)
    returns (criteria: seq<Criterion>)
    requires n < |domains| && Synthesized(cs, summary, domains) && IdsDiffer(cs) && AllDescribed(cs, domains, n)
    ensures Synthesized(criteria, summary, domains) && IdsDiffer(criteria) && AllDescribed(criteria, domains, n + 1)
  {
    criteria := cs;
    var text := DomainText(domains[n]);
    if text.Some? && !Described(cs, text.value) {
      SynthesizedStep(cs, summary, domains, domains[n]);
      criteria := cs + [DomainCriterion(domains[n])];
    }
  }

  /**
   The contract of a task: it is never empty, its ids are distinct and not of the generated
   form, nothing in it is verified, and every known domain it is about has its criterion.
   */
  method SynthesizeCriteria(summary: string, inferred: seq<string>, requested: Option<seq<string>>, mentionsTests: bool)
    returns (criteria: seq<Criterion>)
    ensures NewContract(criteria) && Synthesized(criteria, summary, Effective(inferred, requested, mentionsTests))
    ensures var domains := Effective(inferred, requested, mentionsTests);
            AllDescribed(criteria, domains, |domains|)
  {
    var effective := Effective(inferred, requested, mentionsTests);
    criteria := DomainCriteria(summary, effective);
  }

  method DomainCriteria(summary: string, effective: seq<string>) returns (criteria: seq<Criterion>)
    ensures NewContract(criteria) && Synthesized(criteria, summary, effective)
    ensures AllDescribed(criteria, effective, |effective|)
  {
    criteria := [TaskCriterion(summary)];
    for n := 0 to |effective|
      invariant Synthesized(criteria, summary, effective) && IdsDiffer(criteria)
      invariant AllDescribed(criteria, effective, n)
    {
      criteria := AddDomain(criteria, summary, effective, n);
    }
    SynthesizedNew(criteria, summary, effective);
  }

  // ---------------------------------------------------------------- the engines

  function CountStatus(m: seq<Entry>, status: CheckStatus): nat {
    if m == [] then 0 else CountStatus(m[..|m| - 1], status) + (if m[|m| - 1].status == status then 1 else 0)
  }

  lemma {:induction false} CountPositive(m: seq<Entry>, status: CheckStatus)
    ensures CountStatus(m, status) > 0 <==> SomeStatus(m, status)
    decreases |m|
  {
    if m != [] {
      var front := m[..|m| - 1];
      CountPositive(front, status);
      if SomeStatus(front, status) {
        var k :| 0 <= k < |front| && front[k].status == status;
        assert m[k].status == status;
      }
      if SomeStatus(m, status) && m[|m| - 1].status != status {
        var k :| 0 <= k < |m| && m[k].status == status;
        assert front[k].status == status;
      }
    }
  }

  class VerificationMatrixEngine {
    var entries: seq<Entry>

    constructor ()
      ensures entries == []
    {
      entries := [];
    }

    method AddEntry(check: string, status: CheckStatus)
      modifies this
      ensures entries == old(entries) + [Entry(check, status)]
    {
      entries := entries + [Entry(check, status)];
    }

    /** False when the matrix has no entry for the check. */
    method UpdateStatus(check: string, status: CheckStatus) returns (found: bool)
      modifies this
      ensures found <==> Find(old(entries), check).Some?
      ensures entries == Recorded(old(entries), check, status, false)
    {
      var k := 0;
      assert entries[0..] == entries;
      while k < |entries| && entries[k].check != check
        invariant 0 <= k <= |entries|
        invariant Find(entries, check)
                  == match Find(entries[k..], check) case None => None case Some(j) => Some(k + j)
      {
        assert entries[k..][1..] == entries[k + 1..];
        k := k + 1;
      }
      found := k < |entries|;
      if found { entries := entries[k := Entry(check, status)]; }
    }

    /** The counts of passed and failed entries. */
    method GetSummary() returns (passed: nat, failed: nat)
      ensures passed == CountStatus(entries, Passed) && failed == CountStatus(entries, Failed)
    {
      passed, failed := 0, 0;
      for k := 0 to |entries|
        invariant passed == CountStatus(entries[..k], Passed) && failed == CountStatus(entries[..k], Failed)
      {
        assert entries[..k + 1][..k] == entries[..k];
        if entries[k].status == Passed { passed := passed + 1; }
        if entries[k].status == Failed { failed := failed + 1; }
      }
      assert entries[..|entries|] == entries;
    }
  }

  class AcceptanceContractEngine {
    var contract: Option<seq<Criterion>>

    constructor (criteria: Option<seq<Criterion>>)
      ensures contract == criteria
    {
      contract := criteria;
    }

    method UpdateCriterionStatus(id: string, status: CriterionStatus, evidenceRef: string)
      requires contract.Some?
      modifies this
      ensures contract == Some(UpdatedAll(old(contract).value, id, status, evidenceRef))
    {
      contract := Some(UpdatedAll(contract.value, id, status, evidenceRef));
    }

    method AddCriterion(criterion: Criterion)
      requires contract.Some?
      modifies this
      ensures contract == Some(old(contract).value + [criterion])
    {
      contract := Some(contract.value + [criterion]);
    }
  }

  // ---------------------------------------------------------------- the tool handlers

  class ToolExecutor {
    const acceptanceEngine: AcceptanceContractEngine
    const verificationEngine: VerificationMatrixEngine
    ghost var events: seq<Event>
    ghost var marks: seq<Mark>

    constructor (acceptance: AcceptanceContractEngine, verification: VerificationMatrixEngine)
      ensures acceptanceEngine == acceptance && verificationEngine == verification
      ensures events == [] && marks == []
    {
      acceptanceEngine, verificationEngine, events, marks := acceptance, verification, [], [];
    }

    ghost function View(): Ledger
      reads this, acceptanceEngine, verificationEngine
    {
      Ledger(acceptanceEngine.contract, verificationEngine.entries, events, marks)
    }

    /** A status goes into the matrix; an unknown check is added when `add` says so. */
    method RecordCheck(check: string, status: CheckStatus, ghost declared: bool, add: bool)
      modifies this, verificationEngine
      ensures View() == Note(old(View()), check, status, declared, add)
    {
      var found := verificationEngine.UpdateStatus(check, status);
      if !found && add { verificationEngine.AddEntry(check, status); }
      if found || add { events := events + [Event(check, status, declared)]; }
    }

    method HandleRunVerification(results: seq<CheckRun>)
      modifies this, verificationEngine
      ensures View() == Apply(old(View()), RunVerification(results))
    {
      for k := 0 to |results|
        invariant View() == NoteAll(old(View()), results[..k])
      {
        assert results[..k + 1][..k] == results[..k];
        RecordCheck(results[k].kind, if results[k].passed then Passed else Failed, false, true);
      }
      assert results[..|results|] == results;
    }

    method HandleRunCommand(kind: Option<string>, passed: bool)
      modifies this, verificationEngine
      ensures View() == Apply(old(View()), RunCommand(kind, passed))
    {
      if kind.Some? { RecordCheck(kind.value, if passed then Passed else Failed, false, true); }
    }

    method HandleRunTests(checkName: Option<string>, passed: bool)
      modifies this, verificationEngine
      ensures View() == Apply(old(View()), RunTests(checkName, passed))
    {
      if checkName.Some? { RecordCheck(checkName.value, if passed then Passed else Failed, false, false); }
    }

    method HandleVerifyCheck(check: string, status: CheckStatus)
      modifies this, verificationEngine
      ensures View() == Apply(old(View()), VerifyCheck(check, status))
    {
      RecordCheck(check, status, true, true);
    }

    method HandleUpdateAcceptance(id: string, rawStatus: string, evidenceRef: string) returns (updated: bool)
      modifies this, acceptanceEngine
      ensures View() == Apply(old(View()), UpdateAcceptance(id, rawStatus, evidenceRef))
      ensures updated <==> old(View()).contract.Some? && (rawStatus == "passed" || rawStatus == "verified" ==>
                Evidence(verificationEngine.entries, RequiredOf(old(View()).contract.value, id)))
    {
      if acceptanceEngine.contract.None? { return false; }
      var criteria := acceptanceEngine.contract.value;
      var status := StatusOf(rawStatus);
      if status.Verified? {
        var required := RequiredOf(criteria, id);
        var missing := false;
        for k := 0 to |required|
          invariant missing <==> exists j :: 0 <= j < k && !HasStatus(verificationEngine.entries, required[j], Passed)
        {
          if !HasStatus(verificationEngine.entries, required[k], Passed) { missing := true; }
        }
        if |required| > 0 && missing { return false; }
        if |required| == 0 && !SomeStatus(verificationEngine.entries, Passed) { return false; }
        marks := marks + [Mark(id, required, false, |events|)];
      }
      acceptanceEngine.UpdateCriterionStatus(id, status, evidenceRef);
      updated := true;
    }

    method HandleAddAcceptanceCriterion(input: string, suffix: string, requiredChecks: seq<string>)
      modifies acceptanceEngine
      ensures View() == Apply(old(View()), AddCriterion(input, suffix, requiredChecks))
      ensures old(acceptanceEngine.contract).Some? && Trim(input) != "" ==>
        acceptanceEngine.contract
        == Some(old(acceptanceEngine.contract).value
                + [Criterion("ac-" + Decimal(|old(acceptanceEngine.contract).value| + 1) + "-" + suffix, Trim(input),
                             NeedsReview, [], requiredChecks)])
    {
      var description := Trim(input);
      if description == "" || acceptanceEngine.contract.None? { return; }
      var id := AcId(|acceptanceEngine.contract.value| + 1, suffix);
      acceptanceEngine.AddCriterion(Criterion(id, description, NeedsReview, [], requiredChecks));
    }

    /** Every pending criterion of the contract as it stands is marked verified. */
    method AutoVerifyPending()
      requires ContractSound(View())
      modifies this`marks, acceptanceEngine
      ensures acceptanceEngine.contract
              == if old(acceptanceEngine.contract).Some?
                 then Some(AutoVerifiedAll(old(acceptanceEngine.contract).value)) else None
      ensures marks
              == if old(acceptanceEngine.contract).Some?
                 then old(marks) + AutoMarks(old(acceptanceEngine.contract).value, |events|) else old(marks)
    {
      if acceptanceEngine.contract.None? { return; }
      var criteria := acceptanceEngine.contract.value;
      assert old(marks) + [] == old(marks);
      for k := 0 to |criteria|
        invariant acceptanceEngine.contract.Some? && |acceptanceEngine.contract.value| == |criteria|
        invariant forall j :: 0 <= j < k ==> acceptanceEngine.contract.value[j] == AutoVerified(criteria[j])
        invariant forall j :: k <= j < |criteria| ==> acceptanceEngine.contract.value[j] == criteria[j]
        invariant marks == old(marks) + AutoMarks(criteria[..k], |events|)
      {
        assert criteria[..k + 1][..k] == criteria[..k];
        var c := criteria[k];
        if !c.status.Verified? && !c.status.Failing? && !c.status.Blocked? {
          ConcatAssoc(old(marks), AutoMarks(criteria[..k], |events|), [Mark(c.id, c.requiredChecks, true, |events|)]);
          marks := marks + [Mark(c.id, c.requiredChecks, true, |events|)];
          acceptanceEngine.UpdateCriterionStatus(c.id, Verified, AUTO_REF);
        }
      }
      assert criteria[..|criteria|] == criteria;
      assert acceptanceEngine.contract.value == AutoVerifiedAll(criteria);
    }

    /** The matrix is consulted, and with passing checks and no failing one the pending criteria are verified. */
    method ConsultMatrix()
      requires ContractSound(View())
      modifies this`marks, acceptanceEngine
      ensures View() == AutoVerify(old(View()))
    {
      var passed, failed := verificationEngine.GetSummary();
      CountPositive(verificationEngine.entries, Passed);
      CountPositive(verificationEngine.entries, Failed);
      if passed > 0 && failed == 0 { AutoVerifyPending(); }
    }

    method HandleFinishTask(completed: bool) returns (accepted: bool)
      requires ContractSound(View())
      modifies this`marks, acceptanceEngine
      ensures View() == Apply(old(View()), FinishTask(completed))
      ensures accepted <==> FinishAccepted(old(View()), completed)
    {
      if completed {
        if !AllVerified(acceptanceEngine.contract) { ConsultMatrix(); }
        if !AllVerified(acceptanceEngine.contract) { return false; }
      }
      accepted := true;
    }

    /** The agent loop's reaction to a passing test verification (agent-loop.ts:1902-1932). */
    method CompleteAfterTests(filesTouched: bool) returns (completed: bool)
      requires ContractSound(View())
      modifies this`marks, acceptanceEngine
      ensures View() == Apply(old(View()), TestsVerified(filesTouched))
      ensures completed <==> LoopCompletes(old(View()), filesTouched)
    {
      var passed, failed := verificationEngine.GetSummary();
      CountPositive(verificationEngine.entries, Passed);
      CountPositive(verificationEngine.entries, Failed);
      completed := filesTouched && passed > 0 && failed == 0;
      if completed { AutoVerifyPending(); }
    }
  }
}
