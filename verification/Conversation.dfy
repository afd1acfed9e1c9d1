/**
 What the agent loop does with one model completion
 (packages/forge-agent/src/agent-loop.ts:1506-1972): the message log, the tool calls
 and the guards, with compaction of the log (2460-2514).
 */
module Conversation {
  import opened Text
  import opened WireMessages

  // ---------------------------------------------------------------- what comes from outside

  datatype Decision = Allow | Deny | Ask

  /** A parsed test run: how many tests failed, and of how many if that is known. */
  datatype TestReport = TestReport(failing: nat, total: Option<nat>)

  datatype Status = Completed | Blocked | OtherStatus

  /** What the result of an executed call asks of the loop, besides being logged. */
  datatype Signal =
    | NoSignal
    | Finish(status: Status, uiFails: bool)
    | TestsVerified(gate: bool)
    | Question(requiresHuman: bool)

  /** The result of a call; `treeChanged` says whether files are different after it, noticed or not. */
  datatype ToolResponse = ToolResponse(content: string, failed: bool, report: Option<TestReport>,
                                       treeChanged: bool, discovery: Option<string>, signal: Signal)

  /** The tools the loop knows by name. */
  datatype ToolKind = WriteFile | EditFile | RunTests | RunCommand | RunVerification | VerifyCheck | OtherTool

  /** A tool call with what the permission engine, the command classifiers and the tools say about it. */
  datatype Request = Request(call: ToolCall, kind: ToolKind, hasPath: bool, buildOrTest: bool, mutating: bool,
                             decision: Decision, reply: string, result: ToolResponse)

  datatype Completion =
    | Failed(summary: string)
    | Reply(content: string, requests: seq<Request>, cutOff: bool)

  predicate IsEdit(r: Request) {
    (r.kind.WriteFile? || r.kind.EditFile?) && r.hasPath
  }

  predicate IsTestRun(r: Request) {
    r.kind.RunTests? || (r.kind.RunCommand? && r.buildOrTest)
  }

  predicate IsShellEdit(r: Request) {
    r.kind.RunCommand? && r.mutating && !r.result.failed
  }

  predicate IsVerification(r: Request) {
    IsTestRun(r) || IsShellEdit(r) || r.kind.RunVerification? || r.kind.VerifyCheck?
  }

  predicate ChangesFiles(r: Request) {
    IsEdit(r) || (IsShellEdit(r) && r.result.treeChanged)
  }

  // ---------------------------------------------------------------- state

  /**
   What has been executed: a tracked edit, a test or build run (which may itself change files),
   or some other call that changed files.
   */
  datatype Ran = EditRan | TestRan(inEdit: bool, changed: bool) | TreeChanged

  /** What is known of the tests; `history` records the edits, the runs and the changes of files so far. */
  datatype Tests = Tests(ranSinceEdit: bool, suiteTotal: nat, failing: Option<nat>, history: seq<Ran>)

  /** The part of the loop's state a completion works on; `cuts` counts the compactions of the log. */
  datatype Chat = Chat(log: seq<Message>, tests: Tests, found: set<string>, noTool: nat, errors: nat,
                       editIdle: nat, wroteSinceVerify: bool, cuts: nat)

  datatype Verdict = Going | Ended(status: Status)

  datatype Turnout = Turnout(chat: Chat, verdict: Verdict)

  function Note(text: string): Message {
    Message(User, text, None, [], false)
  }

  function Said(content: string, calls: seq<ToolCall>): Message {
    Message(Assistant, content, None, calls, false)
  }

  function Answer(id: string, content: string): Message {
    Message(Tool, content, Some(id), [], false)
  }

  function Calls(requests: seq<Request>): seq<ToolCall> {
    seq(|requests|, k requires 0 <= k < |requests| => requests[k].call)
  }

  // ---------------------------------------------------------------- compaction

  const KEEP_START := 4
  const KEEP_END := 30

  predicate Cuts(log: seq<Message>, force: bool) {
    |log| > 12 && (force || |log| > 30)
  }

  /** The last `n` messages, or all of them. */
  function Tail(log: seq<Message>, n: nat): seq<Message> {
    if |log| <= n then log else log[|log| - n..]
  }

  function Compacted(log: seq<Message>, force: bool, summary: string): seq<Message> {
    if !Cuts(log, force) then log
    else log[..KEEP_START] + [Message(System, summary, None, [], false)] + Tail(log, KEEP_END)
  }

  function Compact(c: Chat, force: bool, summary: string): Chat {
    c.(log := Compacted(c.log, force, summary), cuts := c.cuts + (if Cuts(c.log, force) then 1 else 0))
  }

  /**
   Compaction makes the log shorter exactly from 36 messages on. Below that it repeats
   part of the head: forced on 13 to 34 messages, or unforced on 31 to 34, it makes the log longer.
   */
  lemma CompactionShrinks(log: seq<Message>, force: bool, summary: string)
    ensures |Compacted(log, force, summary)| < |log| <==> |log| >= 36
    ensures |Compacted(log, force, summary)| > |log| <==> Cuts(log, force) && |log| <= 34
    ensures |Compacted(log, force, summary)| <= if |log| > 35 then 35 else |log| + 5
    ensures if |log| > 12 && (force || |log| > 30)
            then
              && |Compacted(log, force, summary)| > 5 && Compacted(log, force, summary)[..4] == log[..4]
              && Compacted(log, force, summary)[4] == Message(System, summary, None, [], false)
              && Compacted(log, force, summary)[5..] == log[if |log| > 30 then |log| - 30 else 0..]
            else Compacted(log, force, summary) == log
  {
  }

  // ---------------------------------------------------------------- one tool call

  /** One completion's tool calls as they are worked through; `replies` become part of the log at the end. */
  datatype Pass = Pass(log: seq<Message>, tests: Tests, found: set<string>, replies: seq<Message>,
                       changed: bool, verified: bool, newRead: bool, verdict: Verdict)

  predicate Subset(t: Tests, r: TestReport) {
    r.total.Some? && 2 * r.total.value < t.suiteTotal
  }

  /** The remaining-failures state after a test run; a run of a part of the suite says nothing about the rest. */
  function Reported(t: Tests, report: Option<TestReport>): Tests {
    if report.None? then t
    else if report.value.total.Some? && report.value.total.value > t.suiteTotal then
      t.(suiteTotal := report.value.total.value, failing := Some(report.value.failing))
    else if Subset(t, report.value) then t
    else t.(failing := Some(report.value.failing))
  }

  /** The note a test run puts in the log, if any. */
  function Nudge(t: Tests, report: Option<TestReport>): seq<Message> {
    if report.None? then []
    else if Subset(t, report.value) then [Note("subset of the suite")]
    else if t.failing.Some? && report.value.failing > 0 && report.value.failing >= t.failing.value
    then [Note("failures not reduced")]
    else []
  }

  function Tracked(t: Tests, editing: bool, r: Request): Tests {
    if IsEdit(r) then t.(ranSinceEdit := false, history := t.history + [EditRan])
    else if IsTestRun(r) then
      Reported(t, r.result.report)
        .(ranSinceEdit := true, history := t.history + [TestRan(editing, r.result.treeChanged)])
    else Touched(t, r.result.treeChanged)
  }

  /** A change of files that the loop does not track leaves no trace but in the history. */
  function Touched(t: Tests, changed: bool): Tests {
    if changed then t.(history := t.history + [TreeChanged]) else t
  }

  predicate Discovers(found: set<string>, r: Request) {
    r.result.discovery.Some? && r.result.discovery.value !in found
  }

  /** An allowed call: executed, tracked and answered. */
  function Executed(p: Pass, editing: bool, r: Request): Pass {
    Pass(p.log + (if IsTestRun(r) then Nudge(p.tests, r.result.report) else []),
         Tracked(p.tests, editing, r),
         if Discovers(p.found, r) then p.found + {r.result.discovery.value} else p.found,
         p.replies + [Answer(r.call.id, r.result.content)],
         p.changed || ChangesFiles(r),
         p.verified || IsVerification(r),
         p.newRead || Discovers(p.found, r),
         p.verdict)
  }

  function Signalled(p: Pass, signal: Signal): Pass {
    match signal
    case NoSignal => p
    case Finish(status, uiFails) =>
      if status.Completed? && uiFails then p.(log := p.log + [Note("not done yet")])
      else p.(verdict := Ended(status))
    case TestsVerified(gate) => if gate then p.(verdict := Ended(Completed)) else p
    case Question(requiresHuman) =>
      if requiresHuman then p.(verdict := Ended(Blocked)) else p.(replies := p.replies + [Note("autonomy policy")])
  }

  predicate Redundant(t: Tests, editing: bool, r: Request) {
    editing && t.ranSinceEdit && IsTestRun(r)
  }

  predicate MayRun(t: Tests, editing: bool, r: Request) {
    !Redundant(t, editing, r) && r.decision.Allow?
  }

  /** An ask for anything but a shell command waits for a human. */
  predicate Waits(t: Tests, editing: bool, r: Request) {
    !Redundant(t, editing, r) && r.decision.Ask? && !r.kind.RunCommand?
  }

  function Handle(p: Pass, editing: bool, r: Request): Pass {
    if MayRun(p.tests, editing, r) then Signalled(Executed(p, editing, r), r.result.signal)
    else if Waits(p.tests, editing, r) then p.(verdict := Ended(Blocked))
    else p.(replies := p.replies + [Answer(r.call.id, r.reply)])
  }

  function HandleAll(p: Pass, editing: bool, requests: seq<Request>): Pass
    decreases |requests|
  {
    if requests == [] || p.verdict.Ended? then p
    else HandleAll(Handle(p, editing, requests[0]), editing, requests[1..])
  }

  // ---------------------------------------------------------------- one completion

  /** The EDIT guard: passes without a write, a check of a fresh write or a new read are counted and nudged. */
  function Guarded(c: Chat, changed: bool, verified: bool, newRead: bool): Chat {
    var wrote := c.wroteSinceVerify || changed;
    var d := c.(wroteSinceVerify := wrote && !verified);
    if changed || (verified && wrote) || newRead then d.(editIdle := 0)
    else if c.editIdle + 1 >= 2 then d.(editIdle := c.editIdle + 1, log := d.log + [Note("edit now")])
    else d.(editIdle := c.editIdle + 1)
  }

  function Opened(c: Chat, content: string, requests: seq<Request>): Pass {
    Pass(c.log, c.tests, c.found, [Said(content, Calls(requests))], false, false, false, Going)
  }

  function Closed(c: Chat, p: Pass, editing: bool): Turnout {
    var d := c.(log := p.log + p.replies, tests := p.tests, found := p.found, noTool := 0, errors := 0);
    Turnout(if editing && p.verdict.Going? then Guarded(d, p.changed, p.verified, p.newRead) else d, p.verdict)
  }

  function Erred(c: Chat, summary: string): Turnout {
    var d := c.(errors := c.errors + 1);
    if d.errors >= 5 then Turnout(d, Ended(Blocked))
    else
      var e := if d.errors >= 2 then Compact(d, true, summary) else d;
      Turnout(e.(log := e.log + [Note("call failed")]), Going)
  }

  function Quiet(c: Chat, content: string, canComplete: bool): Turnout {
    var d := c.(errors := 0, noTool := c.noTool + 1, log := c.log + [Said(content, [])]);
    if canComplete then Turnout(d, Ended(Completed))
    else if d.noTool >= 4 then Turnout(d, Ended(Blocked))
    else Turnout(d.(log := d.log + [Note("use the tools")]), Going)
  }

  function Converse(c: Chat, editing: bool, canComplete: bool, completion: Completion): Turnout {
    match completion
    case Failed(summary) => Erred(c, summary)
    case Reply(content, requests, cutOff) =>
      if requests != [] then Closed(c, HandleAll(Opened(c, content, requests), editing, requests), editing)
      else if cutOff then
        Turnout(c.(errors := 0, log := c.log + [Said(content, []), Note("cut off")]), Going)
      else Quiet(c, content, canComplete)
  }

  // ---------------------------------------------------------------- edits between test runs

  /** A test has run since the last tracked edit. */
  predicate TestSince(h: seq<Ran>) {
    h != [] && (h[|h| - 1].TestRan? || (h[|h| - 1].TreeChanged? && TestSince(h[..|h| - 1])))
  }

  lemma {:induction false} TestSinceIff(h: seq<Ran>)
    ensures TestSince(h) <==>
              exists i :: 0 <= i < |h| && h[i].TestRan? && forall k :: i < k < |h| ==> !h[k].EditRan?
    decreases |h|
  {
    if h != [] {
      var front := h[..|h| - 1];
      TestSinceIff(front);
      if i :| 0 <= i < |front| && front[i].TestRan? && forall k :: i < k < |front| ==> !front[k].EditRan? {
        assert h[i].TestRan? && forall k :: i < k < |front| ==> h[k] == front[k];
      }
      if i :| 0 <= i < |h| && h[i].TestRan? && forall k :: i < k < |h| ==> !h[k].EditRan? {
        assert i < |front| ==> front[i].TestRan? && forall k :: i < k < |front| ==> front[k] == h[k];
      }
    }
  }

  /** The flag is right about the history, and no run in EDIT had another one before it since the last tracked edit. */
  ghost predicate Spaced(t: Tests) {
    && (t.ranSinceEdit <==> TestSince(t.history))
    && forall k :: 0 <= k < |t.history| && t.history[k].TestRan? && t.history[k].inEdit ==> !TestSince(t.history[..k])
  }

  lemma HandleTests(p: Pass, editing: bool, r: Request)
    ensures Handle(p, editing, r).tests
            == if MayRun(p.tests, editing, r) then Tracked(p.tests, editing, r) else p.tests
  {
  }

  /** What an executed call adds to the history: an edit, a run, or a change of files. */
  function RecordOf(editing: bool, r: Request): seq<Ran> {
    var tree := if r.result.treeChanged then [TreeChanged] else [];
    match r.kind
    case WriteFile => if r.hasPath then [EditRan] else tree
    case EditFile => if r.hasPath then [EditRan] else tree
    case RunTests => [TestRan(editing, r.result.treeChanged)]
    case RunCommand => if r.buildOrTest then [TestRan(editing, r.result.treeChanged)] else tree
    case _ => tree
  }

  lemma TrackedHistory(t: Tests, editing: bool, r: Request)
    ensures Tracked(t, editing, r).history == t.history + RecordOf(editing, r)
  {
    assert t.history + [] == t.history;
  }

  /** Exactly the allowed calls that are no redundant test runs are executed, and the history says what they were. */
  lemma HandleHistory(p: Pass, editing: bool, r: Request)
    ensures Handle(p, editing, r).tests.history
            == p.tests.history
               + if r.decision.Allow? && !Redundant(p.tests, editing, r) then RecordOf(editing, r) else []
  {
    HandleTests(p, editing, r);
    TrackedHistory(p.tests, editing, r);
    assert p.tests.history + [] == p.tests.history;
  }

  lemma TrackedSpaced(t: Tests, editing: bool, r: Request)
    requires Spaced(t) && !Redundant(t, editing, r)
    ensures Spaced(Tracked(t, editing, r))
  {
    if IsEdit(r) {
      SpacedSnoc(t, EditRan, Tracked(t, editing, r));
    } else if IsTestRun(r) {
      SpacedSnoc(t, TestRan(editing, r.result.treeChanged), Tracked(t, editing, r));
    } else {
      TouchedSpaced(t, r.result.treeChanged);
    }
  }

  lemma TouchedSpaced(t: Tests, changed: bool)
    requires Spaced(t)
    ensures Spaced(Touched(t, changed))
  {
    if changed { SpacedSnoc(t, TreeChanged, Touched(t, changed)); }
  }

  lemma SpacedSnoc(t: Tests, ran: Ran, u: Tests)
    requires Spaced(t) && u.history == t.history + [ran] && (ran.TestRan? && ran.inEdit ==> !t.ranSinceEdit)
    requires u.ranSinceEdit <==> ran.TestRan? || (ran.TreeChanged? && t.ranSinceEdit)
    ensures Spaced(u)
  {
    var h := u.history;
    assert h[..|h| - 1] == t.history;
    assert forall k :: 0 <= k < |t.history| ==> h[k] == t.history[k] && h[..k] == t.history[..k];
  }

  lemma {:induction false} HandleAllSpaced(p: Pass, editing: bool, requests: seq<Request>)
    requires Spaced(p.tests)
    ensures Spaced(HandleAll(p, editing, requests).tests)
    decreases |requests|
  {
    if requests != [] && p.verdict.Going? {
      HandleTests(p, editing, requests[0]);
      if MayRun(p.tests, editing, requests[0]) { TrackedSpaced(p.tests, editing, requests[0]); }
      HandleAllSpaced(Handle(p, editing, requests[0]), editing, requests[1..]);
    }
  }

  lemma ConverseSpaced(c: Chat, editing: bool, canComplete: bool, completion: Completion)
    requires Spaced(c.tests)
    ensures Spaced(Converse(c, editing, canComplete, completion).chat.tests)
  {
    if completion.Reply? && completion.requests != [] {
      HandleAllSpaced(Opened(c, completion.content, completion.requests), editing, completion.requests);
    }
  }

  /** Between a test run and a later one made in EDIT, a tracked edit was executed. */
  lemma EditBetweenTests(t: Tests, i: nat, j: nat)
    requires Spaced(t) && i < j < |t.history|
    requires t.history[i].TestRan? && t.history[j].TestRan? && t.history[j].inEdit
    ensures exists k :: i < k < j && t.history[k].EditRan?
  {
    var before := t.history[..j];
    TestSinceIff(before);
    assert before[i].TestRan?;
    var k :| i < k < j && before[k].EditRan?;
    assert t.history[k].EditRan?;
  }

  // ---------------------------------------------------------------- the redundant-run guard

  /** The last thing executed is a test run that changed no file: running again would tell nothing new. */
  predicate Unchanged(h: seq<Ran>) {
    h != [] && h[|h| - 1].TestRan? && !h[|h| - 1].changed
  }

  /** Since the last test run, or by it, files were changed, and only by calls the loop does not track. */
  ghost predicate ChangedUntracked(h: seq<Ran>) {
    exists i :: 0 <= i < |h| && h[i].TestRan? && (h[i].changed || i < |h| - 1) && OnlyTree(h, i)
  }

  predicate OnlyTree(h: seq<Ran>, i: int) {
    forall k :: i < k < |h| && k >= 0 ==> h[k].TreeChanged?
  }

  lemma {:induction false} TestSinceSplit(h: seq<Ran>)
    ensures TestSince(h) <==> Unchanged(h) || ChangedUntracked(h)
    ensures !(Unchanged(h) && ChangedUntracked(h))
    decreases |h|
  {
    if h != [] && h[|h| - 1].TestRan? {
      assert OnlyTree(h, |h| - 1);
    } else if h != [] {
      var front := h[..|h| - 1];
      TestSinceSplit(front);
      if h[|h| - 1].TreeChanged? && TestSince(front) {
        var i := LastTest(front);
        assert h[i].TestRan? && OnlyTree(h, i);
      }
      if i :| 0 <= i < |h| && h[i].TestRan? && (h[i].changed || i < |h| - 1) && OnlyTree(h, i) {
        assert front[i].TestRan? && OnlyTree(front, i);
        if i == |front| - 1 && !front[i].changed { assert Unchanged(front); }
      }
    }
  }

  lemma {:induction false} LastTest(h: seq<Ran>) returns (i: nat)
    requires TestSince(h)
    ensures i < |h| && h[i].TestRan? && OnlyTree(h, i)
    decreases |h|
  {
    i := |h| - 1;
    if !h[i].TestRan? {
      i := LastTest(h[..|h| - 1]);
      assert forall k :: 0 <= k < |h| - 1 ==> h[..|h| - 1][k] == h[k];
    }
  }

  /**
   What the guard does: in EDIT it blocks every test run that would tell nothing new, and
   besides exactly those where files were changed since the last run, or by it, by calls the
   loop does not track, with no tracked edit in between.
   */
  lemma GuardIff(t: Tests, editing: bool, r: Request)
    requires Spaced(t)
    ensures Redundant(t, editing, r) <==>
              editing && IsTestRun(r) && (Unchanged(t.history) || ChangedUntracked(t.history))
    ensures Redundant(t, editing, r) && !Unchanged(t.history) <==>
              editing && IsTestRun(r) && ChangedUntracked(t.history)
  {
    TestSinceSplit(t.history);
  }

  /** A call that changes files and is no tracked edit, be it a test run, leaves the run that would check it blocked. */
  lemma ChangeStaysBlocked(p: Pass, editing: bool, change: Request, test: Request)
    requires Spaced(p.tests) && MayRun(p.tests, editing, change) && !IsEdit(change) && change.result.treeChanged
    requires IsTestRun(test) && (p.tests.ranSinceEdit || IsTestRun(change))
    ensures var q := Handle(p, editing, change);
            && Spaced(q.tests) && ChangedUntracked(q.tests.history) && Redundant(q.tests, true, test)
            && Handle(q, true, test) == q.(replies := q.replies + [Answer(test.call.id, test.reply)])
  {
    HandleTests(p, editing, change);
    TrackedSpaced(p.tests, editing, change);
    var t := Tracked(p.tests, editing, change);
    assert !Unchanged(t.history);
    GuardIff(t, true, test);
  }

  // ---------------------------------------------------------------- remaining failures

  function ReportedAll(t: Tests, reports: seq<TestReport>): Tests {
    if reports == [] then t
    else Reported(ReportedAll(t, reports[..|reports| - 1]), Some(reports[|reports| - 1]))
  }

  function LargestTotal(reports: seq<TestReport>): nat {
    if reports == [] then 0
    else
      var before, last := LargestTotal(reports[..|reports| - 1]), reports[|reports| - 1];
      if last.total.Some? && last.total.value > before then last.total.value else before
  }

  /** A run of at least half of the largest suite seen up to it, or of unknown size. */
  predicate Full(reports: seq<TestReport>, k: nat)
    requires k < |reports|
  {
    reports[k].total.None? || 2 * reports[k].total.value >= LargestTotal(reports[..k + 1])
  }

  function LastFull(reports: seq<TestReport>, n: nat): (k: Option<nat>)
    requires n <= |reports|
    ensures k.Some? ==> k.value < n && Full(reports, k.value)
  {
    if n == 0 then None else if Full(reports, n - 1) then Some(n - 1) else LastFull(reports, n - 1)
  }

  /** What the log says of a run: that it was a part of the suite only, or that no fewer tests fail than before. */
  function NudgeAt(reports: seq<TestReport>, n: nat): seq<Message>
    requires n < |reports|
  {
    var before := LastFull(reports, n);
    if !Full(reports, n) then [Note("subset of the suite")]
    else if before.Some? && reports[n].failing > 0 && reports[n].failing >= reports[before.value].failing
    then [Note("failures not reduced")]
    else []
  }

  /** Over every sequence of test runs the remaining failures are those of the last full run, whatever ran since. */
  lemma {:induction false} RemainingFailures(t: Tests, reports: seq<TestReport>, n: nat)
    requires t.suiteTotal == 0 && t.failing.None? && n <= |reports|
    ensures ReportedAll(t, reports[..n]).suiteTotal == LargestTotal(reports[..n])
    ensures ReportedAll(t, reports[..n]).failing
            == if LastFull(reports, n).None? then None else Some(reports[LastFull(reports, n).value].failing)
  {
    if n > 0 {
      RemainingFailures(t, reports, n - 1);
      assert reports[..n][..n - 1] == reports[..n - 1];
      assert reports[..n][n - 1] == reports[n - 1];
    }
  }

  /** And the note a run puts in the log compares it with that full run. */
  lemma RunNudges(t: Tests, reports: seq<TestReport>, n: nat)
    requires t.suiteTotal == 0 && t.failing.None? && n < |reports|
    ensures Nudge(ReportedAll(t, reports[..n]), Some(reports[n])) == NudgeAt(reports, n)
  {
    RemainingFailures(t, reports, n);
    assert reports[..n + 1][..n] == reports[..n] && reports[..n + 1][n] == reports[n];
  }

  // ---------------------------------------------------------------- every call answered

  function Ids(calls: seq<ToolCall>): set<string> {
    if calls == [] then {} else Ids(calls[..|calls| - 1]) + {calls[|calls| - 1].id}
  }

  /** The ids asked for in a log, and those not answered since. */
  function AskedIn(log: seq<Message>): set<string> {
    if log == [] then {}
    else
      var last := log[|log| - 1];
      AskedIn(log[..|log| - 1]) + (if last.role.Assistant? then Ids(last.toolCalls) else {})
  }

  function Unanswered(log: seq<Message>): set<string> {
    if log == [] then {}
    else
      var last, before := log[|log| - 1], Unanswered(log[..|log| - 1]);
      match last.role
      case Assistant => before + Ids(last.toolCalls)
      case Tool => if last.toolCallId.Some? then before - {last.toolCallId.value} else before
      case _ => before
  }

  /** Every tool message answers a call that stands before it. */
  predicate InOrder(log: seq<Message>) {
    log == [] ||
    (var front, last := log[..|log| - 1], log[|log| - 1];
     && InOrder(front)
     && (last.role.Tool? ==> last.toolCallId.Some? && last.toolCallId.value in AskedIn(front)))
  }

  /**
   Every tool call in the log is answered by a later tool message with its id, and every
   tool message was asked for.
   */
  predicate Settled(log: seq<Message>) {
    InOrder(log) && Unanswered(log) == {}
  }

  lemma Push(log: seq<Message>, m: Message)
    ensures AskedIn(log + [m]) == AskedIn(log) + (if m.role.Assistant? then Ids(m.toolCalls) else {})
    ensures InOrder(log + [m]) <==>
              InOrder(log) && (m.role.Tool? ==> m.toolCallId.Some? && m.toolCallId.value in AskedIn(log))
    ensures m.role.Assistant? ==> Unanswered(log + [m]) == Unanswered(log) + Ids(m.toolCalls)
    ensures m.role.Tool? && m.toolCallId.Some? ==> Unanswered(log + [m]) == Unanswered(log) - {m.toolCallId.value}
    ensures m.role.User? || m.role.System? ==> Unanswered(log + [m]) == Unanswered(log)
  {
    assert (log + [m])[..|log + [m]| - 1] == log;
    assert (log + [m])[|log|] == m;
  }

  lemma PushNote(log: seq<Message>, text: string)
    requires Settled(log)
    ensures Settled(log + [Note(text)])
  {
    Push(log, Note(text));
  }

  lemma PushSaid(log: seq<Message>, content: string)
    requires Settled(log)
    ensures Settled(log + [Said(content, [])])
  {
    Push(log, Said(content, []));
  }

  lemma {:induction false} AskedConcat(a: seq<Message>, b: seq<Message>)
    ensures AskedIn(a + b) == AskedIn(a) + AskedIn(b)
    decreases |b|
  {
    if b == [] {
      assert a + b == a;
    } else {
      AskedConcat(a, b[..|b| - 1]);
      assert (a + b)[..|a + b| - 1] == a + b[..|b| - 1] && (a + b)[|a + b| - 1] == b[|b| - 1];
    }
  }

  lemma {:induction false} UnansweredConcat(a: seq<Message>, b: seq<Message>)
    requires Unanswered(a) == {}
    ensures Unanswered(a + b) == Unanswered(b)
    decreases |b|
  {
    if b == [] {
      assert a + b == a;
    } else {
      UnansweredConcat(a, b[..|b| - 1]);
      assert (a + b)[..|a + b| - 1] == a + b[..|b| - 1] && (a + b)[|a + b| - 1] == b[|b| - 1];
    }
  }

  lemma {:induction false} InOrderConcat(a: seq<Message>, b: seq<Message>)
    requires InOrder(a) && InOrder(b)
    ensures InOrder(a + b)
    decreases |b|
  {
    if b == [] {
      assert a + b == a;
    } else {
      InOrderConcat(a, b[..|b| - 1]);
      AskedConcat(a, b[..|b| - 1]);
      assert (a + b)[..|a + b| - 1] == a + b[..|b| - 1] && (a + b)[|a + b| - 1] == b[|b| - 1];
    }
  }

  lemma {:induction false} IdsOf(requests: seq<Request>, k: nat)
    requires k < |requests|
    ensures requests[k].call.id in Ids(Calls(requests))
    decreases |requests|
  {
    var front := requests[..|requests| - 1];
    assert Calls(requests)[..|requests| - 1] == Calls(front);
    if k < |requests| - 1 { IdsOf(front, k); }
  }

  predicate Among(requests: seq<Request>, ids: set<string>) {
    forall k :: 0 <= k < |requests| ==> requests[k].call.id in ids
  }

  function RequestIds(requests: seq<Request>): set<string> {
    if requests == [] then {} else {requests[0].call.id} + RequestIds(requests[1..])
  }

  /** While calls are worked through, of the replies only calls still to come are unanswered. */
  ghost predicate Answering(replies: seq<Message>, going: bool, todo: seq<Request>) {
    && InOrder(replies) && Among(todo, AskedIn(replies))
    && (going ==> Unanswered(replies) <= RequestIds(todo))
  }

  lemma PushAnswer(replies: seq<Message>, todo: seq<Request>, content: string)
    requires todo != [] && Answering(replies, true, todo)
    ensures Answering(replies + [Answer(todo[0].call.id, content)], true, todo[1..])
  {
    Push(replies, Answer(todo[0].call.id, content));
  }

  lemma PushPolicy(replies: seq<Message>, going: bool, todo: seq<Request>)
    requires Answering(replies, going, todo)
    ensures Answering(replies + [Note("autonomy policy")], going, todo)
  {
    Push(replies, Note("autonomy policy"));
  }

  predicate NotesPolicy(t: Tests, editing: bool, r: Request) {
    MayRun(t, editing, r) && r.result.signal.Question? && !r.result.signal.requiresHuman
  }

  /** Every call is answered, with its result if it was executed, unless it waits for a human. */
  lemma HandleReplies(p: Pass, editing: bool, r: Request)
    ensures Waits(p.tests, editing, r) <==>
              r.decision.Ask? && !r.kind.RunCommand? && !Redundant(p.tests, editing, r)
    ensures MayRun(p.tests, editing, r) <==> r.decision.Allow? && !Redundant(p.tests, editing, r)
    ensures Waits(p.tests, editing, r) ==>
              Handle(p, editing, r).replies == p.replies && Handle(p, editing, r).verdict.Ended?
    ensures !Waits(p.tests, editing, r) ==>
              Handle(p, editing, r).replies
              == p.replies
                 + [Message(Tool, if MayRun(p.tests, editing, r) then r.result.content else r.reply,
                            Some(r.call.id), [], false)]
                 + (if NotesPolicy(p.tests, editing, r) then [Note("autonomy policy")] else [])
  {
  }

  lemma HandleAnswers(p: Pass, editing: bool, todo: seq<Request>)
    requires todo != [] && p.verdict.Going? && Answering(p.replies, true, todo)
    ensures var q := Handle(p, editing, todo[0]); Answering(q.replies, q.verdict.Going?, todo[1..])
  {
    var r := todo[0];
    HandleReplies(p, editing, r);
    var content := if MayRun(p.tests, editing, r) then r.result.content else r.reply;
    PushAnswer(p.replies, todo, content);
    PushPolicy(p.replies + [Answer(r.call.id, content)], true, todo[1..]);
    assert p.replies + [Answer(r.call.id, content)] + [] == p.replies + [Answer(r.call.id, content)];
  }

  lemma ExecutedLog(p: Pass, editing: bool, r: Request)
    requires Settled(p.log)
    ensures Settled(Executed(p, editing, r).log)
  {
    PushNote(p.log, "subset of the suite");
    PushNote(p.log, "failures not reduced");
    assert p.log + [] == p.log;
  }

  lemma SignalledLog(p: Pass, signal: Signal)
    requires Settled(p.log)
    ensures Settled(Signalled(p, signal).log)
  {
    PushNote(p.log, "not done yet");
  }

  lemma HandleLog(p: Pass, editing: bool, r: Request)
    requires Settled(p.log)
    ensures Settled(Handle(p, editing, r).log)
  {
    ExecutedLog(p, editing, r);
    SignalledLog(Executed(p, editing, r), r.result.signal);
  }

  lemma {:induction false} HandleAllAnswers(p: Pass, editing: bool, todo: seq<Request>)
    requires Answering(p.replies, p.verdict.Going?, todo) && Settled(p.log)
    ensures var q := HandleAll(p, editing, todo);
            Settled(q.log) && InOrder(q.replies) && (q.verdict.Going? ==> Unanswered(q.replies) == {})
    decreases |todo|
  {
    if todo != [] && p.verdict.Going? {
      HandleAnswers(p, editing, todo);
      HandleLog(p, editing, todo[0]);
      HandleAllAnswers(Handle(p, editing, todo[0]), editing, todo[1..]);
    }
  }

  lemma {:induction false} IdsAreRequestIds(requests: seq<Request>)
    ensures Ids(Calls(requests)) <= RequestIds(requests)
  {
    forall id | id in Ids(Calls(requests))
      ensures id in RequestIds(requests)
    {
      IdOfRequest(requests, id);
    }
  }

  lemma {:induction false} IdOfRequest(requests: seq<Request>, id: string)
    requires id in Ids(Calls(requests))
    ensures id in RequestIds(requests)
    decreases |requests|
  {
    var front, last := requests[..|requests| - 1], requests[|requests| - 1];
    assert Calls(requests)[..|requests| - 1] == Calls(front);
    RequestIdsSnoc(front, last);
    assert requests == front + [last];
    if id != last.call.id { IdOfRequest(front, id); }
  }

  lemma {:induction false} RequestIdsSnoc(requests: seq<Request>, r: Request)
    ensures RequestIds(requests + [r]) == RequestIds(requests) + {r.call.id}
    decreases |requests|
  {
    if requests == [] {
      assert (requests + [r])[1..] == [];
    } else {
      assert (requests + [r])[1..] == requests[1..] + [r];
      RequestIdsSnoc(requests[1..], r);
    }
  }

  lemma OpenedAnswers(content: string, requests: seq<Request>)
    ensures Answering([Said(content, Calls(requests))], true, requests)
  {
    var said := Said(content, Calls(requests));
    Push([], said);
    assert [] + [said] == [said];
    IdsAreRequestIds(requests);
    forall k | 0 <= k < |requests|
      ensures requests[k].call.id in AskedIn([said])
    {
      IdsOf(requests, k);
    }
  }

  lemma ClosedSettles(c: Chat, p: Pass, editing: bool)
    requires Settled(p.log) && InOrder(p.replies) && Unanswered(p.replies) == {}
    ensures Settled(Closed(c, p, editing).chat.log)
  {
    InOrderConcat(p.log, p.replies);
    UnansweredConcat(p.log, p.replies);
    PushNote(p.log + p.replies, "edit now");
  }

  lemma QuietSettles(c: Chat, content: string, canComplete: bool)
    requires Settled(c.log)
    ensures Settled(Quiet(c, content, canComplete).chat.log)
    ensures Settled(c.log + [Said(content, []), Note("cut off")])
  {
    PushSaid(c.log, content);
    PushNote(c.log + [Said(content, [])], "cut off");
    PushNote(c.log + [Said(content, [])], "use the tools");
    assert c.log + [Said(content, []), Note("cut off")] == c.log + [Said(content, [])] + [Note("cut off")];
  }

  lemma ErredSettles(c: Chat, summary: string)
    requires Settled(c.log) && Erred(c, summary).chat.cuts == c.cuts
    ensures Settled(Erred(c, summary).chat.log)
  {
    PushNote(c.log, "call failed");
  }

  /**
   Whatever branch a call took (blocked, denied, declined, executed, finish refused), a
   completion that neither ends the run nor compacts the log leaves every call answered.
   */
  lemma ConverseSettles(c: Chat, editing: bool, canComplete: bool, completion: Completion)
    requires Settled(c.log)
    ensures var t := Converse(c, editing, canComplete, completion);
            t.verdict.Going? && t.chat.cuts == c.cuts ==> Settled(t.chat.log)
  {
    match completion
    case Failed(summary) =>
      if Erred(c, summary).chat.cuts == c.cuts { ErredSettles(c, summary); }
    case Reply(content, requests, cutOff) =>
      if requests == [] {
        QuietSettles(c, content, canComplete);
      } else {
        var o := Opened(c, content, requests);
        OpenedAnswers(content, requests);
        HandleAllAnswers(o, editing, requests);
        if HandleAll(o, editing, requests).verdict.Going? {
          ClosedSettles(c, HandleAll(o, editing, requests), editing);
        }
      }
  }

  // ---------------------------------------------------------------- compaction and answers

  predicate Toolless(ms: seq<Message>) {
    forall k :: 0 <= k < |ms| ==> !ms[k].role.Tool? && (ms[k].role.Assistant? ==> ms[k].toolCalls == [])
  }

  lemma {:induction false} ToollessSettled(ms: seq<Message>)
    requires Toolless(ms)
    ensures Settled(ms)
    decreases |ms|
  {
    if ms != [] { ToollessSettled(ms[..|ms| - 1]); }
  }

  lemma {:induction false} ToollessAppend(log: seq<Message>, ms: seq<Message>)
    requires Toolless(ms)
    ensures Unanswered(log + ms) == Unanswered(log) && (InOrder(log) ==> InOrder(log + ms))
    decreases |ms|
  {
    if ms == [] {
      assert log + ms == log;
    } else {
      ToollessAppend(log, ms[..|ms| - 1]);
      assert log + ms == (log + ms[..|ms| - 1]) + [ms[|ms| - 1]];
      Push(log + ms[..|ms| - 1], ms[|ms| - 1]);
    }
  }

  /** The ids of the tool messages of a log. */
  function AnswersIn(log: seq<Message>): set<string> {
    if log == [] then {}
    else
      var last := log[|log| - 1];
      AnswersIn(log[..|log| - 1])
      + (if last.role.Tool? && last.toolCallId.Some? then {last.toolCallId.value} else {})
  }

  /** Every tool message answers a call of `seen` or one that stands before it. */
  predicate AskedFor(seen: set<string>, log: seq<Message>) {
    log == [] ||
    (var front, last := log[..|log| - 1], log[|log| - 1];
     && AskedFor(seen, front)
     && (last.role.Tool? ==> last.toolCallId.Some? && last.toolCallId.value in seen + AskedIn(front)))
  }

  lemma {:induction false} InOrderSplit(a: seq<Message>, b: seq<Message>)
    ensures InOrder(a + b) <==> InOrder(a) && AskedFor(AskedIn(a), b)
    decreases |b|
  {
    if b == [] {
      assert a + b == a;
    } else {
      InOrderSplit(a, b[..|b| - 1]);
      AskedConcat(a, b[..|b| - 1]);
      assert (a + b)[..|a + b| - 1] == a + b[..|b| - 1] && (a + b)[|a + b| - 1] == b[|b| - 1];
    }
  }

  lemma {:induction false} UnansweredSplit(a: seq<Message>, b: seq<Message>)
    ensures Unanswered(a + b) == (Unanswered(a) - AnswersIn(b)) + Unanswered(b)
    decreases |b|
  {
    if b == [] {
      assert a + b == a;
    } else {
      UnansweredSplit(a, b[..|b| - 1]);
      assert (a + b)[..|a + b| - 1] == a + b[..|b| - 1] && (a + b)[|a + b| - 1] == b[|b| - 1];
    }
  }

  /** What the cuts of a compaction must keep together: no answer without its call, no call without its answer. */
  predicate CutsClean(log: seq<Message>)
    requires |log| > 12
  {
    var head, tail := log[..KEEP_START], Tail(log, KEEP_END);
    AskedFor(AskedIn(head), tail) && Unanswered(head) <= AnswersIn(tail)
  }

  /**
   Compaction leaves a settled log settled exactly when every answer in the tail was asked
   for in the head or earlier in the tail, and every call open after the head is answered
   in the tail.
   */
  lemma CompactionSettlesIff(log: seq<Message>, force: bool, summary: string)
    requires Cuts(log, force) && Settled(log)
    ensures Settled(Compacted(log, force, summary)) <==> CutsClean(log)
    ensures Unanswered(Compacted(log, force, summary))
            == Unanswered(log[..KEEP_START]) - AnswersIn(Tail(log, KEEP_END))
  {
    var head, tail := log[..KEEP_START], Tail(log, KEEP_END);
    var note := [Message(System, summary, None, [], false)];
    assert log == head + log[KEEP_START..];
    InOrderSplit(head, log[KEEP_START..]);
    var skipped := log[..|log| - |tail|];
    assert log == skipped + tail;
    UnansweredSplit(skipped, tail);
    ToollessAppend(head, note);
    Push(head, note[0]);
    assert AskedIn(head + note) == AskedIn(head);
    InOrderSplit(head + note, tail);
    UnansweredSplit(head + note, tail);
    assert Compacted(log, force, summary) == head + note + tail;
  }

  /** The ids asked for in a log, call by call. */
  function AskedList(log: seq<Message>): seq<string> {
    if log == [] then []
    else
      var last := log[|log| - 1];
      AskedList(log[..|log| - 1]) + (if last.role.Assistant? then IdList(last.toolCalls) else [])
  }

  function IdList(calls: seq<ToolCall>): seq<string> {
    seq(|calls|, k requires 0 <= k < |calls| => calls[k].id)
  }

  ghost predicate NoneTwice(ids: seq<string>) {
    forall j, k :: 0 <= j < k < |ids| ==> ids[j] != ids[k]
  }

  lemma {:induction false} AskedListConcat(a: seq<Message>, b: seq<Message>)
    ensures AskedList(a + b) == AskedList(a) + AskedList(b)
    decreases |b|
  {
    if b == [] {
      assert a + b == a;
    } else {
      var last := b[|b| - 1];
      AskedListConcat(a, b[..|b| - 1]);
      assert (a + b)[..|a + b| - 1] == a + b[..|b| - 1] && (a + b)[|a + b| - 1] == last;
      ConcatAssoc(AskedList(a), AskedList(b[..|b| - 1]), if last.role.Assistant? then IdList(last.toolCalls) else []);
    }
  }

  lemma PartsOnce(p: seq<string>, m: seq<string>, q: seq<string>)
    requires NoneTwice(p + m + q)
    ensures NoneTwice(p + q)
  {
    var all, ends := p + m + q, p + q;
    forall j, k | 0 <= j < k < |ends|
      ensures ends[j] != ends[k]
    {
      var j', k' := if j < |p| then j else j + |m|, if k < |p| then k else k + |m|;
      assert ends[j] == all[j'] && ends[k] == all[k'];
    }
  }

  lemma MiddleTwice(p: seq<string>, m: seq<string>, q: seq<string>)
    requires NoneTwice(p + m + q)
    ensures NoneTwice((p + m) + (m + q)) <==> m == []
  {
    var twice := (p + m) + (m + q);
    if m == [] {
      assert twice == p + m + q;
    } else {
      assert twice[|p|] == m[0] == twice[|p| + |m|];
    }
  }

  /** Where the tail that a compaction keeps begins. */
  function TailStart(log: seq<Message>): nat {
    if |log| > KEEP_END then |log| - KEEP_END else 0
  }

  /** The messages a compaction repeats: those the tail has in common with the head. */
  function Repeated(log: seq<Message>): seq<Message>
    requires |log| > 12
  {
    if TailStart(log) >= KEEP_START then [] else log[TailStart(log)..KEEP_START]
  }

  lemma CompactedList(log: seq<Message>, force: bool, summary: string)
    requires Cuts(log, force)
    ensures AskedList(Compacted(log, force, summary)) == AskedList(log[..KEEP_START]) + AskedList(Tail(log, KEEP_END))
  {
    var head, tail, note := log[..KEEP_START], Tail(log, KEEP_END), [Message(System, summary, None, [], false)];
    AskedListConcat(head + note, tail);
    AskedListConcat(head, note);
    assert note[..0] == [] && AskedList(note) == [] + [];
    assert AskedList(head) + [] == AskedList(head);
    assert Compacted(log, force, summary) == head + note + tail;
  }

  lemma OverlapOf(pre: seq<Message>, mid: seq<Message>, post: seq<Message>)
    requires NoneTwice(AskedList(pre + mid + post))
    ensures NoneTwice(AskedList(pre + mid) + AskedList(mid + post)) <==> AskedList(mid) == []
  {
    AskedListConcat(pre, mid);
    AskedListConcat(mid, post);
    AskedListConcat(pre + mid, post);
    MiddleTwice(AskedList(pre), AskedList(mid), AskedList(post));
  }

  lemma SplitTwice<T>(s: seq<T>, i: nat, j: nat)
    requires i <= j <= |s|
    ensures s[..j] == s[..i] + s[i..j] && s[i..] == s[i..j] + s[j..] && s == s[..i] + s[i..j] + s[j..]
  {
  }

  lemma OverlapList(log: seq<Message>)
    requires |log| > 12 && TailStart(log) < KEEP_START && NoneTwice(AskedList(log))
    ensures NoneTwice(AskedList(log[..KEEP_START]) + AskedList(log[TailStart(log)..]))
       <==> AskedList(Repeated(log)) == []
  {
    var lo := TailStart(log);
    SplitTwice(log, lo, KEEP_START);
    OverlapOf(log[..lo], log[lo..KEEP_START], log[KEEP_START..]);
  }

  /** Compaction of a log that asks for no id twice keeps that exactly when the messages it repeats ask for nothing. */
  lemma CompactionAsksOnceIff(log: seq<Message>, force: bool, summary: string)
    requires Cuts(log, force) && NoneTwice(AskedList(log))
    ensures NoneTwice(AskedList(Compacted(log, force, summary))) <==> AskedList(Repeated(log)) == []
  {
    CompactedList(log, force, summary);
    assert Tail(log, KEEP_END) == log[TailStart(log)..];
    if TailStart(log) < KEEP_START {
      OverlapList(log);
    } else {
      var head, mid, tail := log[..KEEP_START], log[KEEP_START..TailStart(log)], log[TailStart(log)..];
      SplitTwice(log, KEEP_START, TailStart(log));
      AskedListConcat(head, mid);
      AskedListConcat(head + mid, tail);
      PartsOnce(AskedList(head), AskedList(mid), AskedList(tail));
    }
  }

  // ---------------------------------------------------------------- what a pass has done

  lemma {:induction false} HandleAllSnoc(p: Pass, editing: bool, requests: seq<Request>, r: Request)
    ensures HandleAll(p, editing, requests + [r])
            == if HandleAll(p, editing, requests).verdict.Ended? then HandleAll(p, editing, requests)
               else Handle(HandleAll(p, editing, requests), editing, r)
    decreases |requests|
  {
    if requests == [] {
      assert [] + [r] == [r] && [r][1..] == [];
    } else if p.verdict.Going? {
      assert (requests + [r])[1..] == requests[1..] + [r];
      HandleAllSnoc(Handle(p, editing, requests[0]), editing, requests[1..], r);
    }
  }

  /** The `k`-th call is reached, with none before it ending the run, and is executed. */
  ghost predicate ExecutedAt(p: Pass, editing: bool, requests: seq<Request>, k: nat) {
    && k < |requests| && HandleAll(p, editing, requests[..k]).verdict.Going?
    && MayRun(HandleAll(p, editing, requests[..k]).tests, editing, requests[k])
  }

  ghost predicate SomeExecuted(p: Pass, editing: bool, requests: seq<Request>, what: Request -> bool) {
    exists k: nat :: ExecutedAt(p, editing, requests, k) && what(requests[k])
  }

  lemma SomeExecutedSnoc(p: Pass, editing: bool, requests: seq<Request>, r: Request, what: Request -> bool)
    ensures SomeExecuted(p, editing, requests + [r], what)
            <==> SomeExecuted(p, editing, requests, what)
                 || (HandleAll(p, editing, requests).verdict.Going?
                     && MayRun(HandleAll(p, editing, requests).tests, editing, r) && what(r))
  {
    var more := requests + [r];
    assert more[..|requests|] == requests;
    assert forall k :: 0 <= k < |requests| ==> more[..k] == requests[..k] && more[k] == requests[k];
    if k: nat :| ExecutedAt(p, editing, requests, k) && what(requests[k]) {
      assert ExecutedAt(p, editing, more, k) && what(more[k]);
    }
    if k: nat :| ExecutedAt(p, editing, more, k) && what(more[k]) {
      if k < |requests| { assert ExecutedAt(p, editing, requests, k) && what(requests[k]); }
    }
    if HandleAll(p, editing, requests).verdict.Going? && MayRun(HandleAll(p, editing, requests).tests, editing, r) {
      assert ExecutedAt(p, editing, more, |requests|);
    }
  }

  lemma HandleFlags(p: Pass, editing: bool, r: Request)
    ensures var q := Handle(p, editing, r);
            && (q.changed <==> p.changed || (MayRun(p.tests, editing, r) && ChangesFiles(r)))
            && (q.verified <==> p.verified || (MayRun(p.tests, editing, r) && IsVerification(r)))
  {
  }

  /** A pass counts as a write, or as a verification, exactly when some call it reached and executed was one. */
  lemma {:induction false} PassFlags(p: Pass, editing: bool, requests: seq<Request>)
    ensures var q := HandleAll(p, editing, requests);
            && (q.changed <==> p.changed || SomeExecuted(p, editing, requests, ChangesFiles))
            && (q.verified <==> p.verified || SomeExecuted(p, editing, requests, IsVerification))
    decreases |requests|
  {
    if requests != [] {
      var front, last := requests[..|requests| - 1], requests[|requests| - 1];
      assert requests == front + [last];
      PassFlags(p, editing, front);
      HandleAllSnoc(p, editing, front, last);
      SomeExecutedSnoc(p, editing, front, last, ChangesFiles);
      SomeExecutedSnoc(p, editing, front, last, IsVerification);
      HandleFlags(HandleAll(p, editing, front), editing, last);
    }
  }

  /** What is known after a pass: what was known, and what its executed calls discovered. */
  lemma {:induction false} PassFinds(p: Pass, editing: bool, requests: seq<Request>, d: string)
    ensures d in HandleAll(p, editing, requests).found
       <==> d in p.found || SomeExecuted(p, editing, requests, (r: Request) => r.result.discovery == Some(d))
    decreases |requests|
  {
    if requests != [] {
      var front, last := requests[..|requests| - 1], requests[|requests| - 1];
      assert requests == front + [last];
      PassFinds(p, editing, front, d);
      HandleAllSnoc(p, editing, front, last);
      SomeExecutedSnoc(p, editing, front, last, (r: Request) => r.result.discovery == Some(d));
      HandleFinds(HandleAll(p, editing, front), editing, last, d);
    }
  }

  lemma HandleFinds(p: Pass, editing: bool, r: Request, d: string)
    ensures d in Handle(p, editing, r).found
       <==> d in p.found || (MayRun(p.tests, editing, r) && r.result.discovery == Some(d))
  {
  }

  lemma {:induction false} PassNews(p: Pass, editing: bool, requests: seq<Request>)
    ensures var q := HandleAll(p, editing, requests);
            p.found <= q.found && (q.newRead <==> p.newRead || q.found != p.found)
    decreases |requests|
  {
    if requests != [] && p.verdict.Going? {
      HandleNews(p, editing, requests[0]);
      PassNews(Handle(p, editing, requests[0]), editing, requests[1..]);
    }
  }

  lemma HandleNews(p: Pass, editing: bool, r: Request)
    ensures var q := Handle(p, editing, r); p.found <= q.found && (q.newRead <==> p.newRead || q.found != p.found)
  {
  }

  /**
   The guard of the EDIT stage. A completion that goes on counts as idle unless some executed
   call changed files, discovered something new, or checked a change not checked before; from
   the second idle one in a row on, the log ends with the note to edit.
   */
  lemma EditGuardIff(c: Chat, canComplete: bool, content: string, requests: seq<Request>, cutOff: bool)
    requires requests != [] && Converse(c, true, canComplete, Reply(content, requests, cutOff)).verdict.Going?
    ensures var t, p := Converse(c, true, canComplete, Reply(content, requests, cutOff)), Opened(c, content, requests);
            var q := HandleAll(p, true, requests);
            var wrote := SomeExecuted(p, true, requests, ChangesFiles);
            var checked := SomeExecuted(p, true, requests, IsVerification);
            var idle := !wrote && t.chat.found == c.found && !(checked && c.wroteSinceVerify);
            && t.chat.editIdle == (if idle then c.editIdle + 1 else 0)
            && t.chat.log == q.log + q.replies + (if t.chat.editIdle >= 2 then [Note("edit now")] else [])
            && (t.chat.wroteSinceVerify <==> (c.wroteSinceVerify || wrote) && !checked)
  {
    var p := Opened(c, content, requests);
    var q := HandleAll(p, true, requests);
    PassFlags(p, true, requests);
    PassNews(p, true, requests);
    assert q.log + q.replies + [] == q.log + q.replies;
  }

  lemma {:induction false} LogsGrow(p: Pass, editing: bool, requests: seq<Request>)
    ensures p.log <= HandleAll(p, editing, requests).log && p.replies <= HandleAll(p, editing, requests).replies
    decreases |requests|
  {
    if requests != [] && p.verdict.Going? {
      HandleGrows(p, editing, requests[0]);
      LogsGrow(Handle(p, editing, requests[0]), editing, requests[1..]);
    }
  }

  lemma HandleGrows(p: Pass, editing: bool, r: Request)
    ensures p.log <= Handle(p, editing, r).log && p.replies <= Handle(p, editing, r).replies
  {
    HandleReplies(p, editing, r);
    if MayRun(p.tests, editing, r) {
      assert p.log <= Executed(p, editing, r).log;
    }
  }

  /** The log after a completion with tool calls: notes on its test runs, the completion itself, then its answers. */
  lemma CallsLog(c: Chat, editing: bool, canComplete: bool, content: string, requests: seq<Request>, cutOff: bool)
    requires requests != []
    ensures var log, q := Converse(c, editing, canComplete, Reply(content, requests, cutOff)).chat.log,
                          HandleAll(Opened(c, content, requests), editing, requests);
            && c.log <= q.log && q.log + q.replies <= log && q.replies != []
            && q.replies[0] == Message(Assistant, content, None, Calls(requests), false)
            && (!editing ==> log == q.log + q.replies)
  {
    LogsGrow(Opened(c, content, requests), editing, requests);
  }

  /** The log after a completion without tool calls, or a failed one. */
  lemma ToollessLog(c: Chat, editing: bool, canComplete: bool, content: string, cutOff: bool, summary: string)
    ensures Converse(c, editing, canComplete, Failed(summary)).chat.log
            == if c.errors >= 4 then c.log
               else (if c.errors >= 1 then Compacted(c.log, true, summary) else c.log) + [Note("call failed")]
    ensures Converse(c, editing, canComplete, Reply(content, [], cutOff)).chat.log
            == c.log + [Message(Assistant, content, None, [], false)]
               + (if cutOff then [Note("cut off")]
                  else if canComplete || c.noTool >= 3 then [] else [Note("use the tools")])
  {
    assert c.log + [Said(content, []), Note("cut off")] == c.log + [Said(content, [])] + [Note("cut off")];
    assert c.log + [Said(content, [])] + [] == c.log + [Said(content, [])];
  }

  // ---------------------------------------------------------------- what ends a run

  /**
   A call that ends a run with a status, once it is reached: an executed one whose finish no
   UI check refuses, which has tests verified past the gate or asks a question only a human
   can answer, or one that waits for a human.
   */
  predicate CallEnds(t: Tests, editing: bool, r: Request, status: Status) {
    && !Redundant(t, editing, r)
    && if r.decision.Allow? then SignalEnds(r.result.signal, status)
       else status.Blocked? && r.decision.Ask? && !r.kind.RunCommand?
  }

  predicate SignalEnds(signal: Signal, status: Status) {
    match signal
    case NoSignal => false
    case Finish(asked, uiFails) => status == asked && !(asked.Completed? && uiFails)
    case TestsVerified(gate) => status.Completed? && gate
    case Question(requiresHuman) => status.Blocked? && requiresHuman
  }

  lemma SignalledEnds(p: Pass, signal: Signal, status: Status)
    requires p.verdict.Going?
    ensures Signalled(p, signal).verdict == Ended(status) <==> SignalEnds(signal, status)
  {
  }

  lemma HandleEnds(p: Pass, editing: bool, r: Request, status: Status)
    requires p.verdict.Going?
    ensures Handle(p, editing, r).verdict == Ended(status) <==> CallEnds(p.tests, editing, r, status)
  {
    if MayRun(p.tests, editing, r) { SignalledEnds(Executed(p, editing, r), r.result.signal, status); }
  }

  /** The `k`-th call is reached and ends the run. */
  ghost predicate EndsAt(p: Pass, editing: bool, requests: seq<Request>, k: nat, status: Status) {
    && k < |requests| && HandleAll(p, editing, requests[..k]).verdict.Going?
    && CallEnds(HandleAll(p, editing, requests[..k]).tests, editing, requests[k], status)
  }

  lemma EndsLater(p: Pass, editing: bool, requests: seq<Request>, k: nat, status: Status)
    requires p.verdict.Going? && requests != [] && k < |requests| - 1
    ensures EndsAt(Handle(p, editing, requests[0]), editing, requests[1..], k, status)
            <==> EndsAt(p, editing, requests, k + 1, status)
  {
    assert requests[..k + 1][0] == requests[0] && requests[..k + 1][1..] == requests[1..][..k];
    assert requests[1..][k] == requests[k + 1];
  }

  /** A list of calls ends the run with a status exactly at a call that is reached and does so. */
  lemma {:induction false} HandleAllEnds(p: Pass, editing: bool, requests: seq<Request>, status: Status)
    requires p.verdict.Going?
    ensures HandleAll(p, editing, requests).verdict == Ended(status)
            <==> exists k: nat :: EndsAt(p, editing, requests, k, status)
    decreases |requests|
  {
    if requests != [] {
      FirstEnds(p, editing, requests, status);
      if Handle(p, editing, requests[0]).verdict.Going? {
        HandleAllEnds(Handle(p, editing, requests[0]), editing, requests[1..], status);
        LaterEnds(p, editing, requests, status);
      } else {
        NothingAfterEnd(p, editing, requests, status);
      }
    }
  }

  lemma FirstEnds(p: Pass, editing: bool, requests: seq<Request>, status: Status)
    requires p.verdict.Going? && requests != []
    ensures Handle(p, editing, requests[0]).verdict == Ended(status) <==> EndsAt(p, editing, requests, 0, status)
  {
    HandleEnds(p, editing, requests[0], status);
    assert requests[..0] == [];
  }

  lemma LaterEnds(p: Pass, editing: bool, requests: seq<Request>, status: Status)
    requires p.verdict.Going? && requests != [] && !EndsAt(p, editing, requests, 0, status)
    ensures (exists k: nat :: EndsAt(Handle(p, editing, requests[0]), editing, requests[1..], k, status))
            <==> exists k: nat :: EndsAt(p, editing, requests, k, status)
  {
    var q := Handle(p, editing, requests[0]);
    if k: nat :| EndsAt(q, editing, requests[1..], k, status) { EndsLater(p, editing, requests, k, status); }
    if k: nat :| EndsAt(p, editing, requests, k, status) { EndsLater(p, editing, requests, k - 1, status); }
  }

  lemma NothingAfterEnd(p: Pass, editing: bool, requests: seq<Request>, status: Status)
    requires p.verdict.Going? && requests != [] && Handle(p, editing, requests[0]).verdict.Ended?
    ensures forall k: nat :: EndsAt(p, editing, requests, k, status) ==> k == 0
  {
    forall k: nat | 0 < k < |requests|
      ensures HandleAll(p, editing, requests[..k]).verdict.Ended?
    {
      assert requests[..k][0] == requests[0];
    }
  }

  /**
   When a completion ends a run, and how: the fifth failed one in a row blocks it; a quiet one
   that is not cut off completes it under the open gate and, at the fourth under a shut one,
   blocks it; and a call that is reached ends it as that call asks.
   */
  lemma ConverseEnds(c: Chat, editing: bool, canComplete: bool, completion: Completion, status: Status)
    ensures Converse(c, editing, canComplete, completion).verdict == Ended(status)
            <==> match completion
                 case Failed(_) => status.Blocked? && c.errors >= 4
                 case Reply(content, requests, cutOff) =>
                   if requests != []
                   then exists k: nat :: EndsAt(Opened(c, content, requests), editing, requests, k, status)
                   else !cutOff && if canComplete then status.Completed? else status.Blocked? && c.noTool >= 3
  {
    if completion.Reply? && completion.requests != [] {
      HandleAllEnds(Opened(c, completion.content, completion.requests), editing, completion.requests, status);
    }
  }
}
