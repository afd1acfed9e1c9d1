/**
 A run of the agent loop that loses an answer by compaction
 (packages/forge-agent/src/agent-loop.ts:950-957 and 2460-2515).
 */
module CompactedRuns {
  import opened Text
  import opened WireMessages
  import opened Conversation
  import opened AgentLoop
  import Stages

  /** The id of the `k`-th call: different for every `k`. */
  function Id(k: nat): string {
    seq(k, _ => 'i')
  }

  function Write(k: nat): Request {
    Request(ToolCall(Id(k), "write_file", "{}"), WriteFile, true, false, false, Allow, "",
            ToolResponse("written", false, None, false, None, NoSignal))
  }

  /** An iteration in which the model writes one file. */
  function Writing(k: nat): Inputs {
    Inputs(false, "", None, None, false, Reply("", [Write(k)], false), Stages.OtherFailure)
  }

  /** An iteration that is over the prompt budget, in which the model says nothing. */
  function OverBudget(summary: string): Inputs {
    Inputs(true, summary, None, None, false, Reply("", [], false), Stages.OtherFailure)
  }

  function Writings(n: nat): seq<Inputs> {
    if n == 0 then [] else Writings(n - 1) + [Writing(n)]
  }

  /** The calls from `i` on, `n` of them, each with its answer. */
  function Pairs(i: nat, n: nat): seq<Message> {
    if n == 0 then []
    else Pairs(i, n - 1) + [Said("", [Write(i + n - 1).call])] + [Answer(Id(i + n - 1), "written")]
  }

  /** A resumed task with one open claim. */
  function Resumed(): State {
    Start(INITIAL, Stages.Seeded([], ["criterion"], 0), Some("resumed"))
  }

  /** After `n` writes the log is the opening message and `n` answered calls. */
  ghost predicate Wrote(s: State, n: nat) {
    && Regular(s) && s.verdict.Going? && s.control.iteration == n && s.beliefs == INITIAL
    && !Stages.NoneOpen(s.claims) && s.chat.cuts == 0 && s.chat.noTool == 0
    && s.chat.log == [Note("resumed")] + Pairs(1, n)
  }

  lemma WriteStage(s: State, n: nat, e: Inputs)
    requires Wrote(s, n) && e.probe.None? && !e.canComplete
    ensures Next(s, e).stage == if n == 0 then Stages.Localize else Stages.Edit
  {
    RepairIff(s, e);
    Stages.OpenClaimsIff(s.beliefs.rows, s.claims);
    Stages.TopMeaning(s.beliefs.rows, 1);
  }

  lemma WriteOnce(c: Chat, k: nat, editing: bool)
    ensures var t := Converse(c, editing, false, Writing(k).completion);
            && t.verdict.Going? && t.chat.cuts == c.cuts && t.chat.noTool == 0
            && t.chat.log == c.log + [Said("", [Write(k).call])] + [Answer(Id(k), "written")]
  {
    var p := Opened(c, "", [Write(k)]);
    assert Calls([Write(k)]) == [Write(k).call];
    assert [Write(k)][1..] == [];
    var q := Handle(p, editing, Write(k));
    assert HandleAll(p, editing, [Write(k)]) == q;
    assert q.replies == [Said("", [Write(k).call])] + [Answer(Id(k), "written")] && q.log == c.log + [];
  }

  lemma WriteChat(s: State, n: nat)
    requires Wrote(s, n) && n < 200
    ensures var t := Step(s, Writing(n + 1));
            && t.verdict.Going? && t.chat.cuts == 0 && t.chat.noTool == 0
            && t.chat.log == s.chat.log + [Said("", [Write(n + 1).call])] + [Answer(Id(n + 1), "written")]
  {
    WriteStage(s, n, Writing(n + 1));
    PairsLength(1, n);
    WriteOnce(s.chat, n + 1, Next(s, Writing(n + 1)).stage.Edit?);
  }

  lemma WriteStep(s: State, n: nat, t: State)
    requires Wrote(s, n) && n < 200 && t == Step(s, Writing(n + 1))
    ensures Wrote(t, n + 1)
  {
    WriteStage(s, n, Writing(n + 1));
    StepRegular(s, Writing(n + 1));
    StepBeliefs(s, Writing(n + 1));
    WriteChat(s, n);
    LogGrows(s.chat.log, n, t.chat.log);
  }

  lemma LogGrows(log: seq<Message>, n: nat, more: seq<Message>)
    requires log == [Note("resumed")] + Pairs(1, n)
    requires more == log + [Said("", [Write(n + 1).call])] + [Answer(Id(n + 1), "written")]
    ensures more == [Note("resumed")] + Pairs(1, n + 1)
  {
  }

  lemma {:induction false} PairsLength(i: nat, n: nat)
    ensures |Pairs(i, n)| == 2 * n
  {
    if n > 0 { PairsLength(i, n - 1); }
  }

  lemma WroteNothing()
    ensures Wrote(Resumed(), 0)
  {
    Stages.SeededForm([], ["criterion"], 0);
    assert "criterion" in ["criterion"] && !Stages.HasText([], "criterion");
    assert Stages.Open(Resumed().claims[0]);
    assert [Note("resumed")] + [] == [Note("resumed")];
  }

  lemma WroteNext(s: State, t: State, n: nat)
    requires Wrote(s, n) && n < 200
    requires t == if s.verdict.Ended? then s else Step(s, Writing(n + 1))
    ensures Wrote(t, n + 1)
  {
    WriteStep(s, n, t);
  }

  lemma {:induction false} WriteRun(n: nat)
    requires n <= 200
    ensures Wrote(Run(Resumed(), Writings(n)), n)
  {
    if n == 0 {
      WroteNothing();
    } else {
      WriteRun(n - 1);
      RunSnoc(Resumed(), Writings(n - 1), Writing(n));
      WroteNext(Run(Resumed(), Writings(n - 1)), Run(Resumed(), Writings(n)), n - 1);
    }
  }

  // ---------------------------------------------------------------- what the cut loses

  lemma PairPush(log: seq<Message>, k: nat)
    ensures var pushed := log + [Said("", [Write(k).call])] + [Answer(Id(k), "written")];
            Unanswered(pushed) == Unanswered(log) - {Id(k)} && (InOrder(log) ==> InOrder(pushed))
  {
    Push(log, Said("", [Write(k).call]));
    Push(log + [Said("", [Write(k).call])], Answer(Id(k), "written"));
    assert Ids([Write(k).call]) == {Id(k)} by { assert [Write(k).call][..0] == []; }
  }

  lemma PairAnswers(log: seq<Message>, k: nat)
    ensures AnswersIn(log + [Said("", [Write(k).call])] + [Answer(Id(k), "written")]) == AnswersIn(log) + {Id(k)}
  {
    var once := log + [Said("", [Write(k).call])];
    var twice := once + [Answer(Id(k), "written")];
    assert twice[..|twice| - 1] == once && once[..|once| - 1] == log;
  }

  lemma {:induction false} PairsSettled(i: nat, n: nat)
    ensures Settled(Pairs(i, n))
  {
    if n > 0 {
      PairsSettled(i, n - 1);
      PairSettles(Pairs(i, n - 1), i + n - 1);
    }
  }

  lemma PairSettles(log: seq<Message>, k: nat)
    requires Settled(log)
    ensures Settled(log + [Said("", [Write(k).call])] + [Answer(Id(k), "written")])
  {
    PairPush(log, k);
  }

  lemma {:induction false} PairsAnswer(i: nat, n: nat, x: string)
    requires x in AnswersIn(Pairs(i, n))
    ensures |x| >= i
  {
    if n > 0 {
      PairAnswers(Pairs(i, n - 1), i + n - 1);
      if x in AnswersIn(Pairs(i, n - 1)) { PairsAnswer(i, n - 1, x); }
    }
  }

  lemma {:induction false} PairsSplit(i: nat, m: nat, n: nat)
    requires m <= n
    ensures Pairs(i, n) == Pairs(i, m) + Pairs(i + m, n - m)
  {
    if m < n { PairsSplit(i, m, n - 1); }
  }

  const HEAD: seq<Message> := [Note("resumed")] + Pairs(1, 1) + [Said("", [Write(2).call])]

  lemma WroteLength(log: seq<Message>, n: nat)
    requires log == [Note("resumed")] + Pairs(1, n)
    ensures |log| == 1 + 2 * n
  {
    PairsLength(1, n);
  }

  /** The head of such a log ends with a second call ... */
  lemma WroteHead(log: seq<Message>, n: nat)
    requires 2 <= n && log == [Note("resumed")] + Pairs(1, n)
    ensures |log| == 1 + 2 * n && log[..KEEP_START] == HEAD
  {
    WroteLength(log, n);
    PairsSplit(1, 2, n);
    PairsLength(1, 1);
    assert Pairs(1, 2) == Pairs(1, 1) + [Said("", [Write(2).call])] + [Answer(Id(2), "written")];
    assert log == HEAD + ([Answer(Id(2), "written")] + Pairs(3, n - 2));
  }

  /** ... and the tail begins behind its answer. */
  lemma WroteTail(log: seq<Message>, n: nat, m: nat)
    requires m <= n && log == [Note("resumed")] + Pairs(1, n)
    ensures Tail(log, 2 * m) == Pairs(n - m + 1, m)
  {
    PairsSplit(1, n - m, n);
    PairsLength(1, n - m);
    PairsLength(n - m + 1, m);
    assert log == ([Note("resumed")] + Pairs(1, n - m)) + Pairs(n - m + 1, m);
  }

  lemma WroteSettled(log: seq<Message>, n: nat)
    requires log == [Note("resumed")] + Pairs(1, n)
    ensures Settled(log)
  {
    PairsSettled(1, n);
    ToollessSettled([Note("resumed")]);
    InOrderConcat([Note("resumed")], Pairs(1, n));
    UnansweredConcat([Note("resumed")], Pairs(1, n));
  }

  lemma HeadOpen()
    ensures Unanswered(HEAD) == {Id(2)}
  {
    WroteSettled([Note("resumed")] + Pairs(1, 1), 1);
    Push([Note("resumed")] + Pairs(1, 1), Said("", [Write(2).call]));
    assert Ids([Write(2).call]) == {Id(2)} by { assert [Write(2).call][..0] == []; }
  }

  lemma TailMisses(n: nat, m: nat)
    requires m + 2 <= n
    ensures Id(2) !in AnswersIn(Pairs(n - m + 1, m))
  {
    if Id(2) in AnswersIn(Pairs(n - m + 1, m)) { PairsAnswer(n - m + 1, m, Id(2)); }
  }

  /** A call open at the end of the head and not answered in the tail stays open. */
  lemma CutStrands(log: seq<Message>, summary: string, head: seq<Message>, tail: seq<Message>, x: string)
    requires Cuts(log, false) && Settled(log) && head == log[..KEEP_START] && tail == Tail(log, KEEP_END)
    requires Unanswered(head) == {x} && x !in AnswersIn(tail)
    ensures Unanswered(Compacted(log, false, summary)) == {x}
  {
    CompactionSettlesIff(log, false, summary);
  }

  /** Compacting the log after 17 or more writes leaves the second call without its answer. */
  lemma WroteStrands(log: seq<Message>, n: nat, m: nat, summary: string)
    requires m == 15 && m + 2 <= n && log == [Note("resumed")] + Pairs(1, n)
    ensures Unanswered(Compacted(log, false, summary)) == {Id(2)}
  {
    WroteSettled(log, n);
    WroteLength(log, n);
    WroteHead(log, n);
    WroteTail(log, n, m);
    HeadOpen();
    TailMisses(n, m);
    CutStrands(log, summary, HEAD, Pairs(n - m + 1, m), Id(2));
  }

  lemma QuietOnce(c: Chat, editing: bool, summary: string)
    requires c.noTool == 0
    ensures var t := Converse(c, editing, false, OverBudget(summary).completion);
            t.verdict.Going? && t.chat.cuts == c.cuts && t.chat.log == c.log + [Said("", [])] + [Note("use the tools")]
  {
  }

  lemma QuietOpen(log: seq<Message>)
    ensures Unanswered(log + [Said("", [])] + [Note("use the tools")]) == Unanswered(log)
  {
    Push(log, Said("", []));
    Push(log + [Said("", [])], Note("use the tools"));
  }

  lemma OverStep(s: State, n: nat, summary: string)
    requires Wrote(s, n) && 17 <= n
    ensures var t := Step(s, OverBudget(summary));
            && t.verdict.Going? && t.chat.cuts == 1
            && t.chat.log == Compacted(s.chat.log, false, summary) + [Said("", [])] + [Note("use the tools")]
  {
    var e := OverBudget(summary);
    WriteStage(s, n, e);
    WroteLength(s.chat.log, n);
    QuietOnce(Shortened(s.chat, e), true, summary);
  }

  lemma StrandedBy(s: State, n: nat, summary: string, t: State)
    requires Wrote(s, n) && 17 <= n && t == Step(s, OverBudget(summary))
    ensures t.verdict.Going? && t.chat.cuts == 1 && Unanswered(t.chat.log) == {Id(2)}
  {
    OverStep(s, n, summary);
    WroteStrands(s.chat.log, n, 15, summary);
    QuietOpen(Compacted(s.chat.log, false, summary));
  }

  /**
   A run that goes on and has compacted its log once, and whose log has lost an answer: a
   resumed task that writes 17 files or more, one in an iteration, and then goes over its budget.
   */
  lemma CompactionStrandsRun(n: nat, summary: string)
    requires 17 <= n <= 200
    ensures var t := Run(Resumed(), Writings(n) + [OverBudget(summary)]);
            t.verdict.Going? && t.chat.cuts == 1 && Unanswered(t.chat.log) == {Id(2)} && !Settled(t.chat.log)
  {
    WriteRun(n);
    RunSnoc(Resumed(), Writings(n), OverBudget(summary));
    StrandedBy(Run(Resumed(), Writings(n)), n, summary, Run(Resumed(), Writings(n) + [OverBudget(summary)]));
  }
}
