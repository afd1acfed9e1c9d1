/**
 The message log on the wire: what the loop keeps settled, the normaliser of
 packages/forge-provider/src/base.ts:189-276 sends whole
 (packages/forge-agent/src/agent-loop.ts:2217-2223 puts the log between the base
 messages and the situation report, with a cache boundary on its last message).
 */
module LogOnWire {
  import opened Text
  import opened WireMessages
  import opened Conversation
  import AgentLoop
  import Stages

  lemma {:induction false} UseBlockIds(calls: seq<ToolCall>)
    ensures UseIds(Tag(AssistantSide, UseBlocks(calls))) == Ids(calls)
    ensures ResultIds(Tag(AssistantSide, UseBlocks(calls))) == {}
    decreases |calls|
  {
    if calls != [] {
      var front, c := calls[..|calls| - 1], calls[|calls| - 1];
      UseBlockIds(front);
      IdsSnoc(AssistantSide, UseBlocks(front), ToolUse(c.id, c.name, c.input, false));
    }
  }

  /** The cache marker changes no id. */
  lemma MarkedIds(side: Side, blocks: seq<Block>)
    ensures UseIds(Tag(side, MarkLast(blocks))) == UseIds(Tag(side, blocks))
    ensures ResultIds(Tag(side, MarkLast(blocks))) == ResultIds(Tag(side, blocks))
  {
    if blocks != [] {
      var front, last := blocks[..|blocks| - 1], blocks[|blocks| - 1];
      IdsSnoc(side, front, last);
      IdsSnoc(side, front, last.(mark := true));
      assert blocks == front + [last];
    }
  }

  /** The tool ids a message puts on the wire. */
  function UsesOf(m: Message): set<string> {
    if m.role.Assistant? then Ids(m.toolCalls) else {}
  }

  function ResultsOf(m: Message): set<string> {
    if m.role.Tool? && m.toolCallId.Some? then {m.toolCallId.value} else {}
  }

  lemma TextIds(side: Side, content: string)
    ensures UseIds(Tag(side, TextBlocks(content))) == {} && ResultIds(Tag(side, TextBlocks(content))) == {}
  {
    if content != "" {
      assert TextBlocks(content) == [] + [TextBlock(content, false)];
      IdsSnoc(side, [], TextBlock(content, false));
    }
  }

  lemma PlainIds(m: Message)
    ensures UseIds(Tag(SideOf(m), PlainBlocks(m))) == UsesOf(m)
    ensures ResultIds(Tag(SideOf(m), PlainBlocks(m))) == ResultsOf(m)
  {
    TextIds(SideOf(m), m.content);
    match m.role
    case Assistant =>
      UseBlockIds(m.toolCalls);
      TagConcat(AssistantSide, TextBlocks(m.content), UseBlocks(m.toolCalls));
      IdsConcat(Tag(AssistantSide, TextBlocks(m.content)), Tag(AssistantSide, UseBlocks(m.toolCalls)));
    case Tool =>
      assert PlainBlocks(m) == [] + [ToolResult(m.toolCallId, m.content, false)];
      IdsSnoc(UserSide, [], ToolResult(m.toolCallId, m.content, false));
    case _ =>
  }

  lemma MessageIds(m: Message)
    ensures UseIds(Tag(SideOf(m), Blocks(m))) == UsesOf(m)
    ensures ResultIds(Tag(SideOf(m), Blocks(m))) == ResultsOf(m)
  {
    PlainIds(m);
    MarkedIds(SideOf(m), PlainBlocks(m));
  }

  predicate Sound(m: Message, b: Block) {
    match b
    case TextBlock(text, _) => text != ""
    case ToolUse(_, _, _, _) => m.role.Assistant?
    case ToolResult(useId, _, _) => m.role.Tool? && useId == m.toolCallId
  }

  lemma MessageBlocks(m: Message)
    ensures forall k :: 0 <= k < |Blocks(m)| ==> Sound(m, Blocks(m)[k])
  {
    UseBlocksAt(m.toolCalls);
    assert forall k :: 0 <= k < |PlainBlocks(m)| ==> Sound(m, PlainBlocks(m)[k]);
  }

  // ---------------------------------------------------------------- order

  lemma {:induction false} AskedAppend(ids: set<string>, seen: set<string>, a: seq<Tagged>, b: seq<Tagged>)
    ensures Asked(ids, seen, a + b) <==> Asked(ids, seen, a) && Asked(ids, seen + UseIds(a), b)
    decreases |a|
  {
    if a == [] {
      assert a + b == b && seen + {} == seen;
    } else {
      var next := if a[0].block.ToolUse? then seen + {a[0].block.id} else seen;
      assert (a + b)[1..] == a[1..] + b;
      AskedAppend(ids, next, a[1..], b);
      assert next + UseIds(a[1..]) == seen + UseIds(a);
    }
  }

  lemma {:induction false} AnsweredAppend(ids: set<string>, a: seq<Tagged>, b: seq<Tagged>)
    requires Answered(ids - ResultIds(b), a) && Answered(ids, b)
    ensures Answered(ids, a + b)
    decreases |a|
  {
    if a == [] {
      assert a + b == b;
    } else {
      assert (a + b)[1..] == a[1..] + b;
      AnsweredAppend(ids, a[1..], b);
      IdsConcat(a[1..], b);
    }
  }

  lemma {:induction false} AskedWithin(ids: set<string>, seen: set<string>, s: seq<Tagged>)
    requires ResultIds(s) <= seen
    ensures Asked(ids, seen, s)
    decreases |s|
  {
    if s != [] { AskedWithin(ids, if s[0].block.ToolUse? then seen + {s[0].block.id} else seen, s[1..]); }
  }

  lemma {:induction false} AnsweredOutside(ids: set<string>, s: seq<Tagged>)
    requires UseIds(s) !! ids
    ensures Answered(ids, s)
    decreases |s|
  {
    if s != [] { AnsweredOutside(ids, s[1..]); }
  }

  lemma {:induction false} StreamIds(ms: seq<Message>)
    ensures UseIds(Stream(ms)) == AskedIn(ms)
    decreases |ms|
  {
    if ms != [] {
      var front, m := ms[..|ms| - 1], ms[|ms| - 1];
      StreamIds(front);
      IdsConcat(Stream(front), Tag(SideOf(m), Blocks(m)));
      MessageIds(m);
    }
  }

  lemma {:induction false} InOrderAsked(ids: set<string>, ms: seq<Message>)
    requires InOrder(ms)
    ensures Asked(ids, {}, Stream(ms))
    decreases |ms|
  {
    if ms != [] {
      var front, m := ms[..|ms| - 1], ms[|ms| - 1];
      InOrderAsked(ids, front);
      StreamIds(front);
      MessageIds(m);
      AskedWithin(ids, {} + UseIds(Stream(front)), Tag(SideOf(m), Blocks(m)));
      AskedAppend(ids, {}, Stream(front), Tag(SideOf(m), Blocks(m)));
    }
  }

  lemma {:induction false} AnsweredInStream(ids: set<string>, ms: seq<Message>)
    requires ids !! Unanswered(ms)
    ensures Answered(ids, Stream(ms))
    decreases |ms|
  {
    if ms != [] {
      var front, m := ms[..|ms| - 1], ms[|ms| - 1];
      var tail := Tag(SideOf(m), Blocks(m));
      MessageIds(m);
      AnsweredInStream(ids - ResultIds(tail), front);
      AnsweredOutside(ids, tail);
      AnsweredAppend(ids, Stream(front), tail);
    }
  }

  lemma {:induction false} InOrderNoStray(ms: seq<Message>)
    requires InOrder(ms)
    ensures NoStray(Stream(ms))
    decreases |ms|
  {
    if ms != [] {
      var front, m := ms[..|ms| - 1], ms[|ms| - 1];
      InOrderNoStray(front);
      MessageBlocks(m);
      TagAt(SideOf(m), Blocks(m));
      var tail := Tag(SideOf(m), Blocks(m));
      forall k | 0 <= k < |tail|
        ensures tail[k].block.TextBlock? ==> tail[k].block.text != ""
        ensures tail[k].block.ToolResult? ==> tail[k].block.useId.Some?
      {
        assert Sound(m, Blocks(m)[k]);
      }
    }
  }

  /** A settled log goes out whole and in order: the normaliser drops no block of it. */
  lemma SettledGoesOutWhole(ms: seq<Message>)
    requires Settled(ms)
    ensures Paired(Stream(ms)) == Stream(ms) && Ordered(Stream(ms))
  {
    InOrderAsked(ResultIds(Stream(ms)), ms);
    AnsweredInStream(UseIds(Stream(ms)), ms);
    InOrderNoStray(ms);
    OrderedKeepsAll(Stream(ms));
  }

  lemma {:induction false} StreamAnswers(ms: seq<Message>)
    ensures ResultIds(Stream(ms)) == AnswersIn(ms)
    decreases |ms|
  {
    if ms != [] {
      var front, m := ms[..|ms| - 1], ms[|ms| - 1];
      StreamAnswers(front);
      IdsConcat(Stream(front), Tag(SideOf(m), Blocks(m)));
      MessageIds(m);
    }
  }

  /**
   Settled or not, a log whose answers were all asked for goes out whole exactly when the
   ids asked for are the ids answered.
   */
  lemma WholeIff(ms: seq<Message>)
    requires InOrder(ms)
    ensures Paired(Stream(ms)) == Stream(ms) <==> AskedIn(ms) == AnswersIn(ms)
  {
    var s := Stream(ms);
    StreamIds(ms);
    StreamAnswers(ms);
    InOrderNoStray(ms);
    PairsClosed(s);
    if AskedIn(ms) == AnswersIn(ms) {
      forall k | 0 <= k < |s|
        ensures Keeps(s[k].block, UseIds(s), ResultIds(s))
      {
        MemberIds(s, k);
      }
      KeptAll(s, UseIds(s), ResultIds(s));
    }
  }

  // ---------------------------------------------------------------- which blocks go out

  ghost predicate SomeCalls(ms: seq<Message>, id: string) {
    exists k, j :: 0 <= k < |ms| && ms[k].role.Assistant? && 0 <= j < |ms[k].toolCalls| && ms[k].toolCalls[j].id == id
  }

  ghost predicate SomeAnswers(ms: seq<Message>, id: string) {
    exists k :: 0 <= k < |ms| && ms[k].role.Tool? && ms[k].toolCallId == Some(id)
  }

  lemma {:induction false} IdsIff(calls: seq<ToolCall>, id: string)
    ensures id in Ids(calls) <==> exists j :: 0 <= j < |calls| && calls[j].id == id
    decreases |calls|
  {
    if calls != [] {
      var front := calls[..|calls| - 1];
      IdsIff(front, id);
      assert forall j :: 0 <= j < |front| ==> front[j] == calls[j];
    }
  }

  /** What it means that an id was asked for, or answered, in a list of messages. */
  lemma {:induction false} AskedAnsweredIff(ms: seq<Message>, id: string)
    ensures id in AskedIn(ms) <==> SomeCalls(ms, id)
    ensures id in AnswersIn(ms) <==> SomeAnswers(ms, id)
    decreases |ms|
  {
    if ms != [] {
      var front, m := ms[..|ms| - 1], ms[|ms| - 1];
      AskedAnsweredIff(front, id);
      IdsIff(m.toolCalls, id);
      assert forall k :: 0 <= k < |front| ==> front[k] == ms[k];
      assert ms[|ms| - 1] == m;
    }
  }

  lemma {:induction false} KeptMembers(s: seq<Tagged>, x: Tagged, uses: set<string>, results: set<string>)
    ensures x in Kept(s, uses, results) <==> x in s && Keeps(x.block, uses, results)
    decreases |s|
  {
    if s != [] {
      KeptMembers(s[1..], x, uses, results);
      assert s == [s[0]] + s[1..];
    }
  }

  /** Every text; a call when some tool message answers its id; an answer when some assistant message calls its id. */
  ghost predicate GoesOut(ms: seq<Message>, b: Block) {
    match b
    case TextBlock(text, _) => text != ""
    case ToolUse(id, _, _, _) => SomeAnswers(ms, id)
    case ToolResult(useId, _, _) => useId.Some? && SomeCalls(ms, useId.value)
  }

  /** Which of the blocks shown by any list of messages, settled or not, are on the wire. */
  lemma OnTheWireIff(ms: seq<Message>, s: seq<Tagged>, x: Tagged)
    requires Shows(ms, s)
    ensures x in Flat(Runs(Paired(s))) <==> x in s && GoesOut(ms, x.block)
  {
    StreamShows(ms, s);
    StreamIds(ms);
    StreamAnswers(ms);
    RunsForm(Paired(s));
    KeptMembers(s, x, UseIds(s), ResultIds(s));
    if x.block.ToolUse? { AskedAnsweredIff(ms, x.block.id); }
    if x.block.ToolResult? && x.block.useId.Some? { AskedAnsweredIff(ms, x.block.useId.value); }
  }

  // ---------------------------------------------------------------- the assembled prompt

  function Bounded(log: seq<Message>): seq<Message> {
    if log == [] then [] else log[..|log| - 1] + [log[|log| - 1].(cacheBoundary := true)]
  }

  /** The base messages, the log with its cache boundary, and the situation report. */
  function Assembled(base: seq<Message>, log: seq<Message>, situation: seq<Message>): seq<Message> {
    base + Bounded(log) + situation
  }

  lemma BoundedSettled(log: seq<Message>)
    requires Settled(log)
    ensures Settled(Bounded(log))
  {
    if log != [] {
      var front, last := log[..|log| - 1], log[|log| - 1];
      Push(front, last);
      Push(front, last.(cacheBoundary := true));
      assert log == front + [last];
    }
  }

  /** No tool call and no tool result of a settled log is lost between the loop and the wire. */
  lemma NothingDropped(base: seq<Message>, log: seq<Message>, situation: seq<Message>)
    requires Toolless(base) && Toolless(situation) && Settled(log)
    ensures Flat(Runs(Paired(Stream(Assembled(base, log, situation))))) == Stream(Assembled(base, log, situation))
  {
    BoundedSettled(log);
    ToollessSettled(base);
    ToollessSettled(situation);
    InOrderConcat(base, Bounded(log));
    UnansweredConcat(base, Bounded(log));
    InOrderConcat(base + Bounded(log), situation);
    UnansweredConcat(base + Bounded(log), situation);
    SettledGoesOutWhole(Assembled(base, log, situation));
    RunsForm(Stream(Assembled(base, log, situation)));
  }

  /** In every run that has not ended and not compacted its log, every message of the prompt is shown on the wire. */
  lemma RunGoesOutWhole(b: Stages.Beliefs, claims: seq<Stages.Claim>, resumed: Option<string>,
                        es: seq<AgentLoop.Inputs>, base: seq<Message>, situation: seq<Message>)
    requires Toolless(base) && Toolless(situation)
    requires AgentLoop.Run(AgentLoop.Start(b, claims, resumed), es).verdict.Going?
    requires AgentLoop.Run(AgentLoop.Start(b, claims, resumed), es).chat.cuts == 0
    ensures var prompt := Assembled(base, AgentLoop.Run(AgentLoop.Start(b, claims, resumed), es).chat.log, situation);
            Shows(prompt, Flat(Runs(Paired(Stream(prompt)))))
  {
    AgentLoop.EveryCallAnswered(b, claims, resumed, es);
    var prompt := Assembled(base, AgentLoop.Run(AgentLoop.Start(b, claims, resumed), es).chat.log, situation);
    NothingDropped(base, AgentLoop.Run(AgentLoop.Start(b, claims, resumed), es).chat.log, situation);
    StreamShows(prompt, Stream(prompt));
  }
}
