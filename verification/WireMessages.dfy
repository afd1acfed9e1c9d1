/**
 `mapAnthropicMessages` (packages/forge-provider/src/base.ts:189-276): bring a
 message list into the form an Anthropic-style endpoint accepts, in four passes:
 normalise, merge same-role turns, drop orphan tool blocks, merge again.
 */
module WireMessages {
  import opened Text

  datatype Role = System | User | Assistant | Tool

  datatype ToolCall = ToolCall(id: string, name: string, input: string)

  datatype Message = Message(role: Role, content: string, toolCallId: Option<string>,
                             toolCalls: seq<ToolCall>, cacheBoundary: bool)

  datatype Side = UserSide | AssistantSide

  /** `mark` is the prompt-cache marker put on the last block of a boundary message. */
  datatype Block =
    | TextBlock(text: string, mark: bool)
    | ToolUse(id: string, name: string, input: string, mark: bool)
    | ToolResult(useId: Option<string>, content: string, mark: bool)

  datatype Turn = Turn(side: Side, blocks: seq<Block>)

  /** A block with the role of the turn it stands in. */
  datatype Tagged = Tagged(side: Side, block: Block)

  // ---------------------------------------------------------------- the message stream

  function TextBlocks(content: string): seq<Block> {
    if content == "" then [] else [TextBlock(content, false)]
  }

  function UseBlocks(calls: seq<ToolCall>): seq<Block> {
    if calls == [] then []
    else UseBlocks(calls[..|calls| - 1])
         + [ToolUse(calls[|calls| - 1].id, calls[|calls| - 1].name, calls[|calls| - 1].input, false)]
  }

  function SideOf(m: Message): Side {
    if m.role.Assistant? then AssistantSide else UserSide
  }

  function PlainBlocks(m: Message): seq<Block> {
    match m.role
    case System => TextBlocks(m.content)
    case Tool => [ToolResult(m.toolCallId, m.content, false)]
    case Assistant => TextBlocks(m.content) + UseBlocks(m.toolCalls)
    case User => TextBlocks(m.content)
  }

  function MarkLast(blocks: seq<Block>): seq<Block> {
    if blocks == [] then []
    else blocks[..|blocks| - 1] + [blocks[|blocks| - 1].(mark := true)]
  }

  function Blocks(m: Message): seq<Block> {
    if m.cacheBoundary && !m.role.System? then MarkLast(PlainBlocks(m)) else PlainBlocks(m)
  }

  function Tag(side: Side, blocks: seq<Block>): seq<Tagged> {
    if blocks == [] then [] else [Tagged(side, blocks[0])] + Tag(side, blocks[1..])
  }

  /** All blocks of a message list in order, each with its role. */
  function Stream(ms: seq<Message>): seq<Tagged> {
    if ms == [] then []
    else Stream(ms[..|ms| - 1]) + Tag(SideOf(ms[|ms| - 1]), Blocks(ms[|ms| - 1]))
  }

  // ---------------------------------------------------------------- the one-line specification

  function UseIds(s: seq<Tagged>): set<string> {
    if s == [] then {} else (if s[0].block.ToolUse? then {s[0].block.id} else {}) + UseIds(s[1..])
  }

  function ResultIds(s: seq<Tagged>): set<string> {
    if s == [] then {}
    else (if s[0].block.ToolResult? && s[0].block.useId.Some? then {s[0].block.useId.value} else {})
         + ResultIds(s[1..])
  }

  /** Non-empty text, and tool blocks whose partner's id is somewhere in the list. */
  predicate Keeps(b: Block, uses: set<string>, results: set<string>) {
    match b
    case TextBlock(text, _) => text != ""
    case ToolUse(id, _, _, _) => id in results
    case ToolResult(useId, _, _) => useId.Some? && useId.value in uses
  }

  function Kept(s: seq<Tagged>, uses: set<string>, results: set<string>): seq<Tagged> {
    if s == [] then []
    else (if Keeps(s[0].block, uses, results) then [s[0]] else []) + Kept(s[1..], uses, results)
  }

  function Paired(s: seq<Tagged>): seq<Tagged> {
    Kept(s, UseIds(s), ResultIds(s))
  }

  /** A stream grouped into its maximal runs of one role. */
  function Runs(s: seq<Tagged>): seq<Turn> {
    if s == [] then [] else Before(s[0], Runs(s[1..]))
  }

  /** One more block in front: it joins the first turn if that has its role. */
  function Before(x: Tagged, turns: seq<Turn>): seq<Turn> {
    if turns != [] && turns[0].side == x.side
    then [Turn(x.side, [x.block] + turns[0].blocks)] + turns[1..]
    else [Turn(x.side, [x.block])] + turns
  }

  // ---------------------------------------------------------------- the passes

  function Flat(turns: seq<Turn>): seq<Tagged> {
    if turns == [] then [] else Tag(turns[0].side, turns[0].blocks) + Flat(turns[1..])
  }

  predicate Alternating(turns: seq<Turn>) {
    forall k :: 0 <= k < |turns| - 1 ==> turns[k].side != turns[k + 1].side
  }

  predicate NoneEmpty(turns: seq<Turn>) {
    forall k :: 0 <= k < |turns| ==> turns[k].blocks != []
  }

  lemma {:induction false} TagConcat(side: Side, a: seq<Block>, b: seq<Block>)
    ensures Tag(side, a + b) == Tag(side, a) + Tag(side, b)
    decreases |a|
  {
    if a == [] {
      assert a + b == b;
    } else {
      assert (a + b)[1..] == a[1..] + b;
      TagConcat(side, a[1..], b);
    }
  }

  lemma {:induction false} FlatConcat(a: seq<Turn>, b: seq<Turn>)
    ensures Flat(a + b) == Flat(a) + Flat(b)
    decreases |a|
  {
    if a == [] {
      assert a + b == b;
    } else {
      assert (a + b)[1..] == a[1..] + b;
      FlatConcat(a[1..], b);
    }
  }

  lemma FlatSnoc(turns: seq<Turn>, t: Turn)
    ensures Flat(turns + [t]) == Flat(turns) + Tag(t.side, t.blocks)
  {
    FlatConcat(turns, [t]);
    assert [t][1..] == [] && Tag(t.side, t.blocks) + [] == Tag(t.side, t.blocks);
  }

  lemma StreamSnoc(ms: seq<Message>, i: nat)
    requires i < |ms|
    ensures Stream(ms[..i + 1]) == Stream(ms[..i]) + Tag(SideOf(ms[i]), Blocks(ms[i]))
  {
    assert ms[..i + 1][..i] == ms[..i];
  }

  // ---------------------------------------------------------------- what a message shows

  /**
   What one message puts on the wire. A tool message: its answer. Any other: its text unless
   empty, then an assistant's calls in order. The cache marker is on the last block of a
   boundary message and nowhere else.
   */
  ghost predicate Shown(m: Message, s: seq<Tagged>) {
    && (forall k :: 0 <= k < |s| ==> s[k].side == (if m.role.Assistant? then AssistantSide else UserSide))
    && (forall k :: 0 <= k < |s| ==> (s[k].block.mark <==> m.cacheBoundary && !m.role.System? && k == |s| - 1))
    && if m.role.Tool?
       then |s| == 1 && s[0].block.ToolResult? && s[0].block.useId == m.toolCallId && s[0].block.content == m.content
       else TextThenCalls(m.content, if m.role.Assistant? then m.toolCalls else [], s)
  }

  ghost predicate TextThenCalls(text: string, calls: seq<ToolCall>, s: seq<Tagged>) {
    if text == "" then AreCalls(calls, s)
    else s != [] && s[0].block.TextBlock? && s[0].block.text == text && AreCalls(calls, s[1..])
  }

  ghost predicate AreCalls(calls: seq<ToolCall>, s: seq<Tagged>) {
    && |s| == |calls|
    && forall j :: 0 <= j < |calls| ==>
      && s[j].block.ToolUse? && s[j].block.id == calls[j].id
      && s[j].block.name == calls[j].name && s[j].block.input == calls[j].input
  }

  /** A stream that is made of what the messages of a list show, one message after another. */
  ghost predicate Shows(ms: seq<Message>, s: seq<Tagged>)
    decreases |ms|
  {
    if ms == [] then s == []
    else exists n :: 0 <= n <= |s| && Shows(ms[..|ms| - 1], s[..n]) && Shown(ms[|ms| - 1], s[n..])
  }

  lemma {:induction false} TagAt(side: Side, blocks: seq<Block>)
    ensures |Tag(side, blocks)| == |blocks|
    ensures forall k :: 0 <= k < |blocks| ==> Tag(side, blocks)[k] == Tagged(side, blocks[k])
    decreases |blocks|
  {
    if blocks != [] { TagAt(side, blocks[1..]); }
  }

  lemma {:induction false} UseBlocksAt(calls: seq<ToolCall>)
    ensures |UseBlocks(calls)| == |calls|
    ensures forall j :: 0 <= j < |calls| ==>
      UseBlocks(calls)[j] == ToolUse(calls[j].id, calls[j].name, calls[j].input, false)
    decreases |calls|
  {
    if calls != [] { UseBlocksAt(calls[..|calls| - 1]); }
  }

  lemma MarkLastAt(blocks: seq<Block>)
    ensures |MarkLast(blocks)| == |blocks|
    ensures forall k :: 0 <= k < |blocks| ==>
      MarkLast(blocks)[k] == if k == |blocks| - 1 then blocks[k].(mark := true) else blocks[k]
  {
  }

  lemma PlainBlocksAt(m: Message)
    requires !m.role.Tool?
    ensures TextThenCalls(m.content, if m.role.Assistant? then m.toolCalls else [], Tag(SideOf(m), PlainBlocks(m)))
    ensures forall k :: 0 <= k < |PlainBlocks(m)| ==> !PlainBlocks(m)[k].mark
  {
    var calls := if m.role.Assistant? then m.toolCalls else [];
    UseBlocksAt(calls);
    TagAt(SideOf(m), UseBlocks(calls));
    assert UseBlocks([]) == [] && TextBlocks(m.content) + [] == TextBlocks(m.content);
    assert PlainBlocks(m) == TextBlocks(m.content) + UseBlocks(calls);
    if m.content == "" {
      assert PlainBlocks(m) == UseBlocks(calls);
    } else {
      assert PlainBlocks(m)[1..] == UseBlocks(calls);
    }
  }

  lemma BlocksShown(m: Message)
    ensures Shown(m, Tag(SideOf(m), Blocks(m)))
  {
    TagAt(SideOf(m), PlainBlocks(m));
    TagAt(SideOf(m), Blocks(m));
    MarkLastAt(PlainBlocks(m));
    if !m.role.Tool? {
      PlainBlocksAt(m);
      MarkKeepsCalls(m.content, if m.role.Assistant? then m.toolCalls else [], Tag(SideOf(m), PlainBlocks(m)),
                     Tag(SideOf(m), Blocks(m)));
    }
  }

  predicate Remarked(b: Block, c: Block) {
    c == b.(mark := c.mark)
  }

  lemma MarkKeepsCalls(text: string, calls: seq<ToolCall>, s: seq<Tagged>, t: seq<Tagged>)
    requires TextThenCalls(text, calls, s) && |t| == |s|
    requires forall k :: 0 <= k < |s| ==> Remarked(s[k].block, t[k].block)
    ensures TextThenCalls(text, calls, t)
  {
    if text != "" {
      assert forall j :: 0 <= j < |calls| ==> Remarked(s[1..][j].block, t[1..][j].block);
    }
  }

  lemma CallsOnce(calls: seq<ToolCall>, s: seq<Tagged>, t: seq<Tagged>)
    requires AreCalls(calls, s) && AreCalls(calls, t)
    requires forall k :: 0 <= k < |s| ==> s[k].side == t[k].side && s[k].block.mark == t[k].block.mark
    ensures s == t
  {
    assert forall k :: 0 <= k < |s| ==> calls[k] == calls[k] && s[k] == t[k];
  }

  /** Nothing else shows a message. */
  lemma ShownOnce(m: Message, s: seq<Tagged>, t: seq<Tagged>)
    requires Shown(m, s) && Shown(m, t)
    ensures s == t
  {
    if !m.role.Tool? {
      var calls := if m.role.Assistant? then m.toolCalls else [];
      if m.content == "" {
        CallsOnce(calls, s, t);
      } else {
        CallsOnce(calls, s[1..], t[1..]);
        assert s == [s[0]] + s[1..] && t == [t[0]] + t[1..];
      }
    }
  }

  lemma ShowsSnoc(front: seq<Message>, m: Message, head: seq<Tagged>, tail: seq<Tagged>)
    requires Shows(front, head) && Shown(m, tail)
    ensures Shows(front + [m], head + tail)
  {
    assert (front + [m])[..|front|] == front && (front + [m])[|front|] == m;
    assert (head + tail)[..|head|] == head && (head + tail)[|head|..] == tail;
  }

  lemma {:induction false} StreamShown(ms: seq<Message>)
    ensures Shows(ms, Stream(ms))
    decreases |ms|
  {
    if ms != [] {
      var front, m := ms[..|ms| - 1], ms[|ms| - 1];
      StreamShown(front);
      BlocksShown(m);
      ShowsSnoc(front, m, Stream(front), Tag(SideOf(m), Blocks(m)));
      assert ms == front + [m];
    }
  }

  /** No two streams are made of what the same messages show. */
  lemma {:induction false} ShowsOnce(ms: seq<Message>, s: seq<Tagged>, t: seq<Tagged>)
    requires Shows(ms, s) && Shows(ms, t)
    ensures s == t
    decreases |ms|
  {
    if ms != [] {
      var front, m := ms[..|ms| - 1], ms[|ms| - 1];
      var n :| 0 <= n <= |s| && Shows(front, s[..n]) && Shown(m, s[n..]);
      var k :| 0 <= k <= |t| && Shows(front, t[..k]) && Shown(m, t[k..]);
      ShowsOnce(front, s[..n], t[..k]);
      ShownOnce(m, s[n..], t[k..]);
      SameHalves(s, n, t, k);
    }
  }

  lemma SameHalves<T>(s: seq<T>, n: nat, t: seq<T>, k: nat)
    requires n <= |s| && k <= |t| && s[..n] == t[..k] && s[n..] == t[k..]
    ensures s == t
  {
    assert s == s[..n] + s[n..] && t == t[..k] + t[k..];
  }

  /** The stream of a list is exactly what its messages show. */
  lemma StreamShows(ms: seq<Message>, s: seq<Tagged>)
    ensures Shows(ms, s) <==> s == Stream(ms)
  {
    StreamShown(ms);
    if Shows(ms, s) { ShowsOnce(ms, s, Stream(ms)); }
  }

  /** The content blocks of one message, in the source's order of cases. */
  method Content(m: Message) returns (content: seq<Block>)
    requires !m.role.System?
    ensures content == PlainBlocks(m)
  {
    content := [];
    if m.role.Tool? {
      content := [ToolResult(m.toolCallId, m.content, false)];
    } else if m.role.Assistant? && |m.toolCalls| > 0 {
      if m.content != "" { content := [TextBlock(m.content, false)]; }
      for j := 0 to |m.toolCalls|
        invariant content == TextBlocks(m.content) + UseBlocks(m.toolCalls[..j])
      {
        var tc := m.toolCalls[j];
        assert m.toolCalls[..j + 1][..j] == m.toolCalls[..j];
        content := content + [ToolUse(tc.id, tc.name, tc.input, false)];
      }
      assert m.toolCalls[..|m.toolCalls|] == m.toolCalls;
    } else {
      if m.content != "" { content := [TextBlock(m.content, false)]; }
      assert UseBlocks([]) == [] && TextBlocks(m.content) + [] == TextBlocks(m.content);
    }
  }

  /** First pass: one turn per message, empty ones included. */
  method Normalize(messages: seq<Message>) returns (normalized: seq<Turn>)
    ensures Flat(normalized) == Stream(messages) && Shows(messages, Flat(normalized))
  {
    normalized := [];
    for i := 0 to |messages|
      invariant Flat(normalized) == Stream(messages[..i])
    {
      var m := messages[i];
      StreamSnoc(messages, i);
      if m.role.System? {
        if m.content != "" {
          FlatSnoc(normalized, Turn(UserSide, [TextBlock(m.content, false)]));
          normalized := normalized + [Turn(UserSide, [TextBlock(m.content, false)])];
        } else {
          assert Flat(normalized) + [] == Flat(normalized);
        }
        continue;
      }
      var content := Content(m);
      if m.cacheBoundary && |content| > 0 {
        content := content[..|content| - 1] + [content[|content| - 1].(mark := true)];
      }
      var side := if m.role.Assistant? then AssistantSide else UserSide;
      FlatSnoc(normalized, Turn(side, content));
      normalized := normalized + [Turn(side, content)];
    }
    assert messages[..|messages|] == messages;
    StreamShows(messages, Stream(messages));
  }

  /** Joining a turn to the last one of the same role keeps the stream, the alternation and the blocks. */
  lemma JoinLast(head: seq<Turn>, last: Turn, msg: Turn)
    requires last.side == msg.side && Alternating(head + [last])
    ensures var joined := head + [Turn(last.side, last.blocks + msg.blocks)];
            && Flat(joined) == Flat(head + [last]) + Tag(msg.side, msg.blocks) && Alternating(joined)
            && (NoneEmpty(head + [last]) ==> NoneEmpty(joined))
  {
    var joined := head + [Turn(last.side, last.blocks + msg.blocks)];
    FlatSnoc(head, last);
    TagConcat(msg.side, last.blocks, msg.blocks);
    FlatSnoc(head, Turn(last.side, last.blocks + msg.blocks));
    ConcatAssoc(Flat(head), Tag(msg.side, last.blocks), Tag(msg.side, msg.blocks));
    assert forall k :: 0 <= k < |head| ==> joined[k] == head[k] == (head + [last])[k];
    assert (head + [last])[|head|] == last;
  }

  /** Second and fourth pass: concatenate the blocks of neighbouring turns of one role. */
  method MergeTurns(turns: seq<Turn>) returns (merged: seq<Turn>)
    ensures Flat(merged) == Flat(turns) && Alternating(merged)
    ensures NoneEmpty(turns) ==> NoneEmpty(merged)
  {
    merged := [];
    for i := 0 to |turns|
      invariant Flat(merged) == Flat(turns[..i]) && Alternating(merged)
      invariant NoneEmpty(turns) ==> NoneEmpty(merged)
    {
      var msg := turns[i];
      assert turns[..i + 1] == turns[..i] + [msg];
      FlatSnoc(turns[..i], msg);
      if |merged| > 0 && merged[|merged| - 1].side == msg.side {
        var last := merged[|merged| - 1];
        var head := merged[..|merged| - 1];
        assert merged == head + [last];
        JoinLast(head, last, msg);
        merged := head + [Turn(last.side, last.blocks + msg.blocks)];
      } else {
        FlatSnoc(merged, msg);
        merged := merged + [msg];
      }
    }
    assert turns[..|turns|] == turns;
  }

  lemma {:induction false} IdsConcat(a: seq<Tagged>, b: seq<Tagged>)
    ensures UseIds(a + b) == UseIds(a) + UseIds(b) && ResultIds(a + b) == ResultIds(a) + ResultIds(b)
    decreases |a|
  {
    if a == [] {
      assert a + b == b;
    } else {
      assert (a + b)[1..] == a[1..] + b;
      IdsConcat(a[1..], b);
    }
  }

  lemma {:induction false} KeptConcat(a: seq<Tagged>, b: seq<Tagged>, uses: set<string>, results: set<string>)
    ensures Kept(a + b, uses, results) == Kept(a, uses, results) + Kept(b, uses, results)
    decreases |a|
  {
    if a == [] {
      assert a + b == b;
    } else {
      assert (a + b)[1..] == a[1..] + b && (a + b)[0] == a[0];
      KeptConcat(a[1..], b, uses, results);
      ConcatAssoc(if Keeps(a[0].block, uses, results) then [a[0]] else [],
                  Kept(a[1..], uses, results), Kept(b, uses, results));
    }
  }

  lemma TagSnoc(side: Side, blocks: seq<Block>, b: Block)
    ensures Tag(side, blocks + [b]) == Tag(side, blocks) + [Tagged(side, b)]
  {
    TagConcat(side, blocks, [b]);
    assert [b][1..] == [] && [Tagged(side, b)] + [] == [Tagged(side, b)];
  }

  lemma IdsSnoc(side: Side, blocks: seq<Block>, b: Block)
    ensures UseIds(Tag(side, blocks + [b]))
         == UseIds(Tag(side, blocks)) + (if b.ToolUse? then {b.id} else {})
    ensures ResultIds(Tag(side, blocks + [b]))
         == ResultIds(Tag(side, blocks)) + (if b.ToolResult? && b.useId.Some? then {b.useId.value} else {})
  {
    TagSnoc(side, blocks, b);
    IdsConcat(Tag(side, blocks), [Tagged(side, b)]);
    assert [Tagged(side, b)][1..] == [];
  }

  lemma KeptSnoc(side: Side, blocks: seq<Block>, b: Block, uses: set<string>, results: set<string>)
    ensures Kept(Tag(side, blocks + [b]), uses, results)
         == Kept(Tag(side, blocks), uses, results)
            + (if Keeps(b, uses, results) then [Tagged(side, b)] else [])
  {
    TagSnoc(side, blocks, b);
    KeptConcat(Tag(side, blocks), [Tagged(side, b)], uses, results);
    assert [Tagged(side, b)][1..] == [] && [Tagged(side, b)] + [] == [Tagged(side, b)];
  }

  method BlockIds(m: Turn) returns (uses: set<string>, results: set<string>)
    ensures uses == UseIds(Tag(m.side, m.blocks)) && results == ResultIds(Tag(m.side, m.blocks))
  {
    uses, results := {}, {};
    for j := 0 to |m.blocks|
      invariant uses == UseIds(Tag(m.side, m.blocks[..j])) && results == ResultIds(Tag(m.side, m.blocks[..j]))
    {
      var b := m.blocks[j];
      assert m.blocks[..j + 1] == m.blocks[..j] + [b];
      IdsSnoc(m.side, m.blocks[..j], b);
      if b.ToolUse? { uses := uses + {b.id}; }
      if b.ToolResult? && b.useId.Some? { results := results + {b.useId.value}; }
    }
    assert m.blocks[..|m.blocks|] == m.blocks;
  }

  /** The ids on either side of the tool blocks. */
  method CollectIds(turns: seq<Turn>) returns (toolUseIds: set<string>, toolResultIds: set<string>)
    ensures toolUseIds == UseIds(Flat(turns)) && toolResultIds == ResultIds(Flat(turns))
  {
    toolUseIds, toolResultIds := {}, {};
    for i := 0 to |turns|
      invariant toolUseIds == UseIds(Flat(turns[..i])) && toolResultIds == ResultIds(Flat(turns[..i]))
    {
      var m := turns[i];
      assert turns[..i + 1] == turns[..i] + [m];
      FlatSnoc(turns[..i], m);
      IdsConcat(Flat(turns[..i]), Tag(m.side, m.blocks));
      var uses, results := BlockIds(m);
      toolUseIds, toolResultIds := toolUseIds + uses, toolResultIds + results;
    }
    assert turns[..|turns|] == turns;
  }

  method KeepBlocks(m: Turn, uses: set<string>, results: set<string>) returns (content: seq<Block>)
    ensures Tag(m.side, content) == Kept(Tag(m.side, m.blocks), uses, results)
  {
    content := [];
    for j := 0 to |m.blocks|
      invariant Tag(m.side, content) == Kept(Tag(m.side, m.blocks[..j]), uses, results)
    {
      var b := m.blocks[j];
      assert m.blocks[..j + 1] == m.blocks[..j] + [b];
      KeptSnoc(m.side, m.blocks[..j], b, uses, results);
      if Keeps(b, uses, results) {
        TagSnoc(m.side, content, b);
        content := content + [b];
      }
    }
    assert m.blocks[..|m.blocks|] == m.blocks;
  }

  /** Third pass: keep what has a partner, drop turns left empty. */
  method DropOrphans(turns: seq<Turn>, uses: set<string>, results: set<string>) returns (filtered: seq<Turn>)
    ensures Flat(filtered) == Kept(Flat(turns), uses, results) && NoneEmpty(filtered)
  {
    filtered := [];
    for i := 0 to |turns|
      invariant Flat(filtered) == Kept(Flat(turns[..i]), uses, results) && NoneEmpty(filtered)
    {
      var m := turns[i];
      assert turns[..i + 1] == turns[..i] + [m];
      FlatSnoc(turns[..i], m);
      KeptConcat(Flat(turns[..i]), Tag(m.side, m.blocks), uses, results);
      var content := KeepBlocks(m, uses, results);
      if |content| > 0 {
        FlatSnoc(filtered, Turn(m.side, content));
        filtered := filtered + [Turn(m.side, content)];
      } else {
        assert Flat(filtered) + [] == Flat(filtered);
      }
    }
    assert turns[..|turns|] == turns;
  }

  /** The whole function: the runs of what the messages show, without the tool blocks left alone. */
  method MapAnthropicMessages(messages: seq<Message>) returns (result: seq<Turn>)
    ensures result == Runs(Paired(Stream(messages)))
    ensures forall s :: Shows(messages, s) <==> s == Stream(messages)
  {
    var normalized := Normalize(messages);
    var merged := MergeTurns(normalized);
    var toolUseIds, toolResultIds := CollectIds(merged);
    var filtered := DropOrphans(merged, toolUseIds, toolResultIds);
    result := MergeTurns(filtered);
    RunsUnique(result);
    forall s { StreamShows(messages, s); }
  }

  /** The passes from the second on, applied to turns that are already there. */
  method Repass(turns: seq<Turn>) returns (result: seq<Turn>)
    ensures result == Runs(Paired(Flat(turns)))
  {
    var merged := MergeTurns(turns);
    var toolUseIds, toolResultIds := CollectIds(merged);
    var filtered := DropOrphans(merged, toolUseIds, toolResultIds);
    result := MergeTurns(filtered);
    RunsUnique(result);
  }

  // ---------------------------------------------------------------- turns and runs

  /** Alternating turns without an empty one are the maximal runs of their blocks. */
  lemma {:induction false} RunsUnique(turns: seq<Turn>)
    requires Alternating(turns) && NoneEmpty(turns)
    ensures Runs(Flat(turns)) == turns
    decreases |turns|
  {
    if turns != [] {
      RunsUnique(turns[1..]);
      TagRuns(turns[0].side, turns[0].blocks, Flat(turns[1..]));
      assert turns == [turns[0]] + turns[1..];
    }
  }

  lemma BeforeJoins(x: Tagged, t: Turn, turns: seq<Turn>)
    requires t.side == x.side
    ensures Before(x, [t] + turns) == [Turn(x.side, [x.block] + t.blocks)] + turns
  {
    assert ([t] + turns)[1..] == turns && ([t] + turns)[0] == t;
  }

  lemma {:induction false} TagRuns(side: Side, blocks: seq<Block>, rest: seq<Tagged>)
    requires blocks != [] && (Runs(rest) != [] ==> Runs(rest)[0].side != side)
    ensures Runs(Tag(side, blocks) + rest) == [Turn(side, blocks)] + Runs(rest)
    decreases |blocks|
  {
    var s, tail, x := Tag(side, blocks) + rest, blocks[1..], Tagged(side, blocks[0]);
    ConcatAssoc([x], Tag(side, tail), rest);
    assert s == [x] + (Tag(side, tail) + rest);
    assert s[0] == x && s[1..] == Tag(side, tail) + rest;
    assert [blocks[0]] + tail == blocks;
    if tail == [] {
      assert s[1..] == rest;
      assert blocks == [blocks[0]];
      assert Runs(s) == Before(x, Runs(rest)) == [Turn(side, [blocks[0]])] + Runs(rest);
    } else {
      TagRuns(side, tail, rest);
      BeforeJoins(x, Turn(side, tail), Runs(rest));
    }
  }

  // ---------------------------------------------------------------- what the endpoint requires

  lemma {:induction false} RunsForm(s: seq<Tagged>)
    ensures Flat(Runs(s)) == s && Alternating(Runs(s)) && NoneEmpty(Runs(s))
    decreases |s|
  {
    if s != [] {
      RunsForm(s[1..]);
      BeforeForm(s[0], Runs(s[1..]));
      assert s == [s[0]] + s[1..];
    }
  }

  lemma BeforeForm(x: Tagged, turns: seq<Turn>)
    requires Alternating(turns) && NoneEmpty(turns)
    ensures Flat(Before(x, turns)) == [x] + Flat(turns)
    ensures Alternating(Before(x, turns)) && NoneEmpty(Before(x, turns))
  {
    if turns != [] && turns[0].side == x.side {
      var blocks, rest := [x.block] + turns[0].blocks, turns[1..];
      assert Before(x, turns)[1..] == rest && blocks[1..] == turns[0].blocks;
      ConcatAssoc([x], Tag(x.side, turns[0].blocks), Flat(rest));
    } else {
      assert Before(x, turns)[1..] == turns;
      TagOne(x.side, x.block);
    }
  }

  lemma TagOne(side: Side, b: Block)
    ensures Tag(side, [b]) == [Tagged(side, b)]
  {
    assert [b][1..] == [] && [Tagged(side, b)] + [] == [Tagged(side, b)];
  }

  lemma {:induction false} IdsOfKept(s: seq<Tagged>, uses: set<string>, results: set<string>)
    ensures UseIds(Kept(s, uses, results)) == UseIds(s) * results
    ensures ResultIds(Kept(s, uses, results)) == ResultIds(s) * uses
    decreases |s|
  {
    if s != [] {
      IdsOfKept(s[1..], uses, results);
      if Keeps(s[0].block, uses, results) {
        assert ([s[0]] + Kept(s[1..], uses, results))[1..] == Kept(s[1..], uses, results);
      } else {
        assert [] + Kept(s[1..], uses, results) == Kept(s[1..], uses, results);
      }
    }
  }

  /** The ids still on the wire: those on both sides of the message list, on both sides. */
  lemma PairsClosed(s: seq<Tagged>)
    ensures UseIds(Paired(s)) == ResultIds(Paired(s)) == UseIds(s) * ResultIds(s)
  {
    IdsOfKept(s, UseIds(s), ResultIds(s));
  }

  predicate AllKept(s: seq<Tagged>, uses: set<string>, results: set<string>) {
    forall k :: 0 <= k < |s| ==> Keeps(s[k].block, uses, results)
  }

  lemma {:induction false} KeptAll(s: seq<Tagged>, uses: set<string>, results: set<string>)
    ensures AllKept(s, uses, results) <==> Kept(s, uses, results) == s
    ensures |Kept(s, uses, results)| <= |s|
    decreases |s|
  {
    if s != [] {
      KeptAll(s[1..], uses, results);
      assert s == [s[0]] + s[1..];
      if Keeps(s[0].block, uses, results) {
        assert Kept(s, uses, results) == [s[0]] + Kept(s[1..], uses, results);
        assert AllKept(s[1..], uses, results) ==> AllKept(s, uses, results);
        assert AllKept(s, uses, results) ==> AllKept(s[1..], uses, results) by {
          assert forall k :: 0 <= k < |s[1..]| ==> s[1..][k] == s[k + 1];
        }
        assert Kept(s, uses, results)[1..] == Kept(s[1..], uses, results);
      } else {
        assert |Kept(s, uses, results)| < |s|;
      }
    }
  }

  lemma {:induction false} KeptKeeps(s: seq<Tagged>, uses: set<string>, results: set<string>)
    ensures AllKept(Kept(s, uses, results), uses, results)
    decreases |s|
  {
    if s != [] { KeptKeeps(s[1..], uses, results); }
  }

  lemma {:induction false} MemberIds(s: seq<Tagged>, k: nat)
    requires k < |s|
    ensures s[k].block.ToolUse? ==> s[k].block.id in UseIds(s)
    ensures s[k].block.ToolResult? && s[k].block.useId.Some? ==> s[k].block.useId.value in ResultIds(s)
    decreases |s|
  {
    if k > 0 { MemberIds(s[1..], k - 1); }
  }

  /** Pairing what is already paired drops nothing more. */
  lemma PairedTwice(s: seq<Tagged>)
    ensures Paired(Paired(s)) == Paired(s)
  {
    var t := Paired(s);
    PairsClosed(s);
    KeptKeeps(s, UseIds(s), ResultIds(s));
    forall k | 0 <= k < |t|
      ensures Keeps(t[k].block, UseIds(t), ResultIds(t))
    {
      MemberIds(t, k);
    }
    KeptAll(t, UseIds(t), ResultIds(t));
  }

  /**
   What goes on the wire: roles alternate, no turn is empty, no text is empty, the blocks
   are the paired stream in order, every kept use has a kept result and the reverse,
   and passing the turns through the passes again gives them back.
   */
  lemma WireForm(ms: seq<Message>)
    ensures var wire := Runs(Paired(Stream(ms)));
            && Alternating(wire) && NoneEmpty(wire) && Flat(wire) == Paired(Stream(ms))
            && UseIds(Flat(wire)) == ResultIds(Flat(wire)) == UseIds(Stream(ms)) * ResultIds(Stream(ms))
            && AllKept(Flat(wire), UseIds(Flat(wire)), ResultIds(Flat(wire)))
            && Runs(Paired(Flat(wire))) == wire
  {
    var s := Stream(ms);
    RunsForm(Paired(s));
    PairsClosed(s);
    PairedTwice(s);
    KeptAll(Paired(s), UseIds(Paired(s)), ResultIds(Paired(s)));
  }

  // ---------------------------------------------------------------- order of uses and results

  /** Every result for one of `ids` comes after a use of that id; those in `seen` were used before. */
  predicate Asked(ids: set<string>, seen: set<string>, s: seq<Tagged>)
    decreases |s|
  {
    s == [] ||
    (var b := s[0].block;
     && (b.ToolResult? && b.useId.Some? && b.useId.value in ids ==> b.useId.value in seen)
     && Asked(ids, if b.ToolUse? then seen + {b.id} else seen, s[1..]))
  }

  /** Every use of one of `ids` comes before a result for that id. */
  predicate Answered(ids: set<string>, s: seq<Tagged>) {
    s == [] ||
    (&& (s[0].block.ToolUse? && s[0].block.id in ids ==> s[0].block.id in ResultIds(s[1..]))
     && Answered(ids, s[1..]))
  }

  /** As the endpoint wants it: uses before their results, and no use or result left alone. */
  predicate Ordered(s: seq<Tagged>) {
    Asked(ResultIds(s), {}, s) && Answered(UseIds(s), s)
  }

  lemma {:induction false} KeptAsked(ids: set<string>, seen: set<string>, seen': set<string>, s: seq<Tagged>,
                                     uses: set<string>, results: set<string>)
    requires ids <= uses && ids <= results
    requires forall x :: x in ids ==> (x in seen <==> x in seen')
    ensures Asked(ids, seen, Kept(s, uses, results)) <==> Asked(ids, seen', s)
    decreases |s|
  {
    if s != [] {
      var b, rest := s[0].block, Kept(s[1..], uses, results);
      var next := if b.ToolUse? && Keeps(b, uses, results) then seen + {b.id} else seen;
      var next' := if b.ToolUse? then seen' + {b.id} else seen';
      KeptAsked(ids, next, next', s[1..], uses, results);
      assert ([s[0]] + rest)[1..] == rest && [] + rest == rest;
    }
  }

  lemma {:induction false} KeptAnswered(ids: set<string>, s: seq<Tagged>, uses: set<string>, results: set<string>)
    requires ids <= uses && ids <= results
    ensures Answered(ids, Kept(s, uses, results)) <==> Answered(ids, s)
    decreases |s|
  {
    if s != [] {
      var rest := Kept(s[1..], uses, results);
      KeptAnswered(ids, s[1..], uses, results);
      IdsOfKept(s[1..], uses, results);
      assert ([s[0]] + rest)[1..] == rest && [] + rest == rest;
    }
  }

  /**
   The passes check that a partner exists, not where it stands. The wire has every use
   before its results and no use without a later result exactly when, for the ids found
   on both sides of the message list, the list itself has.
   */
  lemma WireOrderedIff(ms: seq<Message>)
    ensures var s := Stream(ms); var ids := UseIds(s) * ResultIds(s);
            Ordered(Paired(s)) <==> Asked(ids, {}, s) && Answered(ids, s)
  {
    var s := Stream(ms);
    PairsClosed(s);
    KeptAsked(UseIds(s) * ResultIds(s), {}, {}, s, UseIds(s), ResultIds(s));
    KeptAnswered(UseIds(s) * ResultIds(s), s, UseIds(s), ResultIds(s));
  }

  const USE := ToolUse("t", "read", "{}", false)
  const RESULT := ToolResult(Some("t"), "out", false)
  const LATE_USE := [Message(Tool, "out", Some("t"), [], false),
                     Message(Assistant, "", None, [ToolCall("t", "read", "{}")], false)]

  lemma LateUseStream()
    ensures Stream(LATE_USE) == [Tagged(UserSide, RESULT), Tagged(AssistantSide, USE)]
  {
    assert [ToolCall("t", "read", "{}")][..0] == [];
    assert UseBlocks([]) == [] && UseBlocks([ToolCall("t", "read", "{}")]) == [USE];
    assert Blocks(LATE_USE[0]) == [RESULT] && Blocks(LATE_USE[1]) == [USE];
    TagOne(UserSide, RESULT);
    TagOne(AssistantSide, USE);
    assert LATE_USE[..0] == [] && LATE_USE[..2] == LATE_USE;
    StreamSnoc(LATE_USE, 0);
    StreamSnoc(LATE_USE, 1);
    assert Stream([]) == [];
  }

  /** A result that stands before the use with its id goes out as it is. */
  lemma ResultBeforeUse()
    ensures Runs(Paired(Stream(LATE_USE))) == [Turn(UserSide, [RESULT]), Turn(AssistantSide, [USE])]
    ensures !Ordered(Paired(Stream(LATE_USE)))
  {
    var s := [Tagged(UserSide, RESULT), Tagged(AssistantSide, USE)];
    LateUseStream();
    var last := s[1..];
    assert last == [Tagged(AssistantSide, USE)] && last[1..] == [];
    assert UseIds(last) == {"t"} + UseIds([]) && ResultIds(last) == {} + ResultIds([]) == {};
    assert UseIds(s) == {} + UseIds(last) && ResultIds(s) == {"t"} + ResultIds(last);
    assert UseIds(s) == {"t"} && ResultIds(s) == {"t"};
    KeptAll(s, {"t"}, {"t"});
    assert Paired(s) == s;
    assert Runs(last) == [Turn(AssistantSide, [USE])] + Runs([]) == [Turn(AssistantSide, [USE])];
    assert Runs(s) == [Turn(UserSide, [RESULT])] + Runs(last);
    assert Runs(s) == [Turn(UserSide, [RESULT]), Turn(AssistantSide, [USE])];
    assert Asked({"t"}, {}, s) == false;
  }

  lemma {:induction false} AskedIds(ids: set<string>, seen: set<string>, s: seq<Tagged>)
    requires Asked(ids, seen, s)
    ensures ResultIds(s) * ids <= seen + UseIds(s)
    decreases |s|
  {
    if s != [] {
      var b := s[0].block;
      var next := if b.ToolUse? then seen + {b.id} else seen;
      AskedIds(ids, next, s[1..]);
      assert next + UseIds(s[1..]) == seen + UseIds(s);
      assert forall x :: x in ResultIds(s) * ids ==> x in ResultIds(s[1..]) * ids || x in seen;
    }
  }

  lemma {:induction false} AnsweredIds(ids: set<string>, s: seq<Tagged>)
    requires Answered(ids, s)
    ensures UseIds(s) * ids <= ResultIds(s)
    decreases |s|
  {
    if s != [] { AnsweredIds(ids, s[1..]); }
  }

  predicate NoStray(s: seq<Tagged>) {
    forall k :: 0 <= k < |s| ==>
      && (s[k].block.TextBlock? ==> s[k].block.text != "")
      && (s[k].block.ToolResult? ==> s[k].block.useId.Some?)
  }

  /** An ordered stream loses nothing on its way. */
  lemma OrderedKeepsAll(s: seq<Tagged>)
    requires Ordered(s) && NoStray(s)
    ensures Paired(s) == s
  {
    AskedIds(ResultIds(s), {}, s);
    AnsweredIds(UseIds(s), s);
    forall k | 0 <= k < |s|
      ensures Keeps(s[k].block, UseIds(s), ResultIds(s))
    {
      MemberIds(s, k);
    }
    KeptAll(s, UseIds(s), ResultIds(s));
  }
}
