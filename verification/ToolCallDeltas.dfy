/**
 Accumulation of streamed tool calls in `OpenAIProvider.complete`
 (packages/forge-provider/src/openai.ts:60-113): fragments carry an index, and every
 call grows under its index until the stream says it is done.
 */
module ToolCallDeltas {
  import opened Text

  /** One element of `delta.tool_calls`; an absent string is the empty string. */
  datatype Fragment = Fragment(index: Option<int>, id: string, name: string, arguments: string)

  datatype Pending = Pending(id: string, name: string, arguments: string)

  /** The pending-call Map: its keys in insertion order, and its entries. */
  datatype Calls = Calls(order: seq<int>, entries: map<int, Pending>)

  const EMPTY := Calls([], map[])

  function Start(f: Fragment): Pending {
    Pending(f.id, f.name, f.arguments)
  }

  function Extend(p: Pending, f: Fragment): Pending {
    Pending(if f.id != "" then f.id else p.id, if f.name != "" then f.name else p.name, p.arguments + f.arguments)
  }

  /** A fragment without an index is taken to open the next slot. */
  function IndexOf(c: Calls, f: Fragment): int {
    match f.index case Some(i) => i case None => |c.order|
  }

  function Accept(c: Calls, f: Fragment): Calls {
    var i := IndexOf(c, f);
    if i in c.entries then Calls(c.order, c.entries[i := Extend(c.entries[i], f)])
    else Calls(c.order + [i], c.entries[i := Start(f)])
  }

  function AcceptAll(c: Calls, fs: seq<Fragment>): Calls {
    if fs == [] then c else Accept(AcceptAll(c, fs[..|fs| - 1]), fs[|fs| - 1])
  }

  /** One streamed chunk: its fragments, and whether it ends with finish reason `tool_calls`. */
  datatype Chunk = Chunk(deltas: seq<Fragment>, finished: bool)

  datatype ToolCall<V> = ToolCall(id: string, name: string, input: V)

  function Parsed<V>(arguments: string, parse: string -> Option<V>, empty: V): V {
    if arguments == "" then empty
    else match parse(arguments) case None => empty case Some(v) => v
  }

  /** The Map agrees with its insertion order, which lists every key once. */
  ghost predicate Tidy(c: Calls) {
    && (forall k :: 0 <= k < |c.order| ==> c.order[k] in c.entries)
    && (forall i :: i in c.entries ==> i in c.order)
    && forall j, k :: 0 <= j < k < |c.order| ==> c.order[j] != c.order[k]
  }

  function Emit<V>(p: Pending, parse: string -> Option<V>, empty: V): ToolCall<V> {
    ToolCall(p.id, p.name, Parsed(p.arguments, parse, empty))
  }

  /** The first `n` tool calls in Map order. */
  ghost function Emitted<V>(c: Calls, n: nat, parse: string -> Option<V>, empty: V): seq<ToolCall<V>>
    requires Tidy(c) && n <= |c.order|
  {
    seq(n, k requires 0 <= k < n => Emit(c.entries[c.order[k]], parse, empty))
  }

  lemma AcceptTidy(c: Calls, f: Fragment)
    requires Tidy(c)
    ensures Tidy(Accept(c, f))
  {
  }

  class OpenAIProvider {
    var order: seq<int>
    var pendingToolCalls: map<int, Pending>

    constructor ()
      ensures View() == EMPTY
    {
      order, pendingToolCalls := [], map[];
    }

    function View(): Calls
      reads this
    {
      Calls(order, pendingToolCalls)
    }

    /** Take in the fragments of one chunk. */
    method AcceptDeltas(deltas: seq<Fragment>)
      requires Tidy(View())
      modifies this
      ensures View() == AcceptAll(old(View()), deltas) && Tidy(View())
    {
      for k := 0 to |deltas|
        invariant View() == AcceptAll(old(View()), deltas[..k]) && Tidy(View())
      {
        var tcd := deltas[k];
        assert deltas[..k + 1][..k] == deltas[..k];
        AcceptTidy(View(), tcd);
        var index := match tcd.index case Some(i) => i case None => |order|;
        if index !in pendingToolCalls {
          order := order + [index];
          pendingToolCalls := pendingToolCalls[index := Pending(tcd.id, tcd.name, tcd.arguments)];
        } else {
          var existing := pendingToolCalls[index];
          if tcd.id != "" { existing := existing.(id := tcd.id); }
          if tcd.name != "" { existing := existing.(name := tcd.name); }
          if tcd.arguments != "" { existing := existing.(arguments := existing.arguments + tcd.arguments); }
          assert existing == Extend(pendingToolCalls[index], tcd);
          pendingToolCalls := pendingToolCalls[index := existing];
        }
      }
      assert deltas[..|deltas|] == deltas;
    }

    /** The calls as they stand, in Map order. */
    method EmitCalls<V>(parse: string -> Option<V>, empty: V) returns (toolCalls: seq<ToolCall<V>>)
      requires Tidy(View())
      ensures toolCalls == Emitted(View(), |order|, parse, empty)
    {
      toolCalls := [];
      for k := 0 to |order|
        invariant toolCalls == Emitted(View(), k, parse, empty)
      {
        var pc := pendingToolCalls[order[k]];
        var input := empty;
        if pc.arguments != "" {
          var parsed := parse(pc.arguments);
          if parsed.Some? { input := parsed.value; }
        }
        toolCalls := toolCalls + [ToolCall(pc.id, pc.name, input)];
      }
    }

    /** What a chunk yields once its fragments are taken in. */
    method Yielded<V>(finished: bool, parse: string -> Option<V>, empty: V) returns (calls: Option<seq<ToolCall<V>>>)
      requires Tidy(View())
      ensures calls == YieldOf(View(), finished, parse, empty)
    {
      SizeIsOrder(View());
      calls := None;
      if finished && |pendingToolCalls| > 0 {
        var toolCalls := EmitCalls(parse, empty);
        calls := Some(toolCalls);
      }
    }

    /** Read the `k`-th chunk. */
    method TakeChunk<V>(ghost chunks: seq<Chunk>, ghost k: nat, chunk: Chunk, parse: string -> Option<V>, empty: V)
      returns (calls: Option<seq<ToolCall<V>>>)
      requires k < |chunks| && chunk == chunks[k] && View() == SoFar(chunks, k)
      modifies this
      ensures View() == SoFar(chunks, k + 1) && calls == YieldAt(chunks, k, parse, empty)
    {
      SoFarStep(chunks, k);
      AcceptDeltas(chunk.deltas);
      calls := Yielded(chunk.finished, parse, empty);
    }

    /** One request: what each chunk of the stream yields as its tool calls. */
    method Complete<V>(chunks: seq<Chunk>, parse: string -> Option<V>, empty: V)
      returns (out: seq<Option<seq<ToolCall<V>>>>)
      modifies this
      ensures out == Yields(chunks, parse, empty)
    {
      order, pendingToolCalls := [], map[];
      out := [];
      NothingSoFar(chunks);
      for k := 0 to |chunks|
        invariant View() == SoFar(chunks, k) && out == Yields(chunks, parse, empty)[..k]
      {
        var calls := TakeChunk(chunks, k, chunks[k], parse, empty);
        out := out + [calls];
      }
    }
  }

  /** The size of the Map, which `complete` tests, is positive as soon as a call is pending. */
  lemma SizeIsOrder(c: Calls)
    requires Tidy(c)
    ensures |c.entries| > 0 <==> |c.order| > 0
  {
    if |c.order| > 0 {
      assert c.order[0] in c.entries;
    } else {
      assert forall i :: i !in c.entries.Keys;
      assert c.entries.Keys == {};
    }
  }

  function AllDeltas(chunks: seq<Chunk>): seq<Fragment> {
    if chunks == [] then [] else AllDeltas(chunks[..|chunks| - 1]) + chunks[|chunks| - 1].deltas
  }

  /** The pending calls after the first `k` chunks. */
  ghost function SoFar(chunks: seq<Chunk>, k: nat): (c: Calls)
    requires k <= |chunks|
    ensures Tidy(c)
  {
    AcceptAllTidy(EMPTY, AllDeltas(chunks[..k]));
    AcceptAll(EMPTY, AllDeltas(chunks[..k]))
  }

  lemma NothingSoFar(chunks: seq<Chunk>)
    ensures SoFar(chunks, 0) == EMPTY
  {
  }

  lemma SoFarStep(chunks: seq<Chunk>, k: nat)
    requires k < |chunks|
    ensures SoFar(chunks, k + 1) == AcceptAll(SoFar(chunks, k), chunks[k].deltas)
  {
    assert chunks[..k + 1][..k] == chunks[..k];
    AcceptAllConcat(EMPTY, AllDeltas(chunks[..k]), chunks[k].deltas);
  }

  /** What a chunk yields depends on the fragments so far, not on how they were batched. */
  ghost function YieldAt<V>(chunks: seq<Chunk>, k: nat, parse: string -> Option<V>, empty: V): Option<seq<ToolCall<V>>>
    requires k < |chunks|
  {
    YieldOf(SoFar(chunks, k + 1), chunks[k].finished, parse, empty)
  }

  /** What all chunks yield. */
  ghost function Yields<V>(chunks: seq<Chunk>, parse: string -> Option<V>, empty: V): seq<Option<seq<ToolCall<V>>>> {
    seq(|chunks|, k requires 0 <= k < |chunks| => YieldAt(chunks, k, parse, empty))
  }

  ghost function YieldOf<V>(c: Calls, finished: bool, parse: string -> Option<V>, empty: V): Option<seq<ToolCall<V>>>
    requires Tidy(c)
  {
    if finished && |c.order| > 0 then Some(Emitted(c, |c.order|, parse, empty)) else None
  }

  lemma {:induction false} AcceptAllTidy(c: Calls, fs: seq<Fragment>)
    requires Tidy(c)
    ensures Tidy(AcceptAll(c, fs))
    decreases |fs|
  {
    if fs != [] {
      AcceptAllTidy(c, fs[..|fs| - 1]);
      AcceptTidy(AcceptAll(c, fs[..|fs| - 1]), fs[|fs| - 1]);
    }
  }

  lemma {:induction false} AcceptAllConcat(c: Calls, a: seq<Fragment>, b: seq<Fragment>)
    ensures AcceptAll(c, a + b) == AcceptAll(AcceptAll(c, a), b)
    decreases |b|
  {
    if b == [] {
      assert a + b == a;
    } else {
      AcceptAllConcat(c, a, b[..|b| - 1]);
      assert (a + b)[..|a + b| - 1] == a + b[..|b| - 1];
    }
  }

  // ---------------------------------------------------------------- interleaving

  predicate Explicit(fs: seq<Fragment>) {
    forall k :: 0 <= k < |fs| ==> fs[k].index.Some?
  }

  /** The fragments of one call, in order. */
  function Project(fs: seq<Fragment>, i: int): seq<Fragment> {
    if fs == [] then []
    else Project(fs[..|fs| - 1], i) + (if fs[|fs| - 1].index == Some(i) then [fs[|fs| - 1]] else [])
  }

  /** The indexes in the order they are first seen. */
  function FirstSeen(fs: seq<Fragment>): seq<int>
    requires Explicit(fs)
  {
    if fs == [] then []
    else
      var before := FirstSeen(fs[..|fs| - 1]);
      var i := fs[|fs| - 1].index.value;
      if i in before then before else before + [i]
  }

  function LastId(fs: seq<Fragment>): string {
    if fs == [] then "" else if fs[|fs| - 1].id != "" then fs[|fs| - 1].id else LastId(fs[..|fs| - 1])
  }

  function LastName(fs: seq<Fragment>): string {
    if fs == [] then "" else if fs[|fs| - 1].name != "" then fs[|fs| - 1].name else LastName(fs[..|fs| - 1])
  }

  function AllArguments(fs: seq<Fragment>): string {
    if fs == [] then "" else AllArguments(fs[..|fs| - 1]) + fs[|fs| - 1].arguments
  }

  /** The calls come in the order their indexes were first seen. */
  lemma {:induction false} OrderIsFirstSeen(fs: seq<Fragment>)
    requires Explicit(fs)
    ensures Tidy(AcceptAll(EMPTY, fs)) && AcceptAll(EMPTY, fs).order == FirstSeen(fs)
    decreases |fs|
  {
    if fs != [] {
      var front, f := fs[..|fs| - 1], fs[|fs| - 1];
      OrderIsFirstSeen(front);
      var c := AcceptAll(EMPTY, front);
      AcceptTidy(c, f);
      assert f.index.value in c.order <==> f.index.value in c.entries;
    }
  }

  function Pieced(fs: seq<Fragment>): Pending {
    Pending(LastId(fs), LastName(fs), AllArguments(fs))
  }

  lemma PiecedStep(fs: seq<Fragment>, f: Fragment)
    ensures Pieced(fs + [f]) == Extend(Pieced(fs), f)
    ensures fs == [] ==> Pieced(fs + [f]) == Start(f)
  {
    assert (fs + [f])[..|fs|] == fs;
    assert (fs + [f])[|fs|] == f;
    assert "" + f.arguments == f.arguments;
  }

  /**
   Every call ends with the last non-empty id and name sent for its index and the
   concatenation of the arguments sent for it, and an index without fragments has none.
   */
  lemma {:induction false} CallOfIndex(fs: seq<Fragment>, i: int)
    requires Explicit(fs)
    ensures i in AcceptAll(EMPTY, fs).entries <==> Project(fs, i) != []
    ensures i in AcceptAll(EMPTY, fs).entries ==> AcceptAll(EMPTY, fs).entries[i] == Pieced(Project(fs, i))
    decreases |fs|
  {
    if fs != [] {
      var front, f := fs[..|fs| - 1], fs[|fs| - 1];
      CallOfIndex(front, i);
      PiecedStep(Project(front, i), f);
      assert AcceptAll(EMPTY, fs) == Accept(AcceptAll(EMPTY, front), f);
      if f.index.value == i {
        assert Project(fs, i) == Project(front, i) + [f];
      } else {
        assert Project(fs, i) == Project(front, i);
      }
    }
  }

  /** A call made of some fragments: their last non-empty id and name, and what their arguments parse to. */
  predicate MadeOf<V(==)>(call: ToolCall<V>, fs: seq<Fragment>, parse: string -> Option<V>, empty: V) {
    && call.id == LastId(fs) && call.name == LastName(fs)
    && call.input == if AllArguments(fs) == "" || parse(AllArguments(fs)).None? then empty
                     else parse(AllArguments(fs)).value
  }

  /** What a finished stream yields, said of the fragments alone: one call per index, in first-seen order. */
  lemma EmittedByIndex<V>(fs: seq<Fragment>, parse: string -> Option<V>, empty: V)
    requires Explicit(fs)
    ensures Tidy(AcceptAll(EMPTY, fs)) && |AcceptAll(EMPTY, fs).order| == |FirstSeen(fs)|
    ensures forall k :: 0 <= k < |FirstSeen(fs)| ==>
      var call := Emitted(AcceptAll(EMPTY, fs), |FirstSeen(fs)|, parse, empty)[k];
      MadeOf(call, Project(fs, FirstSeen(fs)[k]), parse, empty)
  {
    OrderIsFirstSeen(fs);
    forall k | 0 <= k < |FirstSeen(fs)|
      ensures AcceptAll(EMPTY, fs).entries[FirstSeen(fs)[k]] == Pieced(Project(fs, FirstSeen(fs)[k]))
    {
      CallOfIndex(fs, FirstSeen(fs)[k]);
    }
  }

  lemma {:induction false} NoneAccepted(fs: seq<Fragment>)
    ensures AcceptAll(EMPTY, fs).order == [] <==> fs == []
    decreases |fs|
  {
    if fs != [] {
      NoneAccepted(fs[..|fs| - 1]);
      if fs[..|fs| - 1] != [] { AcceptAllTidy(EMPTY, fs[..|fs| - 1]); }
    }
  }

  /**
   A chunk yields calls exactly when it has finish reason `tool_calls` and some fragment has
   come by then; and they are those of all fragments so far, one for each index.
   */
  lemma YieldIff<V>(chunks: seq<Chunk>, k: nat, parse: string -> Option<V>, empty: V)
    requires k < |chunks|
    ensures YieldAt(chunks, k, parse, empty).Some? <==> chunks[k].finished && AllDeltas(chunks[..k + 1]) != []
    ensures var fs := AllDeltas(chunks[..k + 1]);
            Explicit(fs) && YieldAt(chunks, k, parse, empty).Some? ==>
              var calls := YieldAt(chunks, k, parse, empty).value;
              |calls| == |FirstSeen(fs)|
              && forall n :: 0 <= n < |calls| ==> MadeOf(calls[n], Project(fs, FirstSeen(fs)[n]), parse, empty)
  {
    var fs := AllDeltas(chunks[..k + 1]);
    NoneAccepted(fs);
    if Explicit(fs) { EmittedByIndex(fs, parse, empty); }
  }

  /** Any interleaving of the same fragments of each call, first seen in the same order, gives the same calls. */
  lemma InterleavingIrrelevant(fs: seq<Fragment>, gs: seq<Fragment>)
    requires Explicit(fs) && Explicit(gs) && FirstSeen(fs) == FirstSeen(gs)
    requires forall i :: Project(fs, i) == Project(gs, i)
    ensures AcceptAll(EMPTY, fs) == AcceptAll(EMPTY, gs)
  {
    OrderIsFirstSeen(fs);
    OrderIsFirstSeen(gs);
    var a, b := AcceptAll(EMPTY, fs).entries, AcceptAll(EMPTY, gs).entries;
    forall i
      ensures i in a <==> i in b
      ensures i in a ==> a[i] == b[i]
    {
      CallOfIndex(fs, i);
      CallOfIndex(gs, i);
    }
    assert a == b;
  }

  /** A fragment without an index opens a call of its own exactly when the count is not yet an index. */
  lemma ImplicitIndex(c: Calls, f: Fragment)
    requires Tidy(c) && f.index.None?
    ensures |Accept(c, f).order| == |c.order| + 1 <==> |c.order| !in c.order
    ensures (forall k :: 0 <= k < |c.order| ==> c.order[k] == k) ==> |c.order| !in c.order
  {
  }
}
