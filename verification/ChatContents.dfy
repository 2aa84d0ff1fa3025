/**
 * Chat Completions to Messages: what a client accumulates from the blocks is what the upstream
 * said, for every chunk sequence, in order or not.
 */
module ChatContents {
  import opened Wire
  import opened Folds
  import opened Clients
  import opened BlockLists
  import opened ChatUpstream
  import opened ChatStream
  import opened ChatClaude

  // ---- the invariant ----

  predicate Accounted(tools: seq<Tool>, nextIndex: int, bs: seq<Block>, calls: seq<UpCall>) {
    && |bs| == nextIndex
    && CallsOf(bs) == Seen(calls)
    && |calls| == |tools|
    && (forall j :: 0 <= j < |calls| ==> calls[j].index == tools[j].index)
    && (forall j :: 0 <= j < |calls| ==>
          && 0 <= tools[j].blockIndex < |bs|
          && bs[tools[j].blockIndex] == ToolBlock(calls[j].id, calls[j].name, calls[j].args)
          && |CallsOf(bs[..tools[j].blockIndex])| == j)
  }

  predicate Holds(st: State, bs: seq<Block>, calls: seq<UpCall>, text: string) {
    && Shape(st)
    && Accounted(st.tools, st.nextIndex, bs, calls)
    && TextOf(bs) == text
    && (st.textOpen ==> bs[st.textIndex].TextBlock?)
  }

  /** After an operation that conveys `calls'` and `text'`, a client that had `bs` has exactly that. */
  predicate Conveys(bs: seq<Block>, out: Out, calls: seq<UpCall>, text: string) {
    Holds(out.0, Blocks(bs, out.1), calls, text)
  }

  lemma ConveysThen(bs: seq<Block>, a: Out, b: Out, calls: seq<UpCall>, text: string)
    requires Conveys(Blocks(bs, a.1), b, calls, text)
    ensures Conveys(bs, (b.0, a.1 + b.1), calls, text)
  {
    FoldAppend(BlocksStep, bs, a.1, b.1);
  }

  lemma StoppedAccounted(tools: seq<Tool>, nextIndex: int, bs: seq<Block>, calls: seq<UpCall>)
    requires Accounted(tools, nextIndex, bs, calls)
    ensures Accounted(StopAll(tools), nextIndex, bs, calls)
  {
    assert forall i :: 0 <= i < |tools| ==> StopAll(tools)[i] == tools[i].(stopped := true);
  }

  lemma CloseConveys(st: State, bs: seq<Block>, calls: seq<UpCall>, text: string)
    requires Holds(st, bs, calls, text)
    ensures Holds(StopBlocks(st).0, bs, calls, text) && Blocks(bs, StopBlocks(st).1) == bs
  {
    StopBlocksCloses(st);
    AllClosedShape(st);
    StopsSayNothing(bs, st);
    StoppedAccounted(st.tools, st.nextIndex, bs, calls);
  }

  lemma StopsSayNothing(bs: seq<Block>, st: State)
    ensures Blocks(bs, Closing(st)) == bs
  {
    FoldOne(BlocksStep, bs, BlockStop(st.nextIndex - 1));
  }

  lemma OpenTextConveys(st: State, bs: seq<Block>, calls: seq<UpCall>, text: string)
    requires Holds(st, bs, calls, text) && Reading(st)
    ensures Conveys(bs, OpenText(st), calls, text)
  {
    OpenTextWatched(st);
    if !st.textOpen {
      CloseConveys(st, bs, calls, text);
      var b := StopBlocks(st);
      var e := BlockStart(b.0.nextIndex, TextKind);
      AddBlock(bs, TextBlock(""));
      FoldOne(BlocksStep, bs, e);
      RanksKept(b.0.tools, b.0.nextIndex, bs, calls, TextBlock(""));
      assert text + "" == text;
      assert OpenText(st) == (TextStarted(b.0), b.1 + [e]);
      ConveysThen(bs, b, (TextStarted(b.0), [e]), calls, text);
    }
  }

  /** Appending a block that is not a tool's keeps every known tool accounted for. */
  lemma RanksKept(tools: seq<Tool>, nextIndex: int, bs: seq<Block>, calls: seq<UpCall>, b: Block)
    requires Accounted(tools, nextIndex, bs, calls) && b.TextBlock?
    ensures Accounted(tools, nextIndex + 1, bs + [b], calls)
  {
    AddBlock(bs, b);
    forall j | 0 <= j < |calls| ensures (bs + [b])[..tools[j].blockIndex] == bs[..tools[j].blockIndex] {
    }
  }

  lemma ContentConveys(st: State, bs: seq<Block>, calls: seq<UpCall>, text: string, content: string)
    requires Holds(st, bs, calls, text) && Reading(st)
    ensures Conveys(bs, ClaudeContent(st, content), calls, text + content)
  {
    if content != "" {
      var a := OpenText(st);
      OpenTextConveys(st, bs, calls, text);
      OpenTextWatched(st);
      TextConveys(a.0, Blocks(bs, a.1), calls, text, content);
      ConveysThen(bs, a, (a.0, [BlockDelta(a.0.textIndex, TextPart(content))]), calls, text + content);
    } else {
      assert text + content == text;
    }
  }

  lemma TextConveys(st: State, bs: seq<Block>, calls: seq<UpCall>, text: string, content: string)
    requires Holds(st, bs, calls, text) && st.textOpen
    ensures Conveys(bs, (st, [BlockDelta(st.textIndex, TextPart(content))]), calls, text + content)
  {
    SetTextBlock(bs, st.textIndex, content);
    FoldOne(BlocksStep, bs, BlockDelta(st.textIndex, TextPart(content)));
    TextKept(st.tools, st.nextIndex, bs, calls, TextBlock(bs[st.textIndex].text + content));
  }

  lemma TextKept(tools: seq<Tool>, nextIndex: int, bs: seq<Block>, calls: seq<UpCall>, b: Block)
    requires Accounted(tools, nextIndex, bs, calls) && b.TextBlock? && nextIndex > 0 && bs[nextIndex - 1].TextBlock?
    requires CallsOf(bs[nextIndex - 1 := b]) == CallsOf(bs)
    ensures Accounted(tools, nextIndex, bs[nextIndex - 1 := b], calls)
  {
    var bs' := bs[nextIndex - 1 := b];
    forall j | 0 <= j < |calls| ensures bs'[..tools[j].blockIndex] == bs[..tools[j].blockIndex] {
    }
  }

  lemma StartToolConveys(st: State, bs: seq<Block>, calls: seq<UpCall>, text: string, tc: ToolDelta)
    requires Holds(st, bs, calls, text) && Shape(ToolStarted(st, tc)) && !st.textOpen
    ensures Conveys(bs, (ToolStarted(st, tc), [BlockStart(st.nextIndex, ToolKind(tc.id, tc.name))]),
                    calls + [UpCall(tc.index, tc.id, tc.name, "")], text)
  {
    FoldOne(BlocksStep, bs, BlockStart(st.nextIndex, ToolKind(tc.id, tc.name)));
    NewToolAccounted(st, bs, calls, tc);
    AddBlock(bs, ToolBlock(tc.id, tc.name, ""));
    assert text + "" == text;
  }

  lemma OpenToolConveys(st: State, bs: seq<Block>, calls: seq<UpCall>, text: string, tc: ToolDelta)
    requires Holds(st, bs, calls, text) && Reading(st) && Find(st.tools, tc.index) == |st.tools|
    ensures Conveys(bs, OpenTool(st, tc), calls + [UpCall(tc.index, tc.id, tc.name, "")], text)
  {
    CloseConveys(st, bs, calls, text);
    ClosedForTool(st, tc);
    var b := StopBlocks(st);
    var e := BlockStart(b.0.nextIndex, ToolKind(tc.id, tc.name));
    StartToolConveys(b.0, bs, calls, text, tc);
    ConveysThen(bs, b, (ToolStarted(b.0, tc), [e]), calls + [UpCall(tc.index, tc.id, tc.name, "")], text);
    assert OpenTool(st, tc) == (ToolStarted(b.0, tc), b.1 + [e]);
  }

  lemma NewToolAccounted(st: State, bs: seq<Block>, calls: seq<UpCall>, tc: ToolDelta)
    requires Accounted(st.tools, st.nextIndex, bs, calls)
    ensures var t := ToolStarted(st, tc);
            Accounted(t.tools, t.nextIndex, bs + [ToolBlock(tc.id, tc.name, "")], calls + [UpCall(tc.index, tc.id, tc.name, "")])
  {
    var b, u := ToolBlock(tc.id, tc.name, ""), UpCall(tc.index, tc.id, tc.name, "");
    AddBlock(bs, b);
    assert Seen(calls + [u]) == Seen(calls) + [Call(tc.id, tc.name, "")];
    forall j | 0 <= j < |calls| ensures (bs + [b])[..st.tools[j].blockIndex] == bs[..st.tools[j].blockIndex] {
    }
    assert (bs + [b])[..|bs|] == bs;
  }

  lemma ArgsAccounted(tools: seq<Tool>, nextIndex: int, bs: seq<Block>, calls: seq<UpCall>, p: nat, more: string)
    requires Accounted(tools, nextIndex, bs, calls) && p < |calls|
    requires forall i, j :: 0 <= i < j < |tools| ==> tools[i].blockIndex < tools[j].blockIndex
    ensures var i := tools[p].blockIndex;
            var bs' := bs[i := bs[i].(json := bs[i].json + more)];
            Accounted(tools, nextIndex, bs', calls[p := calls[p].(args := calls[p].args + more)]) && TextOf(bs') == TextOf(bs)
  {
    var i := tools[p].blockIndex;
    var b := bs[i].(json := bs[i].json + more);
    var calls' := calls[p := calls[p].(args := calls[p].args + more)];
    SetToolBlock(bs, i, b);
    assert Seen(calls') == Seen(calls)[p := Call(b.id, b.name, b.json)];
    forall j | 0 <= j < |calls'|
      ensures && |CallsOf(bs[i := b][..tools[j].blockIndex])| == j
              && bs[i := b][tools[j].blockIndex] == ToolBlock(calls'[j].id, calls'[j].name, calls'[j].args)
    {
      SameKindsSameRank(bs, i, b, tools[j].blockIndex);
      if j < p {
        assert tools[j].blockIndex < tools[p].blockIndex;
      } else if p < j {
        assert tools[p].blockIndex < tools[j].blockIndex;
      }
    }
  }

  /** Opening: the upstream calls as they stand before this delta's own arguments are added. */
  function Opened(calls: seq<UpCall>, p: nat, tc: ToolDelta): seq<UpCall> {
    if p == |calls| then calls + [UpCall(tc.index, tc.id, tc.name, "")] else calls
  }

  lemma {:induction false} OpenedThenArgs(tools: seq<Tool>, nextIndex: int, bs: seq<Block>, calls: seq<UpCall>, tc: ToolDelta)
    requires Accounted(tools, nextIndex, bs, calls)
    ensures var p := Find(tools, tc.index);
            var c1 := Opened(calls, p, tc);
            AddDelta(calls, tc) == c1[p := c1[p].(args := c1[p].args + tc.args)] && (tc.args == "" ==> AddDelta(calls, tc) == c1)
  {
    var p := Find(tools, tc.index);
    assert forall i :: 0 <= i < p ==> calls[i].index == tools[i].index;
    AddDeltaAt(calls, tc, p);
    var c1 := Opened(calls, p, tc);
    assert "" + tc.args == tc.args;
    assert tc.args == "" ==> c1[p].args + tc.args == c1[p].args && c1[p := c1[p]] == c1;
  }

  lemma OpenConveys(st: State, bs: seq<Block>, calls: seq<UpCall>, text: string, tc: ToolDelta)
    requires Holds(st, bs, calls, text) && Reading(st)
    ensures Conveys(bs, OpenTool(st, tc), Opened(calls, Find(st.tools, tc.index), tc), text)
    ensures Find(OpenTool(st, tc).0.tools, tc.index) == Find(st.tools, tc.index) < |OpenTool(st, tc).0.tools|
  {
    OpenToolFinds(st, tc);
    if Find(st.tools, tc.index) == |st.tools| {
      OpenToolConveys(st, bs, calls, text, tc);
      FindNew(st, tc);
    }
  }

  lemma {:induction false} ToolConveys(st: State, bs: seq<Block>, calls: seq<UpCall>, text: string, tc: ToolDelta)
    requires Holds(st, bs, calls, text) && Reading(st)
    ensures Conveys(bs, ClaudeTool(st, tc), AddDelta(calls, tc), text)
  {
    var a, p := OpenTool(st, tc), Find(st.tools, tc.index);
    OpenedThenArgs(st.tools, st.nextIndex, bs, calls, tc);
    OpenConveys(st, bs, calls, text, tc);
    if tc.args != "" {
      ArgsConvey(a.0, Blocks(bs, a.1), Opened(calls, p, tc), text, p, tc.args);
      ConveysThen(bs, a, (a.0, [BlockDelta(a.0.tools[p].blockIndex, JsonPart(tc.args))]), AddDelta(calls, tc), text);
    }
  }

  lemma FindNew(st: State, tc: ToolDelta)
    requires Find(st.tools, tc.index) == |st.tools|
    ensures Find(OpenTool(st, tc).0.tools, tc.index) == |st.tools|
  {
    var t := OpenTool(st, tc).0.tools;
    assert t[|st.tools|].index == tc.index;
    assert forall i :: 0 <= i < |st.tools| ==> t[i].index == st.tools[i].index;
    var q := Find(t, tc.index);
  }

  lemma ArgsConvey(st: State, bs: seq<Block>, calls: seq<UpCall>, text: string, p: nat, more: string)
    requires Holds(st, bs, calls, text) && p < |st.tools|
    ensures Conveys(bs, (st, [BlockDelta(st.tools[p].blockIndex, JsonPart(more))]),
                    calls[p := calls[p].(args := calls[p].args + more)], text)
  {
    var i := st.tools[p].blockIndex;
    ArgsAccounted(st.tools, st.nextIndex, bs, calls, p, more);
    FoldOne(BlocksStep, bs, BlockDelta(i, JsonPart(more)));
  }

  lemma {:induction false} ToolsConvey(st: State, bs: seq<Block>, calls: seq<UpCall>, text: string, tcs: seq<ToolDelta>)
    requires Holds(st, bs, calls, text) && Reading(st)
    ensures Conveys(bs, ClaudeTools(st, tcs), AddDeltas(calls, tcs), text)
    decreases |tcs|
  {
    if tcs != [] {
      var a := ClaudeTool(st, tcs[0]);
      ToolConveys(st, bs, calls, text, tcs[0]);
      ToolWatched(st, tcs[0]);
      ToolsConvey(a.0, Blocks(bs, a.1), AddDelta(calls, tcs[0]), text, tcs[1..]);
      ConveysThen(bs, a, ClaudeTools(a.0, tcs[1..]), AddDeltas(calls, tcs), text);
    }
  }

  lemma FinishConveys(st: State, bs: seq<Block>, calls: seq<UpCall>, text: string, finish: string)
    requires Holds(st, bs, calls, text) && Reading(st)
    ensures Conveys(bs, ClaudeFinish(st, finish), calls, text)
  {
    FinishWatched(st, finish);
    if finish != "" && !st.finished {
      CloseConveys(st, bs, calls, text);
      var b := StopBlocks(st);
      assert ClaudeFinish(st, finish) == (b.0.(finished := true, heldFinish := finish), b.1);
    }
  }

  lemma {:induction false} ChoiceConveys(st: State, bs: seq<Block>, calls: seq<UpCall>, text: string, ch: Choice)
    requires Holds(st, bs, calls, text) && Reading(st)
    ensures Conveys(bs, ClaudeChoice(st, ch), AddDeltas(calls, ch.toolCalls), text + ch.content)
  {
    var a := ClaudeContent(st, ch.content);
    var text1, calls1 := text + ch.content, AddDeltas(calls, ch.toolCalls);
    ContentConveys(st, bs, calls, text, ch.content);
    ContentWatched(st, ch.content);
    var b := ClaudeTools(a.0, ch.toolCalls);
    ToolsConvey(a.0, Blocks(bs, a.1), calls, text1, ch.toolCalls);
    ToolsWatched(a.0, ch.toolCalls);
    ConveysThen(bs, a, b, calls1, text1);
    FinishConveys(b.0, Blocks(bs, a.1 + b.1), calls1, text1, ch.finish);
    ConveysThen(bs, (b.0, a.1 + b.1), ClaudeFinish(b.0, ch.finish), calls1, text1);
  }

  /** Events that carry no content. */
  lemma SilentConveys(st: State, bs: seq<Block>, calls: seq<UpCall>, text: string, st': State, es: seq<Event>)
    requires Holds(st, bs, calls, text) && Shape(st') && st'.tools == st.tools && st'.nextIndex == st.nextIndex
    requires st'.textOpen == st.textOpen && st'.textIndex == st.textIndex
    requires |es| <= 1 && forall e :: e in es ==> e.MessageStart? || e.MessageDelta? || e.MessageStop?
    ensures Conveys(bs, (st', es), calls, text)
  {
    if es != [] {
      assert es == [es[0]] && es[0] in es;
      FoldOne(BlocksStep, bs, es[0]);
    }
  }

  lemma HeadConveys(st: State, bs: seq<Block>, calls: seq<UpCall>, text: string, c: Chunk)
    requires Holds(st, bs, calls, text)
    ensures var a := ClaudeTerminal(st);
            var b := ClaudeStart(a.0, c);
            Conveys(bs, (b.0, a.1 + b.1), calls, text)
  {
    TerminalWatched(st);
    var a := ClaudeTerminal(st);
    SilentConveys(st, bs, calls, text, a.0, a.1);
    var b := ClaudeStart(a.0, c);
    SilentConveys(a.0, Blocks(bs, a.1), calls, text, b.0, b.1);
    ConveysThen(bs, a, b, calls, text);
  }

  lemma ReadChunkConveys(st: State, bs: seq<Block>, calls: seq<UpCall>, text: string, c: Chunk)
    requires Holds(st, bs, calls, text) && c.choices != []
    ensures var a := ClaudeTerminal(st);
            var b := ClaudeStart(a.0, c);
            var d := ClaudeChoice(b.0, c.choices[0]);
            Conveys(bs, (d.0, a.1 + b.1 + d.1), ChunkCalls(calls, c), text + ChunkText(c))
  {
    HeadWatched(st, c);
    HeadConveys(st, bs, calls, text, c);
    var a := ClaudeTerminal(st);
    var b := ClaudeStart(a.0, c);
    ChoiceConveys(b.0, Blocks(bs, a.1 + b.1), calls, text, c.choices[0]);
    ConveysThen(bs, (b.0, a.1 + b.1), ClaudeChoice(b.0, c.choices[0]), ChunkCalls(calls, c), text + ChunkText(c));
  }

  lemma ChunkConveys(st: State, bs: seq<Block>, calls: seq<UpCall>, text: string, c: Chunk)
    requires Holds(st, bs, calls, text)
    ensures Conveys(bs, ClaudeChunk(st, c), ChunkCalls(calls, c), text + ChunkText(c))
  {
    var st0 := Capture(st, c);
    assert Holds(st0, bs, calls, text);
    if c.choices != [] {
      ReadChunkConveys(st0, bs, calls, text, c);
    } else {
      HeadConveys(st0, bs, calls, text, c);
      assert text + "" == text;
    }
  }

  lemma {:induction false} RunConveys(chunks: seq<Chunk>)
    ensures Conveys([], Run(Fresh, chunks), Calls(chunks), Text(chunks))
    decreases |chunks|
  {
    if chunks != [] {
      var before, c := chunks[..|chunks| - 1], chunks[|chunks| - 1];
      var a := Run(Fresh, before);
      RunConveys(before);
      ChunkConveys(a.0, Blocks([], a.1), Calls(before), Text(before), c);
      ConveysThen([], a, ClaudeChunk(a.0, c), Calls(chunks), Text(chunks));
    }
  }

  lemma DoneConveys(st: State, bs: seq<Block>, calls: seq<UpCall>, text: string)
    requires Holds(st, bs, calls, text)
    ensures Conveys(bs, ClaudeDone(st), calls, text)
  {
    var a := StopBlocks(st.(done := true));
    CloseConveys(st.(done := true), bs, calls, text);
    EndConveys(a.0, bs, calls, text);
    var b := ClaudeTerminal(a.0);
    ConveysThen(bs, a, (b.0, b.1 + [MessageStop]), calls, text);
    Assoc(a.1, b.1, [MessageStop]);
  }

  /** The final message_delta, when held, and message_stop say nothing new. */
  lemma EndConveys(st: State, bs: seq<Block>, calls: seq<UpCall>, text: string)
    requires Holds(st, bs, calls, text)
    ensures var b := ClaudeTerminal(st); Conveys(bs, (b.0, b.1 + [MessageStop]), calls, text)
  {
    TerminalWatched(st);
    var b := ClaudeTerminal(st);
    SilentConveys(st, bs, calls, text, b.0, b.1);
    SilentConveys(b.0, Blocks(bs, b.1), calls, text, b.0, [MessageStop]);
    ConveysThen(bs, b, (b.0, [MessageStop]), calls, text);
  }

  lemma FlushConveys(st: State, bs: seq<Block>, calls: seq<UpCall>, text: string)
    requires Holds(st, bs, calls, text)
    ensures Conveys(bs, ClaudeFlush(st), calls, text)
  {
    if !st.flushed {
      var st0 := st.(flushed := true);
      assert Shape(st0);
      TerminalWatched(st0);
      var a := ClaudeTerminal(st0);
      SilentConveys(st, bs, calls, text, a.0, a.1);
      EndConveys(st0, bs, calls, text);
      assert a.1 == [] ==> a.1 + [MessageStop] == [MessageStop];
    }
  }

  /**
   * Every chunk sequence and either ending: the client's blocks hold exactly the upstream text, and
   * exactly the upstream tool calls in order of first arrival with complete arguments.
   */
  lemma {:induction false} NothingLost(chunks: seq<Chunk>, ending: Ending)
    ensures var bs := Blocks([], Emission(chunks, ending));
            TextOf(bs) == Text(chunks) && CallsOf(bs) == Seen(Calls(chunks))
  {
    var a := Run(Fresh, chunks);
    RunConveys(chunks);
    DoneConveys(a.0, Blocks([], a.1), Calls(chunks), Text(chunks));
    FlushConveys(a.0, Blocks([], a.1), Calls(chunks), Text(chunks));
    ConveysThen([], a, End(a.0, ending), Calls(chunks), Text(chunks));
  }
}
