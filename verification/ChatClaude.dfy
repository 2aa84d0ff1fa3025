/**
 * Chat Completions to Messages, over whole runs: block discipline for every input, the full event
 * grammar exactly for in-order upstreams, and nothing lost, duplicated or misattributed.
 */
module ChatClaude {
  import opened Wire
  import opened Folds
  import opened Clients
  import opened ChatUpstream
  import opened ChatStream

  datatype Ending = ByDone | ByFlush

  function Run(st: State, chunks: seq<Chunk>): Out
    decreases |chunks|
  {
    if chunks == [] then (st, [])
    else
      var a := Run(st, chunks[..|chunks| - 1]);
      var b := ClaudeChunk(a.0, chunks[|chunks| - 1]);
      (b.0, a.1 + b.1)
  }

  function End(st: State, ending: Ending): Out {
    if ending.ByDone? then ClaudeDone(st) else ClaudeFlush(st)
  }

  /** Everything a client receives for a stream of chunks and the way it ends. */
  function Emission(chunks: seq<Chunk>, ending: Ending): seq<Event> {
    var a := Run(Fresh, chunks);
    a.1 + End(a.0, ending).1
  }

  // ---- the shape of reachable states ----

  /** Only the newest block can be open; tool blocks are numbered in arrival order. */
  predicate Layout(tools: seq<Tool>, nextIndex: int, textOpen: bool, textIndex: int) {
    && 0 <= nextIndex
    && (forall i, j :: 0 <= i < j < |tools| ==> tools[i].index != tools[j].index)
    && (forall i, j :: 0 <= i < j < |tools| ==> tools[i].blockIndex < tools[j].blockIndex)
    && (forall i :: 0 <= i < |tools| ==> 0 <= tools[i].blockIndex < nextIndex)
    && (forall i :: 0 <= i < |tools| - 1 ==> tools[i].stopped)
    && (tools != [] && !tools[|tools| - 1].stopped ==> tools[|tools| - 1].blockIndex == nextIndex - 1 && !textOpen)
    && (textOpen ==> 0 <= textIndex == nextIndex - 1)
    && (textOpen ==> forall i :: 0 <= i < |tools| ==> tools[i].blockIndex < textIndex)
  }

  predicate Shape(st: State) {
    && Layout(st.tools, st.nextIndex, st.textOpen, st.textIndex)
    && Phases(st)
  }

  predicate ToolOpen(st: State) {
    st.tools != [] && !st.tools[|st.tools| - 1].stopped
  }

  predicate AnyOpen(st: State) {
    st.textOpen || ToolOpen(st)
  }

  /** How far the stream has come. */
  predicate Phases(st: State) {
    && (st.heldFinish != "" ==> st.finished && !st.terminalSent && !AnyOpen(st))
    && (st.finished && st.heldFinish == "" <==> st.terminalSent)
    && (st.finished ==> st.started)
    && (!st.started ==> st.nextIndex == 0)
  }

  function AllClosed(st: State): State {
    st.(textOpen := false, tools := StopAll(st.tools))
  }

  function Closing(st: State): seq<Event> {
    if AnyOpen(st) then [BlockStop(st.nextIndex - 1)] else []
  }

  lemma {:induction false} AllStoppedSilent(tools: seq<Tool>)
    requires forall i :: 0 <= i < |tools| ==> tools[i].stopped
    ensures StopEvents(tools) == [] && StopAll(tools) == tools
    decreases |tools|
  {
    if tools != [] {
      AllStoppedSilent(tools[..|tools| - 1]);
    }
  }

  lemma {:induction false} LastOpenStops(tools: seq<Tool>)
    requires forall i :: 0 <= i < |tools| - 1 ==> tools[i].stopped
    ensures StopEvents(tools) ==
            if tools != [] && !tools[|tools| - 1].stopped then [BlockStop(tools[|tools| - 1].blockIndex)] else []
  {
    if tools != [] {
      AllStoppedSilent(tools[..|tools| - 1]);
    }
  }

  /** Closing all blocks emits at most one stop, for the newest block. */
  lemma StopBlocksCloses(st: State)
    requires Shape(st)
    ensures StopBlocks(st) == (AllClosed(st), Closing(st))
  {
    LastOpenStops(st.tools);
    StopBlocksOrdered(st, StopText(st).1, StopEvents(st.tools));
  }

  /** The text block's stop comes first; at most one of the two is there. */
  lemma StopBlocksOrdered(st: State, text: seq<Event>, tools: seq<Event>)
    requires text == StopText(st).1 && tools == StopEvents(st.tools) && (text == [] || tools == [])
    ensures StopBlocks(st) == (AllClosed(st), if tools == [] then text else tools)
  {
    assert text + [] == text && [] + tools == tools;
  }

  lemma AllClosedShape(st: State)
    requires Shape(st)
    ensures Shape(AllClosed(st)) && !AnyOpen(AllClosed(st))
  {
    var c := AllClosed(st);
    assert |c.tools| == |st.tools|;
    assert forall i :: 0 <= i < |c.tools| ==> c.tools[i] == st.tools[i].(stopped := true);
  }

  // ---- block discipline, for every input ----

  /** What the block monitor must hold in a given converter state. */
  function MonitorOf(st: State): Monitor {
    Monitor(st.started, st.nextIndex, if AnyOpen(st) then Some(st.nextIndex - 1) else None,
            if st.terminalSent then 1 else 0, false, true)
  }

  /** One operation keeps the shape and the monitor content. */
  predicate Watched(st: State, out: Out) {
    Shape(out.0) && Watch(MonitorOf(st), out.1) == MonitorOf(out.0)
  }

  lemma WatchedThen(st: State, a: Out, b: Out)
    requires Watched(st, a) && Watched(a.0, b)
    ensures Watched(st, (b.0, a.1 + b.1))
  {
    FoldAppend(MonitorStep, MonitorOf(st), a.1, b.1);
  }

  lemma WatchedNothing(st: State)
    requires Shape(st)
    ensures Watched(st, (st, []))
  {
  }

  lemma WatchedOne(st: State, st': State, e: Event)
    requires Shape(st') && MonitorStep(MonitorOf(st), e) == MonitorOf(st')
    ensures Watched(st, (st', [e]))
  {
    FoldOne(MonitorStep, MonitorOf(st), e);
  }

  lemma StopBlocksWatched(st: State)
    requires Shape(st)
    ensures Watched(st, StopBlocks(st)) && !AnyOpen(StopBlocks(st).0)
  {
    StopBlocksCloses(st);
    AllClosedShape(st);
    if AnyOpen(st) {
      WatchedOne(st, AllClosed(st), BlockStop(st.nextIndex - 1));
    } else {
      if st.tools != [] {
        AllStoppedSilent(st.tools);
      }
      assert AllClosed(st) == st;
    }
  }

  /** The state after a text block is started in a state with nothing open. */
  function TextStarted(st: State): State {
    st.(textIndex := st.nextIndex, nextIndex := st.nextIndex + 1, textOpen := true)
  }

  lemma TextStartedShape(st: State)
    requires Shape(st) && !AnyOpen(st) && st.started && st.heldFinish == ""
    ensures Shape(TextStarted(st))
  {
  }

  lemma ToolStartedShape(st: State, tc: ToolDelta)
    requires Shape(st) && !AnyOpen(st) && st.started && st.heldFinish == ""
    requires Find(st.tools, tc.index) == |st.tools|
    ensures Shape(ToolStarted(st, tc))
  {
    if st.tools != [] {
      assert st.tools[|st.tools| - 1].stopped;
    }
  }

  /** While a chunk is being read no terminal is pending: it was flushed first. */
  predicate Reading(st: State) {
    Shape(st) && st.started && st.heldFinish == ""
  }

  lemma OpenTextWatched(st: State)
    requires Reading(st)
    ensures Watched(st, OpenText(st)) && Reading(OpenText(st).0) && OpenText(st).0.textOpen
  {
    if !st.textOpen {
      StopBlocksWatched(st);
      StopBlocksCloses(st);
      var b := StopBlocks(st);
      var e := BlockStart(b.0.nextIndex, TextKind);
      TextStartedShape(b.0);
      StartWatched(b.0, TextStarted(b.0), e);
      WatchedThen(st, b, (TextStarted(b.0), [e]));
      assert OpenText(st) == (TextStarted(b.0), b.1 + [e]);
    }
  }

  lemma ContentWatched(st: State, content: string)
    requires Reading(st)
    ensures Watched(st, ClaudeContent(st, content)) && Reading(ClaudeContent(st, content).0)
  {
    if content != "" {
      var a := OpenText(st);
      OpenTextWatched(st);
      WatchedOne(a.0, a.0, BlockDelta(a.0.textIndex, TextPart(content)));
      WatchedThen(st, a, (a.0, [BlockDelta(a.0.textIndex, TextPart(content))]));
    }
  }

  lemma OpenToolWatched(st: State, tc: ToolDelta)
    requires Reading(st)
    ensures Watched(st, OpenTool(st, tc)) && Reading(OpenTool(st, tc).0)
  {
    if Find(st.tools, tc.index) == |st.tools| {
      var b := StopBlocks(st);
      var e := BlockStart(b.0.nextIndex, ToolKind(tc.id, tc.name));
      ClosedForTool(st, tc);
      StartWatched(b.0, ToolStarted(b.0, tc), e);
      WatchedThen(st, b, (ToolStarted(b.0, tc), [e]));
      assert OpenTool(st, tc) == (ToolStarted(b.0, tc), b.1 + [e]);
    }
  }

  lemma ClosedForTool(st: State, tc: ToolDelta)
    requires Reading(st) && Find(st.tools, tc.index) == |st.tools|
    ensures Watched(st, StopBlocks(st)) && Shape(ToolStarted(StopBlocks(st).0, tc))
    ensures !AnyOpen(StopBlocks(st).0) && StopBlocks(st).0.started && StopBlocks(st).0.heldFinish == ""
  {
    StopBlocksWatched(st);
    StopBlocksCloses(st);
    var b := StopBlocks(st).0;
    assert forall i :: 0 <= i < |b.tools| ==> b.tools[i].index == st.tools[i].index;
    ToolStartedShape(b, tc);
  }

  lemma StartWatched(st: State, st': State, e: Event)
    requires Shape(st') && st.started && !AnyOpen(st) && AnyOpen(st') && e.BlockStart? && e.index == st.nextIndex
    requires st'.nextIndex == st.nextIndex + 1 && st'.started && st'.terminalSent == st.terminalSent
    ensures Watched(st, (st', [e]))
  {
    WatchedOne(st, st', e);
  }

  lemma ToolWatched(st: State, tc: ToolDelta)
    requires Reading(st)
    ensures Watched(st, ClaudeTool(st, tc)) && Reading(ClaudeTool(st, tc).0)
  {
    OpenToolWatched(st, tc);
    OpenToolFinds(st, tc);
    var a := OpenTool(st, tc);
    if tc.args != "" {
      var i := a.0.tools[Find(a.0.tools, tc.index)].blockIndex;
      WatchedOne(a.0, a.0, BlockDelta(i, JsonPart(tc.args)));
      WatchedThen(st, a, (a.0, [BlockDelta(i, JsonPart(tc.args))]));
    }
  }

  lemma {:induction false} ToolsWatched(st: State, tcs: seq<ToolDelta>)
    requires Reading(st)
    ensures Watched(st, ClaudeTools(st, tcs)) && Reading(ClaudeTools(st, tcs).0)
    decreases |tcs|
  {
    if tcs != [] {
      var a := ClaudeTool(st, tcs[0]);
      ToolWatched(st, tcs[0]);
      ToolsWatched(a.0, tcs[1..]);
      WatchedThen(st, a, ClaudeTools(a.0, tcs[1..]));
    }
  }

  lemma FinishKeepsShape(st: State, finish: string)
    requires Shape(st) && st.started && !AnyOpen(st) && finish != "" && !st.finished
    ensures Shape(st.(finished := true, heldFinish := finish))
  {
  }

  lemma FinishWatched(st: State, finish: string)
    requires Reading(st)
    ensures Watched(st, ClaudeFinish(st, finish))
  {
    if finish != "" && !st.finished {
      StopBlocksWatched(st);
      StopBlocksCloses(st);
      var b := StopBlocks(st);
      FinishKeepsShape(b.0, finish);
      var st' := b.0.(finished := true, heldFinish := finish);
      // closing blocks does not look at the finish fields
      assert ClaudeFinish(st, finish) == (st', b.1);
    }
  }

  lemma TerminalWatched(st: State)
    requires Shape(st)
    ensures Watched(st, ClaudeTerminal(st)) && ClaudeTerminal(st).0.heldFinish == ""
  {
    if st.heldFinish != "" {
      var a := ClaudeTerminal(st);
      WatchedOne(st, a.0, a.1[0]);
    }
  }

  lemma HeadWatched(st: State, c: Chunk)
    requires Shape(st)
    ensures var a := ClaudeTerminal(st);
            var b := ClaudeStart(a.0, c);
            Watched(st, (b.0, a.1 + b.1)) && (c.choices != [] ==> Reading(b.0))
  {
    var a := ClaudeTerminal(st);
    TerminalWatched(st);
    var b := ClaudeStart(a.0, c);
    if !a.0.started && |c.choices| > 0 {
      WatchedOne(a.0, b.0, b.1[0]);
    }
    WatchedThen(st, a, b);
  }

  lemma ChoiceWatched(st: State, ch: Choice)
    requires Reading(st)
    ensures Watched(st, ClaudeChoice(st, ch))
  {
    var a := ClaudeContent(st, ch.content);
    ContentWatched(st, ch.content);
    var b := ClaudeTools(a.0, ch.toolCalls);
    ToolsWatched(a.0, ch.toolCalls);
    WatchedThen(st, a, b);
    var d := ClaudeFinish(b.0, ch.finish);
    FinishWatched(b.0, ch.finish);
    WatchedThen(st, (b.0, a.1 + b.1), d);
  }

  lemma ChunkWatched(st: State, c: Chunk)
    requires Shape(st)
    ensures Watched(st, ClaudeChunk(st, c))
  {
    var st0 := Capture(st, c);
    assert Shape(st0) && MonitorOf(st0) == MonitorOf(st);
    HeadWatched(st0, c);
    if c.choices != [] {
      var a := ClaudeTerminal(st0);
      var b := ClaudeStart(a.0, c);
      ChoiceWatched(b.0, c.choices[0]);
      WatchedThen(st0, (b.0, a.1 + b.1), ClaudeChoice(b.0, c.choices[0]));
    }
  }

  lemma DoneWatched(st: State)
    requires Shape(st)
    ensures Stopped(st, ClaudeDone(st)) && !AnyOpen(ClaudeDone(st).0)
  {
    var st0 := st.(done := true);
    assert Shape(st0) && MonitorOf(st0) == MonitorOf(st);
    StopBlocksWatched(st0);
    StopBlocksCloses(st0);
    var a := StopBlocks(st0);
    TerminalWatched(a.0);
    var b := ClaudeTerminal(a.0);
    WatchedThen(st0, a, b);
    StopWatched(st0, (b.0, a.1 + b.1));
  }

  /** The same, with message_stop last. */
  predicate Stopped(st: State, out: Out) {
    Shape(out.0) && Watch(MonitorOf(st), out.1) == MonitorOf(out.0).(stopped := true)
  }

  lemma StopWatched(st: State, a: Out)
    requires Watched(st, a)
    ensures Stopped(st, (a.0, a.1 + [MessageStop]))
  {
    FoldOne(MonitorStep, MonitorOf(a.0), MessageStop);
    FoldAppend(MonitorStep, MonitorOf(st), a.1, [MessageStop]);
  }

  lemma FlushWatched(st: State)
    requires Shape(st)
    ensures Watched(st, ClaudeFlush(st)) || Stopped(st, ClaudeFlush(st))
  {
    if st.flushed {
      WatchedNothing(st);
    } else {
      var st0 := st.(flushed := true);
      assert Shape(st0) && MonitorOf(st0) == MonitorOf(st);
      TerminalWatched(st0);
      StopWatched(st0, ClaudeTerminal(st0));
      assert ClaudeTerminal(st0).1 == [] ==> ClaudeTerminal(st0).1 + [MessageStop] == [MessageStop];
    }
  }

  lemma {:induction false} RunWatched(st: State, chunks: seq<Chunk>)
    requires Shape(st)
    ensures Watched(st, Run(st, chunks))
    decreases |chunks|
  {
    if chunks != [] {
      var before, c := chunks[..|chunks| - 1], chunks[|chunks| - 1];
      var a := Run(st, before);
      RunWatched(st, before);
      ChunkWatched(a.0, c);
      WatchedThen(st, a, ClaudeChunk(a.0, c));
    }
  }

  /**
   * Every input, however out of order: blocks are numbered 0, 1, 2, ..., at most one is open at any
   * event, each is stopped at most once, text deltas hit the open block, message_start comes first,
   * message_delta at most once, and nothing after message_stop. After [DONE] nothing is left open.
   */
  lemma BlockDiscipline(chunks: seq<Chunk>, ending: Ending)
    ensures Watch(FreshMonitor, Emission(chunks, ending)).ok
    ensures ending.ByDone? ==> Watch(FreshMonitor, Emission(chunks, ending)).open == None
  {
    var a := Run(Fresh, chunks);
    assert MonitorOf(Fresh) == FreshMonitor;
    RunWatched(Fresh, chunks);
    DoneWatched(a.0);
    FlushWatched(a.0);
    FoldAppend(MonitorStep, FreshMonitor, a.1, End(a.0, ending).1);
  }
}
