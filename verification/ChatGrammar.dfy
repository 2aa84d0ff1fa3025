/**
 * Chat Completions to Messages: a client receives exactly
 *   message_start (start delta* stop)* message_delta message_stop
 * if and only if the upstream was in order.
 */
module ChatGrammar {
  import opened Wire
  import opened Folds
  import opened Clients
  import opened ChatUpstream
  import opened ChatStream
  import opened ChatClaude

  /** The upstream reader and the converter are at the same place. */
  predicate SamePlace(st: State, r: Reader) {
    && r.started == st.started
    && r.finished == st.finished
    && r.cursor == CursorOf(st)
    && r.seen == Indices(st.tools)
    && (r.ok && st.finished ==> !AnyOpen(st))
  }

  function Indices(tools: seq<Tool>): set<int> {
    set i | 0 <= i < |tools| :: tools[i].index
  }

  lemma {:induction false} FindIffIndexed(tools: seq<Tool>, k: int)
    ensures k in Indices(tools) <==> Find(tools, k) < |tools|
  {
    if k in Indices(tools) {
      var i :| 0 <= i < |tools| && tools[i].index == k;
    }
    if Find(tools, k) < |tools| {
      assert tools[Find(tools, k)].index in Indices(tools);
    }
  }

  function CursorOf(st: State): Cursor {
    if st.textOpen then AtText
    else if ToolOpen(st) then AtTool(st.tools[|st.tools| - 1].index)
    else AtNothing
  }

  function KindOf(st: State): BlockKind
    requires AnyOpen(st)
  {
    if st.textOpen then TextKind
    else var t := st.tools[|st.tools| - 1]; ToolKind(t.id, t.name)
  }

  /** Where a client that has seen no violation must be. */
  function PhaseOf(st: State): Phase {
    if !st.started then Idle
    else if st.terminalSent then Ended
    else if AnyOpen(st) then InBlock(st.nextIndex - 1, KindOf(st))
    else Between(st.nextIndex)
  }

  function Expected(st: State, r: Reader): Phase {
    if r.ok then PhaseOf(st) else Broken
  }

  /** One operation, read by the reader as a step from `r` to `r'`. */
  predicate Simulates(st: State, r: Reader, out: Out, r': Reader) {
    && SamePlace(out.0, r')
    && Grammar(Expected(st, r), out.1) == Expected(out.0, r')
  }

  lemma SimThen(st: State, r: Reader, a: Out, r1: Reader, b: Out, r2: Reader)
    requires Simulates(st, r, a, r1) && Simulates(a.0, r1, b, r2)
    ensures Simulates(st, r, (b.0, a.1 + b.1), r2)
  {
    FoldAppend(GrammarStep, Expected(st, r), a.1, b.1);
  }

  lemma SimOne(st: State, r: Reader, e: Event, st': State, r': Reader)
    requires SamePlace(st', r') && GrammarStep(Expected(st, r), e) == Expected(st', r')
    ensures Simulates(st, r, (st', [e]), r')
  {
    FoldOne(GrammarStep, Expected(st, r), e);
  }

  /** What the reader knows once everything is closed. */
  function Settled(r: Reader): Reader {
    r.(cursor := AtNothing)
  }

  lemma ClosedSamePlace(st: State, r: Reader)
    requires SamePlace(st, r)
    ensures SamePlace(AllClosed(st), Settled(r))
  {
    var c := AllClosed(st);
    assert forall i :: 0 <= i < |c.tools| ==> c.tools[i].index == st.tools[i].index;
    assert Indices(c.tools) == Indices(st.tools);
  }

  lemma CloseSim(st: State, r: Reader)
    requires Shape(st) && SamePlace(st, r)
    ensures Simulates(st, r, StopBlocks(st), Settled(r))
  {
    StopBlocksCloses(st);
    ClosedSamePlace(st, r);
    var c := AllClosed(st);
    assert !AnyOpen(c);
    if AnyOpen(st) {
      SimOne(st, r, BlockStop(st.nextIndex - 1), c, Settled(r));
    }
  }

  lemma StartTextSim(st: State, r: Reader)
    requires Reading(st) && !AnyOpen(st) && SamePlace(st, r)
    ensures Simulates(st, r, (TextStarted(st), [BlockStart(st.nextIndex, TextKind)]),
                      r.(cursor := AtText, ok := r.ok && !r.finished))
  {
    SimOne(st, r, BlockStart(st.nextIndex, TextKind), TextStarted(st), r.(cursor := AtText, ok := r.ok && !r.finished));
  }

  lemma StartToolSim(st: State, r: Reader, tc: ToolDelta)
    requires Reading(st) && !AnyOpen(st) && SamePlace(st, r) && tc.index !in r.seen
    ensures Simulates(st, r, (ToolStarted(st, tc), [BlockStart(st.nextIndex, ToolKind(tc.id, tc.name))]), ReadTool(r, tc))
  {
    var t := ToolStarted(st, tc);
    assert Indices(t.tools) == r.seen + {tc.index} by {
      assert t.tools[|st.tools|].index == tc.index;
      assert forall i :: 0 <= i < |st.tools| ==> t.tools[i] == st.tools[i];
    }
    SimOne(st, r, BlockStart(st.nextIndex, ToolKind(tc.id, tc.name)), t, ReadTool(r, tc));
  }

  lemma OpenTextSim(st: State, r: Reader)
    requires Reading(st) && SamePlace(st, r)
    ensures Reading(OpenText(st).0) && OpenText(st).0.textOpen
    ensures Simulates(st, r, OpenText(st), r.(cursor := AtText, ok := r.ok && !r.finished))
  {
    if !st.textOpen {
      var a := StopBlocks(st);
      CloseSim(st, r);
      ClosedReading(st);
      TextStartedShape(a.0);
      StartTextSim(a.0, Settled(r));
      SimThen(st, r, a, Settled(r), (TextStarted(a.0), [BlockStart(a.0.nextIndex, TextKind)]),
              r.(cursor := AtText, ok := r.ok && !r.finished));
      assert OpenText(st) == (TextStarted(a.0), a.1 + [BlockStart(a.0.nextIndex, TextKind)]);
    }
  }

  lemma ClosedReading(st: State)
    requires Reading(st)
    ensures Reading(StopBlocks(st).0) && !AnyOpen(StopBlocks(st).0)
  {
    StopBlocksCloses(st);
    AllClosedShape(st);
  }

  lemma ContentSim(st: State, r: Reader, content: string)
    requires Reading(st) && SamePlace(st, r)
    ensures Simulates(st, r, ClaudeContent(st, content), ReadContent(r, content))
  {
    if content != "" {
      OpenTextSim(st, r);
      var a, r' := OpenText(st), ReadContent(r, content);
      SimOne(a.0, r', BlockDelta(a.0.textIndex, TextPart(content)), a.0, r');
      SimThen(st, r, a, r', (a.0, [BlockDelta(a.0.textIndex, TextPart(content))]), r');
    }
  }

  lemma OpenToolSim(st: State, r: Reader, tc: ToolDelta)
    requires Reading(st) && SamePlace(st, r) && tc.index !in r.seen
    ensures Simulates(st, r, OpenTool(st, tc), ReadTool(r, tc))
  {
    var a := StopBlocks(st);
    FindIffIndexed(st.tools, tc.index);
    CloseSim(st, r);
    ClosedReading(st);
    StartToolSim(a.0, Settled(r), tc);
    SimThen(st, r, a, Settled(r), (ToolStarted(a.0, tc), [BlockStart(a.0.nextIndex, ToolKind(tc.id, tc.name))]),
            ReadTool(r, tc));
  }

  /** More arguments for a known call: legal exactly when that call's block is still the open one. */
  lemma ArgsSim(st: State, r: Reader, tc: ToolDelta, r': Reader)
    requires Reading(st) && SamePlace(st, r) && tc.args != "" && Find(st.tools, tc.index) < |st.tools|
    requires r' == r.(ok := r.ok && r.cursor == AtTool(tc.index))
    ensures Simulates(st, r, (st, [BlockDelta(st.tools[Find(st.tools, tc.index)].blockIndex, JsonPart(tc.args))]), r')
  {
    var p := Find(st.tools, tc.index);
    if p < |st.tools| - 1 {
      assert st.tools[p].index != st.tools[|st.tools| - 1].index;
      assert st.tools[p].blockIndex < st.tools[|st.tools| - 1].blockIndex;
    }
    SimOne(st, r, BlockDelta(st.tools[p].blockIndex, JsonPart(tc.args)), st, r');
  }

  lemma ToolSim(st: State, r: Reader, tc: ToolDelta)
    requires Reading(st) && SamePlace(st, r)
    ensures Simulates(st, r, ClaudeTool(st, tc), ReadTool(r, tc))
  {
    var a, r' := OpenTool(st, tc), ReadTool(r, tc);
    OpenToolFinds(st, tc);
    OpenToolWatched(st, tc);
    FindIffIndexed(st.tools, tc.index);
    var r1 := if tc.index in r.seen then r else r';
    if tc.index !in r.seen {
      OpenToolSim(st, r, tc);
      assert CursorOf(a.0) == AtTool(tc.index);
    }
    if tc.args != "" {
      ArgsSim(a.0, r1, tc, r');
      SimThen(st, r, a, r1, (a.0, [BlockDelta(a.0.tools[Find(a.0.tools, tc.index)].blockIndex, JsonPart(tc.args))]), r');
    }
  }

  lemma {:induction false} ToolsSim(st: State, r: Reader, tcs: seq<ToolDelta>)
    requires Reading(st) && SamePlace(st, r)
    ensures Simulates(st, r, ClaudeTools(st, tcs), ReadTools(r, tcs))
    decreases |tcs|
  {
    if tcs != [] {
      var a := ClaudeTool(st, tcs[0]);
      ToolSim(st, r, tcs[0]);
      ToolWatched(st, tcs[0]);
      ToolsSim(a.0, ReadTool(r, tcs[0]), tcs[1..]);
      SimThen(st, r, a, ReadTool(r, tcs[0]), ClaudeTools(a.0, tcs[1..]), ReadTools(r, tcs));
    }
  }

  lemma FinishSim(st: State, r: Reader, finish: string)
    requires Reading(st) && SamePlace(st, r)
    ensures Simulates(st, r, ClaudeFinish(st, finish), ReadFinish(r, finish))
  {
    if finish != "" && !st.finished {
      CloseSim(st, r);
      ClosedReading(st);
      var b := StopBlocks(st);
      var st' := b.0.(finished := true, heldFinish := finish);
      HoldSim(b.0, Settled(r), finish);
      assert ClaudeFinish(st, finish) == (st', b.1);
    }
  }

  lemma HoldSim(st: State, r: Reader, finish: string)
    requires !AnyOpen(st) && SamePlace(st, r) && st.started && !st.terminalSent
    ensures var st' := st.(finished := true, heldFinish := finish);
            SamePlace(st', r.(finished := true)) && Expected(st', r.(finished := true)) == Expected(st, r)
  {
  }

  lemma TerminalSim(st: State, r: Reader)
    requires Shape(st) && SamePlace(st, r)
    ensures Simulates(st, r, ClaudeTerminal(st), r)
  {
    if st.heldFinish != "" {
      var a := ClaudeTerminal(st);
      SimOne(st, r, a.1[0], a.0, r);
    }
  }

  lemma StartSim(st: State, r: Reader, c: Chunk)
    requires Shape(st) && SamePlace(st, r)
    ensures Simulates(st, r, ClaudeStart(st, c), if c.choices == [] then r else r.(started := true))
  {
    if !st.started && |c.choices| > 0 {
      var a := ClaudeStart(st, c);
      SimOne(st, r, a.1[0], a.0, r.(started := true));
    }
  }

  lemma ChoiceSim(st: State, r: Reader, ch: Choice)
    requires Reading(st) && SamePlace(st, r)
    ensures Simulates(st, r, ClaudeChoice(st, ch), ReadFinish(ReadTools(ReadContent(r, ch.content), ch.toolCalls), ch.finish))
  {
    var a := ClaudeContent(st, ch.content);
    var r1 := ReadContent(r, ch.content);
    ContentSim(st, r, ch.content);
    ContentWatched(st, ch.content);
    var b := ClaudeTools(a.0, ch.toolCalls);
    var r2 := ReadTools(r1, ch.toolCalls);
    ToolsSim(a.0, r1, ch.toolCalls);
    ToolsWatched(a.0, ch.toolCalls);
    SimThen(st, r, a, r1, b, r2);
    FinishSim(b.0, r2, ch.finish);
    SimThen(st, r, (b.0, a.1 + b.1), r2, ClaudeFinish(b.0, ch.finish), ReadFinish(r2, ch.finish));
  }

  lemma HeadSim(st: State, r: Reader, c: Chunk)
    requires Shape(st) && SamePlace(st, r)
    ensures var a := ClaudeTerminal(st);
            var b := ClaudeStart(a.0, c);
            Simulates(st, r, (b.0, a.1 + b.1), if c.choices == [] then r else r.(started := true))
  {
    var a := ClaudeTerminal(st);
    TerminalSim(st, r);
    TerminalWatched(st);
    StartSim(a.0, r, c);
    SimThen(st, r, a, r, ClaudeStart(a.0, c), if c.choices == [] then r else r.(started := true));
  }

  lemma ChunkSim(st: State, r: Reader, c: Chunk)
    requires Shape(st) && SamePlace(st, r)
    ensures Simulates(st, r, ClaudeChunk(st, c), ReadChunk(r, c))
  {
    var st0 := Capture(st, c);
    CaptureSim(st, r, c);
    HeadSim(st0, r, c);
    HeadWatched(st0, c);
    if c.choices != [] {
      var a := ClaudeTerminal(st0);
      var b := ClaudeStart(a.0, c);
      var r1 := r.(started := true);
      ChoiceSim(b.0, r1, c.choices[0]);
      SimThen(st0, r, (b.0, a.1 + b.1), r1, ClaudeChoice(b.0, c.choices[0]), ReadChunk(r, c));
    }
  }

  lemma CaptureSim(st: State, r: Reader, c: Chunk)
    requires Shape(st) && SamePlace(st, r)
    ensures Shape(Capture(st, c)) && SamePlace(Capture(st, c), r) && Expected(Capture(st, c), r) == Expected(st, r)
  {
    CaptureShape(st, c);
    CapturePhase(st, c);
  }

  lemma CaptureShape(st: State, c: Chunk)
    requires Shape(st)
    ensures Shape(Capture(st, c))
  {
  }

  lemma CapturePhase(st: State, c: Chunk)
    ensures var st' := Capture(st, c);
            CursorOf(st') == CursorOf(st) && PhaseOf(st') == PhaseOf(st) && AnyOpen(st') == AnyOpen(st)
  {
  }

  lemma {:induction false} RunSim(st: State, r: Reader, chunks: seq<Chunk>)
    requires Shape(st) && SamePlace(st, r)
    ensures Simulates(st, r, Run(st, chunks), Read(r, chunks))
    decreases |chunks|
  {
    if chunks != [] {
      var before, c := chunks[..|chunks| - 1], chunks[|chunks| - 1];
      var a, r1 := Run(st, before), Read(r, before);
      RunSim(st, r, before);
      RunWatched(st, before);
      ChunkSim(a.0, r1, c);
      SimThen(st, r, a, r1, ClaudeChunk(a.0, c), Read(r, chunks));
    }
  }

  // ---- the end of the stream ----

  lemma DoneVerdict(st: State, r: Reader)
    requires Shape(st) && SamePlace(st, r)
    ensures Grammar(Expected(st, r), ClaudeDone(st).1) == Closed <==> r.ok && r.finished
  {
    var st0 := st.(done := true);
    assert Shape(st0) && SamePlace(st0, r) && Expected(st0, r) == Expected(st, r);
    var a := StopBlocks(st0);
    CloseSim(st0, r);
    StopBlocksWatched(st0);
    TerminalSim(a.0, Settled(r));
    var b := ClaudeTerminal(a.0);
    TerminalWatched(a.0);
    SimThen(st0, r, a, Settled(r), b, Settled(r));
    StopVerdict(Expected(st, r), a.1 + b.1, b.0, Settled(r));
  }

  lemma StopVerdict(p: Phase, es: seq<Event>, st: State, r: Reader)
    requires Shape(st) && SamePlace(st, r) && Grammar(p, es) == Expected(st, r) && st.heldFinish == ""
    ensures Grammar(p, es + [MessageStop]) == Closed <==> r.ok && r.finished
  {
    FoldAppend(GrammarStep, p, es, [MessageStop]);
    FoldOne(GrammarStep, Expected(st, r), MessageStop);
  }

  lemma FlushVerdict(st: State, r: Reader)
    requires Shape(st) && SamePlace(st, r) && !st.flushed
    ensures Grammar(Expected(st, r), ClaudeFlush(st).1) == Closed <==> r.ok && r.finished
  {
    var st0 := st.(flushed := true);
    assert Shape(st0) && SamePlace(st0, r) && Expected(st0, r) == Expected(st, r);
    var a := ClaudeTerminal(st0);
    TerminalSim(st0, r);
    TerminalWatched(st0);
    StopVerdict(Expected(st, r), a.1, a.0, r);
    assert a.1 == [] ==> a.1 + [MessageStop] == [MessageStop];
  }

  lemma {:induction false} RunNeverFlushes(st: State, chunks: seq<Chunk>)
    ensures Run(st, chunks).0.flushed == st.flushed
    decreases |chunks|
  {
    if chunks != [] {
      var before := chunks[..|chunks| - 1];
      RunNeverFlushes(st, before);
      ChunkNeverFlushes(Run(st, before).0, chunks[|chunks| - 1]);
    }
  }

  lemma {:induction false} ToolsNeverFlush(st: State, tcs: seq<ToolDelta>)
    ensures ClaudeTools(st, tcs).0.flushed == st.flushed
    decreases |tcs|
  {
    if tcs != [] {
      assert ClaudeTool(st, tcs[0]).0.flushed == OpenTool(st, tcs[0]).0.flushed == st.flushed;
      ToolsNeverFlush(ClaudeTool(st, tcs[0]).0, tcs[1..]);
    }
  }

  lemma ChoiceNeverFlushes(st: State, ch: Choice)
    ensures ClaudeChoice(st, ch).0.flushed == st.flushed
  {
    var a := ClaudeContent(st, ch.content);
    assert a.0.flushed == st.flushed;
    ToolsNeverFlush(a.0, ch.toolCalls);
  }

  lemma HeadNeverFlushes(st: State, c: Chunk)
    ensures ClaudeStart(ClaudeTerminal(Capture(st, c)).0, c).0.flushed == st.flushed
  {
    assert ClaudeTerminal(Capture(st, c)).0.flushed == st.flushed;
  }

  lemma ChunkNeverFlushes(st: State, c: Chunk)
    ensures ClaudeChunk(st, c).0.flushed == st.flushed
  {
    HeadNeverFlushes(st, c);
    if c.choices != [] {
      ChoiceNeverFlushes(ClaudeStart(ClaudeTerminal(Capture(st, c)).0, c).0, c.choices[0]);
    }
  }

  /**
   * The whole emission is a well-formed message exactly when the upstream was in order, whether the
   * stream ended with [DONE] or by closing.
   */
  lemma WellFormedIffInOrder(chunks: seq<Chunk>, ending: Ending)
    ensures WellFormedMessage(Emission(chunks, ending)) <==> InOrder(chunks)
  {
    var a, r := Run(Fresh, chunks), Read(NewReader, chunks);
    RunSim(Fresh, NewReader, chunks);
    RunWatched(Fresh, chunks);
    RunNeverFlushes(Fresh, chunks);
    DoneVerdict(a.0, r);
    FlushVerdict(a.0, r);
    FoldAppend(GrammarStep, Idle, a.1, End(a.0, ending).1);
  }

  /** A tool index resumed after text started is legal upstream, yet its fragment lands on a stopped block. */
  lemma ResumedToolBreaksGrammar()
    ensures var chunks := [
              Chunk("r", "m", [Choice("", [ToolDelta(0, "a", "f", "{")], "")], None),
              Chunk("r", "m", [Choice("hi", [], "")], None),
              Chunk("r", "m", [Choice("", [ToolDelta(0, "", "", "}")], "stop")], None)];
            !WellFormedMessage(Emission(chunks, ByDone))
  {
    var c0 := Chunk("r", "m", [Choice("", [ToolDelta(0, "a", "f", "{")], "")], None);
    var c1 := Chunk("r", "m", [Choice("hi", [], "")], None);
    var c2 := Chunk("r", "m", [Choice("", [ToolDelta(0, "", "", "}")], "stop")], None);
    var r0 := ReadChunk(NewReader, c0);
    assert ReadTools(NewReader.(started := true), c0.choices[0].toolCalls) == NewReader.(started := true, seen := {0}, cursor := AtTool(0));
    var r1 := ReadChunk(r0, c1);
    assert r1.cursor == AtText && r1.seen == {0};
    var r2 := ReadChunk(r1, c2);
    assert !r2.ok;
    assert [c0, c1, c2][..2] == [c0, c1] && [c0, c1][..1] == [c0] && [c0][..0] == [];
    assert Read(NewReader, [c0]) == ReadChunk(Read(NewReader, []), c0) == r0;
    assert Read(NewReader, [c0]) == r0 && Read(NewReader, [c0, c1]) == r1 && Read(NewReader, [c0, c1, c2]) == r2;
    WellFormedIffInOrder([c0, c1, c2], ByDone);
  }
}
