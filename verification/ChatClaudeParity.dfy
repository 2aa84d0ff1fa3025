/**
 * Chat Completions to Messages: the non-streaming converter, and the stop reason and token counts of a
 * stream against its conversion of the response the stream adds up to.
 */
module ChatClaudeParity {
  import opened Wire
  import opened Folds
  import opened ChatUpstream
  import opened ChatStream
  import opened ChatClaude
  import opened ChatParity
  import C = ChatContents
  import V = ChatConvert
  import B = MsgBuilder
  import M = MessagesRequest
  import P = RequestParts

  // ---- the non-streaming converter ----

  datatype Converted = Converted(id: string, model: string, content: seq<B.Block>, stopReason: string, tokens: ClaudeTokens)

  predicate Convertible(c: M.Codec, resp: V.ChatBody) {
    && resp.choices != [] && P.ContentOk(resp.choices[0].content)
    && M.ImagesOk(c, P.Parts(resp.choices[0].content)) && M.CallsOk(c, resp.choices[0].toolCalls)
  }

  function CallBlocks(c: M.Codec, calls: seq<P.ToolCall>): seq<B.Block> {
    seq(|calls|, i requires 0 <= i < |calls| => M.CallAdd(c, calls[i]).block)
  }

  /** The prompt count without what the cache served. */
  function Counted(usage: Option<Tokens>): ClaudeTokens {
    var u := OrNothing(usage);
    ClaudeTokens(ClampSubtract(u.prompt, [u.cached]), u.completion, u.cached, None)
  }

  function Stop(calls: bool, finish: string): string {
    TerminalReason(calls, "tool_use", FinishToClaudeStop(finish))
  }

  /** Content blocks in order, then the calls. */
  function Conversion(c: M.Codec, resp: V.ChatBody): Converted
    requires Convertible(c, resp)
  {
    var choice := resp.choices[0];
    Converted(resp.id, resp.model, M.BlocksOfParts(c, P.Parts(choice.content)) + CallBlocks(c, choice.toolCalls),
              Stop(choice.toolCalls != [], choice.finish), Counted(resp.usage))
  }

  lemma CallBlocksNext(c: M.Codec, calls: seq<P.ToolCall>, n: nat)
    requires n < |calls|
    ensures CallBlocks(c, calls[..n + 1]) == CallBlocks(c, calls[..n]) + [M.CallAdd(c, calls[n]).block]
    ensures M.CallsOk(c, calls[..n]) && M.CallOk(c, calls[n]) ==> M.CallsOk(c, calls[..n + 1])
    ensures M.CallsOk(c, calls) ==> M.CallOk(c, calls[n])
  {
    M.CallAddsNext(c, calls, n);
  }

  method ToolUseBlocks(c: M.Codec, calls: seq<P.ToolCall>) returns (r: Option<seq<B.Block>>)
    ensures r == if M.CallsOk(c, calls) then Some(CallBlocks(c, calls)) else None
  {
    var blocks := [];
    for n := 0 to |calls|
      invariant M.CallsOk(c, calls[..n]) && blocks == CallBlocks(c, calls[..n])
    {
      CallBlocksNext(c, calls, n);
      var input := c.decodeArgs(DefaultArgs(calls[n].args));
      if input.None? {
        return None;
      }
      blocks := blocks + [B.ToolUse(calls[n].id, calls[n].name, input.value)];
    }
    assert calls[..|calls|] == calls;
    r := Some(blocks);
  }

  /** Fails exactly without a choice, on unreadable content or images, and on malformed arguments. */
  method ChatToClaude(c: M.Codec, resp: V.ChatBody) returns (r: Result<Converted, Failure>)
    ensures r.Ok? <==> Convertible(c, resp)
    ensures r.Err? ==> r.error == if resp.choices != [] && P.FirstUnknown(resp.choices[0].content) then Unsupported else Translation
    ensures r.Ok? ==> r.value == Conversion(c, resp)
  {
    if |resp.choices| == 0 {
      return Err(Translation);
    }
    var choice := resp.choices[0];
    var parts := M.DecodeBlocks(c, choice.content);
    if parts.Err? {
      return Err(parts.error);
    }
    var tools := ToolUseBlocks(c, choice.toolCalls);
    if tools.None? {
      return Err(Translation);
    }
    var input, output, cached := 0, 0, None;
    if resp.usage.Some? {
      input, output, cached := resp.usage.value.prompt, resp.usage.value.completion, resp.usage.value.cached;
    }
    r := Ok(Converted(resp.id, resp.model, M.BlocksOfParts(c, parts.value) + tools.value,
                      TerminalReason(|choice.toolCalls| > 0, "tool_use", FinishToClaudeStop(choice.finish)),
                      ClaudeTokens(ClampSubtract(input, [cached]), output, cached, None)));
  }

  // ---- the message_delta events of a stream ----

  function Deltas(es: seq<Event>): seq<Event>
    decreases |es|
  {
    if es == [] then [] else Deltas(es[..|es| - 1]) + if es[|es| - 1].MessageDelta? then [es[|es| - 1]] else []
  }

  lemma DeltasNext(es: seq<Event>, e: Event)
    ensures Deltas(es + [e]) == Deltas(es) + if e.MessageDelta? then [e] else []
  {
    assert (es + [e])[..|es|] == es;
  }

  lemma DeltasStep(a: seq<Event>, b: seq<Event>, e: Event, all: seq<Event>)
    requires Deltas(a + b) == Deltas(a) + Deltas(b) && all == b + [e]
    ensures Deltas(a + all) == Deltas(a) + Deltas(all)
  {
    Assoc(a, b, [e]);
    DeltasNext(a + b, e);
    DeltasNext(b, e);
    Assoc(Deltas(a), Deltas(b), if e.MessageDelta? then [e] else []);
  }

  lemma {:induction false} DeltasAppend(a: seq<Event>, b: seq<Event>)
    ensures Deltas(a + b) == Deltas(a) + Deltas(b)
    decreases |b|
  {
    if b == [] {
      assert a + b == a && Deltas(a) + [] == Deltas(a);
    } else {
      Last(b);
      DeltasAppend(a, b[..|b| - 1]);
      DeltasStep(a, b[..|b| - 1], b[|b| - 1], b);
    }
  }

  lemma DeltasOne(e: Event)
    ensures Deltas([e]) == if e.MessageDelta? then [e] else []
  {
    var none: seq<Event> := [];
    DeltasNext(none, e);
    assert none + [e] == [e] && Deltas(none) == none;
    assert none + (if e.MessageDelta? then [e] else none) == if e.MessageDelta? then [e] else none;
  }

  // ---- what the terminal event depends on ----

  datatype Due = Due(usage: Option<Tokens>, finished: bool, held: string, terminalSent: bool, flushed: bool)

  function DueOf(st: State): Due {
    Due(st.usage, st.finished, st.heldFinish, st.terminalSent, st.flushed)
  }

  /** An operation that leaves the terminal event alone. */
  predicate Aside(st: State, out: Out) {
    DueOf(out.0) == DueOf(st) && Deltas(out.1) == [] && (st.toolsSeen == (st.tools != []) ==> out.0.toolsSeen == (out.0.tools != []))
  }

  lemma AsideThen(st: State, a: Out, b: Out)
    requires Aside(st, a) && Aside(a.0, b)
    ensures Aside(st, (b.0, a.1 + b.1))
  {
    DeltasAppend(a.1, b.1);
  }

  lemma AsideOne(st: State, st': State, e: Event)
    requires DueOf(st') == DueOf(st) && !e.MessageDelta? && (st.toolsSeen == (st.tools != []) ==> st'.toolsSeen == (st'.tools != []))
    ensures Aside(st, (st', [e]))
  {
    DeltasOne(e);
  }

  lemma {:induction false} StopsAside(tools: seq<Tool>)
    ensures Deltas(StopEvents(tools)) == []
    decreases |tools|
  {
    if tools != [] {
      var t := tools[|tools| - 1];
      StopsAside(tools[..|tools| - 1]);
      if !t.stopped {
        DeltasNext(StopEvents(tools[..|tools| - 1]), BlockStop(t.blockIndex));
      } else {
        assert StopEvents(tools[..|tools| - 1]) + [] == StopEvents(tools[..|tools| - 1]);
      }
    }
  }

  lemma StopBlocksAside(st: State)
    ensures Aside(st, StopBlocks(st))
  {
    StopsAside(st.tools);
    if st.textOpen {
      DeltasOne(BlockStop(st.textIndex));
    }
    DeltasAppend(StopText(st).1, StopEvents(st.tools));
    assert StopAll(st.tools) == [] <==> st.tools == [];
  }

  lemma ContentAside(st: State, content: string)
    ensures Aside(st, ClaudeContent(st, content))
  {
    if content != "" {
      var a := OpenText(st);
      if !st.textOpen {
        var b := StopBlocks(st);
        StopBlocksAside(st);
        AsideOne(b.0, a.0, BlockStart(b.0.nextIndex, TextKind));
        AsideThen(st, b, (a.0, [BlockStart(b.0.nextIndex, TextKind)]));
      }
      AsideOne(a.0, a.0, BlockDelta(a.0.textIndex, TextPart(content)));
      AsideThen(st, a, (a.0, [BlockDelta(a.0.textIndex, TextPart(content))]));
    }
  }

  lemma ToolAside(st: State, tc: ToolDelta)
    ensures Aside(st, ClaudeTool(st, tc))
  {
    var a := OpenTool(st, tc);
    if Find(st.tools, tc.index) == |st.tools| {
      var b := StopBlocks(st);
      StopBlocksAside(st);
      AsideOne(b.0, ToolStarted(b.0, tc), BlockStart(b.0.nextIndex, ToolKind(tc.id, tc.name)));
      AsideThen(st, b, (ToolStarted(b.0, tc), [BlockStart(b.0.nextIndex, ToolKind(tc.id, tc.name))]));
    }
    OpenToolFinds(st, tc);
    if tc.args != "" {
      var e := BlockDelta(a.0.tools[Find(a.0.tools, tc.index)].blockIndex, JsonPart(tc.args));
      AsideOne(a.0, a.0, e);
      AsideThen(st, a, (a.0, [e]));
    }
  }

  lemma {:induction false} ToolsAside(st: State, tcs: seq<ToolDelta>)
    ensures Aside(st, ClaudeTools(st, tcs))
    decreases |tcs|
  {
    if tcs != [] {
      var a := ClaudeTool(st, tcs[0]);
      ToolAside(st, tcs[0]);
      ToolsAside(a.0, tcs[1..]);
      AsideThen(st, a, ClaudeTools(a.0, tcs[1..]));
    }
  }

  function FinishDue(d: Due, finish: string): Due {
    if finish != "" && !d.finished then d.(finished := true, held := finish) else d
  }

  /** Reading a choice: at most the finish reason is taken down. */
  lemma ChoiceTakes(st: State, ch: Choice)
    ensures var out := ClaudeChoice(st, ch);
            && DueOf(out.0) == FinishDue(DueOf(st), ch.finish)
            && Deltas(out.1) == []
            && (st.toolsSeen == (st.tools != []) ==> out.0.toolsSeen == (out.0.tools != []))
  {
    var a := ClaudeContent(st, ch.content);
    var b := ClaudeTools(a.0, ch.toolCalls);
    ContentAside(st, ch.content);
    ToolsAside(a.0, ch.toolCalls);
    AsideThen(st, a, b);
    var d := ClaudeFinish(b.0, ch.finish);
    FinishTakes(b.0, ch.finish);
    DeltasAppend(a.1 + b.1, d.1);
  }

  lemma FinishTakes(st: State, finish: string)
    ensures var out := ClaudeFinish(st, finish);
            && DueOf(out.0) == FinishDue(DueOf(st), finish)
            && Deltas(out.1) == []
            && (st.toolsSeen == (st.tools != []) ==> out.0.toolsSeen == (out.0.tools != []))
  {
    if finish != "" && !st.finished {
      StopBlocksAside(st.(finished := true, heldFinish := finish));
    }
  }

  // ---- chunk by chunk ----

  function Usage(d: Due, c: Chunk): Option<Tokens> {
    if c.usage.Some? then c.usage else d.usage
  }

  function HeadDue(d: Due, c: Chunk): Due {
    Due(Usage(d, c), d.finished, "", d.terminalSent || d.held != "", d.flushed)
  }

  function ChunkDue(d: Due, c: Chunk): Due {
    FinishDue(HeadDue(d, c), if c.choices == [] then "" else c.choices[0].finish)
  }

  /** The held terminal event. */
  function Held(d: Due, calls: bool): seq<Event> {
    if d.held == "" then [] else [MessageDelta(Stop(calls, d.held), Counted(d.usage))]
  }

  lemma TerminalIs(st: State)
    ensures var a := ClaudeTerminal(st);
            && a.1 == Held(DueOf(st), st.toolsSeen) && Deltas(a.1) == a.1
            && DueOf(a.0) == DueOf(st).(held := "", terminalSent := st.terminalSent || st.heldFinish != "")
            && a.0.toolsSeen == st.toolsSeen && a.0.tools == st.tools
  {
    HeldIsDelta(DueOf(st), st.toolsSeen);
    TerminalKeeps(st);
  }

  lemma HeldIsDelta(d: Due, calls: bool)
    ensures Deltas(Held(d, calls)) == Held(d, calls)
  {
    if d.held != "" {
      DeltasOne(MessageDelta(Stop(calls, d.held), Counted(d.usage)));
    }
  }

  lemma TerminalKeeps(st: State)
    ensures var a := ClaudeTerminal(st);
            && a.1 == Held(DueOf(st), st.toolsSeen)
            && DueOf(a.0) == DueOf(st).(held := "", terminalSent := st.terminalSent || st.heldFinish != "")
            && a.0.toolsSeen == st.toolsSeen && a.0.tools == st.tools
  {
  }

  lemma StartAside(st: State, c: Chunk)
    ensures Aside(st, ClaudeStart(st, c))
  {
    if !st.started && |c.choices| > 0 {
      AsideOne(st, st.(started := true), ClaudeStart(st, c).1[0]);
    }
  }

  lemma StartKeeps(st: State, c: Chunk)
    ensures var b := ClaudeStart(st, c); DueOf(b.0) == DueOf(st) && Deltas(b.1) == [] && b.0.toolsSeen == st.toolsSeen && b.0.tools == st.tools
  {
    StartAside(st, c);
  }

  lemma HeadIs(st: State, c: Chunk)
    ensures var a := ClaudeTerminal(Capture(st, c));
            var b := ClaudeStart(a.0, c);
            && Deltas(a.1 + b.1) == Held(DueOf(st).(usage := Usage(DueOf(st), c)), st.toolsSeen)
            && DueOf(b.0) == HeadDue(DueOf(st), c)
            && b.0.toolsSeen == st.toolsSeen && b.0.tools == st.tools
  {
    var st0 := Capture(st, c);
    assert DueOf(st0) == DueOf(st).(usage := Usage(DueOf(st), c)) && st0.toolsSeen == st.toolsSeen && st0.tools == st.tools;
    HeadFrom(st0, ClaudeTerminal(st0), c);
  }

  lemma HeadFrom(st: State, a: Out, c: Chunk)
    requires a == ClaudeTerminal(st)
    ensures var b := ClaudeStart(a.0, c);
            && Deltas(a.1 + b.1) == Held(DueOf(st), st.toolsSeen)
            && DueOf(b.0) == DueOf(st).(held := "", terminalSent := st.terminalSent || st.heldFinish != "")
            && b.0.toolsSeen == st.toolsSeen && b.0.tools == st.tools
  {
    TerminalIs(st);
    StartKeeps(a.0, c);
    DeltasAppend(a.1, ClaudeStart(a.0, c).1);
    assert a.1 + [] == a.1;
  }

  lemma ChunkIs(st: State, c: Chunk)
    requires st.toolsSeen == (st.tools != [])
    ensures var out := ClaudeChunk(st, c);
            && DueOf(out.0) == ChunkDue(DueOf(st), c) && out.0.toolsSeen == (out.0.tools != [])
            && Deltas(out.1) == Held(DueOf(st).(usage := Usage(DueOf(st), c)), st.toolsSeen)
  {
    var a := ClaudeTerminal(Capture(st, c));
    var b := ClaudeStart(a.0, c);
    HeadIs(st, c);
    if c.choices != [] {
      ChoiceFrom(st, c, b.0, a.1 + b.1);
    }
  }

  lemma ChoiceFrom(st: State, c: Chunk, b: State, es: seq<Event>)
    requires c.choices != [] && b.toolsSeen == (b.tools != [])
    ensures var d := ClaudeChoice(b, c.choices[0]);
            && DueOf(d.0) == FinishDue(DueOf(b), c.choices[0].finish) && d.0.toolsSeen == (d.0.tools != [])
            && Deltas(es + d.1) == Deltas(es)
  {
    ChoiceTakes(b, c.choices[0]);
    DeltasAppend(es, ClaudeChoice(b, c.choices[0]).1);
    assert Deltas(es) + [] == Deltas(es);
  }

  /** The terminal event is still due, or has been sent, with what was heard in time. */
  predicate Told(g: Gathered, calls: bool, d: Due, ds: seq<Event>) {
    && (d.finished <==> g.finish != "") && !d.flushed
    && (if g.ended then g.finish != "" && d.held == "" && d.terminalSent && ds == [MessageDelta(Stop(calls, g.finish), Counted(g.heard))]
        else d.usage == g.heard && d.held == g.finish && ds == [])
  }

  lemma ToldNext(g: Gathered, calls: bool, d: Due, ds: seq<Event>, c: Chunk, more: seq<Event>, calls': bool)
    requires Told(g, calls, d, ds) && (g.finish != "" ==> calls' == calls)
    requires more == Held(d.(usage := Usage(d, c)), calls)
    ensures Told(Gather(g, c), calls', ChunkDue(d, c), ds + more)
  {
    assert ds + [] == ds && [] + more == more;
  }

  /** A call had started by the finishing chunk, or by now if none has come. */
  predicate CallByFinish(chunks: seq<Chunk>)
    decreases |chunks|
  {
    chunks != [] &&
    if HasFinish(chunks[..|chunks| - 1]) then CallByFinish(chunks[..|chunks| - 1]) else Calls(chunks) != []
  }

  lemma {:induction false} CallByFinishIs(chunks: seq<Chunk>)
    ensures !GatherAll(chunks).ended ==> (CallByFinish(chunks) <==> Calls(chunks) != [])
    ensures CallByFinish(chunks) ==> Calls(chunks) != []
    decreases |chunks|
  {
    if chunks != [] {
      var before, c := chunks[..|chunks| - 1], chunks[|chunks| - 1];
      CallByFinishIs(before);
      GatheredFinish(before);
      if Calls(before) != [] && c.choices != [] {
        CallsStay(Calls(before), c.choices[0].toolCalls);
      }
    }
  }

  lemma {:induction false} CallsStay(calls: seq<UpCall>, tcs: seq<ToolDelta>)
    requires calls != []
    ensures AddDeltas(calls, tcs) != []
    decreases |tcs|
  {
    if tcs != [] {
      CallsStay(AddDelta(calls, tcs[0]), tcs[1..]);
    }
  }

  lemma {:induction false} RunTold(chunks: seq<Chunk>)
    ensures var a := Run(Fresh, chunks);
            && Told(GatherAll(chunks), CallByFinish(chunks), DueOf(a.0), Deltas(a.1))
            && a.0.toolsSeen == (a.0.tools != []) == (Calls(chunks) != [])
    decreases |chunks|
  {
    C.RunConveys(chunks);
    if chunks != [] {
      var before, c := chunks[..|chunks| - 1], chunks[|chunks| - 1];
      var a := Run(Fresh, before);
      RunTold(before);
      GatheredFinish(before);
      CallByFinishIs(before);
      ChunkIs(a.0, c);
      DeltasAppend(a.1, ClaudeChunk(a.0, c).1);
      ToldNext(GatherAll(before), CallByFinish(before), DueOf(a.0), Deltas(a.1), c, Deltas(ClaudeChunk(a.0, c).1), CallByFinish(chunks));
    }
  }

  lemma ThenStop(a: seq<Event>, b: seq<Event>)
    requires Deltas(a) == []
    ensures Deltas(a + b + [MessageStop]) == Deltas(b)
  {
    DeltasAppend(a, b);
    DeltasNext(a + b, MessageStop);
    assert [] + Deltas(b) == Deltas(b) && Deltas(b) + [] == Deltas(b);
  }

  lemma DoneTells(st: State)
    requires st.toolsSeen == (st.tools != [])
    ensures Deltas(ClaudeDone(st).1) == Held(DueOf(st), st.toolsSeen)
  {
    var st0 := st.(done := true);
    var a := StopBlocks(st0);
    StopBlocksAside(st0);
    assert DueOf(a.0) == DueOf(st) && a.0.toolsSeen == st.toolsSeen;
    TerminalIs(a.0);
    ThenStop(a.1, ClaudeTerminal(a.0).1);
  }

  lemma FlushTells(st: State)
    requires !st.flushed && (st.heldFinish != "" || st.terminalSent)
    ensures Deltas(ClaudeFlush(st).1) == Held(DueOf(st), st.toolsSeen)
  {
    var st0 := st.(flushed := true);
    var b := ClaudeTerminal(st0).1;
    TerminalIs(st0);
    ThenStop([], b);
    assert [] + b + [MessageStop] == b + [MessageStop];
    assert b == [] ==> b + [MessageStop] == [MessageStop];
  }

  /** Either ending sends what is still due, once. */
  lemma EndTells(st: State, ending: Ending)
    requires st.toolsSeen == (st.tools != []) && !st.flushed && (st.heldFinish != "" || st.terminalSent)
    ensures Deltas(End(st, ending).1) == Held(DueOf(st), st.toolsSeen)
  {
    if ending.ByDone? {
      DoneTells(st);
    } else {
      FlushTells(st);
    }
  }

  lemma ConversionIs(c: M.Codec, chunks: seq<Chunk>)
    requires Convertible(c, Message(chunks))
    ensures var r := Conversion(c, Message(chunks));
            r.stopReason == Stop(Calls(chunks) != [], GatherAll(chunks).finish) && r.tokens == Counted(GatherAll(chunks).usage)
  {
  }

  lemma DueIsOnce(g: Gathered, calls: bool, d: Due, ds: seq<Event>)
    requires Told(g, calls, d, ds) && g.finish != ""
    ensures ds + Held(d, calls) == [MessageDelta(Stop(calls, g.finish), Counted(g.heard))]
  {
  }

  /** No usage came late, or the last that did counts as what was heard in time. */
  predicate CountsInTime(chunks: seq<Chunk>) {
    LateUsage(chunks).Some? ==> Counted(LateUsage(chunks)) == Counted(GatherAll(chunks).heard)
  }

  /** No call came first after the finishing chunk, or the finish reason tells of calls by itself. */
  predicate CallsInTime(chunks: seq<Chunk>) {
    Calls(chunks) == [] || CallByFinish(chunks) || GatherAll(chunks).finish == "tool_calls"
  }

  lemma StopTells(chunks: seq<Chunk>)
    ensures var finish := GatherAll(chunks).finish;
            Stop(CallByFinish(chunks), finish) == Stop(Calls(chunks) != [], finish) <==> CallsInTime(chunks)
  {
    CallByFinishIs(chunks);
  }

  /**
   * Every stream that finishes, ended either way, against the non-streaming conversion of the same
   * response: exactly one message_delta; its stop reason agrees if and only if no call came first after
   * the finishing chunk or the finish reason tells of calls anyway; and its token counts if and only
   * if no usage that counts differently came later than the chunk after the finishing one.
   */
  lemma {:induction false} StopAndTokensAgreeIff(c: M.Codec, chunks: seq<Chunk>, ending: Ending)
    requires HasFinish(chunks) && Convertible(c, Message(chunks))
    ensures var r, ds := Conversion(c, Message(chunks)), Deltas(Emission(chunks, ending));
            && |ds| == 1 && ds[0].MessageDelta?
            && (ds[0].stopReason == r.stopReason <==> CallsInTime(chunks))
            && (ds[0].claudeTokens == r.tokens <==> CountsInTime(chunks))
  {
    var a := Run(Fresh, chunks);
    RunTold(chunks);
    GatheredFinish(chunks);
    ConversionIs(c, chunks);
    LateUsageWins(chunks);
    StopTells(chunks);
    CallByFinishIs(chunks);
    EndTells(a.0, ending);
    DeltasAppend(a.1, End(a.0, ending).1);
    EndDue(GatherAll(chunks), CallByFinish(chunks), a.0, Deltas(a.1));
  }

  /** What either ending sends makes it exactly one. */
  lemma EndDue(g: Gathered, calls: bool, st: State, ds: seq<Event>)
    requires Told(g, calls, DueOf(st), ds) && g.finish != "" && (!g.ended ==> st.toolsSeen == calls)
    ensures ds + Held(DueOf(st), st.toolsSeen) == [MessageDelta(Stop(calls, g.finish), Counted(g.heard))]
  {
    if g.ended {
      assert ds + [] == ds;
    } else {
      DueIsOnce(g, calls, DueOf(st), ds);
    }
  }

  /** Accepted exactly: responses with a choice that can be read, whose images have sources and whose calls decode. */
  lemma AcceptedIff(c: M.Codec, resp: V.ChatBody)
    ensures Convertible(c, resp) <==>
              && resp.choices != [] && P.Readable(resp.choices[0].content) && M.SourcesOk(c, resp.choices[0].content)
              && M.CallsDecode(c, resp.choices[0].toolCalls)
  {
    if resp.choices != [] {
      M.ContentAcceptedIff(c, resp.choices[0].content);
    }
  }
}
