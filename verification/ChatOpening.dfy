/**
 * Chat Completions streams: the event that opens the client's response, and whose identity it carries.
 */
module ChatOpening {
  import opened Wire
  import opened Folds
  import opened ChatUpstream
  import opened ChatStream
  import opened ChatClaude
  import opened ChatResponses
  import opened ChatParity
  import M = MessagesRequest
  import CC = ChatClaudeParity

  /** The events that open a response. */
  function Opens(): Event -> bool {
    (e: Event) => e.MessageStart? || e.Created?
  }

  /** The prompt count that the first chunk with a choice reports, or 0. */
  function FirstPrompt(chunks: seq<Chunk>): int
    decreases |chunks|
  {
    if chunks == [] then 0
    else
      var before, c := chunks[..|chunks| - 1], chunks[|chunks| - 1];
      if HasChoice(before) then FirstPrompt(before)
      else if c.choices != [] && c.usage.Some? then c.usage.value.prompt
      else 0
  }

  predicate HasChoice(chunks: seq<Chunk>) {
    exists i :: 0 <= i < |chunks| && chunks[i].choices != []
  }

  lemma HasChoiceLast(chunks: seq<Chunk>)
    requires chunks != []
    ensures HasChoice(chunks) <==> HasChoice(chunks[..|chunks| - 1]) || chunks[|chunks| - 1].choices != []
  {
    assert forall i :: 0 <= i < |chunks| - 1 ==> chunks[..|chunks| - 1][i] == chunks[i];
  }

  lemma {:induction false} GatheredStarts(chunks: seq<Chunk>)
    ensures GatherAll(chunks).started <==> HasChoice(chunks)
    decreases |chunks|
  {
    if chunks != [] {
      GatheredStarts(chunks[..|chunks| - 1]);
      HasChoiceLast(chunks);
    }
  }

  // ---- Messages target ----

  /** Nothing opens, and whether anything has stays as it was. */
  predicate Quiet(st: State, out: Out) {
    out.0.started == st.started && forall i :: 0 <= i < |out.1| ==> !Opens()(out.1[i])
  }

  lemma QuietThen(st: State, a: Out, b: Out)
    requires Quiet(st, a) && Quiet(a.0, b)
    ensures Quiet(st, (b.0, a.1 + b.1))
  {
  }

  lemma {:induction false} StopsQuiet(tools: seq<Tool>)
    ensures forall i :: 0 <= i < |StopEvents(tools)| ==> StopEvents(tools)[i].BlockStop?
    decreases |tools|
  {
    if tools != [] {
      StopsQuiet(tools[..|tools| - 1]);
    }
  }

  lemma StopBlocksQuiet(st: State)
    ensures Quiet(st, StopBlocks(st))
  {
    StopsQuiet(st.tools);
  }

  lemma ContentQuiet(st: State, content: string)
    ensures Quiet(st, ClaudeContent(st, content))
  {
    StopBlocksQuiet(st);
  }

  lemma ToolQuiet(st: State, tc: ToolDelta)
    ensures Quiet(st, ClaudeTool(st, tc))
  {
    StopBlocksQuiet(st);
    OpenToolFinds(st, tc);
  }

  lemma {:induction false} ToolsQuiet(st: State, tcs: seq<ToolDelta>)
    ensures Quiet(st, ClaudeTools(st, tcs))
    decreases |tcs|
  {
    if tcs != [] {
      ToolQuiet(st, tcs[0]);
      ToolsQuiet(ClaudeTool(st, tcs[0]).0, tcs[1..]);
      QuietThen(st, ClaudeTool(st, tcs[0]), ClaudeTools(ClaudeTool(st, tcs[0]).0, tcs[1..]));
    }
  }

  lemma FinishQuiet(st: State, finish: string)
    ensures Quiet(st, ClaudeFinish(st, finish))
  {
    StopBlocksQuiet(st.(finished := true, heldFinish := finish));
  }

  lemma ChoiceQuiet(st: State, ch: Choice)
    ensures Quiet(st, ClaudeChoice(st, ch))
  {
    var a := ClaudeContent(st, ch.content);
    var b := ClaudeTools(a.0, ch.toolCalls);
    ContentQuiet(st, ch.content);
    ToolsQuiet(a.0, ch.toolCalls);
    FinishQuiet(b.0, ch.finish);
    QuietThen(st, a, b);
    QuietThen(st, (b.0, a.1 + b.1), ClaudeFinish(b.0, ch.finish));
  }

  lemma TerminalQuiet(st: State)
    ensures Quiet(st, ClaudeTerminal(st))
  {
  }

  lemma StartOpens(st: State, c: Chunk)
    ensures var b := ClaudeStart(st, c);
            && b.0.started == (st.started || c.choices != [])
            && b.1 == if st.started || c.choices == [] then [] else [MessageStart(c.id, c.model, if c.usage.Some? then c.usage.value.prompt else 0)]
  {
  }

  /** Only the first chunk with a choice opens the message. */
  lemma ChunkOpens(st: State, c: Chunk)
    ensures var out := ClaudeChunk(st, c);
            && out.0.started == (st.started || c.choices != [])
            && Only(Opens(), out.1) ==
               if st.started || c.choices == [] then [] else [MessageStart(c.id, c.model, if c.usage.Some? then c.usage.value.prompt else 0)]
  {
    var a := ClaudeTerminal(Capture(st, c));
    var b := ClaudeStart(a.0, c);
    TerminalQuiet(Capture(st, c));
    StartOpens(a.0, c);
    OnlyNone(Opens(), a.1);
    OnlyAppend(Opens(), a.1, b.1);
    if b.1 != [] {
      OnlyOne(Opens(), b.1[0]);
      assert b.1 == [b.1[0]];
    }
    if c.choices != [] {
      ChoiceQuiet(b.0, c.choices[0]);
      OnlyNone(Opens(), ClaudeChoice(b.0, c.choices[0]).1);
      OnlyAppend(Opens(), a.1 + b.1, ClaudeChoice(b.0, c.choices[0]).1);
    }
  }

  lemma EndQuiet(st: State, ending: Ending)
    ensures Only(Opens(), End(st, ending).1) == []
  {
    StopBlocksQuiet(st.(done := true));
    OnlyNone(Opens(), End(st, ending).1);
  }

  /** What opens the message: the first chunk with a choice. */
  function Start(chunks: seq<Chunk>): seq<Event> {
    if HasChoice(chunks) then [MessageStart(GatherAll(chunks).id, GatherAll(chunks).model, FirstPrompt(chunks))] else []
  }

  lemma {:induction false} RunOpens(chunks: seq<Chunk>)
    ensures Only(Opens(), Run(Fresh, chunks).1) == Start(chunks) && (Run(Fresh, chunks).0.started <==> HasChoice(chunks))
    decreases |chunks|
  {
    if chunks != [] {
      var before, c := chunks[..|chunks| - 1], chunks[|chunks| - 1];
      RunOpens(before);
      GatheredStarts(before);
      HasChoiceLast(chunks);
      ChunkOpens(Run(Fresh, before).0, c);
      OnlyAppend(Opens(), Run(Fresh, before).1, ClaudeChunk(Run(Fresh, before).0, c).1);
      assert Start(before) + [] == Start(before);
    }
  }

  /**
   * Every stream, ended either way: the one message_start carries the identity of the first chunk with
   * a choice, which is that of the non-streaming conversion, and the prompt count that chunk reported;
   * without such a chunk there is none.
   */
  lemma {:induction false} MessageOpens(c: M.Codec, chunks: seq<Chunk>, ending: Ending)
    ensures Only(Opens(), Emission(chunks, ending)) == Start(chunks)
    ensures HasChoice(chunks) && CC.Convertible(c, Message(chunks)) ==>
              var r, start := CC.Conversion(c, Message(chunks)), Start(chunks)[0]; start.id == r.id && start.model == r.model
  {
    RunOpens(chunks);
    EndQuiet(Run(Fresh, chunks).0, ending);
    OnlyAppend(Opens(), Run(Fresh, chunks).1, End(Run(Fresh, chunks).0, ending).1);
    assert Start(chunks) + [] == Start(chunks);
  }

  // ---- Responses target ----

  lemma {:induction false} RespToolsQuiet(st: State, tcs: seq<ToolDelta>)
    ensures Quiet(st, RespTools(st, tcs))
    decreases |tcs|
  {
    if tcs != [] {
      RespToolQuiet(st, tcs[0]);
      RespToolsQuiet(RespTool(st, tcs[0]).0, tcs[1..]);
      QuietThen(st, RespTool(st, tcs[0]), RespTools(RespTool(st, tcs[0]).0, tcs[1..]));
    }
  }

  lemma RespToolQuiet(st: State, tc: ToolDelta)
    ensures Quiet(st, RespTool(st, tc))
  {
    RespOpenFinds(st, tc);
  }

  lemma RespChoiceQuiet(st: State, ch: Choice)
    ensures Quiet(st, RespChoice(st, ch))
  {
    var a := RespContent(st, ch.content);
    RespToolsQuiet(a.0, ch.toolCalls);
    QuietThen(st, a, RespTools(a.0, ch.toolCalls));
  }

  lemma RespTerminalQuiet(st: State)
    ensures Quiet(st, RespTerminal(st))
  {
  }

  lemma RespChunkOpens(st: State, c: Chunk)
    ensures var out := RespChunk(st, c);
            && out.0.started == (st.started || c.choices != [])
            && Only(Opens(), out.1) == if st.started || c.choices == [] then [] else [Created(c.id)]
  {
    var a := RespTerminal(Capture(st, c));
    var b := RespStart(a.0, c);
    RespTerminalQuiet(Capture(st, c));
    OnlyNone(Opens(), a.1);
    OnlyAppend(Opens(), a.1, b.1);
    if b.1 != [] {
      OnlyOne(Opens(), b.1[0]);
      assert b.1 == [b.1[0]];
    }
    if c.choices != [] {
      RespChoiceQuiet(b.0, c.choices[0]);
      OnlyNone(Opens(), RespChoice(b.0, c.choices[0]).1);
      OnlyAppend(Opens(), a.1 + b.1, RespChoice(b.0, c.choices[0]).1);
    }
  }

  function ResponseStart(chunks: seq<Chunk>): seq<Event> {
    if HasChoice(chunks) then [Created(GatherAll(chunks).id)] else []
  }

  lemma {:induction false} RunResponsesOpens(chunks: seq<Chunk>)
    ensures Only(Opens(), RunResponses(Fresh, chunks).1) == ResponseStart(chunks)
    ensures RunResponses(Fresh, chunks).0.started <==> HasChoice(chunks)
    decreases |chunks|
  {
    if chunks != [] {
      var before, c := chunks[..|chunks| - 1], chunks[|chunks| - 1];
      RunResponsesOpens(before);
      GatheredStarts(before);
      HasChoiceLast(chunks);
      RespChunkOpens(RunResponses(Fresh, before).0, c);
      OnlyAppend(Opens(), RunResponses(Fresh, before).1, RespChunk(RunResponses(Fresh, before).0, c).1);
      assert ResponseStart(before) + [] == ResponseStart(before);
    }
  }

  lemma EndResponsesQuiet(st: State, ending: Ending)
    ensures Only(Opens(), EndResponses(st, ending).1) == []
  {
    OnlyNone(Opens(), EndResponses(st, ending).1);
  }

  /** The one response.created carries the id of the first chunk with a choice. */
  lemma {:induction false} ResponseOpens(chunks: seq<Chunk>, ending: Ending)
    ensures Only(Opens(), Streamed(chunks, ending)) == ResponseStart(chunks)
  {
    RunResponsesOpens(chunks);
    EndResponsesQuiet(RunResponses(Fresh, chunks).0, ending);
    OnlyAppend(Opens(), RunResponses(Fresh, chunks).1, EndResponses(RunResponses(Fresh, chunks).0, ending).1);
    assert ResponseStart(chunks) + [] == ResponseStart(chunks);
  }
}
