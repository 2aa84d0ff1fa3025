/**
 * Chat Completions, from bytes: how lines become chunks, chunks drive the converter, and what a
 * whole byte stream therefore delivers, however it is split.
 */
module ChatLines {
  import opened Wire
  import opened Folds
  import opened LineFeed
  import opened Clients
  import opened ChatUpstream
  import opened ChatStream
  import opened ChatClaude
  import ChatResponses

  type Step = (State, Chunk) -> Out

  type Decoder = string -> Result<Chunk, Failure>

  /** The payload of a data line. */
  function SseData(line: string): Option<string> {
    if HasPrefix(line, "data:") then Some(TrimSpace(line[5..])) else None
  }

  predicate IsSseDone(payload: string) {
    TrimSpace(payload) == "[DONE]"
  }

  /** A data line: the payload with white space around it. */
  ghost predicate DataLine(line: string, payload: string) {
    exists rest :: line == "data:" + rest && Padded(rest, payload)
  }

  lemma SseDataIff(line: string, payload: string)
    ensures SseData(line) == Some(payload) <==> DataLine(line, payload)
  {
    if HasPrefix(line, "data:") {
      assert line == line[..5] + line[5..];
      TrimSpaceIff(line[5..], payload);
    }
    if DataLine(line, payload) {
      var rest :| line == "data:" + rest && Padded(rest, payload);
      assert line[..5] == "data:" && line[5..] == rest;
    }
  }

  /** Trimming a trimmed payload changes nothing. */
  lemma DoneIff(line: string, payload: string)
    requires DataLine(line, payload)
    ensures IsSseDone(payload) <==> payload == "[DONE]"
  {
    TrimSpaceIff(payload, payload);
    assert payload == "" + payload + "";
  }

  // ---- one line ----

  function Running(out: Out): Feed<State, Event, Failure> {
    Feed(out.0, out.1, if out.0.done then Done else Open)
  }

  function SynthesizeLine(decode: Decoder, step: Step, done: State -> Out, st: State, line: string): Feed<State, Event, Failure> {
    match SseData(line)
    case None => Running((st, []))
    case Some(data) =>
      if data == "" then Running((st, []))
      else if IsSseDone(data) then Running(done(st))
      else
        match decode(data)
        case Ok(c) => Running(step(st, c))
        case Err(e) => Feed(st, [], Failed(e))
  }

  /** Data payloads pass through bare; [DONE] ends the stream without an event. */
  function PassLine(st: State, line: string): Feed<State, Event, Failure> {
    match SseData(line)
    case None => Running((st, []))
    case Some(data) =>
      if IsSseDone(data) then Running((st.(done := true), []))
      else if data == "" then Running((st, []))
      else Running((st, [Raw(data)]))
  }

  function HandleLine(format: string, decode: Decoder, st: State, line: string): Feed<State, Event, Failure> {
    if format == "openai" then PassLine(st, line)
    else if format == "claude" then SynthesizeLine(decode, ClaudeChunk, ClaudeDone, st, line)
    else if format == "openai-response" then SynthesizeLine(decode, RespChunk, RespDone, st, line)
    else Feed(st, [], Failed(Unsupported))
  }

  function Handler(format: string, decode: Decoder): (State, string) -> Feed<State, Event, Failure> {
    (st: State, line: string) => HandleLine(format, decode, st, TrimCR(line))
  }

  function Flushed(format: string, st: State): Out {
    if format == "claude" then ClaudeFlush(st)
    else if format == "openai-response" then RespFlush(st)
    else (st.(flushed := true), [])
  }

  // ---- the upstream alone: bytes to chunks ----

  function DecodeLine(decode: Decoder, line: string): Feed<(), Chunk, Failure> {
    match SseData(line)
    case None => Feed((), [], Open)
    case Some(data) =>
      if data == "" then Feed((), [], Open)
      else if IsSseDone(data) then Feed((), [], Done)
      else
        match decode(data)
        case Ok(c) => Feed((), [c], Open)
        case Err(e) => Feed((), [], Failed(e))
  }

  /** The chunks of a byte stream: decoded payloads up to [DONE], a malformed payload, or the end. */
  function Decode(decode: Decoder, lines: seq<string>): Feed<(), Chunk, Failure>
    decreases |lines|
  {
    if lines == [] then Feed((), [], Open)
    else
      var d := Decode(decode, lines[..|lines| - 1]);
      if d.status.Open? then Then(d, DecodeLine(decode, TrimCR(lines[|lines| - 1]))) else d
  }

  /**
   * What a line says: a data line with anything but white space is [DONE], or a payload, which decodes
   * to a chunk or fails the stream; every other line says nothing. Passthrough reads the same lines.
   */
  lemma LineReads(decode: Decoder, line: string, payload: string)
    ensures DataLine(line, payload) && payload != "" && payload != "[DONE]" ==>
              && PayloadLine(line) == Feed((), [payload], Open)
              && DecodeLine(decode, line) == (match decode(payload) case Ok(c) => Feed((), [c], Open) case Err(e) => Feed((), [], Failed(e)))
    ensures DataLine(line, "[DONE]") ==> PayloadLine(line) == Feed((), [], Done) && DecodeLine(decode, line) == Feed((), [], Done)
    ensures DataLine(line, "") || !HasPrefix(line, "data:") ==>
              PayloadLine(line) == Feed((), [], Open) && DecodeLine(decode, line) == Feed((), [], Open)
  {
    SseDataIff(line, payload);
    SseDataIff(line, "[DONE]");
    SseDataIff(line, "");
    if DataLine(line, payload) {
      DoneIff(line, payload);
    }
    if DataLine(line, "[DONE]") {
      DoneIff(line, "[DONE]");
    }
    if DataLine(line, "") {
      DoneIff(line, "");
    }
    assert "[DONE]"[0] == '[';
  }

  /** A target that is neither of the three fails with the first complete line and delivers nothing. */
  lemma {:induction false} UnknownTargetFails(format: string, decode: Decoder, st: State, lines: seq<string>)
    requires format != "openai" && format != "claude" && format != "openai-response"
    ensures Drain(Handler(format, decode), st, lines) == Feed(st, [], if lines == [] then Open else Failed(Unsupported))
    decreases |lines|
  {
    if lines != [] {
      UnknownTargetFails(format, decode, st, lines[..|lines| - 1]);
    }
  }

  // ---- the converter is the chunk-level machine run on the decoded chunks ----

  function Steps(step: Step, st: State, chunks: seq<Chunk>): Out
    decreases |chunks|
  {
    if chunks == [] then (st, [])
    else
      var a := Steps(step, st, chunks[..|chunks| - 1]);
      var b := step(a.0, chunks[|chunks| - 1]);
      (b.0, a.1 + b.1)
  }

  lemma {:induction false} StepsNext(step: Step, st: State, chunks: seq<Chunk>, c: Chunk)
    ensures var a := Steps(step, st, chunks);
            var b := step(a.0, c);
            Steps(step, st, chunks + [c]) == (b.0, a.1 + b.1)
  {
    assert (chunks + [c])[..|chunks|] == chunks;
  }

  lemma {:induction false} RunIsSteps(st: State, chunks: seq<Chunk>)
    ensures Run(st, chunks) == Steps(ClaudeChunk, st, chunks)
    decreases |chunks|
  {
    if chunks != [] {
      RunIsSteps(st, chunks[..|chunks| - 1]);
    }
  }

  lemma {:induction false} RunResponsesIsSteps(st: State, chunks: seq<Chunk>)
    ensures ChatResponses.RunResponses(st, chunks) == Steps(RespChunk, st, chunks)
    decreases |chunks|
  {
    if chunks != [] {
      RunResponsesIsSteps(st, chunks[..|chunks| - 1]);
    }
  }

  // ---- chunks never mark the stream done ----

  lemma {:induction false} ClaudeToolsNotDone(st: State, tcs: seq<ToolDelta>)
    ensures ClaudeTools(st, tcs).0.done == st.done
    decreases |tcs|
  {
    if tcs != [] {
      assert ClaudeTool(st, tcs[0]).0.done == OpenTool(st, tcs[0]).0.done == st.done;
      ClaudeToolsNotDone(ClaudeTool(st, tcs[0]).0, tcs[1..]);
    }
  }

  lemma ClaudeChoiceNotDone(st: State, ch: Choice)
    ensures ClaudeChoice(st, ch).0.done == st.done
  {
    var a := ClaudeContent(st, ch.content);
    assert a.0.done == st.done;
    ClaudeToolsNotDone(a.0, ch.toolCalls);
  }

  lemma ClaudeHeadNotDone(st: State, c: Chunk)
    ensures ClaudeStart(ClaudeTerminal(Capture(st, c)).0, c).0.done == st.done
  {
    assert ClaudeTerminal(Capture(st, c)).0.done == st.done;
  }

  lemma ClaudeChunkNotDone(st: State, c: Chunk)
    ensures ClaudeChunk(st, c).0.done == st.done
  {
    ClaudeHeadNotDone(st, c);
    if c.choices != [] {
      ClaudeChoiceNotDone(ClaudeStart(ClaudeTerminal(Capture(st, c)).0, c).0, c.choices[0]);
    }
  }

  lemma RespToolNotDone(st: State, tc: ToolDelta)
    ensures RespTool(st, tc).0.done == st.done
  {
  }

  lemma {:induction false} RespToolsNotDone(st: State, tcs: seq<ToolDelta>)
    ensures RespTools(st, tcs).0.done == st.done
    decreases |tcs|
  {
    if tcs != [] {
      RespToolNotDone(st, tcs[0]);
      RespToolsNotDone(RespTool(st, tcs[0]).0, tcs[1..]);
    }
  }

  lemma RespChoiceNotDone(st: State, ch: Choice)
    ensures RespChoice(st, ch).0.done == st.done
  {
    RespToolsNotDone(RespContent(st, ch.content).0, ch.toolCalls);
  }

  lemma RespHeadNotDone(st: State, c: Chunk)
    ensures RespStart(RespTerminal(Capture(st, c)).0, c).0.done == st.done
  {
    assert RespTerminal(Capture(st, c)).0.done == st.done;
  }

  lemma RespChunkNotDone(st: State, c: Chunk)
    ensures RespChunk(st, c).0.done == st.done
  {
    RespHeadNotDone(st, c);
    if c.choices != [] {
      RespChoiceNotDone(RespStart(RespTerminal(Capture(st, c)).0, c).0, c.choices[0]);
    }
  }

  // ---- bytes to events ----

  /** What a converter in state `st` makes of decoded chunks and the way they end. */
  function Conversion(step: Step, done: State -> Out, st: State, d: Feed<(), Chunk, Failure>): (State, seq<Event>) {
    var a := Steps(step, st, d.events);
    if d.status.Done? then
      var b := done(a.0);
      (b.0, a.1 + b.1)
    else a
  }

  /** `r` is the converter's handling of a line that the decoder handles as `u`. */
  predicate Follows(step: Step, done: State -> Out, st: State, r: Feed<State, Event, Failure>, u: Feed<(), Chunk, Failure>) {
    && r.status == u.status
    && (u.status.Open? ==> !r.state.done)
    && |u.events| <= 1 && (u.events != [] ==> u.status.Open?)
    && (r.state, r.events) == if u.status.Done? then done(st) else if u.events == [] then (st, []) else step(st, u.events[0])
  }

  lemma LineFollows(
    h: (State, string) -> Feed<State, Event, Failure>, decode: Decoder, step: Step, done: State -> Out, st: State, raw: string)
    requires !st.done
    requires forall s, line :: h(s, line) == SynthesizeLine(decode, step, done, s, TrimCR(line))
    requires forall s, c :: step(s, c).0.done == s.done
    requires forall s :: done(s).0.done
    ensures Follows(step, done, st, h(st, raw), DecodeLine(decode, TrimCR(raw)))
  {
  }

  /** A drained stream converts the decoded one. */
  predicate Converted(step: Step, done: State -> Out, st: State, f: Feed<State, Event, Failure>, d: Feed<(), Chunk, Failure>) {
    f.status == d.status && (f.state, f.events) == Conversion(step, done, st, d) && (f.status.Open? ==> !f.state.done)
  }

  lemma ConvertedThen(
    step: Step, done: State -> Out, st: State, f: Feed<State, Event, Failure>, d: Feed<(), Chunk, Failure>,
    r: Feed<State, Event, Failure>, u: Feed<(), Chunk, Failure>)
    requires Converted(step, done, st, f, d) && d.status.Open? && Follows(step, done, f.state, r, u)
    ensures Converted(step, done, st, Then(f, r), Then(d, u))
  {
    if u.events == [] {
      assert d.events + [] == d.events && f.events + [] == f.events;
    } else {
      assert u.events == [u.events[0]];
      StepsNext(step, st, d.events, u.events[0]);
    }
  }

  /** The draining loop does to the lines what the chunk-level machine does to the chunks. */
  lemma {:induction false} DrainConverts(
    h: (State, string) -> Feed<State, Event, Failure>, decode: Decoder, step: Step, done: State -> Out, st: State, lines: seq<string>)
    requires !st.done
    requires forall s, line :: h(s, line) == SynthesizeLine(decode, step, done, s, TrimCR(line))
    requires forall s, c :: step(s, c).0.done == s.done
    requires forall s :: done(s).0.done
    ensures Converted(step, done, st, Drain(h, st, lines), Decode(decode, lines))
    decreases |lines|
  {
    if lines != [] {
      var before, raw := lines[..|lines| - 1], lines[|lines| - 1];
      DrainConverts(h, decode, step, done, st, before);
      var f := Drain(h, st, before);
      if f.status.Open? {
        LineFollows(h, decode, step, done, f.state, raw);
        ConvertedThen(step, done, st, f, Decode(decode, before), h(f.state, raw), DecodeLine(decode, TrimCR(raw)));
      }
    }
  }

  // ---- main results ----

  /** A stream fed in arbitrary pieces, then flushed if the upstream closed before [DONE]. */
  function Delivered(format: string, decode: Decoder, parts: seq<string>): seq<Event> {
    var f := FeedChunks(Handler(format, decode), Fresh, parts).feed;
    if f.status.Open? then f.events + Flushed(format, f.state).1 else f.events
  }

  function EndingOf(d: Feed<(), Chunk, Failure>): Ending {
    if d.status.Done? then ByDone else ByFlush
  }

  /** The chunks of a byte stream: decoded payloads up to [DONE], a malformed payload, or the end. */
  function Upstream(decode: Decoder, parts: seq<string>): Feed<(), Chunk, Failure> {
    Decode(decode, Lines(Concat(parts)))
  }

  lemma {:induction false} ClaudeConverts(decode: Decoder, lines: seq<string>)
    ensures Converted(ClaudeChunk, ClaudeDone, Fresh, Drain(Handler("claude", decode), Fresh, lines), Decode(decode, lines))
  {
    forall s, c ensures ClaudeChunk(s, c).0.done == s.done { ClaudeChunkNotDone(s, c); }
    forall s ensures ClaudeDone(s).0.done { ClaudeDoneIsDone(s); }
    DrainConverts(Handler("claude", decode), decode, ClaudeChunk, ClaudeDone, Fresh, lines);
  }

  lemma ClaudeDoneIsDone(s: State)
    ensures ClaudeDone(s).0.done
  {
    assert StopBlocks(s.(done := true)).0.done;
  }

  /**
   * Messages target, every split of every byte stream: the outcome is the decoder's, and unless a
   * payload was malformed the client receives exactly the emission for the decoded chunks, so all
   * results about emissions hold of bytes.
   */
  lemma {:induction false} ClaudeDelivery(decode: Decoder, parts: seq<string>)
    ensures var d := Upstream(decode, parts);
            && FeedChunks(Handler("claude", decode), Fresh, parts).feed.status == d.status
            && Delivered("claude", decode, parts) ==
               if d.status.Failed? then Run(Fresh, d.events).1 else Emission(d.events, EndingOf(d))
  {
    ChunkingIndependence(Handler("claude", decode), Fresh, parts);
    ClaudeConverts(decode, Lines(Concat(parts)));
    RunIsSteps(Fresh, Upstream(decode, parts).events);
  }

  lemma {:induction false} ResponsesConverts(decode: Decoder, lines: seq<string>)
    ensures Converted(RespChunk, RespDone, Fresh, Drain(Handler("openai-response", decode), Fresh, lines), Decode(decode, lines))
  {
    forall s, c ensures RespChunk(s, c).0.done == s.done { RespChunkNotDone(s, c); }
    forall s ensures RespDone(s).0.done { RespDoneIsDone(s); }
    DrainConverts(Handler("openai-response", decode), decode, RespChunk, RespDone, Fresh, lines);
  }

  lemma RespDoneIsDone(s: State)
    ensures RespDone(s).0.done
  {
  }

  /** Responses target, likewise. */
  lemma {:induction false} ResponsesDelivery(decode: Decoder, parts: seq<string>)
    ensures var d := Upstream(decode, parts);
            && FeedChunks(Handler("openai-response", decode), Fresh, parts).feed.status == d.status
            && Delivered("openai-response", decode, parts) ==
               if d.status.Failed? then ChatResponses.RunResponses(Fresh, d.events).1
               else ChatResponses.Streamed(d.events, EndingOf(d))
  {
    ChunkingIndependence(Handler("openai-response", decode), Fresh, parts);
    ResponsesConverts(decode, Lines(Concat(parts)));
    RunResponsesIsSteps(Fresh, Upstream(decode, parts).events);
  }

  function PayloadLine(line: string): Feed<(), string, Failure> {
    match SseData(line)
    case None => Feed((), [], Open)
    case Some(data) =>
      if IsSseDone(data) then Feed((), [], Done)
      else if data == "" then Feed((), [], Open)
      else Feed((), [data], Open)
  }

  /** The passthrough's own reading: bare data payloads, in order, up to [DONE]. */
  function Payloads(lines: seq<string>): Feed<(), string, Failure>
    decreases |lines|
  {
    if lines == [] then Feed((), [], Open)
    else
      var d := Payloads(lines[..|lines| - 1]);
      if d.status.Open? then Then(d, PayloadLine(TrimCR(lines[|lines| - 1]))) else d
  }

  function Verbatim(payloads: seq<string>): seq<Event> {
    seq(|payloads|, i requires 0 <= i < |payloads| => Raw(payloads[i]))
  }

  /** A pass-through outcome shows exactly the payloads read, and changes nothing while open. */
  predicate Shows(st: State, f: Feed<State, Event, Failure>, d: Feed<(), string, Failure>) {
    f.status == d.status && f.events == Verbatim(d.events) && (f.status.Open? ==> f.state == st)
  }

  lemma PassLineShows(st: State, line: string)
    requires !st.done
    ensures Shows(st, PassLine(st, line), PayloadLine(line))
  {
  }

  lemma ShowsThen(st: State, f: Feed<State, Event, Failure>, d: Feed<(), string, Failure>, r: Feed<State, Event, Failure>, u: Feed<(), string, Failure>)
    requires Shows(st, f, d) && Shows(st, r, u)
    ensures Shows(st, Then(f, r), Then(d, u))
  {
  }

  lemma {:induction false} DrainPasses(h: (State, string) -> Feed<State, Event, Failure>, st: State, lines: seq<string>)
    requires !st.done
    requires forall s, line :: h(s, line) == PassLine(s, TrimCR(line))
    ensures Shows(st, Drain(h, st, lines), Payloads(lines))
    decreases |lines|
  {
    if lines != [] {
      var before, line := lines[..|lines| - 1], TrimCR(lines[|lines| - 1]);
      DrainPasses(h, st, before);
      PassLineShows(st, line);
      ShowsThen(st, Drain(h, st, before), Payloads(before), PassLine(st, line), PayloadLine(line));
    }
  }

  /** Passthrough target: the client receives exactly the upstream's data payloads up to [DONE]. */
  lemma {:induction false} PassthroughDelivery(decode: Decoder, parts: seq<string>)
    ensures Delivered("openai", decode, parts) == Verbatim(Payloads(Lines(Concat(parts))).events)
  {
    ChunkingIndependence(Handler("openai", decode), Fresh, parts);
    DrainPasses(Handler("openai", decode), Fresh, Lines(Concat(parts)));
    var f := FeedChunks(Handler("openai", decode), Fresh, parts).feed;
    assert f.events + [] == f.events;
  }
}
