/**
 * Chat Completions to Responses: the response a stream adds up to, its non-streaming conversion, and
 * how much of it the converter's state holds.
 */
module ChatParity {
  import opened Wire
  import opened Folds
  import opened Clients
  import A = Assembler
  import opened ChatUpstream
  import opened ChatStream
  import opened ChatClaude
  import opened ChatResponses
  import V = ChatConvert
  import P = RequestParts

  // ---- the response a stream adds up to ----

  /**
   * Identity from the first choice, the first finish reason, the last usage. `ended`: a chunk has
   * followed the finishing one; `heard` is the last usage until then.
   */
  datatype Gathered = Gathered(started: bool, id: string, model: string, finish: string, usage: Option<Tokens>, ended: bool, heard: Option<Tokens>)

  const Nothing := Gathered(false, "", "", "", None, false, None)

  function Gather(g: Gathered, c: Chunk): Gathered {
    Gathered(
      g.started || c.choices != [],
      if g.started || c.choices == [] then g.id else c.id,
      if g.started || c.choices == [] then g.model else c.model,
      if g.finish == "" && Finishes(c) then c.choices[0].finish else g.finish,
      if c.usage.Some? then c.usage else g.usage,
      g.ended || g.finish != "",
      if !g.ended && c.usage.Some? then c.usage else g.heard)
  }

  function GatherAll(chunks: seq<Chunk>): Gathered
    decreases |chunks|
  {
    if chunks == [] then Nothing else Gather(GatherAll(chunks[..|chunks| - 1]), chunks[|chunks| - 1])
  }

  /** The last usage reported later than the chunk after the finishing one. */
  function LateUsage(chunks: seq<Chunk>): Option<Tokens>
    decreases |chunks|
  {
    if chunks == [] then None
    else
      var before, c := chunks[..|chunks| - 1], chunks[|chunks| - 1];
      if GatherAll(before).ended && c.usage.Some? then c.usage else LateUsage(before)
  }

  /** No usage came late, or the last that did says what was heard in time. */
  predicate UsageInTime(chunks: seq<Chunk>) {
    LateUsage(chunks).Some? ==> LateUsage(chunks).value == OrNothing(GatherAll(chunks).heard)
  }

  function OrNothing(usage: Option<Tokens>): Tokens {
    if usage.Some? then usage.value else Tokens(0, 0, None, None)
  }

  lemma {:induction false} LateUsageWins(chunks: seq<Chunk>)
    ensures LateUsage(chunks).Some? ==> GatherAll(chunks).ended
    ensures GatherAll(chunks).usage == if LateUsage(chunks).Some? then LateUsage(chunks) else GatherAll(chunks).heard
    decreases |chunks|
  {
    if chunks != [] {
      LateUsageWins(chunks[..|chunks| - 1]);
    }
  }

  function ToolCalls(calls: seq<UpCall>): seq<P.ToolCall> {
    seq(|calls|, i requires 0 <= i < |calls| => P.ToolCall(calls[i].id, calls[i].name, calls[i].args))
  }

  function Message(chunks: seq<Chunk>): V.ChatBody {
    var g := GatherAll(chunks);
    V.ChatBody(g.id, g.model, [V.ChatChoice(P.Str(Text(chunks)), ToolCalls(Calls(chunks)), g.finish)], g.usage)
  }

  /** How many calls had started when the first text arrived; -1 without text. */
  function TextPlace(chunks: seq<Chunk>): int
    decreases |chunks|
  {
    if chunks == [] then -1
    else
      var before := chunks[..|chunks| - 1];
      if TextPlace(before) >= 0 then TextPlace(before)
      else if ChunkText(chunks[|chunks| - 1]) != "" then |Calls(before)|
      else -1
  }

  lemma {:induction false} TextPlaceIff(chunks: seq<Chunk>)
    ensures TextPlace(chunks) >= 0 <==> Text(chunks) != ""
    decreases |chunks|
  {
    if chunks != [] {
      TextPlaceIff(chunks[..|chunks| - 1]);
    }
  }

  lemma {:induction false} GatheredFinish(chunks: seq<Chunk>)
    ensures GatherAll(chunks).finish != "" <==> HasFinish(chunks)
    decreases |chunks|
  {
    if chunks != [] {
      GatheredFinish(chunks[..|chunks| - 1]);
      HasFinishLast(chunks);
    }
  }

  // ---- what the terminal event says besides its output ----

  predicate Seals(e: Event, g: Gathered) {
    e.Completed? && e.id == g.id && e.model == g.model && e.status == StatusFromFinish(g.finish) && e.tokens == TerminalTokens(g.heard)
  }

  /** The part of the state that the terminal event depends on, but for its output. */
  datatype Brief = Brief(started: bool, id: string, model: string, usage: Option<Tokens>, finished: bool, held: string)

  function BriefOf(st: State): Brief {
    Brief(st.started, st.id, st.model, st.usage, st.finished, st.heldFinish)
  }

  /** Up to the finishing chunk the state holds what was gathered. */
  predicate Agrees(g: Gathered, b: Brief) {
    && b == Brief(g.started, g.id, g.model, g.heard, g.finish != "", g.finish)
    && (g.finish != "" ==> g.started) && !g.ended
  }

  /** Usage taken, the held terminal sent, identity known. */
  function HeadBrief(b: Brief, c: Chunk): Brief {
    var usage := if c.usage.Some? then c.usage else b.usage;
    if !b.started && c.choices != [] then Brief(true, c.id, c.model, usage, b.finished, "") else b.(usage := usage, held := "")
  }

  function ChunkBrief(b: Brief, c: Chunk): Brief {
    var a := HeadBrief(b, c);
    if Finishes(c) && !a.finished then a.(finished := true, held := c.choices[0].finish) else a
  }

  lemma StartIsBrief(st: State, c: Chunk)
    ensures BriefOf(RespStart(st, c).0) ==
            if !st.started && c.choices != [] then BriefOf(st).(started := true, id := c.id, model := c.model) else BriefOf(st)
  {
  }

  lemma HeadIsBrief(st: State, c: Chunk)
    ensures BriefOf(RespStart(RespTerminal(Capture(st, c)).0, c).0) == HeadBrief(BriefOf(st), c)
  {
    TerminalIsBrief(Capture(st, c));
    HeadFrom(BriefOf(st), RespTerminal(Capture(st, c)).0, c);
  }

  lemma HeadFrom(b: Brief, a: State, c: Chunk)
    requires BriefOf(a) == b.(usage := if c.usage.Some? then c.usage else b.usage, held := "")
    ensures BriefOf(RespStart(a, c).0) == HeadBrief(b, c)
  {
    StartIsBrief(a, c);
  }

  lemma TerminalIsBrief(st: State)
    ensures BriefOf(RespTerminal(st).0) == BriefOf(st).(held := "")
  {
    TerminalClears(st);
  }

  lemma TerminalClears(st: State)
    ensures RespTerminal(st).0 == st.(heldFinish := "")
  {
  }

  lemma ToolIsBrief(st: State, tc: ToolDelta)
    ensures BriefOf(RespTool(st, tc).0) == BriefOf(st) && RespTool(st, tc).0.msgIndex == st.msgIndex
  {
    var a := RespOpen(st, tc).0;
    assert BriefOf(a) == BriefOf(st) && a.msgIndex == st.msgIndex;
    RespOpenFinds(st, tc);
    if tc.args != "" {
      var p := Find(a.tools, tc.index);
      assert RespTool(st, tc).0 == a.(tools := a.tools[p := a.tools[p].(args := a.tools[p].args + tc.args)]);
    }
  }

  lemma {:induction false} ToolsAreBrief(st: State, tcs: seq<ToolDelta>)
    ensures BriefOf(RespTools(st, tcs).0) == BriefOf(st) && RespTools(st, tcs).0.msgIndex == st.msgIndex
    decreases |tcs|
  {
    if tcs != [] {
      ToolIsBrief(st, tcs[0]);
      ToolsAreBrief(RespTool(st, tcs[0]).0, tcs[1..]);
    }
  }

  /** The message is announced with the first text, after the items so far. */
  lemma ContentIsBrief(st: State, content: string)
    ensures var a := RespContent(st, content).0;
            BriefOf(a) == BriefOf(st) && a.msgIndex == if st.msgIndex < 0 && content != "" then st.nextIndex else st.msgIndex
  {
  }

  lemma FinishIsBrief(st: State, b: Brief, finish: string)
    requires BriefOf(st) == b
    ensures var a := RespFinish(st, finish);
            BriefOf(a) == (if finish != "" && !b.finished then b.(finished := true, held := finish) else b) && a.msgIndex == st.msgIndex
  {
  }

  /** Text and tools leave the brief alone. */
  lemma ChoiceIsBrief(st: State, b: Brief, ch: Choice)
    requires BriefOf(st) == b
    ensures var a := RespChoice(st, ch).0;
            && BriefOf(a) == (if ch.finish != "" && !b.finished then b.(finished := true, held := ch.finish) else b)
            && a.msgIndex == if st.msgIndex < 0 && ch.content != "" then st.nextIndex else st.msgIndex
  {
    var x := RespContent(st, ch.content).0;
    ContentIsBrief(st, ch.content);
    ToolsAreBrief(x, ch.toolCalls);
    FinishIsBrief(RespTools(x, ch.toolCalls).0, b, ch.finish);
  }

  lemma ChunkIsBrief(st: State, c: Chunk)
    ensures BriefOf(RespChunk(st, c).0) == ChunkBrief(BriefOf(st), c)
  {
    HeadIsBrief(st, c);
    if c.choices != [] {
      ChoiceIsBrief(RespStart(RespTerminal(Capture(st, c)).0, c).0, HeadBrief(BriefOf(st), c), c.choices[0]);
    }
  }

  lemma AgreesNext(g: Gathered, b: Brief, c: Chunk)
    requires Agrees(g, b) && g.finish == ""
    ensures Agrees(Gather(g, c), ChunkBrief(b, c))
  {
  }

  lemma {:induction false} RunAgrees(chunks: seq<Chunk>)
    requires chunks != [] ==> !HasFinish(chunks[..|chunks| - 1])
    ensures Agrees(GatherAll(chunks), BriefOf(RunResponses(Fresh, chunks).0))
    decreases |chunks|
  {
    if chunks != [] {
      var before, c := chunks[..|chunks| - 1], chunks[|chunks| - 1];
      if before != [] {
        HasFinishLast(before);
      }
      RunAgrees(before);
      GatheredFinish(before);
      ChunkIsBrief(RunResponses(Fresh, before).0, c);
      AgreesNext(GatherAll(before), BriefOf(RunResponses(Fresh, before).0), c);
    }
  }

  // ---- where the message stands ----

  /** The message is announced with the first text, after the calls so far. */
  lemma ChunkPlace(st: State, ch: Chunk)
    ensures var was, now := st.msgIndex, RespChunk(st, ch).0.msgIndex;
            now == if was < 0 && ChunkText(ch) != "" then st.nextIndex else was
  {
    var b := RespStart(RespTerminal(Capture(st, ch)).0, ch).0;
    TerminalClears(Capture(st, ch));
    assert b.msgIndex == st.msgIndex && b.nextIndex == st.nextIndex;
    if ch.choices != [] {
      ChoiceIsBrief(b, BriefOf(b), ch.choices[0]);
    }
  }

  lemma {:induction false} RunPlace(chunks: seq<Chunk>)
    ensures RunResponses(Fresh, chunks).0.msgIndex == TextPlace(chunks)
    decreases |chunks|
  {
    if chunks != [] {
      var before := chunks[..|chunks| - 1];
      RunPlace(before);
      RunDelivers(before);
      ChunkPlace(RunResponses(Fresh, before).0, chunks[|chunks| - 1]);
    }
  }

  // ---- the output ----

  lemma CollectedItems(tools: seq<Tool>, calls: seq<UpCall>)
    requires Collected(tools, calls)
    ensures Finished(tools) == V.CallItems(ToolCalls(calls))
  {
  }

  /** Placing the message elsewhere than first is visible. */
  lemma PlacedFirstIff(msg: Item, calls: seq<Item>, at: int)
    requires msg.MessageItem? && -1 <= at <= |calls| && (at >= 0 <==> msg.text != "")
    requires forall i :: 0 <= i < |calls| ==> calls[i].CallItem?
    ensures A.Placed(msg, calls, at >= 0, if at >= 0 then at else 0) == A.Placed(msg, calls, false, 0) <==> at <= 0
  {
    if at > 0 {
      assert A.Placed(msg, calls, true, at)[0] == calls[0];
      assert A.Placed(msg, calls, false, 0)[0] == msg;
    } else if at == 0 {
      assert calls[..0] == [] && calls[0..] == calls;
      assert [] + [msg] + calls == [msg] + calls;
    }
  }

  lemma TextIsItself(text: string)
    ensures P.JoinTexts(P.Parts(P.Str(text))) == text && !P.HasImage(P.Parts(P.Str(text)))
  {
    var parts := P.Parts(P.Str(text));
    if text != "" {
      assert parts[..0] == [];
      assert P.JoinTexts([]) == "" && "" + text == text;
    }
  }

  /** What the non-streaming converter makes of the response. */
  lemma {:induction false} ConvertedIs(chunks: seq<Chunk>)
    ensures var g := GatherAll(chunks);
            && V.Convertible(Message(chunks))
            && V.Converted(Message(chunks)) ==
               V.ChatResult(g.id, g.model, StatusFromFinish(g.finish),
                            A.Placed(MessageItem(g.id, Text(chunks)), V.CallItems(ToolCalls(Calls(chunks))), false, 0), V.TokensOf(g.usage))
  {
    TextIsItself(Text(chunks));
  }

  /** Token counts tell usages apart, except an absent one from an empty one. */
  lemma TokensTell(a: Option<Tokens>, b: Option<Tokens>)
    requires a.Some?
    ensures V.TokensOf(a) == Some(TerminalTokens(b)) <==> a.value == OrNothing(b)
  {
  }

  /** A terminal event sealed with what was heard against the response: tokens agree exactly when no differing usage came late. */
  lemma SealedAgreesIff(chunks: seq<Chunk>, e: Event)
    requires Seals(e, GatherAll(chunks))
    ensures V.Convertible(Message(chunks))
    ensures var r := V.Converted(Message(chunks));
            && r.id == e.id && r.model == e.model && r.status == e.status
            && ((r.usage.Some? ==> r.usage.value == e.tokens) <==> UsageInTime(chunks))
  {
    ConvertedIs(chunks);
    LateUsageWins(chunks);
    if LateUsage(chunks).Some? {
      TokensTell(LateUsage(chunks), GatherAll(chunks).heard);
    }
  }
}
