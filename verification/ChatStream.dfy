/**
 * Chat Completions upstream: what one decoded chunk, the [DONE] line and Flush do to the
 * converter's state, and the client events they produce, for the Messages and Responses targets.
 */
module ChatStream {
  import opened Wire
  import opened Folds
  import opened Assembler
  import opened ChatUpstream

  /** One upstream tool_calls index with what was accumulated for it. */
  datatype Tool = Tool(index: int, blockIndex: int, id: string, name: string, args: string, stopped: bool)

  /** Tools are kept in order of first arrival. */
  datatype State = State(
    done: bool, started: bool, id: string, model: string,
    textOpen: bool, textIndex: int, nextIndex: int, msgIndex: int,
    tools: seq<Tool>, toolsSeen: bool,
    usage: Option<Tokens>, finished: bool, heldFinish: string,
    terminalSent: bool, flushed: bool, respText: string)

  /** Position of the tool with the given upstream index, or |tools|. */
  function Find(tools: seq<Tool>, index: int): (p: nat)
    ensures p <= |tools|
    ensures p < |tools| ==> tools[p].index == index
    ensures forall q :: 0 <= q < p ==> tools[q].index != index
    decreases |tools|
  {
    if tools == [] || tools[0].index == index then 0 else
    var p := Find(tools[1..], index);
    assert forall q :: 0 < q < p + 1 ==> tools[q] == tools[1..][q - 1];
    p + 1
  }

  const Fresh := State(
    false, false, "", "", false, 0, 0, -1, [], false, None, false, "", false, false, "")

  /** State and emitted events of one operation. */
  type Out = (State, seq<Event>)

  /** Usage is captured before anything else looks at the chunk. */
  function Capture(st: State, c: Chunk): State {
    if c.usage.Some? then st.(usage := c.usage) else st
  }

  /** A tool index seen for the first time takes the next index. */
  function ToolStarted(st: State, tc: ToolDelta): State {
    st.(nextIndex := st.nextIndex + 1, toolsSeen := true,
        tools := st.tools + [Tool(tc.index, st.nextIndex, tc.id, tc.name, "", false)])
  }

  // ---- Messages target ----

  function ClaudeTerminal(st: State): Out {
    if st.heldFinish == "" then (st, [])
    else
      var reason := TerminalReason(st.toolsSeen, "tool_use", FinishToClaudeStop(st.heldFinish));
      var u := if st.usage.Some? then st.usage.value else Tokens(0, 0, None, None);
      (st.(heldFinish := "", terminalSent := true),
       [MessageDelta(reason, ClaudeTokens(ClampSubtract(u.prompt, [u.cached]), u.completion, u.cached, None))])
  }

  function StopText(st: State): Out {
    if st.textOpen then (st.(textOpen := false), [BlockStop(st.textIndex)]) else (st, [])
  }

  function StopAll(tools: seq<Tool>): seq<Tool> {
    seq(|tools|, i requires 0 <= i < |tools| => tools[i].(stopped := true))
  }

  /** One stop per tool block still open, in order of arrival. */
  function StopEvents(tools: seq<Tool>): seq<Event>
    decreases |tools|
  {
    if tools == [] then [] else
    var t := tools[|tools| - 1];
    StopEvents(tools[..|tools| - 1]) + if t.stopped then [] else [BlockStop(t.blockIndex)]
  }

  function StopBlocks(st: State): Out {
    var a := StopText(st);
    (a.0.(tools := StopAll(a.0.tools)), a.1 + StopEvents(a.0.tools))
  }

  function ClaudeStart(st: State, c: Chunk): Out {
    if !st.started && |c.choices| > 0 then
      (st.(started := true),
       [MessageStart(c.id, c.model, if c.usage.Some? then c.usage.value.prompt else 0)])
    else (st, [])
  }

  function OpenText(st: State): Out {
    if st.textOpen then (st, [])
    else
      var a := StopBlocks(st);
      (a.0.(textIndex := a.0.nextIndex, nextIndex := a.0.nextIndex + 1, textOpen := true),
       a.1 + [BlockStart(a.0.nextIndex, TextKind)])
  }

  function ClaudeContent(st: State, content: string): Out {
    if content == "" then (st, [])
    else
      var a := OpenText(st);
      (a.0, a.1 + [BlockDelta(a.0.textIndex, TextPart(content))])
  }

  function OpenTool(st: State, tc: ToolDelta): Out {
    if Find(st.tools, tc.index) < |st.tools| then (st, [])
    else
      var a := StopBlocks(st);
      (ToolStarted(a.0, tc), a.1 + [BlockStart(a.0.nextIndex, ToolKind(tc.id, tc.name))])
  }

  lemma OpenToolFinds(st: State, tc: ToolDelta)
    ensures Find(OpenTool(st, tc).0.tools, tc.index) < |OpenTool(st, tc).0.tools|
  {
    var p := Find(st.tools, tc.index);
    if p == |st.tools| {
      var tools := OpenTool(st, tc).0.tools;
      assert tools[|tools| - 1].index == tc.index;
    }
  }

  function ClaudeTool(st: State, tc: ToolDelta): Out {
    var a := OpenTool(st, tc);
    OpenToolFinds(st, tc);
    if tc.args == "" then a
    else (a.0, a.1 + [BlockDelta(a.0.tools[Find(a.0.tools, tc.index)].blockIndex, JsonPart(tc.args))])
  }

  function ClaudeTools(st: State, tcs: seq<ToolDelta>): Out
    decreases |tcs|
  {
    if tcs == [] then (st, [])
    else
      var a := ClaudeTool(st, tcs[0]);
      var b := ClaudeTools(a.0, tcs[1..]);
      (b.0, a.1 + b.1)
  }

  function ClaudeFinish(st: State, finish: string): Out {
    if finish != "" && !st.finished then StopBlocks(st.(finished := true, heldFinish := finish)) else (st, [])
  }

  function ClaudeChoice(st: State, c: Choice): Out {
    var a := ClaudeContent(st, c.content);
    var b := ClaudeTools(a.0, c.toolCalls);
    var d := ClaudeFinish(b.0, c.finish);
    (d.0, a.1 + b.1 + d.1)
  }

  /** One decoded chunk. */
  function ClaudeChunk(st: State, c: Chunk): Out {
    var a := ClaudeTerminal(Capture(st, c));
    var b := ClaudeStart(a.0, c);
    if c.choices == [] then (b.0, a.1 + b.1)
    else
      var d := ClaudeChoice(b.0, c.choices[0]);
      (d.0, a.1 + b.1 + d.1)
  }

  /** The [DONE] line. */
  function ClaudeDone(st: State): Out {
    var a := StopBlocks(st.(done := true));
    var b := ClaudeTerminal(a.0);
    (b.0, a.1 + b.1 + [MessageStop])
  }

  /** Upstream closed without [DONE]. */
  function ClaudeFlush(st: State): Out {
    if st.flushed then (st, [])
    else
      var a := ClaudeTerminal(st.(flushed := true));
      if a.1 != [] then (a.0, a.1 + [MessageStop])
      else if a.0.terminalSent then (a.0, [MessageStop])
      else (a.0, [])
  }

  // ---- Responses target ----

  function RespStart(st: State, c: Chunk): Out {
    if !st.started && |c.choices| > 0 then (st.(started := true, id := c.id, model := c.model), [Created(c.id)])
    else (st, [])
  }

  function RespContent(st: State, content: string): Out {
    if content == "" then (st, [])
    else
      var (st1, added) :=
        if st.msgIndex < 0 then
          (st.(msgIndex := st.nextIndex, nextIndex := st.nextIndex + 1),
           [ItemAdded(st.nextIndex, MessageItem(st.id, ""))])
        else (st, []);
      (st1.(respText := st1.respText + content), added + [TextDelta(st1.id, st1.msgIndex, content)])
  }

  function RespOpen(st: State, tc: ToolDelta): Out {
    if Find(st.tools, tc.index) < |st.tools| then (st, [])
    else
      (ToolStarted(st, tc), [ItemAdded(st.nextIndex, CallItem(tc.id, tc.name, ""))])
  }

  lemma RespOpenFinds(st: State, tc: ToolDelta)
    ensures Find(RespOpen(st, tc).0.tools, tc.index) < |RespOpen(st, tc).0.tools|
  {
    var p := Find(st.tools, tc.index);
    if p == |st.tools| {
      var tools := RespOpen(st, tc).0.tools;
      assert tools[|tools| - 1].index == tc.index;
    }
  }

  function RespTool(st: State, tc: ToolDelta): Out {
    var a := RespOpen(st, tc);
    RespOpenFinds(st, tc);
    if tc.args == "" then a
    else
      var p := Find(a.0.tools, tc.index);
      var t := a.0.tools[p];
      (a.0.(tools := a.0.tools[p := t.(args := t.args + tc.args)]),
       a.1 + [ArgsDelta(t.id, t.blockIndex, tc.args)])
  }

  function RespTools(st: State, tcs: seq<ToolDelta>): Out
    decreases |tcs|
  {
    if tcs == [] then (st, [])
    else
      var a := RespTool(st, tcs[0]);
      var b := RespTools(a.0, tcs[1..]);
      (b.0, a.1 + b.1)
  }

  function RespFinish(st: State, finish: string): State {
    if finish != "" && !st.finished then st.(finished := true, heldFinish := finish) else st
  }

  /** One tool: the message slot is reserved right before the first call announced after the message. */
  function AssembleTool(r: (Assembly, bool), msgIndex: int, t: Tool): (Assembly, bool) {
    var here := msgIndex >= 0 && !r.1 && t.blockIndex > msgIndex;
    ((if here then r.0.Reserve() else r.0).AppendCall(t.id, t.name, DefaultArgs(t.args)), r.1 || here)
  }

  /** Where the loop over tools stands after `n` of them: the assembly, and whether the slot was reserved. */
  function Assemble(st: State, n: nat): (r: (Assembly, bool))
    requires n <= |st.tools|
    ensures r.0.Valid()
  {
    if n == 0 then (Empty(st.id), false) else AssembleTool(Assemble(st, n - 1), st.msgIndex, st.tools[n - 1])
  }

  /** Calls in arrival order, the message slot pinned at its announced index. */
  function TerminalOutput(st: State): seq<Item> {
    var (a, reserved) := Assemble(st, |st.tools|);
    (if st.msgIndex >= 0 && !reserved then a.Reserve() else a).AddText(st.respText).Output()
  }

  function TerminalTokens(usage: Option<Tokens>): ResponsesTokens {
    var u := if usage.Some? then usage.value else Tokens(0, 0, None, None);
    ResponsesTokensFrom(u.prompt, u.completion, u.cached, None, u.reasoning)
  }

  function RespTerminal(st: State): Out
  {
    if st.heldFinish == "" then (st, [])
    else
      (st.(heldFinish := ""),
       [Completed(st.id, st.model, StatusFromFinish(st.heldFinish), TerminalTokens(st.usage), TerminalOutput(st))])
  }

  function RespChoice(st: State, c: Choice): Out {
    var a := RespContent(st, c.content);
    var b := RespTools(a.0, c.toolCalls);
    (RespFinish(b.0, c.finish), a.1 + b.1)
  }

  function RespChunk(st: State, c: Chunk): Out
  {
    var a := RespTerminal(Capture(st, c));
    var b := RespStart(a.0, c);
    if c.choices == [] then (b.0, a.1 + b.1)
    else
      var d := RespChoice(b.0, c.choices[0]);
      (d.0, a.1 + b.1 + d.1)
  }

  function RespDone(st: State): Out
  {
    RespTerminal(st.(done := true))
  }

  function RespFlush(st: State): Out
  {
    if st.flushed then (st, []) else RespTerminal(st.(flushed := true))
  }
}
