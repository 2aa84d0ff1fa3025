/** The Chat Completions stream converter as the object it is: methods that update its fields. */
module ChatConverter {
  import opened Wire
  import opened Folds
  import opened LineFeed
  import opened Assembler
  import opened ChatUpstream
  import opened ChatStream
  import opened ChatLines

  /** Accumulator for one upstream tool_calls index. */
  class StreamTool {
    const blockIndex: int
    const id: string
    const name: string
    var args: string
    var stopped: bool

    constructor (blockIndex: int, id: string, name: string)
      ensures this.blockIndex == blockIndex && this.id == id && this.name == name
      ensures args == "" && !stopped
    {
      this.blockIndex, this.id, this.name, args, stopped := blockIndex, id, name, "", false;
    }

    function View(index: int): Tool
      reads this
    {
      Tool(index, blockIndex, id, name, args, stopped)
    }
  }

  /** The order lists the map's keys once each, each with its own accumulator, and `views` is what they hold. */
  ghost predicate Agree(order: seq<int>, tools: map<int, StreamTool>, owned: set<StreamTool>, views: seq<Tool>)
    reads owned
  {
    && |views| == |order|
    && (forall i :: 0 <= i < |order| ==>
          order[i] in tools && tools[order[i]] in owned && views[i] == tools[order[i]].View(order[i]))
    && (forall i, j :: 0 <= i < j < |order| ==> order[i] != order[j] && tools[order[i]] != tools[order[j]])
    && (forall k :: k in tools ==> k in order)
  }

  lemma AgreeExtended(order: seq<int>, tools: map<int, StreamTool>, owned: set<StreamTool>, views: seq<Tool>, index: int, t: StreamTool)
    requires Agree(order, tools, owned, views) && index !in tools && t !in owned
    ensures Agree(order + [index], tools[index := t], owned + {t}, views + [t.View(index)])
  {
    var order' := order + [index];
    forall k | k in tools[index := t] ensures k in order' {
      if k == index {
        assert order'[|order|] == index;
      } else {
        assert k in order;
      }
    }
  }

  lemma StopEventsNext(tools: seq<Tool>, n: nat)
    requires n < |tools|
    ensures StopEvents(tools[..n + 1]) == StopEvents(tools[..n]) + if tools[n].stopped then [] else [BlockStop(tools[n].blockIndex)]
  {
    assert tools[..n + 1][..n] == tools[..n];
  }

  /** One call of the terminal payload. */
  method AppendTool(oa: OutputAssembler, reserved: bool, msgIndex: int, index: int, t: StreamTool) returns (now: bool)
    modifies oa
    ensures (oa.View(), now) == AssembleTool((old(oa.View()), reserved), msgIndex, t.View(index))
  {
    now := reserved;
    if msgIndex >= 0 && !reserved && t.blockIndex > msgIndex {
      oa.ReserveTextSlot();
      now := true;
    }
    oa.AppendFunctionCall(t.id, t.name, DefaultArgs(t.args));
  }

  class StreamConverter {
    const sourceFormat: string
    const decode: Decoder
    var lineBuf: string
    var done: bool
    var started: bool
    var id: string
    var model: string
    var textOpen: bool
    var textIndex: int
    var nextIndex: int
    var msgIndex: int
    var tools: map<int, StreamTool>
    var toolOrder: seq<int>
    var toolsSeen: bool
    var usage: Option<Tokens>
    var finished: bool
    var heldFinish: string
    var terminalSent: bool
    var flushed: bool
    var respText: string
    ghost var owned: set<StreamTool>
    ghost var views: seq<Tool>

    ghost predicate Valid()
      reads this, owned
    {
      Agree(toolOrder, tools, owned, views)
    }

    ghost function View(): State
      reads this
    {
      State(done, started, id, model, textOpen, textIndex, nextIndex, msgIndex, views, toolsSeen,
            usage, finished, heldFinish, terminalSent, flushed, respText)
    }

    constructor (sourceFormat: string, decode: Decoder)
      ensures Valid() && View() == Fresh && lineBuf == ""
      ensures this.sourceFormat == sourceFormat && this.decode == decode
    {
      this.sourceFormat, this.decode := sourceFormat, decode;
      lineBuf, done, started, id, model := "", false, false, "", "";
      textOpen, textIndex, nextIndex, msgIndex := false, 0, 0, -1;
      tools, toolOrder, toolsSeen := map[], [], false;
      owned, views := {}, [];
      usage, finished, heldFinish, terminalSent, flushed, respText := None, false, "", false, false, "";
    }

    // ---- Messages target ----

    method StopText() returns (events: seq<Event>)
      requires Valid()
      modifies this`textOpen
      ensures Valid() && (View(), events) == ChatStream.StopText(old(View()))
    {
      if !textOpen {
        return [];
      }
      textOpen := false;
      events := [BlockStop(textIndex)];
    }

    method StopTool(n: nat) returns (events: seq<Event>)
      requires Valid() && n < |toolOrder|
      modifies this`views, owned
      ensures Valid() && views == old(views)[n := old(views)[n].(stopped := true)]
      ensures events == if old(views)[n].stopped then [] else [BlockStop(old(views)[n].blockIndex)]
    {
      var t := tools[toolOrder[n]];
      events := [];
      if !t.stopped {
        t.stopped := true;
        events := [BlockStop(t.blockIndex)];
      }
      views := views[n := t.View(toolOrder[n])];
    }

    method StopTools() returns (events: seq<Event>)
      requires Valid()
      modifies this`views, owned
      ensures Valid() && views == StopAll(old(views)) && events == StopEvents(old(views))
    {
      events := [];
      ghost var before := views;
      var n := 0;
      while n < |toolOrder|
        invariant 0 <= n <= |toolOrder| == |before| && Valid()
        invariant forall i :: 0 <= i < n ==> views[i] == before[i].(stopped := true)
        invariant forall i :: n <= i < |before| ==> views[i] == before[i]
        invariant events == StopEvents(before[..n])
      {
        var more := StopTool(n);
        StopEventsNext(before, n);
        events := events + more;
        n := n + 1;
      }
      assert before[..n] == before;
    }

    method StopBlocks() returns (events: seq<Event>)
      requires Valid()
      modifies this, owned
      ensures Valid() && owned == old(owned) && lineBuf == old(lineBuf)
      ensures (View(), events) == ChatStream.StopBlocks(old(View()))
      ensures tools == old(tools) && toolOrder == old(toolOrder)
    {
      var text := StopText();
      ghost var st := View();
      var stops := StopTools();
      assert View() == st.(tools := StopAll(st.tools));
      events := text + stops;
    }

    /** The held message_delta, at most once. */
    method ClaudeTerminal() returns (events: seq<Event>)
      requires Valid()
      modifies this`heldFinish, this`terminalSent
      ensures Valid() && (View(), events) == ChatStream.ClaudeTerminal(old(View()))
    {
      var finish := heldFinish;
      heldFinish := "";
      if finish == "" {
        return [];
      }
      terminalSent := true;
      var reason := TerminalReason(toolsSeen, "tool_use", FinishToClaudeStop(finish));
      var input, output, cacheRead := 0, 0, None;
      if usage.Some? {
        input, output, cacheRead := usage.value.prompt, usage.value.completion, usage.value.cached;
      }
      events := [MessageDelta(reason, ClaudeTokens(ClampSubtract(input, [cacheRead]), output, cacheRead, None))];
    }

    /** A tool index is in the map exactly when it is in the view, at the position it arrived. */
    lemma {:induction false} LookupAgrees(index: int)
      requires Valid()
      ensures var p := Find(views, index);
              && (index in tools <==> p < |toolOrder|)
              && (p < |toolOrder| ==> toolOrder[p] == index && views[p] == tools[index].View(index))
    {
      var p := Find(views, index);
      if p < |toolOrder| {
        assert views[p].index == toolOrder[p];
      } else {
        forall q | 0 <= q < |toolOrder| ensures toolOrder[q] != index {
          assert views[q].index == toolOrder[q];
        }
      }
    }

    /** Enters a new accumulator under its upstream index. */
    method Register(index: int, t: StreamTool)
      requires Valid() && index !in tools && t !in owned
      modifies this`tools, this`toolOrder, this`owned, this`views
      ensures Valid() && owned == old(owned) + {t}
      ensures index in tools && tools[index] == t && views == old(views) + [t.View(index)]
    {
      AgreeExtended(toolOrder, tools, owned, views, index, t);
      views := views + [t.View(index)];
      owned := owned + {t};
      tools := tools[index := t];
      toolOrder := toolOrder + [index];
    }

    method NewTool(tc: ToolDelta) returns (t: StreamTool)
      requires Valid() && tc.index !in tools
      modifies this`tools, this`toolOrder, this`owned, this`views
      ensures Valid() && fresh(owned - old(owned))
      ensures tc.index in tools && tools[tc.index] == t
      ensures t.blockIndex == nextIndex && t.id == tc.id && t.name == tc.name
      ensures views == old(views) + [Tool(tc.index, nextIndex, tc.id, tc.name, "", false)]
    {
      t := new StreamTool(nextIndex, tc.id, tc.name);
      Register(tc.index, t);
    }

    /** A tool index seen for the first time takes the next index. */
    method AddTool(tc: ToolDelta) returns (t: StreamTool)
      requires Valid() && tc.index !in tools
      modifies this`nextIndex, this`toolsSeen, this`tools, this`toolOrder, this`owned, this`views
      ensures Valid() && fresh(owned - old(owned))
      ensures tc.index in tools && tools[tc.index] == t
      ensures t.blockIndex == old(nextIndex) && t.id == tc.id && t.name == tc.name
      ensures View() == ToolStarted(old(View()), tc)
    {
      t := NewTool(tc);
      CountTool();
    }

    method CountTool()
      requires Valid()
      modifies this`nextIndex, this`toolsSeen
      ensures Valid() && View() == old(View()).(nextIndex := old(nextIndex) + 1, toolsSeen := true)
    {
      nextIndex := nextIndex + 1;
      toolsSeen := true;
    }

    method OpenTextBlock() returns (events: seq<Event>)
      requires Valid()
      modifies this, owned
      ensures Valid() && owned == old(owned) && lineBuf == old(lineBuf)
      ensures (View(), events) == OpenText(old(View()))
    {
      events := [];
      if !textOpen {
        events := StopBlocks();
        StartText();
        events := events + [BlockStart(textIndex, TextKind)];
      }
    }

    method StartText()
      requires Valid()
      modifies this`textIndex, this`nextIndex, this`textOpen
      ensures Valid() && View() == old(View()).(textIndex := old(nextIndex), nextIndex := old(nextIndex) + 1, textOpen := true)
    {
      textIndex := nextIndex;
      nextIndex := nextIndex + 1;
      textOpen := true;
    }

    method ClaudeContent(content: string) returns (events: seq<Event>)
      requires Valid()
      modifies this, owned
      ensures Valid() && owned == old(owned) && lineBuf == old(lineBuf)
      ensures (View(), events) == ChatStream.ClaudeContent(old(View()), content)
    {
      events := [];
      if content != "" {
        events := OpenTextBlock();
        events := events + [BlockDelta(textIndex, TextPart(content))];
      }
    }

    method OpenClaudeTool(tc: ToolDelta) returns (t: StreamTool, events: seq<Event>)
      requires Valid()
      modifies this, owned
      ensures Valid() && fresh(owned - old(owned)) && lineBuf == old(lineBuf)
      ensures tc.index in tools && tools[tc.index] == t
      ensures (View(), events) == OpenTool(old(View()), tc)
    {
      LookupAgrees(tc.index);
      events := [];
      if tc.index in tools {
        t := tools[tc.index];
      } else {
        events := StopBlocks();
        t := AddTool(tc);
        events := events + [BlockStart(t.blockIndex, ToolKind(t.id, t.name))];
      }
    }

    method ClaudeToolCall(tc: ToolDelta) returns (events: seq<Event>)
      requires Valid()
      modifies this, owned
      ensures Valid() && fresh(owned - old(owned)) && lineBuf == old(lineBuf)
      ensures (View(), events) == ChatStream.ClaudeTool(old(View()), tc)
    {
      var t: StreamTool;
      t, events := OpenClaudeTool(tc);
      LookupAgrees(tc.index);
      if tc.args != "" {
        events := events + [BlockDelta(t.blockIndex, JsonPart(tc.args))];
      }
    }

    method ClaudeToolCalls(tcs: seq<ToolDelta>) returns (events: seq<Event>)
      requires Valid()
      modifies this, owned
      ensures Valid() && fresh(owned - old(owned)) && lineBuf == old(lineBuf)
      ensures (View(), events) == ChatStream.ClaudeTools(old(View()), tcs)
    {
      events := [];
      var n := 0;
      assert tcs[0..] == tcs && [] + ChatStream.ClaudeTools(View(), tcs).1 == ChatStream.ClaudeTools(View(), tcs).1;
      while n < |tcs|
        invariant 0 <= n <= |tcs|
        invariant Valid() && fresh(owned - old(owned)) && lineBuf == old(lineBuf)
        invariant var rest := ChatStream.ClaudeTools(View(), tcs[n..]);
                  ChatStream.ClaudeTools(old(View()), tcs) == (rest.0, events + rest.1)
      {
        var more := ClaudeToolCall(tcs[n]);
        assert tcs[n..][1..] == tcs[n + 1..];
        Assoc(events, more, ChatStream.ClaudeTools(View(), tcs[n + 1..]).1);
        events := events + more;
        n := n + 1;
      }
      assert events + [] == events;
    }

    method ClaudeFinish(finish: string) returns (events: seq<Event>)
      requires Valid()
      modifies this, owned
      ensures Valid() && owned == old(owned) && lineBuf == old(lineBuf)
      ensures (View(), events) == ChatStream.ClaudeFinish(old(View()), finish)
    {
      events := [];
      if finish != "" && !finished {
        HoldFinish(finish);
        events := StopBlocks();
      }
    }

    method HoldFinish(finish: string)
      requires Valid()
      modifies this`finished, this`heldFinish
      ensures Valid() && View() == old(View()).(finished := true, heldFinish := finish)
    {
      finished := true;
      heldFinish := finish;
    }

    method ClaudeChoice(choice: Choice) returns (events: seq<Event>)
      requires Valid()
      modifies this, owned
      ensures Valid() && fresh(owned - old(owned)) && lineBuf == old(lineBuf)
      ensures (View(), events) == ChatStream.ClaudeChoice(old(View()), choice)
    {
      var text := ClaudeContent(choice.content);
      var calls := ClaudeToolCalls(choice.toolCalls);
      var stops := ClaudeFinish(choice.finish);
      events := text + calls + stops;
    }

    /** Decodes a payload; usage is captured before anything else looks at the chunk. */
    method DecodeChunk(data: string) returns (r: Result<Chunk, Failure>)
      requires Valid()
      modifies this`usage
      ensures Valid() && r == decode(data)
      ensures View() == if r.Ok? then Capture(old(View()), r.value) else old(View())
    {
      r := decode(data);
      if r.Ok? && r.value.usage.Some? {
        usage := r.value.usage;
      }
    }

    method ClaudeLine(line: string) returns (events: seq<Event>, failure: Option<Failure>)
      requires Valid()
      modifies this, owned
      ensures Valid() && fresh(owned - old(owned)) && lineBuf == old(lineBuf)
      ensures Matches(View(), events, failure, SynthesizeLine(decode, ClaudeChunk, ClaudeDone, old(View()), line))
    {
      var payload := SseData(line);
      if payload.None? || payload.value == "" {
        return [], None;
      }
      var data := payload.value;
      if IsSseDone(data) {
        events := ClaudeEnd();
        return events, None;
      }
      var r := DecodeChunk(data);
      if r.Err? {
        return [], Some(r.error);
      }
      events := ClaudeDecoded(r.value);
      failure := None;
    }

    method ClaudeEnd() returns (events: seq<Event>)
      requires Valid()
      modifies this, owned
      ensures Valid() && owned == old(owned) && lineBuf == old(lineBuf)
      ensures (View(), events) == ClaudeDone(old(View()))
    {
      MarkDone();
      var stops := StopBlocks();
      var terminal := ClaudeTerminal();
      events := stops + terminal + [MessageStop];
    }

    method MarkDone()
      requires Valid()
      modifies this`done
      ensures Valid() && View() == old(View()).(done := true)
    {
      done := true;
    }

    /** The part of a chunk after decoding. */
    method ClaudeDecoded(chunk: Chunk) returns (events: seq<Event>)
      requires Valid()
      modifies this, owned
      ensures Valid() && fresh(owned - old(owned)) && lineBuf == old(lineBuf)
      ensures Capture(old(View()), chunk) == old(View()) ==> (View(), events) == ClaudeChunk(old(View()), chunk)
    {
      var terminal := [];
      if heldFinish != "" {
        terminal := ClaudeTerminal();
      }
      var start := ClaudeStarted(chunk);
      if |chunk.choices| == 0 {
        return terminal + start;
      }
      var more := ClaudeChoice(chunk.choices[0]);
      events := terminal + start + more;
    }

    method ClaudeStarted(chunk: Chunk) returns (events: seq<Event>)
      requires Valid()
      modifies this`started
      ensures Valid() && (View(), events) == ClaudeStart(old(View()), chunk)
    {
      events := [];
      if !started && |chunk.choices| > 0 {
        started := true;
        var input := if chunk.usage.Some? then chunk.usage.value.prompt else 0;
        events := [MessageStart(chunk.id, chunk.model, input)];
      }
    }

    // ---- Responses target ----

    method ResponsesContent(content: string) returns (events: seq<Event>)
      requires Valid()
      modifies this
      ensures Valid() && owned == old(owned) && lineBuf == old(lineBuf)
      ensures (View(), events) == RespContent(old(View()), content)
    {
      events := [];
      if content != "" {
        if msgIndex < 0 {
          msgIndex := nextIndex;
          nextIndex := nextIndex + 1;
          events := [ItemAdded(msgIndex, MessageItem(id, ""))];
        }
        respText := respText + content;
        events := events + [TextDelta(id, msgIndex, content)];
      }
    }

    method OpenResponsesTool(tc: ToolDelta) returns (t: StreamTool, events: seq<Event>)
      requires Valid()
      modifies this, owned
      ensures Valid() && fresh(owned - old(owned)) && lineBuf == old(lineBuf)
      ensures tc.index in tools && tools[tc.index] == t
      ensures (View(), events) == RespOpen(old(View()), tc)
    {
      LookupAgrees(tc.index);
      events := [];
      if tc.index in tools {
        t := tools[tc.index];
      } else {
        t := AddTool(tc);
        events := [ItemAdded(t.blockIndex, CallItem(t.id, t.name, ""))];
      }
    }

    method ResponsesToolCall(tc: ToolDelta) returns (events: seq<Event>)
      requires Valid()
      modifies this, owned
      ensures Valid() && fresh(owned - old(owned)) && lineBuf == old(lineBuf)
      ensures (View(), events) == RespTool(old(View()), tc)
    {
      var t: StreamTool;
      t, events := OpenResponsesTool(tc);
      LookupAgrees(tc.index);
      if tc.args != "" {
        WriteArgs(t, tc.index, tc.args);
        events := events + [ArgsDelta(t.id, t.blockIndex, tc.args)];
      }
    }

    /** Appends an argument fragment to one accumulator. */
    method WriteArgs(t: StreamTool, index: int, fragment: string)
      requires Valid() && index in tools && tools[index] == t
      modifies t`args, this`views
      ensures Valid()
      ensures var p := Find(old(views), index);
              p < |old(views)| && views == old(views)[p := old(views)[p].(args := old(views)[p].args + fragment)]
    {
      LookupAgrees(index);
      ghost var p := Find(views, index);
      t.args := t.args + fragment;
      views := views[p := t.View(index)];
    }

    method ResponsesToolCalls(tcs: seq<ToolDelta>) returns (events: seq<Event>)
      requires Valid()
      modifies this, owned
      ensures Valid() && fresh(owned - old(owned)) && lineBuf == old(lineBuf)
      ensures (View(), events) == RespTools(old(View()), tcs)
    {
      events := [];
      var n := 0;
      assert tcs[0..] == tcs && [] + RespTools(View(), tcs).1 == RespTools(View(), tcs).1;
      while n < |tcs|
        invariant 0 <= n <= |tcs|
        invariant Valid() && fresh(owned - old(owned)) && lineBuf == old(lineBuf)
        invariant var rest := RespTools(View(), tcs[n..]);
                  RespTools(old(View()), tcs) == (rest.0, events + rest.1)
      {
        var more := ResponsesToolCall(tcs[n]);
        assert tcs[n..][1..] == tcs[n + 1..];
        Assoc(events, more, RespTools(View(), tcs[n + 1..]).1);
        events := events + more;
        n := n + 1;
      }
      assert events + [] == events;
    }

    method ResponsesChoice(choice: Choice) returns (events: seq<Event>)
      requires Valid()
      modifies this, owned
      ensures Valid() && fresh(owned - old(owned)) && lineBuf == old(lineBuf)
      ensures (View(), events) == RespChoice(old(View()), choice)
    {
      var text := ResponsesContent(choice.content);
      var calls := ResponsesToolCalls(choice.toolCalls);
      if choice.finish != "" && !finished {
        finished := true;
        heldFinish := choice.finish;
      }
      events := text + calls;
    }

    method ResponsesStarted(chunk: Chunk) returns (events: seq<Event>)
      requires Valid()
      modifies this`started, this`id, this`model
      ensures Valid() && (View(), events) == RespStart(old(View()), chunk)
    {
      events := [];
      if !started && |chunk.choices| > 0 {
        started := true;
        id := chunk.id;
        model := chunk.model;
        events := [Created(id)];
      }
    }

    /** The output array of the terminal event: arrival order, the message at its announced index. */
    method TerminalItems() returns (output: seq<Item>)
      requires Valid()
      ensures output == TerminalOutput(View())
    {
      var oa := new OutputAssembler(id);
      var reserved := AppendTools(oa);
      if msgIndex >= 0 && !reserved {
        oa.ReserveTextSlot();
      }
      oa.AddText(respText);
      output := oa.Render();
    }

    lemma ToolsListed()
      requires Valid()
      ensures |toolOrder| == |views|
    {
    }

    lemma ToolAt(n: nat)
      requires Valid() && n < |toolOrder|
      ensures |views| == |toolOrder| && toolOrder[n] in tools && views[n] == tools[toolOrder[n]].View(toolOrder[n])
    {
    }

    /** The loop over the tools; says whether the message slot was reserved on the way. */
    method AppendTools(oa: OutputAssembler) returns (reserved: bool)
      requires Valid() && oa.View() == Empty(id)
      modifies oa
      ensures (oa.View(), reserved) == Assemble(View(), |toolOrder|)
    {
      reserved := false;
      ToolsListed();
      var n := 0;
      while n < |toolOrder|
        invariant 0 <= n <= |toolOrder| == |views| && Valid()
        invariant (oa.View(), reserved) == Assemble(View(), n)
      {
        reserved := AppendToolAt(oa, n, reserved);
        n := n + 1;
      }
    }

    /** The body of the loop. */
    method AppendToolAt(oa: OutputAssembler, n: nat, reserved: bool) returns (now: bool)
      requires Valid() && n < |toolOrder| == |views| && (oa.View(), reserved) == Assemble(View(), n)
      modifies oa
      ensures (oa.View(), now) == Assemble(View(), n + 1)
    {
      ToolAt(n);
      now := AppendTool(oa, reserved, msgIndex, toolOrder[n], tools[toolOrder[n]]);
    }

    /** The held response.completed, at most once. */
    method ResponsesTerminal() returns (events: seq<Event>)
      requires Valid()
      modifies this`heldFinish
      ensures Valid() && (View(), events) == RespTerminal(old(View()))
    {
      var finish := heldFinish;
      if finish == "" {
        return [];
      }
      var output := TerminalItems();
      heldFinish := "";
      var input, out, cached, reasoning := 0, 0, None, None;
      if usage.Some? {
        input, out := usage.value.prompt, usage.value.completion;
        cached, reasoning := usage.value.cached, usage.value.reasoning;
      }
      events := [Completed(id, model, StatusFromFinish(finish), ResponsesTokensFrom(input, out, cached, None, reasoning), output)];
    }

    method ResponsesDecoded(chunk: Chunk) returns (events: seq<Event>)
      requires Valid()
      modifies this, owned
      ensures Valid() && fresh(owned - old(owned)) && lineBuf == old(lineBuf)
      ensures Capture(old(View()), chunk) == old(View()) ==> (View(), events) == RespChunk(old(View()), chunk)
    {
      var terminal := [];
      if heldFinish != "" {
        terminal := ResponsesTerminal();
      }
      var start := ResponsesStarted(chunk);
      if |chunk.choices| == 0 {
        return terminal + start;
      }
      var more := ResponsesChoice(chunk.choices[0]);
      events := terminal + start + more;
    }

    method ResponsesEnd() returns (events: seq<Event>)
      requires Valid()
      modifies this`done, this`heldFinish
      ensures Valid() && (View(), events) == RespDone(old(View()))
    {
      done := true;
      events := ResponsesTerminal();
    }

    method ResponsesLine(line: string) returns (events: seq<Event>, failure: Option<Failure>)
      requires Valid()
      modifies this, owned
      ensures Valid() && fresh(owned - old(owned)) && lineBuf == old(lineBuf)
      ensures Matches(View(), events, failure, SynthesizeLine(decode, RespChunk, RespDone, old(View()), line))
    {
      var payload := SseData(line);
      if payload.None? || payload.value == "" {
        return [], None;
      }
      var data := payload.value;
      if IsSseDone(data) {
        events := ResponsesEnd();
        return events, None;
      }
      var r := DecodeChunk(data);
      if r.Err? {
        return [], Some(r.error);
      }
      events := ResponsesDecoded(r.value);
      failure := None;
    }

    // ---- the public operations ----

    method PassthroughLine(line: string) returns (events: seq<Event>)
      requires Valid()
      modifies this`done
      ensures Valid() && Matches(View(), events, None, PassLine(old(View()), line))
    {
      var payload := SseData(line);
      if payload.None? {
        return [];
      }
      var data := payload.value;
      if IsSseDone(data) {
        done := true;
        return [];
      }
      if data == "" {
        return [];
      }
      events := [Raw(data)];
    }

    method HandleOneLine(line: string) returns (events: seq<Event>, failure: Option<Failure>)
      requires Valid()
      modifies this, owned
      ensures Valid() && fresh(owned - old(owned)) && lineBuf == old(lineBuf)
      ensures Matches(View(), events, failure, HandleLine(sourceFormat, decode, old(View()), line))
      ensures failure.Some? ==> events == []
    {
      if sourceFormat == "openai" {
        events := PassthroughLine(line);
        failure := None;
      } else if sourceFormat == "claude" {
        events, failure := ClaudeLine(line);
      } else if sourceFormat == "openai-response" {
        events, failure := ResponsesLine(line);
      } else {
        return [], Some(Unsupported);
      }
    }

    /** One turn of Feed's loop: the first complete line leaves the buffer and is handled. */
    method FeedLine(events: seq<Event>) returns (all: seq<Event>, failure: Option<Failure>)
      requires Valid() && TakeLine(lineBuf).0 >= 0
      modifies this, owned
      ensures Valid() && fresh(owned - old(owned)) && lineBuf == TakeLine(old(lineBuf)).2
      ensures Then(LineFeed.Feed(old(View()), events, Open), Handler(sourceFormat, decode)(old(View()), TakeLine(old(lineBuf)).1))
           == LineFeed.Feed(View(), all, StatusOf(failure, View()))
    {
      var (_, line, rest) := TakeLine(lineBuf);
      lineBuf := rest;
      var more: seq<Event>;
      more, failure := HandleOneLine(TrimCR(line));
      all := events + more;
    }

    /** One upstream chunk, any split of the byte stream. */
    method Feed(chunk: string) returns (events: seq<Event>, finished: bool, failure: Option<Failure>)
      requires Valid()
      modifies this, owned
      ensures Valid() && fresh(owned - old(owned))
      ensures Outcome(Drain(Handler(sourceFormat, decode), old(View()), Lines(old(lineBuf) + chunk)), View(), events, finished, failure)
      ensures !finished && failure.None? ==> lineBuf == Tail(old(lineBuf) + chunk)
    {
      lineBuf := lineBuf + chunk;
      events := [];
      ghost var h, st, bytes := Handler(sourceFormat, decode), View(), lineBuf;
      HalfwayStart(h, st, lineBuf);
      while true
        invariant Valid() && fresh(owned - old(owned))
        invariant Halfway(h, st, Lines(bytes), Tail(bytes), LineFeed.Feed(View(), events, Open), lineBuf)
        decreases |lineBuf|
      {
        HalfwayLine(h, st, Lines(bytes), Tail(bytes), LineFeed.Feed(View(), events, Open), lineBuf);
        if TakeLine(lineBuf).0 < 0 {
          break;
        }
        var eErr: Option<Failure>;
        events, eErr := FeedLine(events);
        if eErr.Some? {
          return events, false, eErr;
        }
        if done {
          break;
        }
      }
      finished, failure := done, None;
    }

    /** Ends a stream whose upstream closed without [DONE]; later calls emit nothing. */
    method Flush() returns (events: seq<Event>)
      requires Valid()
      modifies this
      ensures Valid() && (View(), events) == (if old(flushed) then (old(View()), []) else Flushed(sourceFormat, old(View())))
    {
      if flushed {
        return [];
      }
      flushed := true;
      if sourceFormat == "claude" {
        events := ClaudeTerminal();
        if events == [] {
          if !terminalSent {
            return [];
          }
          return [MessageStop];
        }
        events := events + [MessageStop];
      } else if sourceFormat == "openai-response" {
        events := ResponsesTerminal();
      } else {
        events := [];
      }
    }
  }

  /** What Feed returns and leaves behind, against the drained lines. */
  predicate Outcome(f: LineFeed.Feed<State, Event, Failure>, st: State, events: seq<Event>, finished: bool, failure: Option<Failure>) {
    && f.state == st && f.events == events
    && failure == (if f.status.Failed? then Some(f.status.error) else None)
    && finished == (failure.None? && st.done)
  }

  function StatusOf(failure: Option<Failure>, st: State): Status<Failure> {
    if failure.Some? then Failed(failure.value) else if st.done then Done else Open
  }

  /** A method's outcome is the handled line. */
  predicate Matches(st: State, events: seq<Event>, failure: Option<Failure>, h: LineFeed.Feed<State, Event, Failure>) {
    h == LineFeed.Feed(st, events, StatusOf(failure, st))
  }
}
