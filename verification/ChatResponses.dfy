/**
 * Chat Completions to Responses, over whole runs: the terminal payload is what the client was
 * streamed, there is one exactly when the upstream finished, and nothing is lost.
 */
module ChatResponses {
  import opened Wire
  import opened Folds
  import opened Clients
  import A = Assembler
  import opened ChatUpstream
  import opened ChatStream
  import opened ChatClaude

  function RunResponses(st: State, chunks: seq<Chunk>): Out
    decreases |chunks|
  {
    if chunks == [] then (st, [])
    else
      var a := RunResponses(st, chunks[..|chunks| - 1]);
      var b := RespChunk(a.0, chunks[|chunks| - 1]);
      (b.0, a.1 + b.1)
  }

  function EndResponses(st: State, ending: Ending): Out {
    if ending.ByDone? then RespDone(st) else RespFlush(st)
  }

  /** Everything a Responses client receives. */
  function Streamed(chunks: seq<Chunk>, ending: Ending): seq<Event> {
    var a := RunResponses(Fresh, chunks);
    a.1 + EndResponses(a.0, ending).1
  }

  // ---- the invariant ----

  /** Output index of the j-th tool: one further once the message has taken its place. */
  function Slot(msgIndex: int, j: nat): int {
    if 0 <= msgIndex <= j then j + 1 else j
  }

  predicate Numbered(tools: seq<Tool>, nextIndex: int, msgIndex: int) {
    && -1 <= msgIndex <= |tools|
    && nextIndex == |tools| + (if msgIndex >= 0 then 1 else 0)
    && forall j :: 0 <= j < |tools| ==> tools[j].blockIndex == Slot(msgIndex, j)
  }

  /** The client's items are the converter's accumulators. */
  predicate Mirrored(tools: seq<Tool>, msgIndex: int, id: string, text: string, items: seq<Item>) {
    && Numbered(tools, |items|, msgIndex)
    && (forall j :: 0 <= j < |tools| ==>
          items[Slot(msgIndex, j)] == CallItem(tools[j].id, tools[j].name, tools[j].args))
    && (if msgIndex >= 0 then items[msgIndex] == MessageItem(id, text) else text == "")
  }

  /** The converter's accumulators are what the upstream said. */
  predicate Collected(tools: seq<Tool>, calls: seq<UpCall>) {
    && |calls| == |tools|
    && forall j :: 0 <= j < |calls| ==>
         && calls[j].index == tools[j].index && calls[j].id == tools[j].id
         && calls[j].name == tools[j].name && calls[j].args == tools[j].args
  }

  predicate Stages(st: State) {
    && (st.heldFinish != "" ==> st.finished)
    && (st.finished ==> st.started)
    && (!st.started ==> st.nextIndex == 0)
  }

  predicate InStep(st: State, c: Items, calls: seq<UpCall>, text: string) {
    && c.ok && c.created == st.started
    && |c.items| == st.nextIndex
    && Mirrored(st.tools, st.msgIndex, st.id, st.respText, c.items)
    && Collected(st.tools, calls)
    && st.respText == text
    && Stages(st)
  }

  /** Terminals already sent. */
  function Sent(st: State): nat {
    if st.finished && st.heldFinish == "" then 1 else 0
  }

  predicate Delivers(st: State, c: Items, out: Out, calls: seq<UpCall>, text: string) {
    && InStep(out.0, Receive(c, out.1), calls, text)
    && Truthful(c, out.1)
    && Sent(st) + Terminals(out.1) == Sent(out.0)
  }

  lemma DeliversThen(st: State, c: Items, a: Out, b: Out, mid: seq<UpCall>, t: string, calls: seq<UpCall>, text: string)
    requires Delivers(st, c, a, mid, t)
    requires Delivers(a.0, Receive(c, a.1), b, calls, text)
    ensures Delivers(st, c, (b.0, a.1 + b.1), calls, text)
  {
    FoldAppend(ItemsStep, c, a.1, b.1);
    TruthfulAppend(c, a.1, b.1);
    TerminalsAppend(a.1, b.1);
  }

  lemma DeliversNothing(st: State, c: Items, st': State, calls: seq<UpCall>, text: string)
    requires InStep(st', c, calls, text) && Sent(st) == Sent(st')
    ensures Delivers(st, c, (st', []), calls, text)
  {
  }

  lemma DeliversOne(st: State, c: Items, e: Event, st': State, calls: seq<UpCall>, text: string)
    requires !e.Completed? && InStep(st', ItemsStep(c, e), calls, text) && Sent(st) == Sent(st')
    ensures Delivers(st, c, (st', [e]), calls, text)
  {
    FoldOne(ItemsStep, c, e);
    assert [e][1..] == [];
    assert Terminals([e]) == Terminals([e][1..]) == 0;
    assert Truthful(c, [e]);
  }

  // ---- text ----

  lemma AnnounceMessage(st: State, c: Items, calls: seq<UpCall>, text: string)
    requires InStep(st, c, calls, text) && st.started && st.msgIndex < 0
    ensures Delivers(st, c, (st.(msgIndex := st.nextIndex, nextIndex := st.nextIndex + 1),
                             [ItemAdded(st.nextIndex, MessageItem(st.id, ""))]), calls, text)
  {
    var st' := st.(msgIndex := st.nextIndex, nextIndex := st.nextIndex + 1);
    var items' := c.items + [MessageItem(st.id, "")];
    assert forall j :: 0 <= j < |st.tools| ==> Slot(st'.msgIndex, j) == j == Slot(st.msgIndex, j);
    assert Mirrored(st'.tools, st'.msgIndex, st'.id, st'.respText, items');
    DeliversOne(st, c, ItemAdded(st.nextIndex, MessageItem(st.id, "")), st', calls, text);
  }

  lemma SendText(st: State, c: Items, calls: seq<UpCall>, text: string, content: string)
    requires InStep(st, c, calls, text) && st.started && st.msgIndex >= 0
    ensures Delivers(st, c, (st.(respText := st.respText + content), [TextDelta(st.id, st.msgIndex, content)]),
                     calls, text + content)
  {
    var st' := st.(respText := st.respText + content);
    var items' := c.items[st.msgIndex := c.items[st.msgIndex].(text := c.items[st.msgIndex].text + content)];
    assert forall j :: 0 <= j < |st.tools| ==> Slot(st.msgIndex, j) != st.msgIndex;
    assert Mirrored(st'.tools, st'.msgIndex, st'.id, st'.respText, items');
    DeliversOne(st, c, TextDelta(st.id, st.msgIndex, content), st', calls, text + content);
  }

  lemma ContentDelivers(st: State, c: Items, calls: seq<UpCall>, text: string, content: string)
    requires InStep(st, c, calls, text) && st.started
    ensures Delivers(st, c, RespContent(st, content), calls, text + content)
  {
    if content == "" {
      assert text + content == text;
      DeliversNothing(st, c, st, calls, text);
    } else if st.msgIndex < 0 {
      var a: Out := (st.(msgIndex := st.nextIndex, nextIndex := st.nextIndex + 1),
                     [ItemAdded(st.nextIndex, MessageItem(st.id, ""))]);
      AnnounceMessage(st, c, calls, text);
      SendText(a.0, Receive(c, a.1), calls, text, content);
      DeliversThen(st, c, a, (a.0.(respText := a.0.respText + content), [TextDelta(a.0.id, a.0.msgIndex, content)]),
                   calls, text, calls, text + content);
    } else {
      SendText(st, c, calls, text, content);
      assert [] + [TextDelta(st.id, st.msgIndex, content)] == [TextDelta(st.id, st.msgIndex, content)];
    }
  }

  // ---- tools ----

  lemma AnnounceCall(st: State, c: Items, calls: seq<UpCall>, text: string, tc: ToolDelta)
    requires InStep(st, c, calls, text) && st.started && Find(st.tools, tc.index) == |st.tools|
    ensures Delivers(st, c, RespOpen(st, tc), calls + [UpCall(tc.index, tc.id, tc.name, "")], text)
  {
    var st' := RespOpen(st, tc).0;
    var items' := c.items + [CallItem(tc.id, tc.name, "")];
    assert st.nextIndex == Slot(st.msgIndex, |st.tools|);
    assert forall j :: 0 <= j < |st.tools| ==> st'.tools[j] == st.tools[j];
    assert Mirrored(st'.tools, st'.msgIndex, st'.id, st'.respText, items');
    DeliversOne(st, c, ItemAdded(st.nextIndex, CallItem(tc.id, tc.name, "")), st',
                calls + [UpCall(tc.index, tc.id, tc.name, "")], text);
  }

  lemma SendArgs(st: State, c: Items, calls: seq<UpCall>, text: string, p: nat, more: string)
    requires InStep(st, c, calls, text) && p < |st.tools|
    ensures var t := st.tools[p];
            Delivers(st, c, (st.(tools := st.tools[p := t.(args := t.args + more)]), [ArgsDelta(t.id, t.blockIndex, more)]),
                     calls[p := calls[p].(args := calls[p].args + more)], text)
  {
    var t := st.tools[p];
    var st' := st.(tools := st.tools[p := t.(args := t.args + more)]);
    var i := Slot(st.msgIndex, p);
    var items' := c.items[i := c.items[i].(args := c.items[i].args + more)];
    assert forall j :: 0 <= j < |st.tools| && j != p ==> Slot(st.msgIndex, j) != i;
    assert Mirrored(st'.tools, st'.msgIndex, st'.id, st'.respText, items');
    DeliversOne(st, c, ArgsDelta(t.id, t.blockIndex, more), st',
                calls[p := calls[p].(args := calls[p].args + more)], text);
  }

  lemma FindOpened(st: State, tc: ToolDelta)
    ensures Find(RespOpen(st, tc).0.tools, tc.index) == Find(st.tools, tc.index) < |RespOpen(st, tc).0.tools|
  {
    RespOpenFinds(st, tc);
    var t := RespOpen(st, tc).0.tools;
    if Find(st.tools, tc.index) == |st.tools| {
      assert t[|st.tools|].index == tc.index;
      assert forall i :: 0 <= i < |st.tools| ==> t[i].index == st.tools[i].index;
      var q := Find(t, tc.index);
    }
  }

  lemma {:induction false} AddDeltaInStep(tools: seq<Tool>, calls: seq<UpCall>, tc: ToolDelta)
    requires Collected(tools, calls)
    ensures var p := Find(tools, tc.index);
            var c1 := if p == |calls| then calls + [UpCall(tc.index, tc.id, tc.name, "")] else calls;
            AddDelta(calls, tc) == c1[p := c1[p].(args := c1[p].args + tc.args)] && (tc.args == "" ==> AddDelta(calls, tc) == c1)
  {
    var p := Find(tools, tc.index);
    assert forall i :: 0 <= i < p ==> calls[i].index == tools[i].index;
    AddDeltaAt(calls, tc, p);
    var c1 := if p == |calls| then calls + [UpCall(tc.index, tc.id, tc.name, "")] else calls;
    assert "" + tc.args == tc.args;
    assert tc.args == "" ==> c1[p].args + tc.args == c1[p].args && c1[p := c1[p]] == c1;
  }

  lemma {:induction false} ToolDelivers(st: State, c: Items, calls: seq<UpCall>, text: string, tc: ToolDelta)
    requires InStep(st, c, calls, text) && st.started
    ensures Delivers(st, c, RespTool(st, tc), AddDelta(calls, tc), text)
  {
    var a, p := RespOpen(st, tc), Find(st.tools, tc.index);
    var c1 := if p == |calls| then calls + [UpCall(tc.index, tc.id, tc.name, "")] else calls;
    AddDeltaInStep(st.tools, calls, tc);
    FindOpened(st, tc);
    if p == |st.tools| {
      AnnounceCall(st, c, calls, text, tc);
    } else {
      DeliversNothing(st, c, st, calls, text);
    }
    assert Delivers(st, c, a, c1, text);
    if tc.args != "" {
      var t := a.0.tools[p];
      SendArgs(a.0, Receive(c, a.1), c1, text, p, tc.args);
      DeliversThen(st, c, a, (a.0.(tools := a.0.tools[p := t.(args := t.args + tc.args)]), [ArgsDelta(t.id, t.blockIndex, tc.args)]),
                   c1, text, AddDelta(calls, tc), text);
    }
  }

  lemma OpenKeepsStarted(st: State, tc: ToolDelta)
    ensures RespTool(st, tc).0.started == st.started
  {
  }

  lemma {:induction false} ToolsDeliver(st: State, c: Items, calls: seq<UpCall>, text: string, tcs: seq<ToolDelta>)
    requires InStep(st, c, calls, text) && st.started
    ensures Delivers(st, c, RespTools(st, tcs), AddDeltas(calls, tcs), text) && RespTools(st, tcs).0.started
    decreases |tcs|
  {
    if tcs == [] {
      DeliversNothing(st, c, st, calls, text);
    } else {
      var a := RespTool(st, tcs[0]);
      ToolDelivers(st, c, calls, text, tcs[0]);
      OpenKeepsStarted(st, tcs[0]);
      ToolsDeliver(a.0, Receive(c, a.1), AddDelta(calls, tcs[0]), text, tcs[1..]);
      DeliversThen(st, c, a, RespTools(a.0, tcs[1..]), AddDelta(calls, tcs[0]), text, AddDeltas(calls, tcs), text);
    }
  }

  // ---- the terminal payload ----

  function Finished(tools: seq<Tool>): seq<Item> {
    seq(|tools|, j requires 0 <= j < |tools| => CallItem(tools[j].id, tools[j].name, DefaultArgs(tools[j].args)))
  }

  lemma HoldsAppend(a: A.Assembly, calls: seq<Item>, callId: string, name: string, args: string)
    requires A.Holds(a, calls)
    ensures A.Holds(a.AppendCall(callId, name, args), calls + [CallItem(callId, name, args)])
  {
  }

  lemma HoldsReserve(a: A.Assembly, calls: seq<Item>)
    requires A.Holds(a, calls) && a.textSlot < 0
    ensures A.Holds(a.Reserve(), calls) && a.Reserve().textSlot == |calls|
  {
  }

  predicate Assembled(r: (A.Assembly, bool), id: string, calls: seq<Item>, msgIndex: int) {
    && A.Holds(r.0, calls)
    && r.0.messageId == id && r.0.text == ""
    && r.1 == (0 <= msgIndex < |calls|)
    && r.0.textSlot == if r.1 then msgIndex else -1
  }

  lemma AssembledStep(r: (A.Assembly, bool), id: string, calls: seq<Item>, msgIndex: int, t: Tool)
    requires Assembled(r, id, calls, msgIndex) && t.blockIndex == Slot(msgIndex, |calls|) && msgIndex >= -1
    ensures Assembled(AssembleTool(r, msgIndex, t), id, calls + [CallItem(t.id, t.name, DefaultArgs(t.args))], msgIndex)
  {
    var here := msgIndex >= 0 && !r.1 && t.blockIndex > msgIndex;
    assert here == (msgIndex == |calls|);
    if here {
      HoldsReserve(r.0, calls);
    }
    HoldsAppend(if here then r.0.Reserve() else r.0, calls, t.id, t.name, DefaultArgs(t.args));
  }

  lemma FinishedSnoc(tools: seq<Tool>, n: nat)
    requires 0 < n <= |tools|
    ensures var t := tools[n - 1];
            Finished(tools[..n]) == Finished(tools[..n - 1]) + [CallItem(t.id, t.name, DefaultArgs(t.args))]
  {
  }

  lemma {:induction false} AssembleHolds(st: State, n: nat)
    requires n <= |st.tools| && Numbered(st.tools, st.nextIndex, st.msgIndex)
    ensures Assembled(Assemble(st, n), st.id, Finished(st.tools[..n]), st.msgIndex)
    decreases n
  {
    if n > 0 {
      AssembleHolds(st, n - 1);
      FinishedSnoc(st.tools, n);
      AssembledStep(Assemble(st, n - 1), st.id, Finished(st.tools[..n - 1]), st.msgIndex, st.tools[n - 1]);
    }
  }

  /** The finished items, with the message at its slot. */
  lemma MirroredPlaced(tools: seq<Tool>, msgIndex: int, id: string, text: string, items: seq<Item>)
    requires Mirrored(tools, msgIndex, id, text, items)
    ensures FinishItems(items) == A.Placed(MessageItem(id, text), Finished(tools), msgIndex >= 0, if msgIndex >= 0 then msgIndex else 0)
  {
    var want := A.Placed(MessageItem(id, text), Finished(tools), msgIndex >= 0, if msgIndex >= 0 then msgIndex else 0);
    forall i | 0 <= i < |items| ensures FinishItem(items[i]) == want[i] {
      if i != msgIndex {
        var j := if 0 <= msgIndex < i then i - 1 else i;
        assert i == Slot(msgIndex, j);
        assert items[i] == CallItem(tools[j].id, tools[j].name, tools[j].args);
      }
    }
  }

  lemma TerminalOutputMirrors(st: State, items: seq<Item>)
    requires Mirrored(st.tools, st.msgIndex, st.id, st.respText, items) && st.nextIndex == |items|
    ensures TerminalOutput(st) == FinishItems(items)
  {
    AssembleHolds(st, |st.tools|);
    assert st.tools[..|st.tools|] == st.tools;
    var (a, reserved) := Assemble(st, |st.tools|);
    var calls := Finished(st.tools);
    if st.msgIndex >= 0 && !reserved {
      HoldsReserve(a, calls);
    }
    var b := (if st.msgIndex >= 0 && !reserved then a.Reserve() else a).AddText(st.respText);
    assert "" + st.respText == st.respText;
    assert A.Holds(b, calls) && b.textSlot == st.msgIndex;
    A.OutputIsPlaced(b, calls);
    MirroredPlaced(st.tools, st.msgIndex, st.id, st.respText, items);
  }

  lemma TerminalDelivers(st: State, c: Items, calls: seq<UpCall>, text: string)
    requires InStep(st, c, calls, text)
    ensures Delivers(st, c, RespTerminal(st), calls, text) && RespTerminal(st).0.heldFinish == ""
  {
    if st.heldFinish == "" {
      DeliversNothing(st, c, st, calls, text);
    } else {
      TerminalOutputMirrors(st, c.items);
      var a := RespTerminal(st);
      FoldOne(ItemsStep, c, a.1[0]);
      assert a.1 == [a.1[0]] && a.1[1..] == [];
      assert Terminals(a.1) == 1 + Terminals(a.1[1..]) == 1;
      assert Truthful(c, a.1);
    }
  }

  lemma StartDelivers(st: State, c: Items, calls: seq<UpCall>, text: string, ch: Chunk)
    requires InStep(st, c, calls, text)
    ensures Delivers(st, c, RespStart(st, ch), calls, text)
    ensures ch.choices != [] ==> RespStart(st, ch).0.started
  {
    if !st.started && |ch.choices| > 0 {
      assert st.tools == [] && st.msgIndex == -1;
      DeliversOne(st, c, Created(ch.id), RespStart(st, ch).0, calls, text);
    } else {
      DeliversNothing(st, c, st, calls, text);
    }
  }

  lemma HeadDelivers(st: State, c: Items, calls: seq<UpCall>, text: string, ch: Chunk)
    requires InStep(st, c, calls, text)
    ensures var a := RespTerminal(st);
            var b := RespStart(a.0, ch);
            Delivers(st, c, (b.0, a.1 + b.1), calls, text) && (ch.choices != [] ==> b.0.started)
  {
    var a := RespTerminal(st);
    TerminalDelivers(st, c, calls, text);
    StartDelivers(a.0, Receive(c, a.1), calls, text, ch);
    DeliversThen(st, c, a, RespStart(a.0, ch), calls, text, calls, text);
  }

  lemma {:induction false} ChoiceDelivers(st: State, c: Items, calls: seq<UpCall>, text: string, ch: Choice)
    requires InStep(st, c, calls, text) && st.started && (st.finished ==> st.heldFinish == "")
    ensures Delivers(st, c, RespChoice(st, ch), AddDeltas(calls, ch.toolCalls), text + ch.content)
  {
    var a := RespContent(st, ch.content);
    ContentDelivers(st, c, calls, text, ch.content);
    var b := RespTools(a.0, ch.toolCalls);
    var calls', text' := AddDeltas(calls, ch.toolCalls), text + ch.content;
    ToolsDeliver(a.0, Receive(c, a.1), calls, text', ch.toolCalls);
    DeliversThen(st, c, a, b, calls, text', calls', text');
    assert InStep(RespFinish(b.0, ch.finish), Receive(c, a.1 + b.1), calls', text');
  }

  lemma ReadDelivers(st: State, c: Items, calls: seq<UpCall>, text: string, ch: Chunk)
    requires InStep(st, c, calls, text)
    ensures var a := RespTerminal(st);
            var b := RespStart(a.0, ch);
            ch.choices != [] ==>
              var d := RespChoice(b.0, ch.choices[0]);
              Delivers(st, c, (d.0, a.1 + b.1 + d.1), ChunkCalls(calls, ch), text + ChunkText(ch))
  {
    if ch.choices != [] {
      var a := RespTerminal(st);
      TerminalDelivers(st, c, calls, text);
      var b := RespStart(a.0, ch);
      HeadDelivers(st, c, calls, text, ch);
      var out: Out := (b.0, a.1 + b.1);
      ChoiceDelivers(b.0, Receive(c, out.1), calls, text, ch.choices[0]);
      DeliversThen(st, c, out, RespChoice(b.0, ch.choices[0]), calls, text, ChunkCalls(calls, ch), text + ChunkText(ch));
    }
  }

  lemma ChunkDelivers(st: State, c: Items, calls: seq<UpCall>, text: string, ch: Chunk)
    requires InStep(st, c, calls, text)
    ensures Delivers(st, c, RespChunk(st, ch), ChunkCalls(calls, ch), text + ChunkText(ch))
  {
    var st0 := Capture(st, ch);
    assert InStep(st0, c, calls, text) && Sent(st0) == Sent(st);
    HeadDelivers(st0, c, calls, text, ch);
    ReadDelivers(st0, c, calls, text, ch);
    assert text + "" == text;
  }

  lemma {:induction false} RunDelivers(chunks: seq<Chunk>)
    ensures Delivers(Fresh, NoItems, RunResponses(Fresh, chunks), Calls(chunks), Text(chunks))
    decreases |chunks|
  {
    if chunks == [] {
      DeliversNothing(Fresh, NoItems, Fresh, [], "");
    } else {
      var before, ch := chunks[..|chunks| - 1], chunks[|chunks| - 1];
      var a := RunResponses(Fresh, before);
      RunDelivers(before);
      ChunkDelivers(a.0, Receive(NoItems, a.1), Calls(before), Text(before), ch);
      DeliversThen(Fresh, NoItems, a, RespChunk(a.0, ch), Calls(before), Text(before), Calls(chunks), Text(chunks));
    }
  }

  // ---- the run as a whole ----

  lemma EndDelivers(st: State, c: Items, ending: Ending, calls: seq<UpCall>, text: string)
    requires InStep(st, c, calls, text) && !st.flushed
    ensures var out := EndResponses(st, ending);
            Delivers(st, c, out, calls, text) && out.0.heldFinish == "" && out.0.finished == st.finished
  {
    var st0 := if ending.ByDone? then st.(done := true) else st.(flushed := true);
    assert InStep(st0, c, calls, text) && Sent(st0) == Sent(st);
    TerminalDelivers(st0, c, calls, text);
  }

  lemma ToolKeepsStage(st: State, tc: ToolDelta)
    ensures var st' := RespTool(st, tc).0;
            st'.finished == st.finished && st'.flushed == st.flushed && st'.heldFinish == st.heldFinish
  {
    var a := RespOpen(st, tc).0;
    assert a.finished == st.finished && a.flushed == st.flushed && a.heldFinish == st.heldFinish;
    RespOpenFinds(st, tc);
    if tc.args != "" {
      var p := Find(a.tools, tc.index);
      assert RespTool(st, tc).0 == a.(tools := a.tools[p := a.tools[p].(args := a.tools[p].args + tc.args)]);
    }
  }

  lemma {:induction false} ToolsKeepStage(st: State, tcs: seq<ToolDelta>)
    ensures var st' := RespTools(st, tcs).0;
            st'.finished == st.finished && st'.flushed == st.flushed && st'.heldFinish == st.heldFinish
    decreases |tcs|
  {
    if tcs != [] {
      ToolKeepsStage(st, tcs[0]);
      ToolsKeepStage(RespTool(st, tcs[0]).0, tcs[1..]);
    }
  }

  lemma ChoiceStage(st: State, ch: Choice)
    ensures var st' := RespChoice(st, ch).0;
            && st'.finished == (st.finished || ch.finish != "") && st'.flushed == st.flushed
            && (!st.finished && ch.finish != "" ==> st'.heldFinish != "")
  {
    ToolsKeepStage(RespContent(st, ch.content).0, ch.toolCalls);
  }

  lemma HeadStage(st: State, ch: Chunk)
    ensures var b := RespStart(RespTerminal(Capture(st, ch)).0, ch).0;
            b.finished == st.finished && b.flushed == st.flushed
  {
    var a := RespTerminal(Capture(st, ch)).0;
    assert a.finished == st.finished && a.flushed == st.flushed;
  }

  lemma ChunkStage(st: State, ch: Chunk)
    ensures var st' := RespChunk(st, ch).0; st'.finished == (st.finished || Finishes(ch)) && st'.flushed == st.flushed
  {
    HeadStage(st, ch);
    if ch.choices != [] {
      ChoiceStage(RespStart(RespTerminal(Capture(st, ch)).0, ch).0, ch.choices[0]);
    }
  }

  lemma {:induction false} RunStage(chunks: seq<Chunk>)
    ensures var st := RunResponses(Fresh, chunks).0; st.finished == HasFinish(chunks) && !st.flushed
    decreases |chunks|
  {
    if chunks != [] {
      var before, n := chunks[..|chunks| - 1], |chunks| - 1;
      RunStage(before);
      ChunkStage(RunResponses(Fresh, before).0, chunks[n]);
      HasFinishLast(chunks);
    }
  }

  lemma {:induction false} StreamDelivers(chunks: seq<Chunk>, ending: Ending)
    ensures var a := RunResponses(Fresh, chunks);
            var b := EndResponses(a.0, ending);
            && Delivers(Fresh, NoItems, (b.0, a.1 + b.1), Calls(chunks), Text(chunks))
            && b.0.heldFinish == "" && b.0.finished == HasFinish(chunks)
  {
    var a := RunResponses(Fresh, chunks);
    RunDelivers(chunks);
    RunStage(chunks);
    EndDelivers(a.0, Receive(NoItems, a.1), ending, Calls(chunks), Text(chunks));
    DeliversThen(Fresh, NoItems, a, EndResponses(a.0, ending), Calls(chunks), Text(chunks), Calls(chunks), Text(chunks));
  }

  /** Every event names an announced item by its position and id; items are announced 0, 1, 2, ... */
  lemma ClientKeepsUp(chunks: seq<Chunk>, ending: Ending)
    ensures Receive(NoItems, Streamed(chunks, ending)).ok
  {
    StreamDelivers(chunks, ending);
  }

  /** response.completed is sent exactly once when a finish reason arrived, and never otherwise. */
  lemma OneTerminalPerFinish(chunks: seq<Chunk>, ending: Ending)
    ensures Terminals(Streamed(chunks, ending)) == if HasFinish(chunks) then 1 else 0
  {
    StreamDelivers(chunks, ending);
  }

  /**
   * Whenever response.completed arrives, its output is item for item what the client has been
   * streamed up to then: announced position, id, name, concatenated text, and the concatenated
   * arguments with the absent-arguments default.
   */
  lemma TerminalIsWhatWasStreamed(chunks: seq<Chunk>, ending: Ending, p: nat)
    requires p < |Streamed(chunks, ending)| && Streamed(chunks, ending)[p].Completed?
    ensures Streamed(chunks, ending)[p].output == FinishItems(Receive(NoItems, Streamed(chunks, ending)[..p]).items)
  {
    StreamDelivers(chunks, ending);
    TruthfulAt(NoItems, Streamed(chunks, ending), p);
  }

  // ---- nothing lost ----

  lemma {:induction false} ItemsTextAppend(a: seq<Item>, b: seq<Item>)
    ensures ItemsText(a + b) == ItemsText(a) + ItemsText(b)
    decreases |a|
  {
    if a == [] {
      assert a + b == b;
    } else {
      assert (a + b)[1..] == a[1..] + b;
      ItemsTextAppend(a[1..], b);
      Assoc(if a[0].MessageItem? then a[0].text else "", ItemsText(a[1..]), ItemsText(b));
    }
  }

  lemma {:induction false} ItemsCallsAppend(a: seq<Item>, b: seq<Item>)
    ensures ItemsCalls(a + b) == ItemsCalls(a) + ItemsCalls(b)
    decreases |a|
  {
    if a == [] {
      assert a + b == b;
    } else {
      assert (a + b)[1..] == a[1..] + b;
      ItemsCallsAppend(a[1..], b);
      Assoc(if a[0].CallItem? then [Call(a[0].callId, a[0].name, a[0].args)] else [], ItemsCalls(a[1..]), ItemsCalls(b));
    }
  }

  /** The tool accumulators as unfinished items. */
  function Pending(tools: seq<Tool>): seq<Item> {
    seq(|tools|, j requires 0 <= j < |tools| => CallItem(tools[j].id, tools[j].name, tools[j].args))
  }

  lemma {:induction false} PendingCalls(tools: seq<Tool>, calls: seq<UpCall>)
    requires Collected(tools, calls)
    ensures ItemsText(Pending(tools)) == "" && ItemsCalls(Pending(tools)) == Seen(calls)
    decreases |tools|
  {
    if tools != [] {
      assert Pending(tools)[1..] == Pending(tools[1..]);
      PendingCalls(tools[1..], calls[1..]);
      assert Seen(calls)[1..] == Seen(calls[1..]);
    }
  }

  /** The message stands between the calls announced before and after it. */
  lemma MirroredSplits(tools: seq<Tool>, msgIndex: int, id: string, text: string, items: seq<Item>)
    requires Mirrored(tools, msgIndex, id, text, items)
    ensures var all := Pending(tools);
            items == if msgIndex < 0 then all else all[..msgIndex] + [MessageItem(id, text)] + all[msgIndex..]
  {
    var all := Pending(tools);
    var want := if msgIndex < 0 then all else all[..msgIndex] + [MessageItem(id, text)] + all[msgIndex..];
    forall i | 0 <= i < |items| ensures items[i] == want[i] {
      if i != msgIndex {
        assert i == Slot(msgIndex, if 0 <= msgIndex < i then i - 1 else i);
      }
    }
  }

  lemma {:induction false} MirroredContents(tools: seq<Tool>, msgIndex: int, id: string, text: string, items: seq<Item>, calls: seq<UpCall>)
    requires Mirrored(tools, msgIndex, id, text, items) && Collected(tools, calls)
    ensures ItemsText(items) == text && ItemsCalls(items) == Seen(calls)
  {
    PendingCalls(tools, calls);
    MirroredSplits(tools, msgIndex, id, text, items);
    if msgIndex >= 0 {
      InsertedMessage(Pending(tools), msgIndex, MessageItem(id, text));
    }
  }

  lemma {:induction false} InsertedMessage(all: seq<Item>, i: nat, msg: Item)
    requires i <= |all| && msg.MessageItem? && ItemsText(all) == ""
    ensures ItemsText(all[..i] + [msg] + all[i..]) == msg.text
    ensures ItemsCalls(all[..i] + [msg] + all[i..]) == ItemsCalls(all)
  {
    assert all == all[..i] + all[i..];
    InsertedText(all[..i], msg, all[i..]);
    InsertedCalls(all[..i], msg, all[i..]);
  }

  lemma {:induction false} InsertedText(a: seq<Item>, msg: Item, b: seq<Item>)
    requires msg.MessageItem? && ItemsText(a + b) == ""
    ensures ItemsText(a + [msg] + b) == msg.text
  {
    ItemsTextAppend(a, b);
    ItemsTextAppend(a, [msg]);
    ItemsTextAppend(a + [msg], b);
    OneMessage(msg);
    assert |ItemsText(a)| + |ItemsText(b)| == 0;
  }

  lemma {:induction false} InsertedCalls(a: seq<Item>, msg: Item, b: seq<Item>)
    requires msg.MessageItem?
    ensures ItemsCalls(a + [msg] + b) == ItemsCalls(a + b)
  {
    ItemsCallsAppend(a, b);
    ItemsCallsAppend(a, [msg]);
    ItemsCallsAppend(a + [msg], b);
    OneMessage(msg);
  }

  lemma OneMessage(msg: Item)
    requires msg.MessageItem?
    ensures ItemsText([msg]) == msg.text && ItemsCalls([msg]) == []
  {
    assert [msg][1..] == [];
    assert ItemsText([]) == "" && msg.text + "" == msg.text;
  }

  /** The client ends up with exactly the upstream text and the upstream calls in order, arguments complete. */
  lemma {:induction false} ResponsesNothingLost(chunks: seq<Chunk>, ending: Ending)
    ensures var items := Receive(NoItems, Streamed(chunks, ending)).items;
            ItemsText(items) == Text(chunks) && ItemsCalls(items) == Seen(Calls(chunks))
  {
    StreamDelivers(chunks, ending);
    var a := RunResponses(Fresh, chunks);
    var st := EndResponses(a.0, ending).0;
    MirroredContents(st.tools, st.msgIndex, st.id, st.respText,
                     Receive(NoItems, Streamed(chunks, ending)).items, Calls(chunks));
  }

  // ---- the payload is the whole answer when the upstream is quiet after finishing ----

  lemma QuietChunk(st: State, ch: Chunk)
    requires st.finished && st.started
    requires ch.choices != [] ==> ch.choices[0].content == "" && ch.choices[0].toolCalls == []
    ensures RespChunk(st, ch).1 == RespTerminal(Capture(st, ch)).1
  {
  }

  predicate EndsWithTerminal(es: seq<Event>) {
    es != [] && es[|es| - 1].Completed?
  }

  lemma {:induction false} QuietRun(chunks: seq<Chunk>)
    requires QuietAfterFinish(chunks)
    ensures var a := RunResponses(Fresh, chunks); Sent(a.0) == 1 ==> EndsWithTerminal(a.1)
    decreases |chunks|
  {
    if chunks != [] {
      var before, n := chunks[..|chunks| - 1], |chunks| - 1;
      assert QuietAfterFinish(before) by {
        assert forall i :: 0 <= i < n ==> before[i] == chunks[i];
      }
      QuietRun(before);
      RunDelivers(before);
      RunStage(before);
      var a := RunResponses(Fresh, before);
      ChunkStage(a.0, chunks[n]);
      if a.0.finished {
        assert exists i :: 0 <= i < |before| && Finishes(before[i]);
        QuietChunk(a.0, chunks[n]);
      } else {
        NewlyFinished(a.0, chunks[n]);
      }
    }
  }

  /** A chunk that brings the finish reason leaves the terminal pending. */
  lemma NewlyFinished(st: State, ch: Chunk)
    requires !st.finished && st.heldFinish == ""
    ensures Sent(RespChunk(st, ch).0) == 0
  {
    HeadStage(st, ch);
    if ch.choices != [] {
      ChoiceStage(RespStart(RespTerminal(Capture(st, ch)).0, ch).0, ch.choices[0]);
    }
  }

  /** Then response.completed is the last event and carries everything: all text, all calls. */
  lemma QuietPayloadIsComplete(chunks: seq<Chunk>, ending: Ending)
    requires HasFinish(chunks) && QuietAfterFinish(chunks)
    ensures var es := Streamed(chunks, ending);
            && EndsWithTerminal(es)
            && es[|es| - 1].output == FinishItems(Receive(NoItems, es).items)
  {
    StreamDelivers(chunks, ending);
    RunDelivers(chunks);
    RunStage(chunks);
    QuietRun(chunks);
    var a := RunResponses(Fresh, chunks);
    var es := Streamed(chunks, ending);
    var st0 := if ending.ByDone? then a.0.(done := true) else a.0.(flushed := true);
    assert EndResponses(a.0, ending) == RespTerminal(st0);
    assert EndsWithTerminal(es);
    LastIsWhole(es);
  }

  lemma {:induction false} LastIsWhole(es: seq<Event>)
    requires Truthful(NoItems, es) && EndsWithTerminal(es)
    ensures es[|es| - 1].output == FinishItems(Receive(NoItems, es).items)
  {
    LastKeepsItems(NoItems, es);
    TruthfulAt(NoItems, es, |es| - 1);
  }

  lemma LastKeepsItems(c: Items, es: seq<Event>)
    requires EndsWithTerminal(es)
    ensures Receive(c, es).items == Receive(c, es[..|es| - 1]).items
  {
    FoldLast(ItemsStep, c, es);
  }
}
