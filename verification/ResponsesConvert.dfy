/**
 * Non-streaming Responses to Messages, and the round trip Messages to Responses to Messages: it is
 * idempotent, and keeps tool calls, text and token counts.
 */
module ResponsesConvert {
  import opened Wire
  import opened Folds
  import opened MessagesConvert
  import opened Pieces
  import A = Assembler

  datatype Part = Part(kind: string, text: string)

  /** A decoded Responses output item. */
  datatype OutputItem = OutputItem(kind: string, callId: string, name: string, args: string, parts: seq<Part>)

  datatype UsageIn = UsageIn(input: int, output: int, cached: Option<int>, cacheWrite: Option<int>)

  datatype ResponsesBody = ResponsesBody(id: string, model: string, status: string, output: Option<seq<OutputItem>>, usage: UsageIn)

  /** A content block of the resulting message. */
  datatype OutBlock<V(==)> = OutText(text: string) | OutTool(id: string, name: string, input: V)

  datatype ClaudeResult<V(==)> = ClaudeResult(
    id: string, model: string, content: seq<OutBlock<V>>, stopReason: string,
    input: int, output: int, cacheRead: Option<int>, cacheCreation: Option<int>)

  // ---- Responses to Messages ----

  /** An unrecognized item with real content cannot be represented. */
  predicate CarriesPayload(it: OutputItem) {
    it.parts != [] || it.name != "" || it.callId != "" || TrimSpace(it.args) != ""
  }

  /** Absent arguments are the empty object; malformed ones are an error. */
  function DecodeArgs<V>(j: Json<V>, args: string): Option<V> {
    j.decode(DefaultArgs(args))
  }

  predicate Representable<V>(j: Json<V>, it: OutputItem) {
    if it.kind == "message" || it.kind == "reasoning" then true
    else if it.kind == "function_call" then DecodeArgs(j, it.args).Some?
    else !CarriesPayload(it)
  }

  function TextBlocks<V>(parts: seq<Part>): seq<OutBlock<V>>
    decreases |parts|
  {
    if parts == [] then []
    else
      var p := parts[|parts| - 1];
      TextBlocks(parts[..|parts| - 1]) + if p.kind == "output_text" && p.text != "" then [OutText(p.text)] else []
  }

  /** The blocks of one item: its non-empty text parts, or one tool block. */
  function BlocksOf<V>(j: Json<V>, it: OutputItem): seq<OutBlock<V>> {
    if it.kind == "message" then TextBlocks(it.parts)
    else if it.kind == "function_call" && DecodeArgs(j, it.args).Some?
    then [OutTool(it.callId, it.name, DecodeArgs(j, it.args).value)]
    else []
  }

  function ContentOf<V>(j: Json<V>, items: seq<OutputItem>): seq<OutBlock<V>>
    decreases |items|
  {
    if items == [] then [] else ContentOf(j, items[..|items| - 1]) + BlocksOf(j, items[|items| - 1])
  }

  predicate AllRepresentable<V>(j: Json<V>, items: seq<OutputItem>) {
    forall i :: 0 <= i < |items| ==> Representable(j, items[i])
  }

  predicate HasCall(items: seq<OutputItem>)
    decreases |items|
  {
    items != [] && (HasCall(items[..|items| - 1]) || items[|items| - 1].kind == "function_call")
  }

  function Translated<V>(j: Json<V>, r: ResponsesBody, items: seq<OutputItem>): ClaudeResult<V> {
    ClaudeResult(r.id, r.model, ContentOf(j, items), TerminalReason(HasCall(items), "tool_use", ClaudeStopFromStatus(r.status)),
                 ClampSubtract(r.usage.input, [r.usage.cached, r.usage.cacheWrite]), r.usage.output, r.usage.cached, r.usage.cacheWrite)
  }

  method TextBlocksLoop<V>(parts: seq<Part>) returns (blocks: seq<OutBlock<V>>)
    ensures blocks == TextBlocks(parts)
  {
    blocks := [];
    for n := 0 to |parts|
      invariant blocks == TextBlocks(parts[..n])
    {
      assert parts[..n + 1][..n] == parts[..n];
      if parts[n].kind == "output_text" && parts[n].text != "" {
        blocks := blocks + [OutText(parts[n].text)];
      }
    }
    assert parts[..|parts|] == parts;
  }

  /** The body of the loop over items. */
  method ItemBlocks<V>(j: Json<V>, item: OutputItem) returns (r: Result<seq<OutBlock<V>>, Failure>)
    ensures r == if Representable(j, item) then Ok(BlocksOf(j, item)) else Err(Translation)
  {
    if item.kind == "message" {
      var blocks := TextBlocksLoop(item.parts);
      r := Ok(blocks);
    } else if item.kind == "function_call" {
      var input := DecodeArgs(j, item.args);
      if input.None? {
        return Err(Translation);
      }
      r := Ok([OutTool(item.callId, item.name, input.value)]);
    } else if item.kind != "reasoning" && CarriesPayload(item) {
      r := Err(Translation);
    } else {
      r := Ok([]);
    }
  }

  lemma {:induction false} UpToNext<V>(j: Json<V>, items: seq<OutputItem>, n: nat)
    requires n < |items|
    ensures ContentOf(j, items[..n + 1]) == ContentOf(j, items[..n]) + BlocksOf(j, items[n])
    ensures HasCall(items[..n + 1]) <==> HasCall(items[..n]) || items[n].kind == "function_call"
    ensures AllRepresentable(j, items[..n + 1]) <==> AllRepresentable(j, items[..n]) && Representable(j, items[n])
    ensures AllRepresentable(j, items) ==> Representable(j, items[n])
  {
    ContentNext(j, items[..n], items[n]);
    assert items[..n + 1] == items[..n] + [items[n]];
  }

  /** Fails exactly when the output array is missing or an item cannot be represented. */
  method ResponsesToClaude<V>(j: Json<V>, resp: ResponsesBody) returns (r: Result<ClaudeResult<V>, Failure>)
    ensures r == if resp.output.Some? && AllRepresentable(j, resp.output.value) then Ok(Translated(j, resp, resp.output.value)) else Err(Translation)
  {
    if resp.output.None? {
      return Err(Translation);
    }
    var items := resp.output.value;
    var sawToolCall, blocks := false, [];
    var n := 0;
    while n < |items|
      invariant 0 <= n <= |items|
      invariant AllRepresentable(j, items[..n])
      invariant blocks == ContentOf(j, items[..n]) && sawToolCall == HasCall(items[..n])
    {
      UpToNext(j, items, n);
      var more := ItemBlocks(j, items[n]);
      if more.Err? {
        return Err(Translation);
      }
      blocks := blocks + more.value;
      sawToolCall := sawToolCall || items[n].kind == "function_call";
      n := n + 1;
    }
    assert items[..n] == items;
    var stop := TerminalReason(sawToolCall, "tool_use", ClaudeStopFromStatus(resp.status));
    r := Ok(ClaudeResult(resp.id, resp.model, blocks, stop,
                         ClampSubtract(resp.usage.input, [resp.usage.cached, resp.usage.cacheWrite]), resp.usage.output,
                         resp.usage.cached, resp.usage.cacheWrite));
  }

  // ---- the round trip ----

  /** How a rendered result is decoded again. */
  function Rendered(it: Item): OutputItem {
    match it
    case MessageItem(_, text) => OutputItem("message", "", "", "", [Part("output_text", text)])
    case CallItem(callId, name, args) => OutputItem("function_call", callId, name, args, [])
  }

  function RenderedAll(items: seq<Item>): seq<OutputItem> {
    seq(|items|, i requires 0 <= i < |items| => Rendered(items[i]))
  }

  function Body(r: ResponsesResult): ResponsesBody {
    ResponsesBody(r.id, r.model, r.status, Some(RenderedAll(r.output)), UsageIn(r.tokens.input, r.tokens.output, r.tokens.cached, r.tokens.cacheWrite))
  }

  function BlockIn<V>(j: Json<V>, b: OutBlock<V>): ClaudeBlock {
    match b
    case OutText(t) => ClaudeBlock("text", t, "", "", "")
    case OutTool(id, name, input) => ClaudeBlock("tool_use", "", id, name, j.encode(input))
  }

  /** A resulting message as an upstream would send it. */
  function Resent<V>(j: Json<V>, c: ClaudeResult<V>): ClaudeResponse {
    ClaudeResponse(c.id, c.model, Some(seq(|c.content|, i requires 0 <= i < |c.content| => BlockIn(j, c.content[i]))),
                   c.stopReason, ClaudeUsage(c.input, c.output, c.cacheRead, c.cacheCreation))
  }

  /** Messages to Responses and back, for contents both directions accept. */
  function Back<V>(j: Json<V>, r: ClaudeResponse, content: seq<ClaudeBlock>): ClaudeResult<V> {
    var body := Body(Converted(j, r, content));
    Translated(j, body, body.output.value)
  }

  // ---- what survives ----

  function NormalInput<V>(j: Json<V>, args: string): V {
    match DecodeArgs(j, args)
    case Some(v) => v
    case None => j.empty
  }

  function ToolBlock<V>(j: Json<V>, it: Item): OutBlock<V>
    requires it.CallItem?
  {
    OutTool(it.callId, it.name, NormalInput(j, it.args))
  }

  function ToolBlocks<V>(j: Json<V>, calls: seq<Item>): seq<OutBlock<V>> {
    seq(|calls|, i requires 0 <= i < |calls| => if calls[i].CallItem? then ToolBlock(j, calls[i]) else OutText(""))
  }

  predicate AllCalls<V>(j: Json<V>, calls: seq<Item>) {
    forall i :: 0 <= i < |calls| ==> calls[i].CallItem? && DecodeArgs(j, calls[i].args).Some?
  }

  lemma {:induction false} ContentAppend<V>(j: Json<V>, a: seq<OutputItem>, b: seq<OutputItem>)
    ensures ContentOf(j, a + b) == ContentOf(j, a) + ContentOf(j, b)
    ensures HasCall(a + b) <==> HasCall(a) || HasCall(b)
    decreases |b|
  {
    if b == [] {
      assert a + b == a && ContentOf(j, a) + [] == ContentOf(j, a);
    } else {
      var n := |b| - 1;
      assert (a + b)[..|a + b| - 1] == a + b[..n];
      ContentAppend(j, a, b[..n]);
      Assoc(ContentOf(j, a), ContentOf(j, b[..n]), BlocksOf(j, b[n]));
    }
  }

  lemma RenderedLast(items: seq<Item>)
    requires items != []
    ensures RenderedAll(items) == RenderedAll(items[..|items| - 1]) + [Rendered(items[|items| - 1])]
  {
  }

  lemma OneContent<V>(j: Json<V>, it: Item)
    requires it.CallItem? && DecodeArgs(j, it.args).Some?
    ensures BlocksOf(j, Rendered(it)) == [ToolBlock(j, it)] && Representable(j, Rendered(it))
  {
  }

  lemma {:induction false} CallsContent<V>(j: Json<V>, calls: seq<Item>)
    requires AllCalls(j, calls)
    ensures ContentOf(j, RenderedAll(calls)) == ToolBlocks(j, calls)
    ensures HasCall(RenderedAll(calls)) <==> calls != []
    ensures AllRepresentable(j, RenderedAll(calls))
    decreases |calls|
  {
    if calls != [] {
      var n := |calls| - 1;
      CallsContent(j, calls[..n]);
      RenderedLast(calls);
      OneContent(j, calls[n]);
      ToolBlocksNext(j, calls[..n], calls[n]);
      assert calls == calls[..n] + [calls[n]];
      ContentNext(j, RenderedAll(calls[..n]), Rendered(calls[n]));
    }
  }

  lemma {:induction false} ContentNext<V>(j: Json<V>, items: seq<OutputItem>, it: OutputItem)
    ensures ContentOf(j, items + [it]) == ContentOf(j, items) + BlocksOf(j, it)
    ensures HasCall(items + [it]) <==> HasCall(items) || it.kind == "function_call"
    ensures AllRepresentable(j, items + [it]) <==> AllRepresentable(j, items) && Representable(j, it)
  {
    assert (items + [it])[..|items|] == items;
    assert forall i :: 0 <= i < |items| ==> (items + [it])[i] == items[i];
    assert (items + [it])[|items|] == it;
  }

  lemma {:induction false} MessageContent<V>(j: Json<V>, id: string, text: string)
    ensures var it := [Rendered(MessageItem(id, text))];
            ContentOf(j, it) == (if text != "" then [OutText(text)] else []) && !HasCall(it)
  {
    var it := [Rendered(MessageItem(id, text))];
    var part := Part("output_text", text);
    assert it[..0] == [] && [part][..0] == [];
    assert TextBlocks<V>([part]) == TextBlocks([]) + if text != "" then [OutText(text)] else [];
    assert ContentOf(j, it) == ContentOf(j, []) + TextBlocks([part]);
  }

  /** Text where the first text piece was, if there is any; calls in order. */
  function Laid<V>(text: string, calls: seq<OutBlock<V>>, reserved: bool, slot: nat): seq<OutBlock<V>>
    requires slot <= |calls|
  {
    if text == "" then calls else if reserved then calls[..slot] + [OutText(text)] + calls[slot..] else [OutText(text)] + calls
  }

  lemma {:induction false} Content3<V>(j: Json<V>, a: seq<OutputItem>, m: seq<OutputItem>, b: seq<OutputItem>)
    ensures ContentOf(j, a + m + b) == ContentOf(j, a) + ContentOf(j, m) + ContentOf(j, b)
    ensures HasCall(a + m + b) <==> HasCall(a) || HasCall(m) || HasCall(b)
  {
    ContentAppend(j, a, m);
    ContentAppend(j, a + m, b);
  }

  lemma RenderedPlaced(msg: Item, calls: seq<Item>, slot: nat)
    requires slot <= |calls| && msg.MessageItem?
    ensures RenderedAll(A.Placed(msg, calls, true, slot)) == RenderedAll(calls[..slot]) + [Rendered(msg)] + RenderedAll(calls[slot..])
  {
  }

  lemma LaidReserved<V>(j: Json<V>, text: string, calls: seq<Item>, slot: nat)
    requires slot <= |calls|
    ensures Laid(text, ToolBlocks(j, calls), true, slot) ==
            ToolBlocks(j, calls[..slot]) + (if text != "" then [OutText(text)] else []) + ToolBlocks(j, calls[slot..])
  {
    SplitTools(j, calls, slot);
    assert ToolBlocks(j, calls[..slot]) + [] == ToolBlocks(j, calls[..slot]);
  }

  /** The three runs of a placed message, each already converted. */
  lemma {:induction false} ReservedParts<V>(j: Json<V>, a: seq<OutputItem>, m: seq<OutputItem>, b: seq<OutputItem>, x: seq<OutBlock<V>>, y: seq<OutBlock<V>>, text: string)
    requires ContentOf(j, a) == x && ContentOf(j, b) == y && ContentOf(j, m) == (if text != "" then [OutText(text)] else []) && !HasCall(m)
    ensures ContentOf(j, a + m + b) == x + (if text != "" then [OutText(text)] else []) + y
    ensures HasCall(a + m + b) <==> HasCall(a) || HasCall(b)
  {
    Content3(j, a, m, b);
  }

  lemma SliceCalls<V>(j: Json<V>, calls: seq<Item>, slot: nat)
    requires slot <= |calls| && AllCalls(j, calls)
    ensures AllCalls(j, calls[..slot]) && AllCalls(j, calls[slot..])
    ensures calls != [] <==> calls[..slot] != [] || calls[slot..] != []
  {
    assert |calls| == |calls[..slot]| + |calls[slot..]|;
  }

  lemma {:induction false} ReservedContent<V>(j: Json<V>, id: string, text: string, calls: seq<Item>, slot: nat)
    requires slot <= |calls| && AllCalls(j, calls)
    ensures var items := RenderedAll(A.Placed(MessageItem(id, text), calls, true, slot));
            && ContentOf(j, items) == Laid(text, ToolBlocks(j, calls), true, slot)
            && (HasCall(items) <==> calls != [])
  {
    var a, b := calls[..slot], calls[slot..];
    SliceCalls(j, calls, slot);
    CallsContent(j, a);
    CallsContent(j, b);
    MessageContent(j, id, text);
    RenderedPlaced(MessageItem(id, text), calls, slot);
    ReservedParts(j, RenderedAll(a), [Rendered(MessageItem(id, text))], RenderedAll(b), ToolBlocks(j, a), ToolBlocks(j, b), text);
    LaidReserved(j, text, calls, slot);
  }

  lemma SplitTools<V>(j: Json<V>, calls: seq<Item>, slot: nat)
    requires slot <= |calls|
    ensures ToolBlocks(j, calls)[..slot] == ToolBlocks(j, calls[..slot]) && ToolBlocks(j, calls)[slot..] == ToolBlocks(j, calls[slot..])
    ensures ToolBlocks(j, calls) == ToolBlocks(j, calls[..slot]) + ToolBlocks(j, calls[slot..])
  {
  }

  lemma PlacedRepresentable<V>(j: Json<V>, msg: Item, calls: seq<Item>, reserved: bool, slot: nat)
    requires slot <= |calls| && msg.MessageItem? && AllCalls(j, calls)
    ensures AllRepresentable(j, RenderedAll(A.Placed(msg, calls, reserved, slot)))
  {
    var placed := A.Placed(msg, calls, reserved, slot);
    forall i | 0 <= i < |placed| ensures Representable(j, Rendered(placed[i])) {
      assert placed[i] == msg || placed[i] in calls;
    }
  }

  lemma {:induction false} PlacedContent<V>(j: Json<V>, id: string, text: string, calls: seq<Item>, reserved: bool, slot: nat)
    requires slot <= |calls| && AllCalls(j, calls) && (!reserved ==> text == "")
    ensures var items := RenderedAll(A.Placed(MessageItem(id, text), calls, reserved, slot));
            && ContentOf(j, items) == Laid(text, ToolBlocks(j, calls), true, slot)
            && (HasCall(items) <==> calls != []) && AllRepresentable(j, items)
  {
    PlacedRepresentable(j, MessageItem(id, text), calls, reserved, slot);
    if reserved {
      ReservedContent(j, id, text, calls, slot);
    } else {
      CallsContent(j, calls);
    }
  }

  // ---- arguments ----

  /** The input a tool call ends up with: absent, null and unreadable input are the empty object. */
  function Norm<V>(j: Json<V>, raw: string): V {
    if !HasContent(raw) then j.empty
    else
      match j.decode(raw)
      case Some(v) => if j.isNull(v) then j.empty else v
      case None => j.empty
  }

  lemma DecodeEmpty<V(!new)>(j: Json<V>)
    requires Lawful(j)
    ensures j.decode("{}") == Some(j.empty)
  {
    assert j.decode(j.encode(j.empty)) == Some(j.empty);
  }

  lemma EncodedDecodes<V(!new)>(j: Json<V>, raw: string)
    requires Lawful(j)
    ensures DecodeArgs(j, EncodeInput(j, raw)) == Some(Norm(j, raw)) && !j.isNull(Norm(j, raw))
  {
    DecodeEmpty(j);
    var args := EncodeInput(j, raw);
    if HasContent(raw) && j.decode(raw).Some? {
      var v := j.decode(raw).value;
      assert args == j.encode(v);
      assert Absent(args) <==> j.isNull(v);
      assert j.decode(j.encode(v)) == Some(v);
    } else if HasContent(raw) {
      assert args == "null" && Absent(args) by {
        assert TrimLeft("null") == "null" && TrimRight("null") == "null";
      }
    } else {
      assert args == "{}";
      DefaultArgsIdempotent("");
      assert DefaultArgs("{}") == "{}" by {
        assert TrimLeft("{}") == "{}" && TrimRight("{}") == "{}";
        assert "{}"[0] == '{' && "null"[0] == 'n';
      }
    }
  }

  /** Encoding a normal input and converting again gives it back. */
  lemma NormEncoded<V(!new)>(j: Json<V>, v: V)
    requires Lawful(j) && !j.isNull(v)
    ensures Norm(j, j.encode(v)) == v && EncodeInput(j, j.encode(v)) == j.encode(v)
  {
    var raw := j.encode(v);
    assert j.decode(raw) == Some(v);
    assert !Absent(raw);
    assert raw != "" by {
      assert TrimLeft("") == "" && TrimRight("") == "";
    }
    assert raw != "null" by {
      assert TrimLeft("null") == "null" && TrimRight("null") == "null";
    }
  }

  // ---- pieces of a concatenation ----

  /** What the pieces of a concatenation hold. */
  predicate Joined(a: seq<Piece>, b: seq<Piece>, ab: seq<Piece>) {
    && CallsIn(ab) == CallsIn(a) + CallsIn(b) && Texts(ab) == Texts(a) + Texts(b)
    && (HasText(ab) <==> HasText(a) || HasText(b))
    && Before(ab) == if HasText(a) then Before(a) else |CallsIn(a)| + Before(b)
  }

  lemma JoinedNext(a: seq<Piece>, b: seq<Piece>, ab: seq<Piece>, x: Piece)
    requires Joined(a, b, ab)
    ensures Joined(a, b + [x], ab + [x])
  {
    PiecesNext(ab, x);
    PiecesNext(b, x);
    Assoc(CallsIn(a), CallsIn(b), if x.CallPiece? then [CallItem(x.id, x.name, x.args)] else []);
    Assoc(Texts(a), Texts(b), if x.TextPiece? then x.text else "");
  }

  lemma {:induction false} PiecesAppend(a: seq<Piece>, b: seq<Piece>)
    ensures Joined(a, b, a + b)
    decreases |b|
  {
    if b == [] {
      assert a + b == a && CallsIn(a) + [] == CallsIn(a) && Texts(a) + "" == Texts(a);
      BeforeBound(a);
    } else {
      var n := |b| - 1;
      PiecesAppend(a, b[..n]);
      JoinedNext(a, b[..n], a + b[..n], b[n]);
      assert a + b == (a + b[..n]) + [b[n]] && b == b[..n] + [b[n]];
    }
  }

  /** Tool blocks as pieces again. */
  function ToolPieces<V>(j: Json<V>, tools: seq<OutBlock<V>>): seq<Piece> {
    seq(|tools|, i requires 0 <= i < |tools| => PieceOf(j, BlockIn(j, tools[i])))
  }

  predicate NormalTools<V>(j: Json<V>, tools: seq<OutBlock<V>>) {
    forall i :: 0 <= i < |tools| ==> tools[i].OutTool? && !j.isNull(tools[i].input)
  }

  function ToolItems<V>(j: Json<V>, tools: seq<OutBlock<V>>): seq<Item>
    requires NormalTools(j, tools)
  {
    seq(|tools|, i requires 0 <= i < |tools| => CallItem(tools[i].id, tools[i].name, j.encode(tools[i].input)))
  }

  lemma ToolPieceIs<V(!new)>(j: Json<V>, b: OutBlock<V>)
    requires Lawful(j) && b.OutTool? && !j.isNull(b.input)
    ensures PieceOf(j, BlockIn(j, b)) == CallPiece(b.id, b.name, j.encode(b.input))
  {
    NormEncoded(j, b.input);
  }

  lemma ToolPiecesLast<V>(j: Json<V>, tools: seq<OutBlock<V>>)
    requires tools != [] && NormalTools(j, tools)
    ensures ToolPieces(j, tools) == ToolPieces(j, tools[..|tools| - 1]) + [PieceOf(j, BlockIn(j, tools[|tools| - 1]))]
    ensures var b := tools[|tools| - 1];
            ToolItems(j, tools) == ToolItems(j, tools[..|tools| - 1]) + [CallItem(b.id, b.name, j.encode(b.input))]
  {
  }

  lemma {:induction false} ToolPiecesAre<V(!new)>(j: Json<V>, tools: seq<OutBlock<V>>)
    requires Lawful(j) && NormalTools(j, tools)
    ensures var p := ToolPieces(j, tools);
            CallsIn(p) == ToolItems(j, tools) && Texts(p) == "" && !HasText(p)
    decreases |tools|
  {
    if tools != [] {
      var n := |tools| - 1;
      ToolPiecesAre(j, tools[..n]);
      ToolPieceIs(j, tools[n]);
      ToolPiecesLast(j, tools);
      PiecesNext(ToolPieces(j, tools[..n]), PieceOf(j, BlockIn(j, tools[n])));
    }
  }

  lemma LaidToolPieces<V>(j: Json<V>, text: string, tools: seq<OutBlock<V>>, slot: nat)
    requires slot <= |tools| && text != "" && NormalTools(j, tools)
    ensures ToolPieces(j, Laid(text, tools, true, slot)) ==
            ToolPieces(j, tools[..slot]) + [PieceOf(j, BlockIn(j, OutText(text)))] + ToolPieces(j, tools[slot..])
    ensures ToolItems(j, tools) == ToolItems(j, tools[..slot]) + ToolItems(j, tools[slot..])
  {
  }

  /** Text between two runs of calls. */
  lemma {:induction false} TextBetween(a: seq<Piece>, t: Piece, b: seq<Piece>)
    requires t.TextPiece? && !HasText(a) && !HasText(b) && Texts(a) == "" && Texts(b) == ""
    ensures var p := a + [t] + b;
            CallsIn(p) == CallsIn(a) + CallsIn(b) && Texts(p) == t.text && HasText(p) && Before(p) == |CallsIn(a)|
  {
    PiecesNext(a, t);
    PiecesAppend(a + [t], b);
    BeforeBound(a);
    assert CallsIn(a) + [] == CallsIn(a) && "" + t.text == t.text && t.text + "" == t.text;
  }

  /** The pieces of a laid-out message. */
  lemma LaidPieces<V(!new)>(j: Json<V>, text: string, tools: seq<OutBlock<V>>, slot: nat)
    requires Lawful(j) && NormalTools(j, tools) && slot <= |tools|
    ensures var p := ToolPieces(j, Laid(text, tools, true, slot));
            && CallsIn(p) == ToolItems(j, tools) && Texts(p) == text && HasText(p) == (text != "")
            && (text != "" ==> Before(p) == slot)
  {
    ToolPiecesAre(j, tools);
    if text != "" {
      ToolPiecesAre(j, tools[..slot]);
      ToolPiecesAre(j, tools[slot..]);
      LaidToolPieces(j, text, tools, slot);
      TextBetween(ToolPieces(j, tools[..slot]), TextPiece(text), ToolPieces(j, tools[slot..]));
    }
  }

  // ---- main results ----

  lemma CallsDecodeNext<V(!new)>(j: Json<V>, calls: seq<Item>, id: string, name: string, raw: string)
    requires Lawful(j) && AllCalls(j, calls) && NormalTools(j, ToolBlocks(j, calls))
    ensures var more := calls + [CallItem(id, name, EncodeInput(j, raw))];
            AllCalls(j, more) && NormalTools(j, ToolBlocks(j, more))
            && ToolBlocks(j, more) == ToolBlocks(j, calls) + [OutTool(id, name, Norm(j, raw))]
  {
    EncodedDecodes(j, raw);
    var last := CallItem(id, name, EncodeInput(j, raw));
    ToolBlocksNext(j, calls, last);
    assert ToolBlock(j, last) == OutTool(id, name, Norm(j, raw));
  }

  lemma ToolBlocksNext<V>(j: Json<V>, calls: seq<Item>, it: Item)
    requires it.CallItem?
    ensures ToolBlocks(j, calls + [it]) == ToolBlocks(j, calls) + [ToolBlock(j, it)]
  {
  }

  /** The tool calls of a message, inputs normalized. */
  function Tools<V>(j: Json<V>, content: seq<ClaudeBlock>): seq<OutBlock<V>>
    decreases |content|
  {
    if content == [] then []
    else
      var b := content[|content| - 1];
      Tools(j, content[..|content| - 1]) + if b.kind == "tool_use" then [OutTool(b.id, b.name, Norm(j, b.input))] else []
  }

  function Text(content: seq<ClaudeBlock>): string
    decreases |content|
  {
    if content == [] then ""
    else
      var b := content[|content| - 1];
      Text(content[..|content| - 1]) + if b.kind == "text" then b.text else ""
  }

  /** The calls and the text of the pieces are those of the message. */
  ghost predicate Told<V>(j: Json<V>, pieces: seq<Piece>, tools: seq<OutBlock<V>>, text: string) {
    var calls := CallsIn(pieces);
    AllCalls(j, calls) && NormalTools(j, ToolBlocks(j, calls)) && ToolBlocks(j, calls) == tools && Texts(pieces) == text
  }

  lemma ToldNext<V(!new)>(j: Json<V>, pieces: seq<Piece>, tools: seq<OutBlock<V>>, text: string, b: ClaudeBlock)
    requires Lawful(j) && Told(j, pieces, tools, text)
    ensures Told(j, pieces + [PieceOf(j, b)], tools + (if b.kind == "tool_use" then [OutTool(b.id, b.name, Norm(j, b.input))] else []),
                 text + if b.kind == "text" then b.text else "")
  {
    PiecesNext(pieces, PieceOf(j, b));
    if b.kind == "tool_use" {
      CallsDecodeNext(j, CallsIn(pieces), b.id, b.name, b.input);
    } else {
      assert CallsIn(pieces) + [] == CallsIn(pieces) && tools + [] == tools;
    }
    assert text + "" == text;
  }

  lemma {:induction false} CallsDecode<V(!new)>(j: Json<V>, content: seq<ClaudeBlock>)
    requires Lawful(j)
    ensures Told(j, PiecesOf(j, content), Tools(j, content), Text(content))
    decreases |content|
  {
    if content != [] {
      var n := |content| - 1;
      CallsDecode(j, content[..n]);
      PiecesOfLast(j, content);
      ToldNext(j, PiecesOf(j, content[..n]), Tools(j, content[..n]), Text(content[..n]), content[n]);
    }
  }

  /** What comes back: the text at the first text block's place, the tool calls in order, normal input. */
  lemma {:induction false} BackContent<V(!new)>(j: Json<V>, r: ClaudeResponse, content: seq<ClaudeBlock>)
    requires Lawful(j)
    ensures var p := PiecesOf(j, content);
            var body := Body(Converted(j, r, content));
            && Before(p) <= |Tools(j, content)| && NormalTools(j, Tools(j, content))
            && AllRepresentable(j, body.output.value)
            && Back(j, r, content).content == Laid(Text(content), Tools(j, content), true, Before(p))
            && (HasCall(body.output.value) <==> Tools(j, content) != [])
  {
    var p := PiecesOf(j, content);
    CallsDecode(j, content);
    BeforeBound(p);
    PlacedContent(j, r.id, Texts(p), CallsIn(p), HasText(p), Before(p));
  }

  function MaxZero(x: int): int {
    if x < 0 then 0 else x
  }

  function OptInt64(v: Option<int>): bool {
    v.Some? ==> IsInt64(v.value)
  }

  predicate Counts64(u: ClaudeUsage) {
    IsInt64(u.input) && IsInt64(u.output) && OptInt64(u.cacheRead) && OptInt64(u.cacheCreation)
  }

  lemma WrapDiffers(x: int)
    ensures (x - Wrap64(x)) % 0x1_0000_0000_0000_0000 == 0
  {
  }

  lemma WrapUnique(x: int, y: int)
    requires IsInt64(y) && (x - y) % 0x1_0000_0000_0000_0000 == 0
    ensures Wrap64(x) == y
  {
  }

  /** Taking away what was added is exact on 64-bit counters, even when the sum wrapped. */
  lemma AddThenSubtract(x: int, a: int)
    requires IsInt64(x) && IsInt64(a)
    ensures Wrap64(Wrap64(x + a) - a) == x
  {
    WrapDiffers(x + a);
    WrapUnique(Wrap64(x + a) - a, x);
  }

  lemma {:induction false} SubtractTwo(v: int, a: Option<int>, b: Option<int>)
    requires IsInt64(v)
    ensures SubtractAll(v, [a, b]) == Wrap64(Wrap64(v - OrZero(a)) - OrZero(b))
  {
    assert [a, b][1..] == [b] && [b][1..] == [];
    var one := if a.Some? then Wrap64(v - a.value) else v;
    assert SubtractAll(v, [a, b]) == SubtractAll(one, [b]);
    assert SubtractAll(one, [b]) == SubtractAll(if b.Some? then Wrap64(one - b.value) else one, []);
  }

  /** Two counts added and then taken away again. */
  lemma AddTwoSubtractTwo(x: int, r: int, w: int)
    requires IsInt64(x) && IsInt64(r) && IsInt64(w)
    ensures Wrap64(Wrap64(Wrap64(Wrap64(x + r) + w) - r) - w) == x
  {
    AddThenSubtract(x, r);
    AddThenSubtract(Wrap64(x + r), w);
    SubtractCommutes(Wrap64(Wrap64(x + r) + w), r, w, x);
  }

  /** The sum of the input and both cache counts, less those counts. */
  lemma {:induction false} SubtractBack(sum: int, x: int, read: Option<int>, created: Option<int>)
    requires IsInt64(x) && OptInt64(read) && OptInt64(created)
    requires sum == Wrap64(Wrap64(x + OrZero(read)) + OrZero(created))
    ensures SubtractAll(sum, [read, created]) == x
  {
    SubtractTwo(sum, read, created);
    AddTwoSubtractTwo(x, OrZero(read), OrZero(created));
  }

  lemma InputSurvives(u: ClaudeUsage)
    requires Counts64(u)
    ensures ClampSubtract(TokensOf(u).input, [u.cacheRead, u.cacheCreation]) == MaxZero(u.input)
  {
    SubtractBack(TokensOf(u).input, u.input, u.cacheRead, u.cacheCreation);
  }

  /** The cache counts may be taken away in either order. */
  lemma SubtractCommutes(two: int, r: int, w: int, x: int)
    requires IsInt64(x) && IsInt64(r) && IsInt64(w) && IsInt64(two) && Wrap64(Wrap64(two - w) - r) == x
    ensures Wrap64(Wrap64(two - r) - w) == x
  {
    Congruent(two, w, r);
    Congruent(two, r, w);
    ModTransitive(two - w - r, x, Wrap64(Wrap64(two - r) - w));
    WrapUnique(Wrap64(Wrap64(two - r) - w), x);
  }

  /** Wrapping twice is congruent to not wrapping. */
  lemma Congruent(v: int, a: int, b: int)
    ensures (v - a - b - Wrap64(Wrap64(v - a) - b)) % 0x1_0000_0000_0000_0000 == 0
  {
    WrapDiffers(v - a);
    WrapDiffers(Wrap64(v - a) - b);
  }

  lemma ModTransitive(v: int, x: int, y: int)
    requires (v - x) % 0x1_0000_0000_0000_0000 == 0 && (v - y) % 0x1_0000_0000_0000_0000 == 0
    ensures (y - x) % 0x1_0000_0000_0000_0000 == 0
  {
  }

  /**
   * Messages to Responses and back: identity, tool calls in order, text, output and cache tokens
   * come back exactly, and so does a non-negative input count.
   */
  lemma {:induction false} RoundTripKeeps<V(!new)>(j: Json<V>, r: ClaudeResponse, content: seq<ClaudeBlock>)
    requires Lawful(j) && AllKnown(content) && Counts64(r.usage)
    ensures var c := Back(j, r, content);
            && c.id == r.id && c.model == r.model
            && Tools(j, Resent(j, c).content.value) == Tools(j, content)
            && Text(Resent(j, c).content.value) == Text(content)
            && c.input == MaxZero(r.usage.input) && c.output == r.usage.output
            && c.cacheRead == r.usage.cacheRead && c.cacheCreation == r.usage.cacheCreation
  {
    BackContent(j, r, content);
    ResentContents(j, r, content);
    InputSurvives(r.usage);
  }

  lemma ResentPieces<V>(j: Json<V>, c: ClaudeResult<V>)
    ensures PiecesOf(j, Resent(j, c).content.value) == ToolPieces(j, c.content)
  {
  }

  lemma ItemsOfTools<V(!new)>(j: Json<V>, tools: seq<OutBlock<V>>)
    requires Lawful(j) && NormalTools(j, tools)
    ensures ToolBlocks(j, ToolItems(j, tools)) == tools
  {
    forall i | 0 <= i < |tools| ensures ToolBlocks(j, ToolItems(j, tools))[i] == tools[i] {
      var raw := j.encode(tools[i].input);
      NormEncoded(j, tools[i].input);
      EncodedDecodes(j, raw);
    }
  }

  /** A message laid out from text and tools reads as that text and those tools. */
  lemma {:induction false} LaidReads<V(!new)>(j: Json<V>, content: seq<ClaudeBlock>, text: string, tools: seq<OutBlock<V>>, slot: nat)
    requires Lawful(j) && NormalTools(j, tools) && slot <= |tools|
    requires PiecesOf(j, content) == ToolPieces(j, Laid(text, tools, true, slot))
    ensures Tools(j, content) == tools && Text(content) == text && (text != "" ==> Before(PiecesOf(j, content)) == slot)
  {
    LaidPieces(j, text, tools, slot);
    CallsDecode(j, content);
    ItemsOfTools(j, tools);
  }

  /** The pieces, tools and text of what came back. */
  lemma {:induction false} ResentContents<V(!new)>(j: Json<V>, r: ClaudeResponse, content: seq<ClaudeBlock>)
    requires Lawful(j)
    ensures var again := Resent(j, Back(j, r, content)).content.value;
            var p, q := PiecesOf(j, content), PiecesOf(j, again);
            && Tools(j, again) == Tools(j, content) && Text(again) == Text(content)
            && (Text(content) != "" ==> Before(q) == Before(p)) && AllKnown(again)
  {
    var c := Back(j, r, content);
    var again := Resent(j, c).content.value;
    BackContent(j, r, content);
    ResentPieces(j, c);
    LaidReads(j, again, Text(content), Tools(j, content), Before(PiecesOf(j, content)));
  }

  /** Converting there and back a second time changes nothing more. */
  lemma RoundTripIdempotent<V(!new)>(j: Json<V>, r: ClaudeResponse, content: seq<ClaudeBlock>)
    requires Lawful(j) && AllKnown(content) && Counts64(r.usage)
    ensures var c := Back(j, r, content);
            var again := Resent(j, c);
            AllKnown(again.content.value) && Back(j, again, again.content.value) == c
  {
    var c := Back(j, r, content);
    var again := Resent(j, c);
    ResentContents(j, r, content);
    BackContent(j, r, content);
    BackContent(j, again, again.content.value);
    InputSurvives(r.usage);
    InputSurvives(again.usage);
  }

  // ---- which responses are accepted ----

  lemma SpaceIff(s: string)
    ensures TrimSpace(s) == "" <==> AllSpace(s)
  {
    TrimSpaceIff(s, "");
    if AllSpace(s) {
      assert s == s + "" + "" && AllSpace("");
    }
    if Padded(s, "") {
      var a, b :| AllSpace(a) && AllSpace(b) && s == a + "" + b;
    }
  }

  /** Accepted exactly: messages, reasoning, calls that decode, and other items that say nothing. */
  lemma AcceptedIff<V>(j: Json<V>, it: OutputItem)
    ensures Representable(j, it) <==>
              || it.kind == "message" || it.kind == "reasoning"
              || (it.kind == "function_call" && j.decode(DefaultArgs(it.args)).Some?)
              || (it.kind !in {"message", "reasoning", "function_call"}
                  && it.parts == [] && it.name == "" && it.callId == "" && AllSpace(it.args))
  {
    SpaceIff(it.args);
  }
}
