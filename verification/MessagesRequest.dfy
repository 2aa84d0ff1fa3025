/**
 * Chat Completions and Responses requests to Messages requests: both feed the message builder, and
 * both give alternating messages that carry exactly the added blocks.
 */
module MessagesRequest {
  import opened Wire
  import opened Folds
  import opened RequestParts
  import opened MsgBuilder

  /** A request's conversation: the system texts, and what goes to the builder. */
  datatype Conversation = Conversation(system: seq<string>, adds: seq<Addition>)

  /** Foreign calls: decoding tool arguments, and image URLs into sources; none when malformed. */
  datatype Codec = Codec(decodeArgs: string -> Option<string>, imageSource: string -> Option<string>)

  predicate ImagesOk(c: Codec, parts: seq<Part>) {
    forall i :: 0 <= i < |parts| && parts[i].Image? ==> c.imageSource(parts[i].url).Some?
  }

  function BlockOf(c: Codec, p: Part): Block {
    match p
    case Text(t) => TextBlock(t)
    case Image(url) => ImageBlock(if c.imageSource(url).Some? then c.imageSource(url).value else "")
  }

  function BlocksOfParts(c: Codec, parts: seq<Part>): seq<Block> {
    seq(|parts|, i requires 0 <= i < |parts| => BlockOf(c, parts[i]))
  }

  predicate CallOk(c: Codec, call: ToolCall) {
    c.decodeArgs(DefaultArgs(call.args)).Some?
  }

  predicate CallsOk(c: Codec, calls: seq<ToolCall>) {
    forall i :: 0 <= i < |calls| ==> CallOk(c, calls[i])
  }

  /** What translating a Chat Completions message needs. */
  predicate Translatable(c: Codec, m: ChatMessage) {
    && KnownRole(m.role) && ContentOk(m.content) && ImagesOk(c, RequestParts.Parts(m.content))
    && (IsSystem(m.role) || m.role == "assistant" ==> !HasImage(RequestParts.Parts(m.content)))
    && (m.role == "assistant" ==> CallsOk(c, m.toolCalls))
  }

  function UserAdds(c: Codec, parts: seq<Part>): seq<Addition> {
    seq(|parts|, i requires 0 <= i < |parts| => Addition("user", "user", BlockOf(c, parts[i])))
  }

  function CallAdd(c: Codec, call: ToolCall): Addition {
    var input := c.decodeArgs(DefaultArgs(call.args));
    Addition("assistant", "assistant", ToolUse(call.id, call.name, if input.Some? then input.value else ""))
  }

  function CallAdds(c: Codec, calls: seq<ToolCall>): seq<Addition> {
    seq(|calls|, i requires 0 <= i < |calls| => CallAdd(c, calls[i]))
  }

  function TextAdds(parts: seq<Part>): seq<Addition> {
    if JoinTexts(parts) != "" then [Addition("assistant", "assistant", TextBlock(JoinTexts(parts)))] else []
  }

  /** Mixed parts keep their order; plain text stays a string. */
  function ResultBlock(c: Codec, id: string, parts: seq<Part>): Block {
    if HasImage(parts) then ToolResult(id, "", BlocksOfParts(c, parts)) else ToolResult(id, JoinTexts(parts), [])
  }

  function AddsOf(c: Codec, m: ChatMessage): seq<Addition> {
    var parts := RequestParts.Parts(m.content);
    if m.role == "user" then UserAdds(c, parts)
    else if m.role == "assistant" then TextAdds(parts) + CallAdds(c, m.toolCalls)
    else if m.role == "tool" then [Addition("user:tool", "user", ResultBlock(c, m.toolCallId, parts))]
    else []
  }

  function SystemOf(m: ChatMessage): seq<string> {
    if IsSystem(m.role) then [JoinTexts(RequestParts.Parts(m.content))] else []
  }

  function Converse(c: Codec, msgs: seq<ChatMessage>): Conversation
    decreases |msgs|
  {
    if msgs == [] then Conversation([], [])
    else
      var before, m := Converse(c, msgs[..|msgs| - 1]), msgs[|msgs| - 1];
      Conversation(before.system + SystemOf(m), before.adds + AddsOf(c, m))
  }

  predicate AllTranslatable(c: Codec, msgs: seq<ChatMessage>) {
    forall i :: 0 <= i < |msgs| ==> Translatable(c, msgs[i])
  }

  lemma {:induction false} UpTo(c: Codec, msgs: seq<ChatMessage>, n: nat)
    requires n < |msgs|
    ensures AllTranslatable(c, msgs[..n + 1]) <==> AllTranslatable(c, msgs[..n]) && Translatable(c, msgs[n])
    ensures AllTranslatable(c, msgs) ==> Translatable(c, msgs[n])
    ensures var a, b := Converse(c, msgs[..n]), Converse(c, msgs[..n + 1]);
            b == Conversation(a.system + SystemOf(msgs[n]), a.adds + AddsOf(c, msgs[n]))
  {
    assert msgs[..n + 1][..n] == msgs[..n];
    assert msgs[..n + 1] == msgs[..n] + [msgs[n]];
  }

  /** Parts as blocks; a malformed image is an error. */
  method DecodeBlocks(c: Codec, content: RequestParts.Content) returns (r: Result<seq<Part>, Failure>)
    ensures r.Ok? <==> ContentOk(content) && ImagesOk(c, RequestParts.Parts(content))
    ensures r.Ok? ==> r.value == RequestParts.Parts(content)
    ensures r.Err? ==> r.error == ContentFailure(content)
  {
    r := DecodeContent(content);
    if r.Ok? {
      for n := 0 to |r.value|
        invariant forall i :: 0 <= i < n && r.value[i].Image? ==> c.imageSource(r.value[i].url).Some?
      {
        if r.value[n].Image? && c.imageSource(r.value[n].url).None? {
          return Err(Translation);
        }
      }
    }
  }

  method AddUser(c: Codec, b: Builder, parts: seq<Part>)
    requires b.Valid() && !b.closed
    modifies b
    ensures b.Valid() && !b.closed && b.adds == old(b.adds) + UserAdds(c, parts)
  {
    ghost var was := b.adds;
    assert was + [] == was;
    for n := 0 to |parts|
      invariant b.Valid() && !b.closed && b.adds == was + UserAdds(c, parts[..n])
    {
      b.Add("user", "user", BlockOf(c, parts[n]));
      assert UserAdds(c, parts[..n + 1]) == UserAdds(c, parts[..n]) + [Addition("user", "user", BlockOf(c, parts[n]))];
    }
    assert parts[..|parts|] == parts;
  }

  method AddCall(c: Codec, b: Builder, call: ToolCall) returns (ok: bool)
    requires b.Valid() && !b.closed
    modifies b
    ensures b.Valid() && !b.closed && (ok <==> CallOk(c, call))
    ensures ok ==> b.adds == old(b.adds) + [CallAdd(c, call)]
  {
    var input := c.decodeArgs(DefaultArgs(call.args));
    if input.None? {
      return false;
    }
    b.Add("assistant", "assistant", ToolUse(call.id, call.name, input.value));
    ok := true;
  }

  lemma CallAddsNext(c: Codec, calls: seq<ToolCall>, n: nat)
    requires n < |calls|
    ensures CallAdds(c, calls[..n + 1]) == CallAdds(c, calls[..n]) + [CallAdd(c, calls[n])]
    ensures CallsOk(c, calls[..n]) && CallOk(c, calls[n]) ==> CallsOk(c, calls[..n + 1])
    ensures CallsOk(c, calls) ==> CallOk(c, calls[n])
  {
    assert forall i :: 0 <= i < n ==> calls[..n][i] == calls[i];
  }

  method AddCalls(c: Codec, b: Builder, calls: seq<ToolCall>) returns (ok: bool)
    requires b.Valid() && !b.closed
    modifies b
    ensures b.Valid() && !b.closed && (ok <==> CallsOk(c, calls))
    ensures ok ==> b.adds == old(b.adds) + CallAdds(c, calls)
  {
    ghost var was := b.adds;
    assert was + [] == was;
    for n := 0 to |calls|
      invariant b.Valid() && !b.closed && b.adds == was + CallAdds(c, calls[..n])
      invariant CallsOk(c, calls[..n])
    {
      CallAddsNext(c, calls, n);
      ok := AddCall(c, b, calls[n]);
      if !ok {
        return;
      }
      Assoc(was, CallAdds(c, calls[..n]), [CallAdd(c, calls[n])]);
    }
    assert calls[..|calls|] == calls;
    ok := true;
  }

  /** The body of the loop: the system texts grow, or the builder does. */
  method OneMessage(c: Codec, b: Builder, m: ChatMessage) returns (r: Result<seq<string>, Failure>)
    requires b.Valid() && !b.closed
    modifies b
    ensures b.Valid() && !b.closed && (r.Ok? <==> Translatable(c, m))
    ensures r.Err? ==> r.error == MessageFailure(m)
    ensures r.Ok? ==> r.value == SystemOf(m) && b.adds == old(b.adds) + AddsOf(c, m)
  {
    if !KnownRole(m.role) {
      return Err(Unsupported);
    }
    var d := DecodeBlocks(c, m.content);
    if d.Err? {
      return Err(d.error);
    }
    var parts := d.value;
    ghost var was := b.adds;
    assert was + [] == was;
    r := Ok([]);
    if IsSystem(m.role) {
      if HasImage(parts) {
        return Err(Translation);
      }
      r := Ok([JoinTexts(parts)]);
    } else if m.role == "assistant" {
      if HasImage(parts) {
        return Err(Translation);
      }
      var text := JoinTexts(parts);
      if text != "" {
        b.Add("assistant", "assistant", TextBlock(text));
      }
      var ok := AddCalls(c, b, m.toolCalls);
      if !ok {
        return Err(Translation);
      }
      Assoc(was, TextAdds(parts), CallAdds(c, m.toolCalls));
    } else if m.role == "tool" {
      b.Add("user:tool", "user", ResultBlock(c, m.toolCallId, parts));
    } else {
      AddUser(c, b, parts);
    }
  }

  /** The first message that cannot be translated. */
  predicate FailsFirst(c: Codec, msgs: seq<ChatMessage>, n: int) {
    0 <= n < |msgs| && AllTranslatable(c, msgs[..n]) && !Translatable(c, msgs[n])
  }

  /** Chat Completions messages to system texts and alternating messages. */
  method FromChatCompletions(c: Codec, msgs: seq<ChatMessage>) returns (r: Result<(seq<string>, seq<Message>), Failure>)
    ensures r.Ok? <==> AllTranslatable(c, msgs)
    ensures r.Err? ==> exists n :: FailsFirst(c, msgs, n) && r.error == MessageFailure(msgs[n])
    ensures r.Ok? ==> r.value == (Converse(c, msgs).system, RenderAll(Groups(Converse(c, msgs).adds)))
  {
    var b := new Builder();
    var system: seq<string> := [];
    var n := 0;
    while n < |msgs|
      invariant 0 <= n <= |msgs| && b.Valid() && !b.closed && fresh(b)
      invariant AllTranslatable(c, msgs[..n]) && Conversation(system, b.adds) == Converse(c, msgs[..n])
    {
      UpTo(c, msgs, n);
      var step := OneMessage(c, b, msgs[n]);
      if step.Err? {
        assert FailsFirst(c, msgs, n);
        return Err(step.error);
      }
      system := system + step.value;
      n := n + 1;
    }
    assert msgs[..n] == msgs;
    b.Flush();
    r := Ok((system, b.msgs));
  }

  lemma AddsOfStandard(c: Codec, m: ChatMessage)
    ensures forall i :: 0 <= i < |AddsOf(c, m)| ==> Standard(AddsOf(c, m)[i])
  {
  }

  lemma {:induction false} ConverseStandard(c: Codec, msgs: seq<ChatMessage>)
    ensures forall i :: 0 <= i < |Converse(c, msgs).adds| ==> Standard(Converse(c, msgs).adds[i])
    decreases |msgs|
  {
    if msgs != [] {
      ConverseStandard(c, msgs[..|msgs| - 1]);
      AddsOfStandard(c, msgs[|msgs| - 1]);
    }
  }

  /** Every conversation: what is built alternates, and holds exactly the blocks that were added, in order. */
  lemma {:induction false} ConversationsAlternate(c: Codec, msgs: seq<ChatMessage>)
    ensures var adds := Converse(c, msgs).adds;
            Alternates(RenderAll(Groups(adds))) && Flatten(RenderAll(Groups(adds))) == Added(adds)
  {
    ConverseStandard(c, msgs);
    StandardIsCoherent(Converse(c, msgs).adds);
    CoherentBuild(Converse(c, msgs).adds);
  }

  // ---- Responses requests ----

  /** Summary texts on lines of their own. */
  function JoinLines(texts: seq<string>): string
    decreases |texts|
  {
    if texts == [] then ""
    else if |texts| == 1 then texts[0]
    else JoinLines(texts[..|texts| - 1]) + "\n" + texts[|texts| - 1]
  }

  /** What translating a Responses input item needs. */
  predicate ItemTranslatable(c: Codec, it: InputItem) {
    match it
    case MessageIn(role, content) =>
      && ContentOk(content) && ImagesOk(c, RequestParts.Parts(content))
      && KnownRole(role) && role != "tool"
      && (role != "user" ==> !HasImage(RequestParts.Parts(content)))
    case CallIn(id, name, args) => CallOk(c, ToolCall(id, name, args))
    case UnknownIn => false
    case _ => true
  }

  /** What is wrong with an item that is refused. */
  function ItemFailure(c: Codec, it: InputItem): Failure {
    match it
    case MessageIn(role, content) =>
      if FirstUnknown(content)
        || (ContentOk(content) && ImagesOk(c, RequestParts.Parts(content)) && role !in {"user", "assistant", "system", "developer"})
      then Unsupported
      else Translation
    case CallIn(_, _, _) => Translation
    case _ => Unsupported
  }

  /** The first item that cannot be translated. */
  predicate ItemFailsFirst(c: Codec, items: seq<InputItem>, n: int) {
    0 <= n < |items| && ItemsTranslatable(c, items[..n]) && !ItemTranslatable(c, items[n])
  }

  predicate ItemsTranslatable(c: Codec, items: seq<InputItem>) {
    forall i :: 0 <= i < |items| ==> ItemTranslatable(c, items[i])
  }

  function AddsOfItem(c: Codec, it: InputItem): seq<Addition> {
    match it
    case MessageIn(role, content) =>
      var parts := RequestParts.Parts(content);
      if role == "user" then UserAdds(c, parts) else if role == "assistant" then TextAdds(parts) else []
    case CallIn(id, name, args) => [CallAdd(c, ToolCall(id, name, args))]
    case ResultIn(id, output) => [Addition("user:tool", "user", ToolResult(id, output, []))]
    case ReasoningIn(summary) =>
      if JoinLines(summary) != "" then [Addition("assistant", "assistant", Thinking(JoinLines(summary)))] else []
    case UnknownIn => []
  }

  function SystemOfItem(it: InputItem): seq<string> {
    if it.MessageIn? && IsSystem(it.role) then [JoinTexts(RequestParts.Parts(it.content))] else []
  }

  function ConverseItems(c: Codec, instructions: string, items: seq<InputItem>): Conversation
    decreases |items|
  {
    if items == [] then Conversation(if instructions != "" then [instructions] else [], [])
    else
      var before, it := ConverseItems(c, instructions, items[..|items| - 1]), items[|items| - 1];
      Conversation(before.system + SystemOfItem(it), before.adds + AddsOfItem(c, it))
  }

  lemma {:induction false} ItemsUpTo(c: Codec, instructions: string, items: seq<InputItem>, n: nat)
    requires n < |items|
    ensures ItemsTranslatable(c, items[..n + 1]) <==> ItemsTranslatable(c, items[..n]) && ItemTranslatable(c, items[n])
    ensures ItemsTranslatable(c, items) ==> ItemTranslatable(c, items[n])
    ensures var a, b := ConverseItems(c, instructions, items[..n]), ConverseItems(c, instructions, items[..n + 1]);
            b == Conversation(a.system + SystemOfItem(items[n]), a.adds + AddsOfItem(c, items[n]))
  {
    assert items[..n + 1][..n] == items[..n];
    assert items[..n + 1] == items[..n] + [items[n]];
  }

  method JoinSummary(texts: seq<string>) returns (r: string)
    ensures r == JoinLines(texts)
  {
    r := "";
    for n := 0 to |texts|
      invariant r == JoinLines(texts[..n])
    {
      assert texts[..n + 1][..n] == texts[..n];
      if n > 0 {
        r := r + "\n";
      } else {
        assert "" + texts[0] == texts[0];
      }
      r := r + texts[n];
    }
    assert texts[..|texts|] == texts;
  }

  /** A message item: part order is kept for the user, text is joined for the others. */
  method OneMessageItem(c: Codec, b: Builder, role: string, content: RequestParts.Content) returns (r: Result<seq<string>, Failure>)
    requires b.Valid() && !b.closed
    modifies b
    ensures b.Valid() && !b.closed && (r.Ok? <==> ItemTranslatable(c, MessageIn(role, content)))
    ensures r.Err? ==> r.error == ItemFailure(c, MessageIn(role, content))
    ensures r.Ok? ==> r.value == SystemOfItem(MessageIn(role, content)) && b.adds == old(b.adds) + AddsOfItem(c, MessageIn(role, content))
  {
    var d := DecodeBlocks(c, content);
    if d.Err? {
      return Err(d.error);
    }
    var parts := d.value;
    ghost var was := b.adds;
    assert was + [] == was;
    r := Ok([]);
    if role == "user" {
      AddUser(c, b, parts);
    } else if role == "assistant" || IsSystem(role) {
      if HasImage(parts) {
        return Err(Translation);
      }
      var text := JoinTexts(parts);
      if IsSystem(role) {
        r := Ok([text]);
      } else if text != "" {
        b.Add("assistant", "assistant", TextBlock(text));
      }
    } else {
      r := Err(Unsupported);
    }
  }

  /** The body of the loop over input items. */
  method OneItem(c: Codec, b: Builder, it: InputItem) returns (r: Result<seq<string>, Failure>)
    requires b.Valid() && !b.closed
    modifies b
    ensures b.Valid() && !b.closed && (r.Ok? <==> ItemTranslatable(c, it))
    ensures r.Err? ==> r.error == ItemFailure(c, it)
    ensures r.Ok? ==> r.value == SystemOfItem(it) && b.adds == old(b.adds) + AddsOfItem(c, it)
  {
    ghost var was := b.adds;
    assert was + [] == was;
    r := Ok([]);
    match it
    case MessageIn(role, content) => r := OneMessageItem(c, b, role, content);
    case CallIn(id, name, args) =>
      var ok := AddCall(c, b, ToolCall(id, name, args));
      if !ok {
        r := Err(Translation);
      }
    case ResultIn(id, output) => b.Add("user:tool", "user", ToolResult(id, output, []));
    case ReasoningIn(summary) =>
      var text := JoinSummary(summary);
      if text != "" {
        b.Add("assistant", "assistant", Thinking(text));
      }
    case UnknownIn => r := Err(Unsupported);
  }

  /** The loop over input items. */
  method AddItems(c: Codec, b: Builder, instructions: string, items: seq<InputItem>) returns (r: Result<seq<string>, Failure>)
    requires b.Valid() && !b.closed && b.adds == []
    modifies b
    ensures b.Valid() && !b.closed && (r.Ok? <==> ItemsTranslatable(c, items))
    ensures r.Err? ==> exists n :: ItemFailsFirst(c, items, n) && r.error == ItemFailure(c, items[n])
    ensures r.Ok? ==> Conversation(r.value, b.adds) == ConverseItems(c, instructions, items)
  {
    var system: seq<string> := if instructions != "" then [instructions] else [];
    var n := 0;
    while n < |items|
      invariant 0 <= n <= |items| && b.Valid() && !b.closed
      invariant ItemsTranslatable(c, items[..n]) && Conversation(system, b.adds) == ConverseItems(c, instructions, items[..n])
    {
      ItemsUpTo(c, instructions, items, n);
      var step := OneItem(c, b, items[n]);
      if step.Err? {
        assert ItemFailsFirst(c, items, n);
        return Err(step.error);
      }
      system := system + step.value;
      n := n + 1;
    }
    assert items[..n] == items;
    r := Ok(system);
  }

  /** Responses instructions and input to system texts and alternating messages. */
  method FromResponses(c: Codec, instructions: string, items: seq<InputItem>) returns (r: Result<(seq<string>, seq<Message>), Failure>)
    ensures r.Ok? <==> ItemsTranslatable(c, items)
    ensures r.Err? ==> exists n :: ItemFailsFirst(c, items, n) && r.error == ItemFailure(c, items[n])
    ensures r.Ok? ==>
      var conv := ConverseItems(c, instructions, items);
      r.value == (conv.system, RenderAll(Groups(conv.adds)))
  {
    var b := new Builder();
    var system := AddItems(c, b, instructions, items);
    if system.Err? {
      return Err(system.error);
    }
    b.Flush();
    r := Ok((system.value, b.msgs));
  }

  lemma {:induction false} ItemsStandard(c: Codec, instructions: string, items: seq<InputItem>)
    ensures forall i :: 0 <= i < |ConverseItems(c, instructions, items).adds| ==> Standard(ConverseItems(c, instructions, items).adds[i])
    decreases |items|
  {
    if items != [] {
      ItemsStandard(c, instructions, items[..|items| - 1]);
    }
  }

  /** The same for every list of input items. */
  lemma {:induction false} ItemConversationsAlternate(c: Codec, instructions: string, items: seq<InputItem>)
    ensures var adds := ConverseItems(c, instructions, items).adds;
            Alternates(RenderAll(Groups(adds))) && Flatten(RenderAll(Groups(adds))) == Added(adds)
  {
    ItemsStandard(c, instructions, items);
    StandardIsCoherent(ConverseItems(c, instructions, items).adds);
    CoherentBuild(ConverseItems(c, instructions, items).adds);
  }

  // ---- which requests are accepted ----

  /** Every image of the content has a source. */
  predicate SourcesOk(c: Codec, content: RequestParts.Content) {
    content.Typed? ==> forall i :: 0 <= i < |content.parts| && content.parts[i].RawImage? ==> c.imageSource(content.parts[i].url).Some?
  }

  lemma ImagesOkNext(c: Codec, parts: seq<Part>, more: seq<Part>)
    ensures ImagesOk(c, parts + more) <==> ImagesOk(c, parts) && ImagesOk(c, more)
  {
    var all := parts + more;
    assert forall i :: 0 <= i < |parts| ==> all[i] == parts[i];
    assert forall i :: 0 <= i < |more| ==> all[|parts| + i] == more[i];
  }

  lemma {:induction false} SourcesAreImages(c: Codec, parts: seq<RawPart>)
    ensures ImagesOk(c, PartsOf(parts)) <==> SourcesOk(c, Typed(parts))
    decreases |parts|
  {
    if parts != [] {
      var n := |parts| - 1;
      SourcesAreImages(c, parts[..n]);
      ImagesOkNext(c, PartsOf(parts[..n]), Decoded(parts[n]));
      assert forall i :: 0 <= i < n ==> parts[..n][i] == parts[i];
      DecodedSource(c, parts[n]);
    }
  }

  lemma DecodedSource(c: Codec, p: RawPart)
    ensures ImagesOk(c, Decoded(p)) <==> (p.RawImage? ==> c.imageSource(p.url).Some?)
  {
    if p.RawImage? {
      assert Decoded(p)[0] == Image(p.url);
    }
  }

  lemma ContentAcceptedIff(c: Codec, content: RequestParts.Content)
    ensures ContentOk(content) && ImagesOk(c, RequestParts.Parts(content)) <==> Readable(content) && SourcesOk(c, content)
    ensures ContentOk(content) && ImagesOk(c, RequestParts.Parts(content)) && !HasImage(RequestParts.Parts(content)) <==> TextOnly(content)
  {
    ReadableIff(content);
    if content.Typed? {
      SourcesAreImages(c, content.parts);
    }
    if TextOnly(content) {
      assert forall i :: 0 <= i < |RequestParts.Parts(content)| ==> !RequestParts.Parts(content)[i].Image?;
    }
  }

  /** Every call's arguments, or the empty object for absent ones, can be decoded. */
  predicate CallsDecode(c: Codec, calls: seq<ToolCall>) {
    forall i :: 0 <= i < |calls| ==> c.decodeArgs(DefaultArgs(calls[i].args)).Some?
  }

  /**
   * Accepted exactly: user and tool messages that can be read and whose images have sources, system
   * and assistant messages that are all text, the latter with calls that can be decoded.
   */
  lemma AcceptedIff(c: Codec, m: ChatMessage)
    ensures Translatable(c, m) <==>
              || ((m.role == "user" || m.role == "tool") && Readable(m.content) && SourcesOk(c, m.content))
              || ((m.role == "system" || m.role == "developer") && TextOnly(m.content))
              || (m.role == "assistant" && TextOnly(m.content) && CallsDecode(c, m.toolCalls))
  {
    ContentAcceptedIff(c, m.content);
  }

  lemma ItemAcceptedIff(c: Codec, it: InputItem)
    ensures ItemTranslatable(c, it) <==>
              match it
              case MessageIn(role, content) =>
                if role == "user" then Readable(content) && SourcesOk(c, content)
                else (role == "system" || role == "developer" || role == "assistant") && TextOnly(content)
              case CallIn(_, _, args) => c.decodeArgs(DefaultArgs(args)).Some?
              case UnknownIn => false
              case _ => true
  {
    if it.MessageIn? {
      ContentAcceptedIff(c, it.content);
    }
  }
}
