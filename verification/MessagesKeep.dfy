/**
 * Requests to Messages keep their conversation: what the built messages say, block by block, is what
 * the Chat Completions messages, or the Responses input items, said, under the same roles and in order.
 */
module MessagesKeep {
  import opened Wire
  import opened Folds
  import opened RequestParts
  import B = MsgBuilder
  import opened MessagesRequest
  import LF = LineFeed
  import V = ChatConvert
  import CC = ChatClaudeParity

  /** Part of what a tool returned. */
  datatype Said = SaidText(text: string) | SaidImage(source: string)

  datatype Atom =
    | TextAtom(role: string, text: string)
    | ImageAtom(role: string, source: string)
    | CallAtom(role: string, id: string, name: string, input: string)
    | ResultAtom(role: string, id: string, said: seq<Said>)
    | ThinkAtom(role: string, text: string)

  // ---- what built messages say ----

  function TextSaid(text: string): seq<Said> {
    if text != "" then [SaidText(text)] else []
  }

  function BlockSaid(b: B.Block): seq<Said> {
    match b
    case TextBlock(t) => [SaidText(t)]
    case ImageBlock(source) => [SaidImage(source)]
    case _ => []
  }

  function BlocksSaid(blocks: seq<B.Block>): seq<Said>
    decreases |blocks|
  {
    if blocks == [] then [] else BlocksSaid(blocks[..|blocks| - 1]) + BlockSaid(blocks[|blocks| - 1])
  }

  function AtomOf(role: string, b: B.Block): Atom {
    match b
    case TextBlock(t) => TextAtom(role, t)
    case ImageBlock(source) => ImageAtom(role, source)
    case ToolUse(id, name, input) => CallAtom(role, id, name, input)
    case ToolResult(id, text, blocks) => ResultAtom(role, id, TextSaid(text) + BlocksSaid(blocks))
    case Thinking(text) => ThinkAtom(role, text)
  }

  function AtomsOfBlocks(role: string, blocks: seq<B.Block>): seq<Atom> {
    seq(|blocks|, i requires 0 <= i < |blocks| => AtomOf(role, blocks[i]))
  }

  function AtomsOfMessage(m: B.Message): seq<Atom> {
    match m.content
    case Plain(t) => [TextAtom(m.role, t)]
    case Parts(blocks) => AtomsOfBlocks(m.role, blocks)
  }

  function AtomsOfMessages(msgs: seq<B.Message>): seq<Atom>
    decreases |msgs|
  {
    if msgs == [] then [] else AtomsOfMessages(msgs[..|msgs| - 1]) + AtomsOfMessage(msgs[|msgs| - 1])
  }

  // ---- what requests say ----

  function OrEmpty(o: Option<string>): string {
    if o.Some? then o.value else ""
  }

  function PartAtoms(c: Codec, role: string, parts: seq<Part>): seq<Atom> {
    seq(|parts|, i requires 0 <= i < |parts| =>
      if parts[i].Text? then TextAtom(role, parts[i].text) else ImageAtom(role, OrEmpty(c.imageSource(parts[i].url))))
  }

  function PartSaid(c: Codec, p: Part): Said {
    if p.Text? then SaidText(p.text) else SaidImage(OrEmpty(c.imageSource(p.url)))
  }

  function PartsSaid(c: Codec, parts: seq<Part>): seq<Said> {
    seq(|parts|, i requires 0 <= i < |parts| => PartSaid(c, parts[i]))
  }

  /** Text alone is joined; with an image among it every part stays. */
  function ContentSaid(c: Codec, parts: seq<Part>): seq<Said> {
    if HasImage(parts) then PartsSaid(c, parts) else TextSaid(JoinTexts(parts))
  }

  function TextAtoms(role: string, text: string): seq<Atom> {
    if text != "" then [TextAtom(role, text)] else []
  }

  function CallAtoms(c: Codec, calls: seq<ToolCall>): seq<Atom> {
    seq(|calls|, i requires 0 <= i < |calls| => CallAtom("assistant", calls[i].id, calls[i].name, OrEmpty(c.decodeArgs(DefaultArgs(calls[i].args)))))
  }

  function AtomsOfChat(c: Codec, m: ChatMessage): seq<Atom> {
    var parts := RequestParts.Parts(m.content);
    if m.role == "user" then PartAtoms(c, "user", parts)
    else if m.role == "assistant" then TextAtoms("assistant", JoinTexts(parts)) + CallAtoms(c, m.toolCalls)
    else if m.role == "tool" then [ResultAtom("user", m.toolCallId, ContentSaid(c, parts))]
    else []
  }

  function AtomsOfChats(c: Codec, msgs: seq<ChatMessage>): seq<Atom>
    decreases |msgs|
  {
    if msgs == [] then [] else AtomsOfChats(c, msgs[..|msgs| - 1]) + AtomsOfChat(c, msgs[|msgs| - 1])
  }

  function AtomsOfItem(c: Codec, it: InputItem): seq<Atom> {
    match it
    case MessageIn(role, content) =>
      var parts := RequestParts.Parts(content);
      if role == "user" then PartAtoms(c, "user", parts)
      else if role == "assistant" then TextAtoms("assistant", JoinTexts(parts))
      else []
    case CallIn(id, name, args) => [CallAtom("assistant", id, name, OrEmpty(c.decodeArgs(DefaultArgs(args))))]
    case ResultIn(id, output) => [ResultAtom("user", id, TextSaid(output))]
    case ReasoningIn(summary) => if JoinLines(summary) != "" then [ThinkAtom("assistant", JoinLines(summary))] else []
    case UnknownIn => []
  }

  function AtomsOfItems(c: Codec, items: seq<InputItem>): seq<Atom>
    decreases |items|
  {
    if items == [] then [] else AtomsOfItems(c, items[..|items| - 1]) + AtomsOfItem(c, items[|items| - 1])
  }

  /** The texts of system and developer messages, each joined. */
  function SystemsSaid(msgs: seq<ChatMessage>): seq<string>
    decreases |msgs|
  {
    if msgs == [] then []
    else
      var m := msgs[|msgs| - 1];
      SystemsSaid(msgs[..|msgs| - 1]) + if m.role == "system" || m.role == "developer" then [JoinTexts(RequestParts.Parts(m.content))] else []
  }

  function ItemSystemsSaid(instructions: string, items: seq<InputItem>): seq<string>
    decreases |items|
  {
    if items == [] then (if instructions != "" then [instructions] else [])
    else
      var it := items[|items| - 1];
      ItemSystemsSaid(instructions, items[..|items| - 1]) +
      if it.MessageIn? && (it.role == "system" || it.role == "developer") then [JoinTexts(RequestParts.Parts(it.content))] else []
  }

  // ---- messages say what was added ----

  function AtomsOfAdded(added: seq<(string, B.Block)>): seq<Atom> {
    seq(|added|, i requires 0 <= i < |added| => AtomOf(added[i].0, added[i].1))
  }

  lemma AddedAppend(a: seq<(string, B.Block)>, b: seq<(string, B.Block)>)
    ensures AtomsOfAdded(a + b) == AtomsOfAdded(a) + AtomsOfAdded(b)
  {
  }

  lemma MessageSays(m: B.Message)
    ensures AtomsOfMessage(m) == AtomsOfAdded(B.WithRole(m.role, B.BlocksOf(m)))
  {
  }

  lemma {:induction false} MessagesSay(msgs: seq<B.Message>)
    ensures AtomsOfMessages(msgs) == AtomsOfAdded(B.Flatten(msgs))
    decreases |msgs|
  {
    if msgs != [] {
      var before, m := msgs[..|msgs| - 1], msgs[|msgs| - 1];
      MessagesSay(before);
      MessageSays(m);
      AddedAppend(B.Flatten(before), B.WithRole(m.role, B.BlocksOf(m)));
    }
  }

  lemma AdditionsAppend(a: seq<B.Addition>, b: seq<B.Addition>)
    ensures AtomsOfAdded(B.Added(a + b)) == AtomsOfAdded(B.Added(a)) + AtomsOfAdded(B.Added(b))
  {
  }

  // ---- each message, each item ----

  lemma UserSays(c: Codec, parts: seq<Part>)
    ensures AtomsOfAdded(B.Added(UserAdds(c, parts))) == PartAtoms(c, "user", parts)
  {
  }

  lemma TextSays(parts: seq<Part>)
    ensures AtomsOfAdded(B.Added(TextAdds(parts))) == TextAtoms("assistant", JoinTexts(parts))
  {
  }

  lemma CallsSay(c: Codec, calls: seq<ToolCall>)
    ensures AtomsOfAdded(B.Added(CallAdds(c, calls))) == CallAtoms(c, calls)
  {
  }

  lemma {:induction false} PartBlocksSay(c: Codec, parts: seq<Part>)
    ensures BlocksSaid(BlocksOfParts(c, parts)) == PartsSaid(c, parts)
    decreases |parts|
  {
    if parts != [] {
      var n := |parts| - 1;
      PartBlocksSay(c, parts[..n]);
      assert BlocksOfParts(c, parts)[..n] == BlocksOfParts(c, parts[..n]);
      assert PartsSaid(c, parts) == PartsSaid(c, parts[..n]) + [PartSaid(c, parts[n])];
    }
  }

  lemma ResultSays(c: Codec, id: string, parts: seq<Part>)
    ensures AtomOf("user", ResultBlock(c, id, parts)) == ResultAtom("user", id, ContentSaid(c, parts))
  {
    PartBlocksSay(c, parts);
    assert [] + PartsSaid(c, parts) == PartsSaid(c, parts);
    assert TextSaid(JoinTexts(parts)) + [] == TextSaid(JoinTexts(parts));
  }

  lemma ChatSays(c: Codec, m: ChatMessage)
    requires KnownRole(m.role)
    ensures AtomsOfAdded(B.Added(AddsOf(c, m))) == AtomsOfChat(c, m)
  {
    var parts := RequestParts.Parts(m.content);
    if m.role == "user" {
      UserSays(c, parts);
    } else if m.role == "assistant" {
      TextSays(parts);
      CallsSay(c, m.toolCalls);
      AdditionsAppend(TextAdds(parts), CallAdds(c, m.toolCalls));
    } else if m.role == "tool" {
      ResultSays(c, m.toolCallId, parts);
    }
  }

  lemma ItemSays(c: Codec, it: InputItem)
    ensures AtomsOfAdded(B.Added(AddsOfItem(c, it))) == AtomsOfItem(c, it)
  {
    match it
    case MessageIn(role, content) =>
      UserSays(c, RequestParts.Parts(content));
      TextSays(RequestParts.Parts(content));
    case ResultIn(id, output) =>
      assert TextSaid(output) + BlocksSaid([]) == TextSaid(output);
    case _ =>
  }

  lemma {:induction false} AddsSay(c: Codec, msgs: seq<ChatMessage>)
    requires AllTranslatable(c, msgs)
    ensures AtomsOfAdded(B.Added(Converse(c, msgs).adds)) == AtomsOfChats(c, msgs)
    ensures Converse(c, msgs).system == SystemsSaid(msgs)
    decreases |msgs|
  {
    if msgs != [] {
      var n := |msgs| - 1;
      AddsSay(c, msgs[..n]);
      ChatSays(c, msgs[n]);
      AdditionsAppend(Converse(c, msgs[..n]).adds, AddsOf(c, msgs[n]));
    }
  }

  lemma {:induction false} ItemAddsSay(c: Codec, instructions: string, items: seq<InputItem>)
    ensures AtomsOfAdded(B.Added(ConverseItems(c, instructions, items).adds)) == AtomsOfItems(c, items)
    ensures ConverseItems(c, instructions, items).system == ItemSystemsSaid(instructions, items)
    decreases |items|
  {
    if items != [] {
      var n := |items| - 1;
      ItemAddsSay(c, instructions, items[..n]);
      ItemSays(c, items[n]);
      AdditionsAppend(ConverseItems(c, instructions, items[..n]).adds, AddsOfItem(c, items[n]));
    }
  }

  // ---- main results ----

  /**
   * Every Chat Completions conversation that can be translated: the messages built say exactly what its
   * messages said, and the system field holds its system texts.
   */
  lemma {:induction false} ConversationKept(c: Codec, msgs: seq<ChatMessage>)
    requires AllTranslatable(c, msgs)
    ensures AtomsOfMessages(B.RenderAll(B.Groups(Converse(c, msgs).adds))) == AtomsOfChats(c, msgs)
    ensures Converse(c, msgs).system == SystemsSaid(msgs)
  {
    ConversationsAlternate(c, msgs);
    MessagesSay(B.RenderAll(B.Groups(Converse(c, msgs).adds)));
    AddsSay(c, msgs);
  }

  /** The same for every list of Responses input items and its instructions. */
  lemma {:induction false} ItemsKept(c: Codec, instructions: string, items: seq<InputItem>)
    ensures AtomsOfMessages(B.RenderAll(B.Groups(ConverseItems(c, instructions, items).adds))) == AtomsOfItems(c, items)
    ensures ConverseItems(c, instructions, items).system == ItemSystemsSaid(instructions, items)
  {
    ItemConversationsAlternate(c, instructions, items);
    MessagesSay(B.RenderAll(B.Groups(ConverseItems(c, instructions, items).adds)));
    ItemAddsSay(c, instructions, items);
  }

  /** A summary is its texts on lines of their own. */
  lemma {:induction false} SummaryKept(texts: seq<string>)
    requires forall i :: 0 <= i < |texts| ==> '\n' !in texts[i]
    ensures texts == [] ==> JoinLines(texts) == ""
    ensures texts != [] ==> LF.Lines(JoinLines(texts) + "\n") == texts && LF.Tail(JoinLines(texts) + "\n") == ""
    decreases |texts|
  {
    if texts != [] {
      var n := |texts| - 1;
      var last := texts[n];
      assert last + "\n" + "" == last + "\n";
      LF.SplitLine(last, "");
      assert [last] + [] == [last] && LF.Lines("") == [];
      if n > 0 {
        SummaryKept(texts[..n]);
        var before := JoinLines(texts[..n]) + "\n";
        LF.SplitAppend(before, last + "\n");
        assert JoinLines(texts) + "\n" == before + (last + "\n") && "" + (last + "\n") == last + "\n";
        Last(texts);
      } else {
        assert texts == [last];
      }
    }
  }

  /** The blocks of a non-streaming Messages result are the parts of the choice, in order, and then its calls. */
  lemma {:induction false} ResultKept(c: Codec, resp: V.ChatBody)
    requires CC.Convertible(c, resp)
    ensures var choice := resp.choices[0];
            AtomsOfBlocks("assistant", CC.Conversion(c, resp).content) ==
              PartAtoms(c, "assistant", RequestParts.Parts(choice.content)) + CallAtoms(c, choice.toolCalls)
  {
    var choice := resp.choices[0];
    var parts := RequestParts.Parts(choice.content);
    assert AtomsOfBlocks("assistant", BlocksOfParts(c, parts)) == PartAtoms(c, "assistant", parts);
    assert AtomsOfBlocks("assistant", CC.CallBlocks(c, choice.toolCalls)) == CallAtoms(c, choice.toolCalls);
    BlocksAppend(BlocksOfParts(c, parts), CC.CallBlocks(c, choice.toolCalls));
  }

  lemma BlocksAppend(a: seq<B.Block>, b: seq<B.Block>)
    ensures AtomsOfBlocks("assistant", a + b) == AtomsOfBlocks("assistant", a) + AtomsOfBlocks("assistant", b)
  {
  }
}
