/**
 * Chat Completions requests to Responses requests and back: the conversation survives as an ordered
 * sequence of text, image, tool-call and tool-result atoms, and the system texts become one leading
 * system message.
 */
module RequestRoundTrip {
  import opened Wire
  import opened Folds
  import opened RequestParts

  // ---- Chat Completions to Responses ----

  datatype Envelope = Envelope(instructions: string, input: seq<InputItem>)

  /** What a message needs to be translated: a known role, readable content, no image where only text goes. */
  predicate Translatable(m: ChatMessage) {
    && KnownRole(m.role) && ContentOk(m.content)
    && (IsSystem(m.role) || m.role == "tool" ==> !HasImage(Parts(m.content)))
  }

  function CallItems(calls: seq<ToolCall>): seq<InputItem> {
    seq(|calls|, i requires 0 <= i < |calls| => CallIn(calls[i].id, calls[i].name, DefaultArgs(calls[i].args)))
  }

  function MessageItems(role: string, parts: seq<Part>): seq<InputItem> {
    if parts != [] then [MessageIn(role, Typed(EncodedAll(parts)))] else []
  }

  /** The input items of one message. */
  function ItemsOf(m: ChatMessage): seq<InputItem> {
    var parts := Parts(m.content);
    if m.role == "user" then MessageItems("user", parts)
    else if m.role == "assistant" then MessageItems("assistant", parts) + CallItems(m.toolCalls)
    else if m.role == "tool" then [ResultIn(m.toolCallId, JoinTexts(parts))]
    else []
  }

  /** Non-empty texts separated by blank lines. */
  function Separated(instr: string, text: string): string {
    if text == "" then instr else if instr != "" then instr + "\n\n" + text else text
  }

  function SystemText(m: ChatMessage): string {
    if IsSystem(m.role) then JoinTexts(Parts(m.content)) else ""
  }

  function Instructions(msgs: seq<ChatMessage>): string
    decreases |msgs|
  {
    if msgs == [] then "" else Separated(Instructions(msgs[..|msgs| - 1]), SystemText(msgs[|msgs| - 1]))
  }

  function Input(msgs: seq<ChatMessage>): seq<InputItem>
    decreases |msgs|
  {
    if msgs == [] then [] else Input(msgs[..|msgs| - 1]) + ItemsOf(msgs[|msgs| - 1])
  }

  predicate AllTranslatable(msgs: seq<ChatMessage>) {
    forall i :: 0 <= i < |msgs| ==> Translatable(msgs[i])
  }

  method AppendCalls(input: seq<InputItem>, calls: seq<ToolCall>) returns (r: seq<InputItem>)
    ensures r == input + CallItems(calls)
  {
    r := input;
    for n := 0 to |calls|
      invariant r == input + CallItems(calls[..n])
    {
      r := r + [CallIn(calls[n].id, calls[n].name, DefaultArgs(calls[n].args))];
      assert CallItems(calls[..n + 1]) == CallItems(calls[..n]) + [CallIn(calls[n].id, calls[n].name, DefaultArgs(calls[n].args))];
    }
    assert calls[..|calls|] == calls;
  }

  /** Up to `n` messages, or all of them, seen through their last one. */
  lemma UpTo(msgs: seq<ChatMessage>, n: nat)
    requires n < |msgs|
    ensures AllTranslatable(msgs[..n + 1]) <==> AllTranslatable(msgs[..n]) && Translatable(msgs[n])
    ensures AllTranslatable(msgs) ==> Translatable(msgs[n])
    ensures Instructions(msgs[..n + 1]) == Separated(Instructions(msgs[..n]), SystemText(msgs[n]))
    ensures Input(msgs[..n + 1]) == Input(msgs[..n]) + ItemsOf(msgs[n])
  {
    assert msgs[..n + 1][..n] == msgs[..n];
    assert msgs[..n + 1] == msgs[..n] + [msgs[n]];
  }

  /** The first message that cannot be translated. */
  predicate FailsFirst(msgs: seq<ChatMessage>, n: int) {
    0 <= n < |msgs| && AllTranslatable(msgs[..n]) && !Translatable(msgs[n])
  }

  /** Fails exactly when some message cannot be translated, for what is wrong with the first. */
  method FromChatCompletions(msgs: seq<ChatMessage>) returns (r: Result<Envelope, Failure>)
    ensures r.Ok? <==> AllTranslatable(msgs)
    ensures r.Err? ==> exists n :: FailsFirst(msgs, n) && r.error == MessageFailure(msgs[n])
    ensures r.Ok? ==> r.value == Envelope(Instructions(msgs), Input(msgs))
  {
    var env := Envelope("", []);
    var n := 0;
    while n < |msgs|
      invariant 0 <= n <= |msgs|
      invariant AllTranslatable(msgs[..n]) && env == Envelope(Instructions(msgs[..n]), Input(msgs[..n]))
    {
      UpTo(msgs, n);
      var step := OneMessage(msgs[n], env.instructions, env.input);
      if step.Err? {
        assert FailsFirst(msgs, n);
        return Err(step.error);
      }
      env := step.value;
      n := n + 1;
    }
    assert msgs[..n] == msgs;
    r := Ok(env);
  }

  /** The body of the loop. */
  method OneMessage(m: ChatMessage, instr: string, input: seq<InputItem>) returns (r: Result<Envelope, Failure>)
    ensures r.Ok? <==> Translatable(m)
    ensures r.Err? ==> r.error == MessageFailure(m)
    ensures r.Ok? ==> r.value == Envelope(Separated(instr, SystemText(m)), input + ItemsOf(m))
  {
    if !KnownRole(m.role) {
      return Err(Unsupported);
    }
    var d := DecodeContent(m.content);
    if d.Err? {
      return Err(d.error);
    }
    var parts := d.value;
    if (IsSystem(m.role) || m.role == "tool") && HasImage(parts) {
      return Err(Translation);
    }
    if IsSystem(m.role) {
      assert input + [] == input;
      return Ok(Envelope(Separated(instr, JoinTexts(parts)), input));
    }
    var out := input;
    if m.role == "tool" {
      out := out + [ResultIn(m.toolCallId, JoinTexts(parts))];
    } else {
      if |parts| > 0 {
        out := out + [MessageIn(m.role, Typed(EncodedAll(parts)))];
      } else {
        assert out + [] == out;
      }
      if m.role == "assistant" {
        out := AppendCalls(out, m.toolCalls);
        Assoc(input, MessageItems("assistant", parts), CallItems(m.toolCalls));
      }
    }
    r := Ok(Envelope(instr, out));
  }

  // ---- Responses to Chat Completions ----

  datatype OutContent = Nil | Plain(text: string) | PartList(parts: seq<Part>)

  datatype OutMessage = OutMessage(role: string, content: OutContent, toolCalls: seq<ToolCall>, toolCallId: string)

  /** Nothing, one string, or typed parts. */
  function RespContent(parts: seq<Part>): OutContent {
    if parts == [] then Nil
    else if |parts| == 1 && parts[0].Text? then Plain(parts[0].text)
    else PartList(parts)
  }

  predicate ItemOk(it: InputItem) {
    match it
    case MessageIn(role, c) =>
      ContentOk(c) && (role == "user" || role == "assistant" || (IsSystem(role) && !HasImage(Parts(c))))
    case UnknownIn => false
    case _ => true
  }

  function SystemMessage(text: string): seq<OutMessage> {
    if text != "" then [OutMessage("system", Plain(text), [], "")] else []
  }

  /** Consecutive calls join the assistant message before them, if that has no content. */
  function AddCall(msgs: seq<OutMessage>, call: ToolCall): seq<OutMessage> {
    var n := |msgs| - 1;
    if msgs != [] && msgs[n].role == "assistant" && msgs[n].content.Nil?
    then msgs[n := msgs[n].(toolCalls := msgs[n].toolCalls + [call])]
    else msgs + [OutMessage("assistant", Nil, [call], "")]
  }

  function AddItem(msgs: seq<OutMessage>, it: InputItem): seq<OutMessage> {
    match it
    case MessageIn(role, c) =>
      if IsSystem(role) then msgs + SystemMessage(JoinTexts(Parts(c)))
      else if RespContent(Parts(c)).Nil? then msgs
      else msgs + [OutMessage(role, RespContent(Parts(c)), [], "")]
    case CallIn(id, name, args) => AddCall(msgs, ToolCall(id, name, DefaultArgs(args)))
    case ResultIn(id, output) => msgs + [OutMessage("tool", Plain(output), [], id)]
    case _ => msgs
  }

  function Messages(instructions: string, items: seq<InputItem>): seq<OutMessage>
    decreases |items|
  {
    if items == [] then SystemMessage(instructions) else AddItem(Messages(instructions, items[..|items| - 1]), items[|items| - 1])
  }

  predicate AllItemsOk(items: seq<InputItem>) {
    forall i :: 0 <= i < |items| ==> ItemOk(items[i])
  }

  /** What is wrong with an item that is refused. */
  function ItemFailure(it: InputItem): Failure {
    match it
    case MessageIn(role, c) =>
      if FirstUnknown(c) || (ContentOk(c) && role !in {"user", "assistant", "system", "developer"}) then Unsupported else Translation
    case _ => Unsupported
  }

  /** The first item that cannot be represented. */
  predicate ItemFailsFirst(items: seq<InputItem>, n: int) {
    0 <= n < |items| && AllItemsOk(items[..n]) && !ItemOk(items[n])
  }

  method ResponsesToChat(env: Envelope) returns (r: Result<seq<OutMessage>, Failure>)
    ensures r.Ok? <==> AllItemsOk(env.input)
    ensures r.Err? ==> exists n :: ItemFailsFirst(env.input, n) && r.error == ItemFailure(env.input[n])
    ensures r.Ok? ==> r.value == Messages(env.instructions, env.input)
  {
    var out: seq<OutMessage> := [];
    if env.instructions != "" {
      out := [OutMessage("system", Plain(env.instructions), [], "")];
    }
    var n := 0;
    while n < |env.input|
      invariant 0 <= n <= |env.input|
      invariant AllItemsOk(env.input[..n]) && out == Messages(env.instructions, env.input[..n])
    {
      var item := env.input[n];
      assert env.input[..n + 1][..n] == env.input[..n];
      var step := OneItem(out, item);
      if step.Err? {
        assert ItemFailsFirst(env.input, n);
        return Err(step.error);
      }
      out := step.value;
      n := n + 1;
    }
    assert env.input[..n] == env.input;
    r := Ok(out);
  }

  /** The body of the loop. */
  method OneItem(msgs: seq<OutMessage>, item: InputItem) returns (r: Result<seq<OutMessage>, Failure>)
    ensures r.Ok? <==> ItemOk(item)
    ensures r.Err? ==> r.error == ItemFailure(item)
    ensures r.Ok? ==> r.value == AddItem(msgs, item)
  {
    var out := msgs;
    match item
    case MessageIn(role, c) =>
      var d := DecodeContent(c);
      if d.Err? {
        return Err(d.error);
      }
      var content := RespContent(d.value);
      if IsSystem(role) {
        if HasImage(d.value) {
          return Err(Translation);
        }
        var text := JoinTexts(d.value);
        out := out + SystemMessage(text);
      } else if role == "user" || role == "assistant" {
        if !content.Nil? {
          out := out + [OutMessage(role, content, [], "")];
        }
      } else {
        return Err(Unsupported);
      }
      r := Ok(out);
    case CallIn(id, name, args) =>
      var call := ToolCall(id, name, DefaultArgs(args));
      var n := |out|;
      if n > 0 && out[n - 1].role == "assistant" && out[n - 1].content.Nil? {
        out := out[n - 1 := out[n - 1].(toolCalls := out[n - 1].toolCalls + [call])];
      } else {
        out := out + [OutMessage("assistant", Nil, [call], "")];
      }
      r := Ok(out);
    case ResultIn(id, output) => r := Ok(out + [OutMessage("tool", Plain(output), [], id)]);
    case ReasoningIn(_) => r := Ok(out);
    case UnknownIn => r := Err(Unsupported);
  }

  // ---- atoms ----

  /** The smallest things a conversation is made of. */
  datatype Atom =
    | TextAtom(role: string, text: string)
    | ImageAtom(role: string, url: string)
    | CallAtom(id: string, name: string, args: string)
    | ResultAtom(id: string, text: string)
    | UnreadableAtom

  function PartAtoms(role: string, parts: seq<Part>): seq<Atom> {
    seq(|parts|, i requires 0 <= i < |parts| => if parts[i].Text? then TextAtom(role, parts[i].text) else ImageAtom(role, parts[i].url))
  }

  /** Absent arguments count as the empty object. */
  function CallAtoms(calls: seq<ToolCall>): seq<Atom> {
    seq(|calls|, i requires 0 <= i < |calls| => CallAtom(calls[i].id, calls[i].name, DefaultArgs(calls[i].args)))
  }

  function AtomsOfMessage(m: ChatMessage): seq<Atom> {
    var parts := Parts(m.content);
    if m.role == "user" then PartAtoms("user", parts)
    else if m.role == "assistant" then PartAtoms("assistant", parts) + CallAtoms(m.toolCalls)
    else if m.role == "tool" then [ResultAtom(m.toolCallId, JoinTexts(parts))]
    else []
  }

  function AtomsIn(msgs: seq<ChatMessage>): seq<Atom>
    decreases |msgs|
  {
    if msgs == [] then [] else AtomsIn(msgs[..|msgs| - 1]) + AtomsOfMessage(msgs[|msgs| - 1])
  }

  function OutParts(c: OutContent): seq<Part> {
    match c
    case Nil => []
    case Plain(t) => [Text(t)]
    case PartList(parts) => parts
  }

  function AtomsOfOut(m: OutMessage): seq<Atom> {
    if m.role == "tool" then [ResultAtom(m.toolCallId, JoinTexts(OutParts(m.content)))]
    else PartAtoms(m.role, OutParts(m.content)) + CallAtoms(m.toolCalls)
  }

  function AtomsOut(msgs: seq<OutMessage>): seq<Atom>
    decreases |msgs|
  {
    if msgs == [] then [] else AtomsOut(msgs[..|msgs| - 1]) + AtomsOfOut(msgs[|msgs| - 1])
  }

  /** A system or developer text, unless it is empty. */
  function SystemAtoms(text: string): seq<Atom> {
    if text != "" then [TextAtom("system", text)] else []
  }

  function AtomsOfItem(it: InputItem): seq<Atom> {
    match it
    case MessageIn(role, c) =>
      if role == "user" || role == "assistant" then PartAtoms(role, Parts(c))
      else if IsSystem(role) then SystemAtoms(JoinTexts(Parts(c)))
      else []
    case CallIn(id, name, args) => [CallAtom(id, name, DefaultArgs(args))]
    case ResultIn(id, output) => [ResultAtom(id, output)]
    case _ => []
  }

  function AtomsOfItems(items: seq<InputItem>): seq<Atom>
    decreases |items|
  {
    if items == [] then [] else AtomsOfItems(items[..|items| - 1]) + AtomsOfItem(items[|items| - 1])
  }

  /** The system messages of the result, in order. */
  function SystemsOut(msgs: seq<OutMessage>): seq<OutMessage>
    decreases |msgs|
  {
    if msgs == [] then []
    else SystemsOut(msgs[..|msgs| - 1]) + if msgs[|msgs| - 1].role == "system" then [msgs[|msgs| - 1]] else []
  }

  /** The system messages of the items, in order. */
  function SystemItems(items: seq<InputItem>): seq<OutMessage>
    decreases |items|
  {
    if items == [] then [] else SystemItems(items[..|items| - 1]) + SystemItem(items[|items| - 1])
  }

  function SystemItem(it: InputItem): seq<OutMessage> {
    if it.MessageIn? && IsSystem(it.role) then SystemMessage(JoinTexts(Parts(it.content))) else []
  }

  // ---- Responses to Chat Completions keeps the atoms ----

  lemma {:induction false} OutNext(msgs: seq<OutMessage>, m: OutMessage)
    ensures AtomsOut(msgs + [m]) == AtomsOut(msgs) + AtomsOfOut(m)
    ensures SystemsOut(msgs + [m]) == SystemsOut(msgs) + if m.role == "system" then [m] else []
  {
    assert (msgs + [m])[..|msgs|] == msgs;
  }

  lemma CallNext(calls: seq<ToolCall>, call: ToolCall)
    ensures CallAtoms(calls + [call]) == CallAtoms(calls) + [CallAtom(call.id, call.name, DefaultArgs(call.args))]
  {
  }

  /** A call joins the last message, `m`. */
  lemma {:induction false} JoinCallAtoms(before: seq<OutMessage>, m: OutMessage, call: ToolCall)
    requires m.role == "assistant"
    ensures var m' := m.(toolCalls := m.toolCalls + [call]);
            && AtomsOut(before + [m']) == AtomsOut(before + [m]) + [CallAtom(call.id, call.name, DefaultArgs(call.args))]
            && SystemsOut(before + [m']) == SystemsOut(before + [m])
  {
    var m' := m.(toolCalls := m.toolCalls + [call]);
    var atom := CallAtom(call.id, call.name, DefaultArgs(call.args));
    CallNext(m.toolCalls, call);
    OutNext(before, m);
    OutNext(before, m');
    var parts := PartAtoms(m.role, OutParts(m.content));
    Assoc(parts, CallAtoms(m.toolCalls), [atom]);
    Assoc(AtomsOut(before), parts + CallAtoms(m.toolCalls), [atom]);
  }

  lemma {:induction false} AddCallAtoms(msgs: seq<OutMessage>, call: ToolCall)
    ensures AtomsOut(AddCall(msgs, call)) == AtomsOut(msgs) + [CallAtom(call.id, call.name, DefaultArgs(call.args))]
    ensures SystemsOut(AddCall(msgs, call)) == SystemsOut(msgs)
  {
    var n := |msgs| - 1;
    if msgs != [] && msgs[n].role == "assistant" && msgs[n].content.Nil? {
      Last(msgs);
      JoinCallAtoms(msgs[..n], msgs[n], call);
      assert AddCall(msgs, call) == msgs[..n] + [msgs[n].(toolCalls := msgs[n].toolCalls + [call])];
    } else {
      var m := OutMessage("assistant", Nil, [call], "");
      OutNext(msgs, m);
      assert [] + [call] == [call];
      CallNext([], call);
      assert AtomsOfOut(m) == [CallAtom(call.id, call.name, DefaultArgs(call.args))];
      assert SystemsOut(msgs) + [] == SystemsOut(msgs);
    }
  }

  lemma ContentAtoms(role: string, parts: seq<Part>)
    ensures PartAtoms(role, OutParts(RespContent(parts))) == PartAtoms(role, parts)
  {
    if |parts| == 1 && parts[0].Text? {
      assert parts == [Text(parts[0].text)];
    }
  }

  lemma PlainResult(id: string, output: string)
    ensures AtomsOfOut(OutMessage("tool", Plain(output), [], id)) == [ResultAtom(id, output)]
  {
    var parts := [Text(output)];
    assert parts[..0] == [];
    assert JoinTexts(parts) == JoinTexts([]) + output;
    assert JoinTexts([]) == "" && "" + output == output;
  }

  /** A system text becomes a message of its own, unless it is empty. */
  lemma {:induction false} AddSystemAtoms(msgs: seq<OutMessage>, text: string)
    ensures AtomsOut(msgs + SystemMessage(text)) == AtomsOut(msgs) + SystemAtoms(text)
    ensures SystemsOut(msgs + SystemMessage(text)) == SystemsOut(msgs) + SystemMessage(text)
  {
    if text != "" {
      var m := OutMessage("system", Plain(text), [], "");
      OutNext(msgs, m);
      assert AtomsOfOut(m) == [TextAtom("system", text)];
    } else {
      assert msgs + [] == msgs && AtomsOut(msgs) + [] == AtomsOut(msgs) && SystemsOut(msgs) + [] == SystemsOut(msgs);
    }
  }

  /** A user or assistant message without content is left out. */
  lemma {:induction false} AddContentAtoms(msgs: seq<OutMessage>, role: string, parts: seq<Part>)
    requires role == "user" || role == "assistant"
    ensures var msgs' := if RespContent(parts).Nil? then msgs else msgs + [OutMessage(role, RespContent(parts), [], "")];
            AtomsOut(msgs') == AtomsOut(msgs) + PartAtoms(role, parts) && SystemsOut(msgs') == SystemsOut(msgs)
  {
    ContentAtoms(role, parts);
    assert SystemsOut(msgs) + [] == SystemsOut(msgs);
    if RespContent(parts).Nil? {
      assert AtomsOut(msgs) + [] == AtomsOut(msgs);
    } else {
      OutNext(msgs, OutMessage(role, RespContent(parts), [], ""));
      assert PartAtoms(role, parts) + [] == PartAtoms(role, parts);
    }
  }

  lemma {:induction false} AddItemAtoms(msgs: seq<OutMessage>, it: InputItem)
    requires ItemOk(it)
    ensures AtomsOut(AddItem(msgs, it)) == AtomsOut(msgs) + AtomsOfItem(it)
    ensures SystemsOut(AddItem(msgs, it)) == SystemsOut(msgs) + SystemItem(it)
  {
    assert AtomsOut(msgs) + [] == AtomsOut(msgs) && SystemsOut(msgs) + [] == SystemsOut(msgs);
    match it
    case MessageIn(role, c) =>
      if IsSystem(role) {
        AddSystemAtoms(msgs, JoinTexts(Parts(c)));
      } else {
        AddContentAtoms(msgs, role, Parts(c));
      }
    case CallIn(id, name, args) =>
      AddCallAtoms(msgs, ToolCall(id, name, DefaultArgs(args)));
      DefaultArgsIdempotent(args);
    case ResultIn(id, output) =>
      PlainResult(id, output);
      OutNext(msgs, OutMessage("tool", Plain(output), [], id));
    case _ =>
  }

  /** A leading system message stays where it is. */
  lemma AddItemKeepsSystem(text: string, msgs: seq<OutMessage>, it: InputItem)
    requires SystemMessage(text) <= msgs
    ensures SystemMessage(text) <= AddItem(msgs, it)
  {
    if it.CallIn? {
      var n := |msgs| - 1;
      if msgs != [] && msgs[n].role == "assistant" && msgs[n].content.Nil? {
        assert text != "" ==> n > 0 && msgs[0] == SystemMessage(text)[0];
      }
    }
  }

  lemma OkUpTo(items: seq<InputItem>, n: nat)
    requires n < |items| && AllItemsOk(items)
    ensures AllItemsOk(items[..n]) && ItemOk(items[n])
  {
  }

  predicate NoSystemItems(items: seq<InputItem>) {
    forall i :: 0 <= i < |items| && items[i].MessageIn? ==> !IsSystem(items[i].role)
  }

  /** The messages say the instructions and then the items. */
  predicate Kept(instructions: string, items: seq<InputItem>, out: seq<OutMessage>) {
    && AtomsOut(out) == SystemAtoms(instructions) + AtomsOfItems(items)
    && SystemsOut(out) == SystemMessage(instructions) + SystemItems(items)
    && SystemMessage(instructions) <= out
  }

  lemma {:induction false} KeptNext(instructions: string, before: seq<InputItem>, it: InputItem, items: seq<InputItem>, out: seq<OutMessage>)
    requires Kept(instructions, before, out) && ItemOk(it) && items != [] && before == items[..|items| - 1] && it == items[|items| - 1]
    ensures Kept(instructions, items, AddItem(out, it))
  {
    AddItemKeepsSystem(instructions, out, it);
    AddItemAtoms(out, it);
    Assoc(SystemAtoms(instructions), AtomsOfItems(before), AtomsOfItem(it));
    Assoc(SystemMessage(instructions), SystemItems(before), SystemItem(it));
  }

  lemma {:induction false} NoneKept(instructions: string)
    ensures Kept(instructions, [], SystemMessage(instructions))
  {
    AddSystemAtoms([], instructions);
    assert [] + SystemMessage(instructions) == SystemMessage(instructions);
    assert [] + SystemAtoms(instructions) == SystemAtoms(instructions);
    assert SystemAtoms(instructions) + [] == SystemAtoms(instructions);
    assert SystemMessage(instructions) + [] == SystemMessage(instructions);
  }

  lemma {:induction false} AllKept(instructions: string, items: seq<InputItem>)
    requires AllItemsOk(items)
    ensures Kept(instructions, items, Messages(instructions, items))
    decreases |items|
  {
    if items == [] {
      NoneKept(instructions);
    } else {
      var before, it := items[..|items| - 1], items[|items| - 1];
      OkUpTo(items, |items| - 1);
      AllKept(instructions, before);
      KeptNext(instructions, before, it, items, Messages(instructions, before));
    }
  }

  /**
   * The instructions lead; then come the atoms of the items in order, system and developer texts
   * among them. The system messages are those texts, the empty ones left out.
   */
  lemma {:induction false} MessagesKeepAtoms(instructions: string, items: seq<InputItem>)
    requires AllItemsOk(items)
    ensures var out := Messages(instructions, items);
            && AtomsOut(out) == SystemAtoms(instructions) + AtomsOfItems(items)
            && SystemsOut(out) == SystemMessage(instructions) + SystemItems(items)
            && SystemMessage(instructions) <= out
  {
    AllKept(instructions, items);
  }

  lemma {:induction false} NoSystemMessages(items: seq<InputItem>)
    requires NoSystemItems(items)
    ensures SystemItems(items) == []
    decreases |items|
  {
    if items != [] {
      assert forall i :: 0 <= i < |items| - 1 ==> items[..|items| - 1][i] == items[i];
      NoSystemMessages(items[..|items| - 1]);
    }
  }

  // ---- Chat Completions to Responses keeps the atoms ----

  lemma {:induction false} ItemsNext(items: seq<InputItem>, it: InputItem)
    ensures AtomsOfItems(items + [it]) == AtomsOfItems(items) + AtomsOfItem(it)
  {
    assert (items + [it])[..|items|] == items;
  }

  lemma {:induction false} AppendNext(a: seq<InputItem>, b: seq<InputItem>, it: InputItem, all: seq<InputItem>)
    requires AtomsOfItems(a + b) == AtomsOfItems(a) + AtomsOfItems(b) && all == b + [it]
    ensures AtomsOfItems(a + all) == AtomsOfItems(a) + AtomsOfItems(all)
  {
    Assoc(a, b, [it]);
    ItemsNext(a + b, it);
    ItemsNext(b, it);
    Assoc(AtomsOfItems(a), AtomsOfItems(b), AtomsOfItem(it));
  }

  lemma {:induction false} ItemsAppend(a: seq<InputItem>, b: seq<InputItem>)
    ensures AtomsOfItems(a + b) == AtomsOfItems(a) + AtomsOfItems(b)
    decreases |b|
  {
    if b == [] {
      assert a + b == a && AtomsOfItems(a) + [] == AtomsOfItems(a);
    } else {
      ItemsAppend(a, b[..|b| - 1]);
      AppendNext(a, b[..|b| - 1], b[|b| - 1], b);
    }
  }

  lemma CallItemsLast(calls: seq<ToolCall>)
    requires calls != []
    ensures var c := calls[|calls| - 1];
            CallItems(calls) == CallItems(calls[..|calls| - 1]) + [CallIn(c.id, c.name, DefaultArgs(c.args))]
  {
  }

  lemma {:induction false} CallItemsAtoms(calls: seq<ToolCall>)
    ensures AtomsOfItems(CallItems(calls)) == CallAtoms(calls) && AllItemsOk(CallItems(calls)) && NoSystemItems(CallItems(calls))
    decreases |calls|
  {
    if calls != [] {
      var before, c := calls[..|calls| - 1], calls[|calls| - 1];
      CallItemsAtoms(before);
      CallItemsLast(calls);
      ItemsNext(CallItems(before), CallIn(c.id, c.name, DefaultArgs(c.args)));
      DefaultArgsIdempotent(c.args);
      CallNext(before, c);
      assert calls == before + [c];
    }
  }

  lemma MessageItemsAtoms(role: string, c: Content)
    requires ContentOk(c) && (role == "user" || role == "assistant")
    ensures var items := MessageItems(role, Parts(c));
            AtomsOfItems(items) == PartAtoms(role, Parts(c)) && AllItemsOk(items) && NoSystemItems(items)
  {
    var parts := Parts(c);
    PartsAreClean(c);
    DecodeEncoded(parts);
    if parts != [] {
      var it := MessageIn(role, Typed(EncodedAll(parts)));
      assert [] + [it] == [it];
      ItemsNext([], it);
      assert [] + PartAtoms(role, parts) == PartAtoms(role, parts);
    }
  }

  lemma OkAppend(a: seq<InputItem>, b: seq<InputItem>)
    requires AllItemsOk(a) && NoSystemItems(a) && AllItemsOk(b) && NoSystemItems(b)
    ensures AllItemsOk(a + b) && NoSystemItems(a + b)
  {
  }

  lemma ItemsOfAtoms(m: ChatMessage)
    requires Translatable(m)
    ensures AtomsOfItems(ItemsOf(m)) == AtomsOfMessage(m) && AllItemsOk(ItemsOf(m)) && NoSystemItems(ItemsOf(m))
  {
    if m.role == "user" {
      MessageItemsAtoms("user", m.content);
    } else if m.role == "assistant" {
      MessageItemsAtoms("assistant", m.content);
      CallItemsAtoms(m.toolCalls);
      OkAppend(MessageItems("assistant", Parts(m.content)), CallItems(m.toolCalls));
      ItemsAppend(MessageItems("assistant", Parts(m.content)), CallItems(m.toolCalls));
    } else if m.role == "tool" {
      var it := ResultIn(m.toolCallId, JoinTexts(Parts(m.content)));
      assert [] + [it] == [it];
      ItemsNext([], it);
    }
  }

  lemma {:induction false} InputKeepsAtoms(msgs: seq<ChatMessage>)
    requires AllTranslatable(msgs)
    ensures AtomsOfItems(Input(msgs)) == AtomsIn(msgs) && AllItemsOk(Input(msgs)) && NoSystemItems(Input(msgs))
    decreases |msgs|
  {
    if msgs != [] {
      var before, m := msgs[..|msgs| - 1], msgs[|msgs| - 1];
      InputKeepsAtoms(before);
      ItemsOfAtoms(m);
      OkAppend(Input(before), ItemsOf(m));
      ItemsAppend(Input(before), ItemsOf(m));
    }
  }

  // ---- main results ----

  /** The non-empty system texts, in order. */
  function SystemTexts(msgs: seq<ChatMessage>): seq<string>
    decreases |msgs|
  {
    if msgs == [] then []
    else
      var t := SystemText(msgs[|msgs| - 1]);
      SystemTexts(msgs[..|msgs| - 1]) + if t != "" then [t] else []
  }

  function JoinBlank(texts: seq<string>): string
    decreases |texts|
  {
    if texts == [] then ""
    else if |texts| == 1 then texts[0]
    else JoinBlank(texts[..|texts| - 1]) + "\n\n" + texts[|texts| - 1]
  }

  lemma {:induction false} InstructionsAreJoined(msgs: seq<ChatMessage>)
    ensures Instructions(msgs) == JoinBlank(SystemTexts(msgs))
    ensures Instructions(msgs) == "" <==> SystemTexts(msgs) == []
    decreases |msgs|
  {
    if msgs != [] {
      var before := msgs[..|msgs| - 1];
      InstructionsAreJoined(before);
      var t, texts := SystemText(msgs[|msgs| - 1]), SystemTexts(before);
      if t != "" {
        assert (texts + [t])[..|texts|] == texts;
      } else {
        assert texts + [] == texts;
      }
    }
  }

  /**
   * There and back: whenever the forward translation succeeds so does the backward one; the result
   * carries the ordered atoms of all non-system messages after exactly one system message, with the
   * non-empty system texts joined by blank lines, or none when there are none.
   */
  lemma {:induction false} RoundTripKeepsConversation(msgs: seq<ChatMessage>)
    requires AllTranslatable(msgs)
    ensures AllItemsOk(Input(msgs))
    ensures var out := Messages(Instructions(msgs), Input(msgs));
            && AtomsOut(out) == SystemAtoms(JoinBlank(SystemTexts(msgs))) + AtomsIn(msgs)
            && SystemsOut(out) == SystemMessage(JoinBlank(SystemTexts(msgs)))
            && SystemMessage(JoinBlank(SystemTexts(msgs))) <= out
  {
    InputKeepsAtoms(msgs);
    InstructionsAreJoined(msgs);
    MessagesKeepAtoms(Instructions(msgs), Input(msgs));
    NoSystemMessages(Input(msgs));
    assert SystemMessage(Instructions(msgs)) + [] == SystemMessage(Instructions(msgs));
  }

  // ---- which requests are accepted ----

  /** Accepted exactly: user and assistant messages that can be read, system and tool messages that are all text. */
  lemma AcceptedIff(m: ChatMessage)
    ensures Translatable(m) <==>
              || ((m.role == "user" || m.role == "assistant") && Readable(m.content))
              || ((m.role == "system" || m.role == "developer" || m.role == "tool") && TextOnly(m.content))
  {
    ReadableIff(m.content);
  }

  lemma ItemAcceptedIff(it: InputItem)
    ensures ItemOk(it) <==>
              match it
              case MessageIn(role, content) =>
                || ((role == "user" || role == "assistant") && Readable(content))
                || ((role == "system" || role == "developer") && TextOnly(content))
              case UnknownIn => false
              case _ => true
  {
    if it.MessageIn? {
      ReadableIff(it.content);
    }
  }

  // ---- the shape of the messages ----

  /** A string, or parts that a string would not do for. */
  predicate TidyContent(c: OutContent) {
    c.PartList? ==> |c.parts| > 1 || (|c.parts| == 1 && c.parts[0].Image?)
  }

  /** A message says something, and only what its role can: calls are the assistant's, and a call's id is a result's. */
  predicate Tidy(m: OutMessage) {
    && m.role in {"system", "user", "assistant", "tool"} && TidyContent(m.content)
    && (m.content.Nil? ==> m.toolCalls != [])
    && (m.role != "assistant" ==> m.toolCalls == [])
    && (m.role != "tool" ==> m.toolCallId == "")
  }

  predicate AllTidy(msgs: seq<OutMessage>) {
    forall i :: 0 <= i < |msgs| ==> Tidy(msgs[i])
  }

  lemma AddItemTidy(msgs: seq<OutMessage>, it: InputItem)
    requires AllTidy(msgs) && ItemOk(it)
    ensures AllTidy(AddItem(msgs, it))
  {
  }

  /** Every message of a translated Responses request is tidy. */
  lemma {:induction false} MessagesTidy(instructions: string, items: seq<InputItem>)
    requires AllItemsOk(items)
    ensures AllTidy(Messages(instructions, items))
    decreases |items|
  {
    if items != [] {
      OkUpTo(items, |items| - 1);
      MessagesTidy(instructions, items[..|items| - 1]);
      AddItemTidy(Messages(instructions, items[..|items| - 1]), items[|items| - 1]);
    }
  }
}
