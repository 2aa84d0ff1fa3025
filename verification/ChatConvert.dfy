/** Non-streaming Chat Completions to Responses. */
module ChatConvert {
  import opened Wire
  import opened Assembler
  import opened RequestParts
  import opened ChatUpstream

  datatype ChatChoice = ChatChoice(content: Content, toolCalls: seq<ToolCall>, finish: string)

  datatype ChatBody = ChatBody(id: string, model: string, choices: seq<ChatChoice>, usage: Option<Tokens>)

  datatype ChatResult = ChatResult(id: string, model: string, status: string, output: seq<Item>, usage: Option<ResponsesTokens>)

  function CallItem(call: ToolCall): Item {
    Item.CallItem(call.id, call.name, DefaultArgs(call.args))
  }

  function CallItems(calls: seq<ToolCall>): seq<Item> {
    seq(|calls|, i requires 0 <= i < |calls| => CallItem(calls[i]))
  }

  /** A first choice whose content is readable and holds text only. */
  predicate Convertible(resp: ChatBody) {
    resp.choices != [] && ContentOk(resp.choices[0].content) && !HasImage(RequestParts.Parts(resp.choices[0].content))
  }

  function TokensOf(usage: Option<Tokens>): Option<ResponsesTokens> {
    if usage.None? then None
    else Some(ResponsesTokensFrom(usage.value.prompt, usage.value.completion, usage.value.cached, None, usage.value.reasoning))
  }

  /** The message leads, if it has text; the calls follow in order. */
  function Converted(resp: ChatBody): ChatResult
    requires Convertible(resp)
  {
    var choice := resp.choices[0];
    var text := JoinTexts(RequestParts.Parts(choice.content));
    ChatResult(resp.id, resp.model, StatusFromFinish(choice.finish),
               Placed(MessageItem(resp.id, text), CallItems(choice.toolCalls), false, 0), TokensOf(resp.usage))
  }

  method ChatToResponses(resp: ChatBody) returns (r: Result<ChatResult, Failure>)
    ensures r.Ok? <==> Convertible(resp)
    ensures r.Err? ==> r.error == if resp.choices != [] && FirstUnknown(resp.choices[0].content) then Unsupported else Translation
    ensures r.Ok? ==> r.value == Converted(resp)
  {
    if |resp.choices| == 0 {
      return Err(Translation);
    }
    var choice := resp.choices[0];
    var d := DecodeContent(choice.content);
    if d.Err? {
      return Err(d.error);
    }
    var oa := new OutputAssembler(resp.id);
    var ok := AddTexts(oa, d.value);
    if !ok {
      return Err(Translation);
    }
    assert "" + JoinTexts(d.value) == JoinTexts(d.value);
    AddCalls(oa, choice.toolCalls);
    OutputIsPlaced(oa.View(), CallItems(choice.toolCalls));
    var output := oa.Render();
    var usage := None;
    if resp.usage.Some? {
      var u := resp.usage.value;
      usage := Some(ResponsesTokensFrom(u.prompt, u.completion, u.cached, None, u.reasoning));
    }
    r := Ok(ChatResult(resp.id, resp.model, StatusFromFinish(choice.finish), output, usage));
  }

  lemma TextsNext(parts: seq<Part>, n: nat)
    requires n < |parts|
    ensures HasImage(parts[..n + 1]) <==> HasImage(parts[..n]) || parts[n].Image?
    ensures JoinTexts(parts[..n + 1]) == JoinTexts(parts[..n]) + if parts[n].Text? then parts[n].text else ""
  {
    assert parts[..n + 1][..n] == parts[..n];
    assert parts[..n + 1] == parts[..n] + [parts[n]];
    if HasImage(parts[..n]) {
      var i :| 0 <= i < n && parts[..n][i].Image?;
      assert parts[..n + 1][i].Image?;
    }
    if parts[n].Image? {
      assert parts[..n + 1][n].Image?;
    }
  }

  /** Stops at the first part that is not text. */
  method AddTexts(oa: OutputAssembler, parts: seq<Part>) returns (ok: bool)
    requires oa.View() == Empty(oa.messageId)
    modifies oa
    ensures ok <==> !HasImage(parts)
    ensures ok ==> oa.View() == Empty(oa.messageId).AddText(JoinTexts(parts))
  {
    for n := 0 to |parts|
      invariant !HasImage(parts[..n])
      invariant oa.View() == Empty(oa.messageId).AddText(JoinTexts(parts[..n]))
    {
      TextsNext(parts, n);
      if parts[n].Image? {
        assert HasImage(parts);
        return false;
      }
      oa.AddText(parts[n].text);
    }
    assert parts[..|parts|] == parts;
    ok := true;
  }

  method AddCalls(oa: OutputAssembler, calls: seq<ToolCall>)
    requires Holds(oa.View(), []) && oa.View().textSlot == -1
    modifies oa
    ensures Holds(oa.View(), CallItems(calls))
    ensures oa.View().textSlot == -1 && oa.View().Message() == old(oa.View().Message())
  {
    for n := 0 to |calls|
      invariant Holds(oa.View(), CallItems(calls[..n]))
      invariant oa.View().textSlot == -1 && oa.View().Message() == old(oa.View().Message())
    {
      assert CallItems(calls[..n + 1]) == CallItems(calls[..n]) + [CallItem(calls[n])];
      oa.AppendFunctionCall(calls[n].id, calls[n].name, DefaultArgs(calls[n].args));
    }
    assert calls[..|calls|] == calls;
  }

  /** Accepted exactly: responses with a choice whose content is all text. */
  lemma AcceptedIff(resp: ChatBody)
    ensures Convertible(resp) <==> resp.choices != [] && TextOnly(resp.choices[0].content)
  {
    if resp.choices != [] {
      ReadableIff(resp.choices[0].content);
    }
  }
}
