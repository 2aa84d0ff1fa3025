/**
 * Two ways to a Messages request: straight from Chat Completions, or through a Responses request. The
 * second refuses images in tool messages; apart from that both succeed on the same conversations, and
 * then they give the same messages.
 */
module RouteParity {
  import opened Wire
  import opened Folds
  import opened RequestParts
  import opened MsgBuilder
  import opened MessagesRequest
  import Trip = RequestRoundTrip

  /** What the items add, and whether each can be translated. */
  predicate Adds(c: Codec, items: seq<InputItem>, ok: bool, adds: seq<Addition>) {
    && (ItemsTranslatable(c, items) <==> ok)
    && ConverseItems(c, "", items).adds == adds
  }

  lemma {:induction false} ConverseNext(c: Codec, instructions: string, items: seq<InputItem>, it: InputItem)
    ensures ConverseItems(c, instructions, items + [it]).adds == ConverseItems(c, instructions, items).adds + AddsOfItem(c, it)
    ensures ItemsTranslatable(c, items + [it]) <==> ItemsTranslatable(c, items) && ItemTranslatable(c, it)
  {
    assert (items + [it])[..|items|] == items;
    ItemsUpTo(c, instructions, items + [it], |items|);
    assert (items + [it])[..|items| + 1] == items + [it];
  }

  lemma {:induction false} AddsNext(c: Codec, items: seq<InputItem>, it: InputItem, all: seq<InputItem>, ok: bool, adds: seq<Addition>)
    requires Adds(c, items, ok, adds) && all == items + [it]
    ensures Adds(c, all, ok && ItemTranslatable(c, it), adds + AddsOfItem(c, it))
  {
    ConverseNext(c, "", items, it);
  }

  lemma {:induction false} AddsOne(c: Codec, it: InputItem)
    ensures Adds(c, [it], ItemTranslatable(c, it), AddsOfItem(c, it))
  {
    assert [] + [it] == [it];
    AddsNext(c, [], it, [it], true, []);
    assert [] + AddsOfItem(c, it) == AddsOfItem(c, it);
  }

  /** Translating `a + b` is translating `a`, then `b`. */
  predicate Appends(c: Codec, a: seq<InputItem>, b: seq<InputItem>) {
    Adds(c, a + b, ItemsTranslatable(c, a) && ItemsTranslatable(c, b), ConverseItems(c, "", a).adds + ConverseItems(c, "", b).adds)
  }

  lemma {:induction false} AppendNothing(c: Codec, a: seq<InputItem>)
    ensures Appends(c, a, [])
  {
    assert a + [] == a && ConverseItems(c, "", a).adds + [] == ConverseItems(c, "", a).adds;
  }

  lemma {:induction false} AppendNext(c: Codec, a: seq<InputItem>, b: seq<InputItem>, it: InputItem, all: seq<InputItem>)
    requires Appends(c, a, b) && all == b + [it]
    ensures Appends(c, a, all)
  {
    Assoc(a, b, [it]);
    ConverseNext(c, "", a + b, it);
    ConverseNext(c, "", b, it);
    Assoc(ConverseItems(c, "", a).adds, ConverseItems(c, "", b).adds, AddsOfItem(c, it));
  }

  lemma {:induction false} ConverseAppend(c: Codec, a: seq<InputItem>, b: seq<InputItem>)
    ensures Appends(c, a, b)
    decreases |b|
  {
    if b == [] {
      AppendNothing(c, a);
    } else {
      Last(b);
      ConverseAppend(c, a, b[..|b| - 1]);
      AppendNext(c, a, b[..|b| - 1], b[|b| - 1], b);
    }
  }

  lemma {:induction false} AddsAppend(c: Codec, a: seq<InputItem>, b: seq<InputItem>, p: bool, x: seq<Addition>, q: bool, y: seq<Addition>)
    requires Adds(c, a, p, x) && Adds(c, b, q, y)
    ensures Adds(c, a + b, p && q, x + y)
  {
    ConverseAppend(c, a, b);
  }

  // ---- one message ----

  lemma {:induction false} CallsAgree(c: Codec, calls: seq<ToolCall>)
    ensures Adds(c, Trip.CallItems(calls), CallsOk(c, calls), CallAdds(c, calls))
    decreases |calls|
  {
    if calls != [] {
      var n := |calls| - 1;
      var before, call := calls[..n], calls[n];
      CallsAgree(c, before);
      Trip.CallItemsLast(calls);
      DefaultArgsIdempotent(call.args);
      var it := CallIn(call.id, call.name, DefaultArgs(call.args));
      AddsNext(c, Trip.CallItems(before), it, Trip.CallItems(calls), CallsOk(c, before), CallAdds(c, before));
      CallAddsNext(c, calls, n);
      assert calls[..n + 1] == calls;
      CallsOkLast(c, calls);
    }
  }

  lemma {:induction false} CallsOkLast(c: Codec, calls: seq<ToolCall>)
    requires calls != []
    ensures CallsOk(c, calls) <==> CallsOk(c, calls[..|calls| - 1]) && CallOk(c, calls[|calls| - 1])
  {
    var n := |calls| - 1;
    CallAddsNext(c, calls, n);
    assert calls[..n + 1] == calls;
  }

  /** Re-encoded parts decode to themselves, so a message item adds what the message adds. */
  lemma {:induction false} PartsAgree(c: Codec, role: string, content: RequestParts.Content)
    requires ContentOk(content) && (role == "user" || role == "assistant")
    ensures var parts := RequestParts.Parts(content);
            Adds(c, Trip.MessageItems(role, parts),
              ImagesOk(c, parts) && (role == "assistant" ==> !HasImage(parts)),
              if role == "user" then UserAdds(c, parts) else TextAdds(parts))
  {
    var parts := RequestParts.Parts(content);
    PartsAreClean(content);
    DecodeEncoded(parts);
    if parts != [] {
      AddsOne(c, MessageIn(role, Typed(EncodedAll(parts))));
    }
  }

  lemma {:induction false} MessageAgrees(c: Codec, m: ChatMessage)
    requires Trip.Translatable(m)
    ensures Adds(c, Trip.ItemsOf(m), Translatable(c, m), AddsOf(c, m))
  {
    var parts := RequestParts.Parts(m.content);
    if m.role == "user" {
      PartsAgree(c, "user", m.content);
    } else if m.role == "assistant" {
      PartsAgree(c, "assistant", m.content);
      CallsAgree(c, m.toolCalls);
      AddsAppend(c, Trip.MessageItems("assistant", parts), Trip.CallItems(m.toolCalls),
        ImagesOk(c, parts) && !HasImage(parts), TextAdds(parts), CallsOk(c, m.toolCalls), CallAdds(c, m.toolCalls));
    } else if m.role == "tool" {
      AddsOne(c, ResultIn(m.toolCallId, JoinTexts(parts)));
    }
  }

  // ---- the whole conversation ----

  lemma {:induction false} InputAgrees(c: Codec, msgs: seq<ChatMessage>)
    requires Trip.AllTranslatable(msgs)
    ensures Adds(c, Trip.Input(msgs), AllTranslatable(c, msgs), Converse(c, msgs).adds)
    decreases |msgs|
  {
    if msgs != [] {
      var n := |msgs| - 1;
      var before, m := msgs[..n], msgs[n];
      InputAgrees(c, before);
      MessageAgrees(c, m);
      AddsAppend(c, Trip.Input(before), Trip.ItemsOf(m),
        AllTranslatable(c, before), Converse(c, before).adds, Translatable(c, m), AddsOf(c, m));
      UpTo(c, msgs, n);
      assert msgs[..n + 1] == msgs;
    }
  }

  /** Without system items, the instructions are the whole system field, and do not touch the rest. */
  lemma {:induction false} InstructionsOnly(c: Codec, instructions: string, items: seq<InputItem>)
    requires Trip.NoSystemItems(items)
    ensures ConverseItems(c, instructions, items) ==
            Conversation(if instructions != "" then [instructions] else [], ConverseItems(c, "", items).adds)
    decreases |items|
  {
    if items != [] {
      var before := items[..|items| - 1];
      assert forall i :: 0 <= i < |before| ==> before[i] == items[i];
      InstructionsOnly(c, instructions, before);
      var system := if instructions != "" then [instructions] else [];
      assert system + [] == system;
    }
  }

  function NonEmpty(texts: seq<string>): seq<string>
    decreases |texts|
  {
    if texts == [] then []
    else NonEmpty(texts[..|texts| - 1]) + if texts[|texts| - 1] != "" then [texts[|texts| - 1]] else []
  }

  lemma {:induction false} SystemAgrees(c: Codec, msgs: seq<ChatMessage>)
    ensures NonEmpty(Converse(c, msgs).system) == Trip.SystemTexts(msgs)
    decreases |msgs|
  {
    if msgs != [] {
      var before, m := msgs[..|msgs| - 1], msgs[|msgs| - 1];
      SystemAgrees(c, before);
      var was := Converse(c, before).system;
      assert was + [] == was && Trip.SystemTexts(before) + [] == Trip.SystemTexts(before);
      if IsSystem(m.role) {
        var text := JoinTexts(RequestParts.Parts(m.content));
        assert (was + [text])[..|was|] == was;
      }
    }
  }

  /** No tool message carries an image. */
  predicate NoToolImages(msgs: seq<ChatMessage>) {
    forall i :: 0 <= i < |msgs| && msgs[i].role == "tool" ==> !HasImage(RequestParts.Parts(msgs[i].content))
  }

  /** Both legs of the longer route succeed. */
  predicate ViaSucceeds(c: Codec, msgs: seq<ChatMessage>) {
    Trip.AllTranslatable(msgs) && ItemsTranslatable(c, Trip.Input(msgs))
  }

  /** What the first leg refuses, the direct route refuses too, but for tool images. */
  lemma FirstLegIff(c: Codec, msgs: seq<ChatMessage>)
    ensures Trip.AllTranslatable(msgs) ==> NoToolImages(msgs)
    ensures AllTranslatable(c, msgs) && NoToolImages(msgs) ==> Trip.AllTranslatable(msgs)
  {
  }

  /**
   * Every conversation: the longer route succeeds if and only if the direct one does and no tool
   * message carries an image; then both build the same messages, and the longer route's system field
   * is the shorter one's non-empty texts, joined.
   */
  lemma {:induction false} RoutesAgree(c: Codec, msgs: seq<ChatMessage>)
    ensures ViaSucceeds(c, msgs) <==> AllTranslatable(c, msgs) && NoToolImages(msgs)
    ensures ViaSucceeds(c, msgs) ==>
              var direct, via := Converse(c, msgs), ConverseItems(c, Trip.Instructions(msgs), Trip.Input(msgs));
              && RenderAll(Groups(via.adds)) == RenderAll(Groups(direct.adds))
              && via.system == if NonEmpty(direct.system) == [] then [] else [Trip.JoinBlank(NonEmpty(direct.system))]
  {
    FirstLegIff(c, msgs);
    if Trip.AllTranslatable(msgs) {
      InputAgrees(c, msgs);
      Trip.InputKeepsAtoms(msgs);
      InstructionsOnly(c, Trip.Instructions(msgs), Trip.Input(msgs));
      Trip.InstructionsAreJoined(msgs);
      SystemAgrees(c, msgs);
    }
  }
}
