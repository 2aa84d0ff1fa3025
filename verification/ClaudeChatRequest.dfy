/**
 * Messages requests to Chat Completions requests: user turns keep their order; in an assistant turn
 * the text is joined and leads the tool calls, which keeps the order exactly when no text follows a call.
 */
module ClaudeChatRequest {
  import opened Wire
  import opened Folds
  import opened RequestParts
  import opened RequestRoundTrip
  import C = ClaudeRequest

  // ---- user turns ----

  predicate UserBlockOk(b: C.Block) {
    b.TextBlock? || b.ImageBlock? || (b.ResultBlock? && b.result.Some?)
  }

  predicate UserOk(blocks: seq<C.Block>) {
    forall i :: 0 <= i < |blocks| ==> UserBlockOk(blocks[i])
  }

  /** Messages so far, and the parts not yet flushed into a user message. */
  datatype Talk = Talk(msgs: seq<OutMessage>, parts: seq<Part>)

  function Flushed(w: Talk): seq<OutMessage> {
    w.msgs + if w.parts != [] then [OutMessage("user", RespContent(w.parts), [], "")] else []
  }

  function PartOf(b: C.Block): seq<Part> {
    match b
    case TextBlock(t) => [Text(t)]
    case ImageBlock(url) => [Image(url)]
    case _ => []
  }

  function TalkOn(w: Talk, b: C.Block): Talk {
    if b.ResultBlock? then Talk(Flushed(w) + [OutMessage("tool", Plain(C.ResultText(b)), [], b.id)], [])
    else w.(parts := w.parts + PartOf(b))
  }

  function Talked(content: string, blocks: seq<C.Block>): Talk
    decreases |blocks|
  {
    if blocks == [] then Talk([], if content != "" then [Text(content)] else [])
    else TalkOn(Talked(content, blocks[..|blocks| - 1]), blocks[|blocks| - 1])
  }

  /** The body of the loop over blocks; none for a block a user turn cannot carry. */
  method OneUserBlock(w: Talk, b: C.Block) returns (r: Option<Talk>)
    ensures r == if UserBlockOk(b) then Some(TalkOn(w, b)) else None
  {
    match b
    case TextBlock(text) => r := Some(w.(parts := w.parts + [Text(text)]));
    case ImageBlock(url) => r := Some(w.(parts := w.parts + [Image(url)]));
    case ResultBlock(id, result, isError) =>
      if result.None? {
        return None;
      }
      var text := result.value;
      if isError {
        text := C.ErrorPrefix + text;
      }
      r := Some(Talk(Flushed(w) + [OutMessage("tool", Plain(text), [], id)], []));
    case _ => r := None;
  }

  method ClaudeUserMessages(t: C.Turn) returns (r: Option<seq<OutMessage>>)
    ensures r == if UserOk(t.blocks) then Some(Flushed(Talked(t.content, t.blocks))) else None
  {
    var w := Talk([], if t.content != "" then [Text(t.content)] else []);
    for n := 0 to |t.blocks|
      invariant UserOk(t.blocks[..n]) && w == Talked(t.content, t.blocks[..n])
    {
      UpToNext(t.blocks, n);
      var step := OneUserBlock(w, t.blocks[n]);
      if step.None? {
        return None;
      }
      w := step.value;
    }
    assert t.blocks[..|t.blocks|] == t.blocks;
    r := Some(Flushed(w));
  }

  lemma {:induction false} UpToNext(blocks: seq<C.Block>, n: nat)
    requires n < |blocks|
    ensures UserOk(blocks[..n + 1]) <==> UserOk(blocks[..n]) && UserBlockOk(blocks[n])
    ensures UserOk(blocks) ==> UserBlockOk(blocks[n])
    ensures AssistantOk(blocks[..n + 1]) <==> AssistantOk(blocks[..n]) && AssistantBlockOk(blocks[n])
    ensures AssistantOk(blocks) ==> AssistantBlockOk(blocks[n])
    ensures blocks[..n + 1][..n] == blocks[..n]
  {
    assert blocks[..n + 1] == blocks[..n] + [blocks[n]];
  }

  // ---- assistant turns ----

  predicate AssistantBlockOk(b: C.Block) {
    b.TextBlock? || b.UseBlock? || b.ThinkingBlock?
  }

  predicate AssistantOk(blocks: seq<C.Block>) {
    forall i :: 0 <= i < |blocks| ==> AssistantBlockOk(blocks[i])
  }

  /** The one message an assistant turn becomes while it is being read. */
  datatype Reply = Reply(text: string, calls: seq<ToolCall>)

  function ReplyOn(w: Reply, b: C.Block): Reply {
    match b
    case TextBlock(t) => w.(text := w.text + t)
    case UseBlock(id, name, input) => w.(calls := w.calls + [ToolCall(id, name, DefaultArgs(input))])
    case _ => w
  }

  function Replied(content: string, blocks: seq<C.Block>): Reply
    decreases |blocks|
  {
    if blocks == [] then Reply(content, []) else ReplyOn(Replied(content, blocks[..|blocks| - 1]), blocks[|blocks| - 1])
  }

  /** Nothing for an empty turn. */
  function ReplyMessages(w: Reply): seq<OutMessage> {
    if w.text == "" && w.calls == [] then []
    else [OutMessage("assistant", if w.text != "" then Plain(w.text) else Nil, w.calls, "")]
  }

  method ClaudeAssistantMessage(t: C.Turn) returns (r: Option<seq<OutMessage>>)
    ensures r == if AssistantOk(t.blocks) then Some(ReplyMessages(Replied(t.content, t.blocks))) else None
  {
    var text, calls := t.content, [];
    for n := 0 to |t.blocks|
      invariant AssistantOk(t.blocks[..n]) && Reply(text, calls) == Replied(t.content, t.blocks[..n])
    {
      UpToNext(t.blocks, n);
      match t.blocks[n]
      case TextBlock(more) => text := text + more;
      case ThinkingBlock =>
      case UseBlock(id, name, input) => calls := calls + [ToolCall(id, name, DefaultArgs(input))];
      case _ => return None;
    }
    assert t.blocks[..|t.blocks|] == t.blocks;
    if text == "" && calls == [] {
      return Some([]);
    }
    r := Some([OutMessage("assistant", if text != "" then Plain(text) else Nil, calls, "")]);
  }

  // ---- the request ----

  predicate TurnOk(t: C.Turn) {
    if t.role == "user" then UserOk(t.blocks) else t.role == "assistant" && AssistantOk(t.blocks)
  }

  predicate TurnsOk(turns: seq<C.Turn>) {
    forall i :: 0 <= i < |turns| ==> TurnOk(turns[i])
  }

  function TurnMessages(t: C.Turn): seq<OutMessage> {
    if t.role == "user" then Flushed(Talked(t.content, t.blocks)) else ReplyMessages(Replied(t.content, t.blocks))
  }

  function ChatOf(system: string, turns: seq<C.Turn>): seq<OutMessage>
    decreases |turns|
  {
    if turns == [] then SystemMessage(system) else ChatOf(system, turns[..|turns| - 1]) + TurnMessages(turns[|turns| - 1])
  }

  lemma {:induction false} TurnsNext(turns: seq<C.Turn>, n: nat)
    requires n < |turns|
    ensures TurnsOk(turns[..n + 1]) <==> TurnsOk(turns[..n]) && TurnOk(turns[n])
    ensures TurnsOk(turns) ==> TurnOk(turns[n])
    ensures turns[..n + 1][..n] == turns[..n]
  {
    assert turns[..n + 1] == turns[..n] + [turns[n]];
  }

  method ClaudeToChat(system: string, turns: seq<C.Turn>) returns (r: Option<seq<OutMessage>>)
    ensures r == if TurnsOk(turns) then Some(ChatOf(system, turns)) else None
  {
    var out := if system != "" then [OutMessage("system", Plain(system), [], "")] else [];
    for n := 0 to |turns|
      invariant TurnsOk(turns[..n]) && out == ChatOf(system, turns[..n])
    {
      TurnsNext(turns, n);
      var step;
      if turns[n].role == "user" {
        step := ClaudeUserMessages(turns[n]);
      } else if turns[n].role == "assistant" {
        step := ClaudeAssistantMessage(turns[n]);
      } else {
        return None;
      }
      if step.None? {
        return None;
      }
      out := out + step.value;
    }
    assert turns[..|turns|] == turns;
    r := Some(out);
  }

  // ---- user turns keep their order ----

  predicate Empty(a: Atom) {
    a.TextAtom? && a.text == ""
  }

  /** Empty text says nothing. */
  function Solid(atoms: seq<Atom>): seq<Atom>
    decreases |atoms|
  {
    if atoms == [] then []
    else Solid(atoms[..|atoms| - 1]) + if Empty(atoms[|atoms| - 1]) then [] else [atoms[|atoms| - 1]]
  }

  lemma {:induction false} SolidNext(atoms: seq<Atom>, a: Atom)
    ensures Solid(atoms + [a]) == Solid(atoms) + if Empty(a) then [] else [a]
  {
    assert (atoms + [a])[..|atoms|] == atoms;
  }

  lemma {:induction false} SolidStep(a: seq<Atom>, b: seq<Atom>, x: Atom, all: seq<Atom>)
    requires Solid(a + b) == Solid(a) + Solid(b) && all == b + [x]
    ensures Solid(a + all) == Solid(a) + Solid(all)
  {
    Assoc(a, b, [x]);
    SolidNext(a + b, x);
    SolidNext(b, x);
    Assoc(Solid(a), Solid(b), if Empty(x) then [] else [x]);
  }

  lemma {:induction false} SolidAppend(a: seq<Atom>, b: seq<Atom>)
    ensures Solid(a + b) == Solid(a) + Solid(b)
    decreases |b|
  {
    if b == [] {
      assert a + b == a && Solid(a) + [] == Solid(a);
    } else {
      Last(b);
      SolidAppend(a, b[..|b| - 1]);
      SolidStep(a, b[..|b| - 1], b[|b| - 1], b);
    }
  }

  /** What messages and pending parts say together. */
  function Said(w: Talk): seq<Atom> {
    Solid(AtomsOut(w.msgs) + PartAtoms("user", w.parts))
  }

  lemma {:induction false} FlushedSays(w: Talk)
    ensures Solid(AtomsOut(Flushed(w))) == Said(w)
  {
    if w.parts == [] {
      assert w.msgs + [] == w.msgs && AtomsOut(w.msgs) + [] == AtomsOut(w.msgs);
    } else {
      var m := OutMessage("user", RespContent(w.parts), [], "");
      OutNext(w.msgs, m);
      ContentAtoms("user", w.parts);
      assert PartAtoms("user", w.parts) + CallAtoms([]) == PartAtoms("user", w.parts);
    }
  }

  lemma {:induction false} PartSays(w: Talk, b: C.Block)
    requires b.TextBlock? || b.ImageBlock?
    ensures Said(w.(parts := w.parts + PartOf(b))) == Said(w) + C.BlockAtoms("user", b)
  {
    var a := if b.TextBlock? then TextAtom("user", b.text) else ImageAtom("user", b.url);
    assert PartAtoms("user", w.parts + PartOf(b)) == PartAtoms("user", w.parts) + [a];
    Assoc(AtomsOut(w.msgs), PartAtoms("user", w.parts), [a]);
    SolidNext(AtomsOut(w.msgs) + PartAtoms("user", w.parts), a);
  }

  lemma {:induction false} ResultSays(w: Talk, b: C.Block)
    requires b.ResultBlock? && b.result.Some?
    ensures Said(TalkOn(w, b)) == Said(w) + C.BlockAtoms("user", b)
  {
    var text := C.ResultText(b);
    var a := ResultAtom(b.id, text);
    FlushedSays(w);
    PlainResult(b.id, text);
    OutNext(Flushed(w), OutMessage("tool", Plain(text), [], b.id));
    SolidNext(AtomsOut(Flushed(w)), a);
    assert AtomsOut(Flushed(w)) + [a] + [] == AtomsOut(Flushed(w)) + [a];
  }

  lemma {:induction false} TalkedSays(content: string, blocks: seq<C.Block>)
    requires UserOk(blocks)
    ensures Said(Talked(content, blocks)) == C.BlocksAtoms("user", content, blocks)
    decreases |blocks|
  {
    if blocks == [] {
      StartSays(content);
    } else {
      var n := |blocks| - 1;
      UpToNext(blocks, n);
      assert blocks[..n + 1] == blocks;
      TalkedSays(content, blocks[..n]);
      if blocks[n].ResultBlock? {
        ResultSays(Talked(content, blocks[..n]), blocks[n]);
      } else {
        PartSays(Talked(content, blocks[..n]), blocks[n]);
      }
    }
  }

  lemma {:induction false} StartSays(content: string)
    ensures Said(Talked(content, [])) == C.BlockAtoms("user", C.TextBlock(content))
  {
    if content != "" {
      SolidNext([], TextAtom("user", content));
      assert [] + [TextAtom("user", content)] == [TextAtom("user", content)];
      assert PartAtoms("user", [Text(content)]) == [TextAtom("user", content)];
    }
  }

  /** A user turn the target can carry: text, images and results in the order they were given. */
  lemma {:induction false} UserTurnKept(t: C.Turn)
    requires t.role == "user" && UserOk(t.blocks)
    ensures Solid(AtomsOut(TurnMessages(t))) == C.TurnAtoms(t)
  {
    TalkedSays(t.content, t.blocks);
    FlushedSays(Talked(t.content, t.blocks));
  }

  // ---- assistant turns are regrouped ----

  function Texts(atoms: seq<Atom>): string
    decreases |atoms|
  {
    if atoms == [] then ""
    else Texts(atoms[..|atoms| - 1]) + if atoms[|atoms| - 1].TextAtom? then atoms[|atoms| - 1].text else ""
  }

  function Calls(atoms: seq<Atom>): seq<Atom>
    decreases |atoms|
  {
    if atoms == [] then []
    else Calls(atoms[..|atoms| - 1]) + if atoms[|atoms| - 1].CallAtom? then [atoms[|atoms| - 1]] else []
  }

  /** All text joined, then the calls in order. */
  function Grouped(atoms: seq<Atom>): seq<Atom> {
    (if Texts(atoms) != "" then [TextAtom("assistant", Texts(atoms))] else []) + Calls(atoms)
  }

  lemma {:induction false} AtomsNext(atoms: seq<Atom>, a: Atom)
    ensures Texts(atoms + [a]) == Texts(atoms) + if a.TextAtom? then a.text else ""
    ensures Calls(atoms + [a]) == Calls(atoms) + if a.CallAtom? then [a] else []
  {
    assert (atoms + [a])[..|atoms|] == atoms;
  }

  /** The reply holds the text and the calls of what was said. */
  predicate Tells(w: Reply, atoms: seq<Atom>) {
    w.text == Texts(atoms) && CallAtoms(w.calls) == Calls(atoms)
  }

  lemma {:induction false} ReplyTells(w: Reply, atoms: seq<Atom>, b: C.Block)
    requires Tells(w, atoms) && AssistantBlockOk(b)
    ensures Tells(ReplyOn(w, b), atoms + C.BlockAtoms("assistant", b))
  {
    var more := C.BlockAtoms("assistant", b);
    if more == [] {
      assert atoms + [] == atoms;
      assert b.TextBlock? ==> w.text + b.text == w.text;
    } else {
      AtomsNext(atoms, more[0]);
      assert more == [more[0]];
      if b.UseBlock? {
        CallNext(w.calls, ToolCall(b.id, b.name, DefaultArgs(b.input)));
        DefaultArgsIdempotent(b.input);
      }
      assert w.text + "" == w.text && Calls(atoms) + [] == Calls(atoms);
    }
  }

  lemma {:induction false} RepliedTells(content: string, blocks: seq<C.Block>)
    requires AssistantOk(blocks)
    ensures Tells(Replied(content, blocks), C.BlocksAtoms("assistant", content, blocks))
    decreases |blocks|
  {
    if blocks == [] {
      ReplyTells(Reply("", []), [], C.TextBlock(content));
      assert "" + content == content && [] + C.BlockAtoms("assistant", C.TextBlock(content)) == C.BlockAtoms("assistant", C.TextBlock(content));
    } else {
      var n := |blocks| - 1;
      UpToNext(blocks, n);
      assert blocks[..n + 1] == blocks;
      RepliedTells(content, blocks[..n]);
      ReplyTells(Replied(content, blocks[..n]), C.BlocksAtoms("assistant", content, blocks[..n]), blocks[n]);
    }
  }

  lemma {:induction false} ReplySays(w: Reply)
    ensures AtomsOut(ReplyMessages(w)) == (if w.text != "" then [TextAtom("assistant", w.text)] else []) + CallAtoms(w.calls)
  {
    if w.text != "" || w.calls != [] {
      var m := OutMessage("assistant", if w.text != "" then Plain(w.text) else Nil, w.calls, "");
      assert [] + [m] == [m];
      OutNext([], m);
      assert PartAtoms("assistant", [Text(w.text)]) == [TextAtom("assistant", w.text)];
    }
  }

  /** An assistant turn the target can carry: its text joined, then its calls in order; nothing is lost. */
  lemma {:induction false} AssistantTurnGrouped(t: C.Turn)
    requires t.role == "assistant" && AssistantOk(t.blocks)
    ensures AtomsOut(TurnMessages(t)) == Grouped(C.TurnAtoms(t))
  {
    RepliedTells(t.content, t.blocks);
    ReplySays(Replied(t.content, t.blocks));
  }

  // ---- when grouping keeps the order ----

  predicate Spoken(a: Atom) {
    a.CallAtom? || (a.TextAtom? && a.role == "assistant" && a.text != "")
  }

  predicate AllSpoken(atoms: seq<Atom>) {
    forall i :: 0 <= i < |atoms| ==> Spoken(atoms[i])
  }

  /** Text said after a call. */
  predicate Late(atoms: seq<Atom>)
    decreases |atoms|
  {
    atoms != [] && (Late(atoms[..|atoms| - 1]) || (atoms[|atoms| - 1].TextAtom? && Calls(atoms[..|atoms| - 1]) != []))
  }

  /** Adjacent text joined, everything in place. */
  function Joined(atoms: seq<Atom>): seq<Atom>
    decreases |atoms|
  {
    if atoms == [] then [] else JoinOn(Joined(atoms[..|atoms| - 1]), atoms[|atoms| - 1])
  }

  function JoinOn(joined: seq<Atom>, a: Atom): seq<Atom> {
    var n := |joined| - 1;
    if a.TextAtom? && joined != [] && joined[n].TextAtom? then joined[n := TextAtom(a.role, joined[n].text + a.text)]
    else joined + [a]
  }

  lemma {:induction false} LateNext(atoms: seq<Atom>, a: Atom)
    ensures Late(atoms + [a]) <==> Late(atoms) || (a.TextAtom? && Calls(atoms) != [])
  {
    assert (atoms + [a])[..|atoms|] == atoms;
  }

  lemma {:induction false} JoinOnKeeps(joined: seq<Atom>, a: Atom)
    ensures Calls(JoinOn(joined, a)) == Calls(joined + [a]) && (Late(JoinOn(joined, a)) <==> Late(joined + [a]))
  {
    AtomsNext(joined, a);
    LateNext(joined, a);
    var n := |joined| - 1;
    if a.TextAtom? && joined != [] && joined[n].TextAtom? {
      var t := TextAtom(a.role, joined[n].text + a.text);
      Last(joined);
      assert joined[n := t] == joined[..n] + [t];
      AtomsNext(joined[..n], t);
      AtomsNext(joined[..n], joined[n]);
      LateNext(joined[..n], t);
      LateNext(joined[..n], joined[n]);
    }
  }

  lemma {:induction false} JoinedKeeps(atoms: seq<Atom>)
    ensures Calls(Joined(atoms)) == Calls(atoms) && (Late(Joined(atoms)) <==> Late(atoms))
    decreases |atoms|
  {
    if atoms != [] {
      var before, a := atoms[..|atoms| - 1], atoms[|atoms| - 1];
      Last(atoms);
      JoinedKeeps(before);
      JoinOnKeeps(Joined(before), a);
      AtomsNext(Joined(before), a);
      AtomsNext(before, a);
      LateNext(Joined(before), a);
      LateNext(before, a);
    }
  }

  lemma {:induction false} CallsAreNotLate(text: string, atoms: seq<Atom>)
    ensures var lead := if text != "" then [TextAtom("assistant", text)] else []; !Late(lead + Calls(atoms)) && Calls(lead) == []
    decreases |atoms|
  {
    var lead := if text != "" then [TextAtom("assistant", text)] else [];
    if atoms == [] {
      assert lead + [] == lead;
      if text != "" {
        assert [] + lead == lead;
        LateNext([], lead[0]);
        AtomsNext([], lead[0]);
      }
    } else {
      var before, a := atoms[..|atoms| - 1], atoms[|atoms| - 1];
      CallsAreNotLate(text, before);
      if a.CallAtom? {
        LateNext(lead + Calls(before), a);
        Assoc(lead, Calls(before), [a]);
      } else {
        assert Calls(before) + [] == Calls(before);
      }
    }
  }

  /** Without late text, joining in place is grouping. */
  lemma {:induction false} JoinIsGroup(before: seq<Atom>, a: Atom)
    requires Joined(before) == Grouped(before) && Spoken(a) && (a.TextAtom? ==> Calls(before) == [])
    ensures JoinOn(Joined(before), a) == Grouped(before + [a])
  {
    AtomsNext(before, a);
    var lead := if Texts(before) != "" then [TextAtom("assistant", Texts(before))] else [];
    if a.CallAtom? {
      assert Texts(before) + "" == Texts(before);
      Assoc(lead, Calls(before), [a]);
    } else {
      assert lead + [] == lead && Calls(before) + [] == [];
      assert Texts(before) == "" ==> Texts(before) + a.text == a.text;
    }
  }

  lemma {:induction false} JoinedIsGrouped(atoms: seq<Atom>)
    requires AllSpoken(atoms) && !Late(atoms)
    ensures Joined(atoms) == Grouped(atoms)
    decreases |atoms|
  {
    if atoms != [] {
      var before, a := atoms[..|atoms| - 1], atoms[|atoms| - 1];
      Last(atoms);
      LateNext(before, a);
      JoinedIsGrouped(before);
      JoinIsGroup(before, a);
    }
  }

  lemma {:induction false} AssistantSpeaks(content: string, blocks: seq<C.Block>)
    requires AssistantOk(blocks)
    ensures AllSpoken(C.BlocksAtoms("assistant", content, blocks))
    decreases |blocks|
  {
    if blocks != [] {
      var n := |blocks| - 1;
      UpToNext(blocks, n);
      assert blocks[..n + 1] == blocks;
      AssistantSpeaks(content, blocks[..n]);
    }
  }

  /** The order of an assistant turn, adjacent text joined, survives exactly when no text follows a call in it. */
  lemma {:induction false} AssistantOrderKeptIff(t: C.Turn)
    requires t.role == "assistant" && AssistantOk(t.blocks)
    ensures AtomsOut(TurnMessages(t)) == Joined(C.TurnAtoms(t)) <==> !Late(C.TurnAtoms(t))
  {
    var atoms := C.TurnAtoms(t);
    AssistantTurnGrouped(t);
    AssistantSpeaks(t.content, t.blocks);
    JoinedKeeps(atoms);
    CallsAreNotLate(Texts(atoms), atoms);
    if !Late(atoms) {
      JoinedIsGrouped(atoms);
    }
  }

  // ---- the whole request ----

  function Regrouped(turns: seq<C.Turn>): seq<Atom>
    decreases |turns|
  {
    if turns == [] then []
    else
      var t := turns[|turns| - 1];
      Regrouped(turns[..|turns| - 1]) + if t.role == "user" then C.TurnAtoms(t) else Grouped(C.TurnAtoms(t))
  }

  lemma {:induction false} OutStep(a: seq<OutMessage>, b: seq<OutMessage>, m: OutMessage, all: seq<OutMessage>)
    requires AtomsOut(a + b) == AtomsOut(a) + AtomsOut(b) && all == b + [m]
    ensures AtomsOut(a + all) == AtomsOut(a) + AtomsOut(all)
  {
    Assoc(a, b, [m]);
    OutNext(a + b, m);
    OutNext(b, m);
    Assoc(AtomsOut(a), AtomsOut(b), AtomsOfOut(m));
  }

  lemma {:induction false} OutAppend(a: seq<OutMessage>, b: seq<OutMessage>)
    ensures AtomsOut(a + b) == AtomsOut(a) + AtomsOut(b)
    decreases |b|
  {
    if b == [] {
      assert a + b == a && AtomsOut(a) + [] == AtomsOut(a);
    } else {
      Last(b);
      OutAppend(a, b[..|b| - 1]);
      OutStep(a, b[..|b| - 1], b[|b| - 1], b);
    }
  }

  lemma {:induction false} SolidAlready(atoms: seq<Atom>)
    requires forall i :: 0 <= i < |atoms| ==> !Empty(atoms[i])
    ensures Solid(atoms) == atoms
    decreases |atoms|
  {
    if atoms != [] {
      SolidAlready(atoms[..|atoms| - 1]);
      Last(atoms);
    }
  }

  lemma {:induction false} CallsAreCalls(atoms: seq<Atom>)
    ensures forall i :: 0 <= i < |Calls(atoms)| ==> Calls(atoms)[i].CallAtom?
    decreases |atoms|
  {
    if atoms != [] {
      CallsAreCalls(atoms[..|atoms| - 1]);
    }
  }

  lemma {:induction false} TurnSays(t: C.Turn)
    requires TurnOk(t)
    ensures Solid(AtomsOut(TurnMessages(t))) == if t.role == "user" then C.TurnAtoms(t) else Grouped(C.TurnAtoms(t))
  {
    if t.role == "user" {
      UserTurnKept(t);
    } else {
      AssistantTurnGrouped(t);
      CallsAreCalls(C.TurnAtoms(t));
      SolidAlready(Grouped(C.TurnAtoms(t)));
    }
  }

  /** Every request the target can carry: the system text, then turn after turn, user turns as they were, assistant turns grouped. */
  lemma {:induction false} ChatKeepsTurns(system: string, turns: seq<C.Turn>)
    requires TurnsOk(turns)
    ensures Solid(AtomsOut(ChatOf(system, turns))) == SystemAtoms(system) + Regrouped(turns) && SystemMessage(system) <= ChatOf(system, turns)
    decreases |turns|
  {
    if turns == [] {
      SystemSays(system);
      assert SystemAtoms(system) + [] == SystemAtoms(system);
    } else {
      var n := |turns| - 1;
      TurnsNext(turns, n);
      assert turns[..n + 1] == turns;
      ChatKeepsTurns(system, turns[..n]);
      TurnSays(turns[n]);
      OutAppend(ChatOf(system, turns[..n]), TurnMessages(turns[n]));
      SolidAppend(AtomsOut(ChatOf(system, turns[..n])), AtomsOut(TurnMessages(turns[n])));
      Assoc(SystemAtoms(system), Regrouped(turns[..n]), Solid(AtomsOut(TurnMessages(turns[n]))));
    }
  }

  lemma {:induction false} SystemSays(system: string)
    ensures Solid(AtomsOut(SystemMessage(system))) == SystemAtoms(system)
  {
    AddSystemAtoms([], system);
    assert [] + SystemMessage(system) == SystemMessage(system) && [] + SystemAtoms(system) == SystemAtoms(system);
    SolidAlready(SystemAtoms(system));
  }

  // ---- which requests are accepted, and the shape of the messages ----

  /** A block that neither a user's nor an assistant's turn can carry, or not this one's. */
  predicate Misplaced(role: string, b: C.Block) {
    || b.UnknownBlock? || (b.ResultBlock? && b.result.None?)
    || (role == "user" && (b.UseBlock? || b.ThinkingBlock?))
    || (role == "assistant" && (b.ImageBlock? || b.ResultBlock?))
  }

  /** Accepted exactly: turns of users and assistants without a misplaced block. */
  lemma AcceptedIff(turns: seq<C.Turn>)
    ensures TurnsOk(turns) <==>
              forall i :: 0 <= i < |turns| ==>
                && (turns[i].role == "user" || turns[i].role == "assistant")
                && forall k :: 0 <= k < |turns[i].blocks| ==> !Misplaced(turns[i].role, turns[i].blocks[k])
  {
    forall i | 0 <= i < |turns|
      ensures TurnOk(turns[i]) <==>
                && (turns[i].role == "user" || turns[i].role == "assistant")
                && forall k :: 0 <= k < |turns[i].blocks| ==> !Misplaced(turns[i].role, turns[i].blocks[k])
    {
      TurnAcceptedIff(turns[i]);
    }
  }

  lemma TurnAcceptedIff(t: C.Turn)
    ensures TurnOk(t) <==>
              (t.role == "user" || t.role == "assistant") && forall k :: 0 <= k < |t.blocks| ==> !Misplaced(t.role, t.blocks[k])
  {
    assert "user"[0] != "assistant"[0];
    assert t.role == "user" ==> forall k :: 0 <= k < |t.blocks| ==> (UserBlockOk(t.blocks[k]) <==> !Misplaced(t.role, t.blocks[k]));
    assert t.role == "assistant" ==> forall k :: 0 <= k < |t.blocks| ==> (AssistantBlockOk(t.blocks[k]) <==> !Misplaced(t.role, t.blocks[k]));
  }

  lemma FlushedTidy(w: Talk)
    requires AllTidy(w.msgs)
    ensures AllTidy(Flushed(w))
  {
  }

  lemma {:induction false} TalkedTidy(content: string, blocks: seq<C.Block>)
    ensures AllTidy(Talked(content, blocks).msgs)
    decreases |blocks|
  {
    if blocks != [] {
      TalkedTidy(content, blocks[..|blocks| - 1]);
      FlushedTidy(Talked(content, blocks[..|blocks| - 1]));
    }
  }

  /** Every message of a translated request is tidy; in particular an empty turn makes none. */
  lemma {:induction false} ChatTidy(system: string, turns: seq<C.Turn>)
    ensures AllTidy(ChatOf(system, turns))
    decreases |turns|
  {
    if turns != [] {
      var t := turns[|turns| - 1];
      ChatTidy(system, turns[..|turns| - 1]);
      if t.role == "user" {
        TalkedTidy(t.content, t.blocks);
        FlushedTidy(Talked(t.content, t.blocks));
      }
    }
  }
}
