/**
 * Messages requests to Responses and to Chat Completions requests: what each does to the order of a
 * conversation's text, images, tool calls and tool results.
 */
module ClaudeRequest {
  import opened Wire
  import opened Folds
  import opened RequestParts
  import opened RequestRoundTrip

  /** A decoded content block; a tool result is none when it holds other than text. */
  datatype Block =
    | TextBlock(text: string)
    | ImageBlock(url: string)
    | UseBlock(id: string, name: string, input: string)
    | ResultBlock(id: string, result: Option<string>, isError: bool)
    | ThinkingBlock
    | UnknownBlock

  /** One message: plain content, or blocks. */
  datatype Turn = Turn(role: string, content: string, blocks: seq<Block>)

  const ErrorPrefix := "[error] "

  /** A failed tool's result stays marked as such. */
  function ResultText(b: Block): string
    requires b.ResultBlock?
  {
    var text := if b.result.Some? then b.result.value else "";
    if b.isError then ErrorPrefix + text else text
  }

  predicate Speaker(role: string) {
    role == "user" || role == "assistant"
  }

  // ---- what a conversation says ----

  function BlockAtoms(role: string, b: Block): seq<Atom> {
    match b
    case TextBlock(t) => if t != "" then [TextAtom(role, t)] else []
    case ImageBlock(url) => [ImageAtom(role, url)]
    case UseBlock(id, name, input) => [CallAtom(id, name, DefaultArgs(input))]
    case ResultBlock(id, result, isError) =>
      if result.None? then [UnreadableAtom]
      else [ResultAtom(id, if isError then "[error] " + result.value else result.value)]
    case ThinkingBlock => []
    case UnknownBlock => [UnreadableAtom]
  }

  function BlocksAtoms(role: string, content: string, blocks: seq<Block>): seq<Atom>
    decreases |blocks|
  {
    if blocks == [] then BlockAtoms(role, TextBlock(content))
    else BlocksAtoms(role, content, blocks[..|blocks| - 1]) + BlockAtoms(role, blocks[|blocks| - 1])
  }

  function TurnAtoms(t: Turn): seq<Atom> {
    BlocksAtoms(t.role, t.content, t.blocks)
  }

  function AllAtoms(turns: seq<Turn>): seq<Atom>
    decreases |turns|
  {
    if turns == [] then [] else AllAtoms(turns[..|turns| - 1]) + TurnAtoms(turns[|turns| - 1])
  }

  // ---- to a Responses request ----

  predicate BlockOk(b: Block) {
    !b.UnknownBlock? && (b.ResultBlock? ==> b.result.Some?)
  }

  predicate BlocksOk(blocks: seq<Block>) {
    forall i :: 0 <= i < |blocks| ==> BlockOk(blocks[i])
  }

  predicate TurnOk(t: Turn) {
    Speaker(t.role) && BlocksOk(t.blocks)
  }

  predicate TurnsOk(turns: seq<Turn>) {
    forall i :: 0 <= i < |turns| ==> TurnOk(turns[i])
  }

  function PartOf(b: Block): seq<RawPart> {
    match b
    case TextBlock(t) => [RawText(t)]
    case ImageBlock(url) => [RawImage(url)]
    case _ => []
  }

  function ItemOf(b: Block): seq<InputItem> {
    match b
    case UseBlock(id, name, input) => [CallIn(id, name, DefaultArgs(input))]
    case ResultBlock(id, _, _) => [ResultIn(id, ResultText(b))]
    case _ => []
  }

  /** Items so far, and the parts not yet flushed into a message item. */
  datatype Walk = Walk(items: seq<InputItem>, parts: seq<RawPart>)

  function Flushed(role: string, w: Walk): seq<InputItem> {
    w.items + if w.parts != [] then [MessageIn(role, Typed(w.parts))] else []
  }

  /** Calls and results flush the parts before them, so everything keeps its place. */
  function WalkOn(role: string, w: Walk, b: Block): Walk {
    if ItemOf(b) != [] then Walk(Flushed(role, w) + ItemOf(b), []) else w.(parts := w.parts + PartOf(b))
  }

  function StartParts(content: string): seq<RawPart> {
    if content != "" then [RawText(content)] else []
  }

  function Walked(before: seq<InputItem>, role: string, content: string, blocks: seq<Block>): Walk
    decreases |blocks|
  {
    if blocks == [] then Walk(before, StartParts(content))
    else WalkOn(role, Walked(before, role, content, blocks[..|blocks| - 1]), blocks[|blocks| - 1])
  }

  function InputOf(turns: seq<Turn>): seq<InputItem>
    decreases |turns|
  {
    if turns == [] then []
    else
      var t := turns[|turns| - 1];
      Flushed(t.role, Walked(InputOf(turns[..|turns| - 1]), t.role, t.content, t.blocks))
  }

  /** The body of the loop over blocks; none for a block the target cannot carry. */
  method OneBlock(role: string, w: Walk, b: Block) returns (r: Option<Walk>)
    ensures r == if BlockOk(b) then Some(WalkOn(role, w, b)) else None
  {
    match b
    case TextBlock(t) => r := Some(w.(parts := w.parts + [RawText(t)]));
    case ImageBlock(url) => r := Some(w.(parts := w.parts + [RawImage(url)]));
    case UseBlock(id, name, input) => r := Some(Walk(Flushed(role, w) + [CallIn(id, name, DefaultArgs(input))], []));
    case ResultBlock(id, result, isError) =>
      if result.None? {
        return None;
      }
      var output := result.value;
      if isError {
        output := ErrorPrefix + output;
      }
      r := Some(Walk(Flushed(role, w) + [ResultIn(id, output)], []));
    case ThinkingBlock =>
      assert w.parts + [] == w.parts;
      r := Some(w);
    case UnknownBlock => r := None;
  }

  lemma {:induction false} OkNext(blocks: seq<Block>, n: nat)
    requires n < |blocks|
    ensures BlocksOk(blocks[..n + 1]) <==> BlocksOk(blocks[..n]) && BlockOk(blocks[n])
    ensures BlocksOk(blocks) ==> BlockOk(blocks[n])
    ensures blocks[..n + 1][..n] == blocks[..n]
  {
    assert blocks[..n + 1] == blocks[..n] + [blocks[n]];
  }

  lemma WalkedNext(before: seq<InputItem>, t: Turn, n: nat)
    requires n < |t.blocks|
    ensures Walked(before, t.role, t.content, t.blocks[..n + 1]) ==
            WalkOn(t.role, Walked(before, t.role, t.content, t.blocks[..n]), t.blocks[n])
  {
    assert t.blocks[..n + 1][..n] == t.blocks[..n];
  }

  /** The body of the loop over messages. */
  method OneTurn(input: seq<InputItem>, t: Turn) returns (r: Option<seq<InputItem>>)
    ensures r == if TurnOk(t) then Some(Flushed(t.role, Walked(input, t.role, t.content, t.blocks))) else None
  {
    if !Speaker(t.role) {
      return None;
    }
    var w := Walk(input, if t.content != "" then [RawText(t.content)] else []);
    for n := 0 to |t.blocks|
      invariant BlocksOk(t.blocks[..n]) && w == Walked(input, t.role, t.content, t.blocks[..n])
    {
      OkNext(t.blocks, n);
      WalkedNext(input, t, n);
      var step := OneBlock(t.role, w, t.blocks[n]);
      if step.None? {
        return None;
      }
      w := step.value;
    }
    assert t.blocks[..|t.blocks|] == t.blocks;
    r := Some(Flushed(t.role, w));
  }

  lemma {:induction false} TurnsOkNext(turns: seq<Turn>, n: nat)
    requires n < |turns|
    ensures TurnsOk(turns[..n + 1]) <==> TurnsOk(turns[..n]) && TurnOk(turns[n])
    ensures TurnsOk(turns) ==> TurnOk(turns[n])
    ensures turns[..n + 1][..n] == turns[..n]
  {
    assert turns[..n + 1] == turns[..n] + [turns[n]];
  }

  method FromClaudeMessages(turns: seq<Turn>) returns (r: Option<seq<InputItem>>)
    ensures r == if TurnsOk(turns) then Some(InputOf(turns)) else None
  {
    var input := [];
    for n := 0 to |turns|
      invariant TurnsOk(turns[..n]) && input == InputOf(turns[..n])
    {
      TurnsOkNext(turns, n);
      var step := OneTurn(input, turns[n]);
      if step.None? {
        return None;
      }
      input := step.value;
    }
    assert turns[..|turns|] == turns;
    r := Some(input);
  }

  /** What items and pending parts say together. */
  function Said(role: string, w: Walk): seq<Atom> {
    AtomsOfItems(w.items) + PartAtoms(role, PartsOf(w.parts))
  }

  lemma {:induction false} FlushedSays(role: string, w: Walk)
    requires Speaker(role)
    ensures AtomsOfItems(Flushed(role, w)) == Said(role, w)
  {
    if w.parts != [] {
      ItemsNext(w.items, MessageIn(role, Typed(w.parts)));
    } else {
      assert w.items + [] == w.items && AtomsOfItems(w.items) + [] == AtomsOfItems(w.items);
    }
  }

  lemma {:induction false} PartSays(role: string, parts: seq<RawPart>, p: RawPart)
    requires !p.RawUnknown?
    ensures PartAtoms(role, PartsOf(parts + [p])) == PartAtoms(role, PartsOf(parts)) + BlockAtoms(role, if p.RawText? then TextBlock(p.text) else ImageBlock(p.url))
  {
    assert (parts + [p])[..|parts|] == parts;
    assert PartsOf(parts) + [] == PartsOf(parts);
  }

  lemma {:induction false} WalkSays(role: string, w: Walk, b: Block)
    requires Speaker(role) && BlockOk(b)
    ensures Said(role, WalkOn(role, w, b)) == Said(role, w) + BlockAtoms(role, b)
  {
    if ItemOf(b) != [] {
      FlushedSays(role, w);
      ItemsNext(Flushed(role, w), ItemOf(b)[0]);
      assert ItemOf(b) == [ItemOf(b)[0]] && PartAtoms(role, PartsOf([])) == [];
      if b.UseBlock? {
        DefaultArgsIdempotent(b.input);
      }
    } else if PartOf(b) != [] {
      PartSays(role, w.parts, PartOf(b)[0]);
      assert PartOf(b) == [PartOf(b)[0]];
      Assoc(AtomsOfItems(w.items), PartAtoms(role, PartsOf(w.parts)), BlockAtoms(role, b));
    } else {
      assert w.parts + [] == w.parts && Said(role, w) + [] == Said(role, w);
    }
  }

  lemma {:induction false} StartSays(before: seq<InputItem>, role: string, content: string)
    ensures Said(role, Walk(before, StartParts(content))) == AtomsOfItems(before) + BlockAtoms(role, TextBlock(content))
  {
    if content != "" {
      PartSays(role, [], RawText(content));
      assert [] + [RawText(content)] == [RawText(content)];
      assert PartAtoms(role, []) + BlockAtoms(role, TextBlock(content)) == BlockAtoms(role, TextBlock(content));
    }
  }

  /** `said` was said before the block, and the block adds to it. */
  lemma {:induction false} WalkSaysMore(role: string, w: Walk, b: Block, before: seq<Atom>, said: seq<Atom>)
    requires Speaker(role) && BlockOk(b) && Said(role, w) == before + said
    ensures Said(role, WalkOn(role, w, b)) == before + (said + BlockAtoms(role, b))
  {
    WalkSays(role, w, b);
    Assoc(before, said, BlockAtoms(role, b));
  }

  lemma {:induction false} WalkedSays(before: seq<InputItem>, role: string, content: string, blocks: seq<Block>)
    requires Speaker(role) && BlocksOk(blocks)
    ensures Said(role, Walked(before, role, content, blocks)) == AtomsOfItems(before) + BlocksAtoms(role, content, blocks)
    decreases |blocks|
  {
    if blocks == [] {
      StartSays(before, role, content);
    } else {
      var most := blocks[..|blocks| - 1];
      WalkedSays(before, role, content, most);
      WalkSaysMore(role, Walked(before, role, content, most), blocks[|blocks| - 1], AtomsOfItems(before), BlocksAtoms(role, content, most));
    }
  }

  /** Every conversation the target can carry: the input items say exactly what the messages said, in the same order. */
  lemma {:induction false} ResponsesKeepsOrder(turns: seq<Turn>)
    requires TurnsOk(turns)
    ensures AtomsOfItems(InputOf(turns)) == AllAtoms(turns)
    decreases |turns|
  {
    if turns != [] {
      var n := |turns| - 1;
      TurnsOkNext(turns, n);
      assert turns[..n + 1] == turns;
      ResponsesKeepsOrder(turns[..n]);
      var t := turns[n];
      WalkedSays(InputOf(turns[..n]), t.role, t.content, t.blocks);
      FlushedSays(t.role, Walked(InputOf(turns[..n]), t.role, t.content, t.blocks));
    }
  }

  predicate NoEmptyItems(items: seq<InputItem>) {
    forall i :: 0 <= i < |items| && items[i].MessageIn? ==> items[i].content.Typed? && items[i].content.parts != []
  }

  lemma {:induction false} WalkedFull(before: seq<InputItem>, role: string, content: string, blocks: seq<Block>)
    requires NoEmptyItems(before)
    ensures NoEmptyItems(Walked(before, role, content, blocks).items)
    decreases |blocks|
  {
    if blocks != [] {
      var n := |blocks| - 1;
      WalkedFull(before, role, content, blocks[..n]);
      WalkOnFull(role, Walked(before, role, content, blocks[..n]), blocks[n]);
    }
  }

  lemma WalkOnFull(role: string, w: Walk, b: Block)
    requires NoEmptyItems(w.items)
    ensures NoEmptyItems(WalkOn(role, w, b).items) && NoEmptyItems(Flushed(role, w))
  {
  }

  /** No message item is empty: what stands between two calls or results becomes one only if there is something. */
  lemma {:induction false} ItemsFull(turns: seq<Turn>)
    ensures NoEmptyItems(InputOf(turns))
    decreases |turns|
  {
    if turns != [] {
      var n := |turns| - 1;
      var t := turns[n];
      ItemsFull(turns[..n]);
      WalkedFull(InputOf(turns[..n]), t.role, t.content, t.blocks);
      WalkOnFull(t.role, Walked(InputOf(turns[..n]), t.role, t.content, t.blocks), ThinkingBlock);
    }
  }

  // ---- which requests are accepted ----

  lemma {:induction false} BlocksReadable(role: string, content: string, blocks: seq<Block>)
    ensures BlocksOk(blocks) <==> UnreadableAtom !in BlocksAtoms(role, content, blocks)
    decreases |blocks|
  {
    if blocks != [] {
      var n := |blocks| - 1;
      BlocksReadable(role, content, blocks[..n]);
      BlocksOkNext(blocks, n);
      assert UnreadableAtom in BlockAtoms(role, blocks[n]) <==> !BlockOk(blocks[n]) by {
        if !BlockOk(blocks[n]) {
          assert BlockAtoms(role, blocks[n])[0] == UnreadableAtom;
        }
      }
    }
  }

  lemma BlocksOkNext(blocks: seq<Block>, n: nat)
    requires n == |blocks| - 1
    ensures BlocksOk(blocks) <==> BlocksOk(blocks[..n]) && BlockOk(blocks[n])
  {
    assert forall i :: 0 <= i < n ==> blocks[..n][i] == blocks[i];
  }

  lemma {:induction false} TurnsReadable(turns: seq<Turn>)
    ensures UnreadableAtom !in AllAtoms(turns) <==> AllBlocksOk(turns)
    decreases |turns|
  {
    if turns != [] {
      var n := |turns| - 1;
      TurnsReadable(turns[..n]);
      BlocksReadable(turns[n].role, turns[n].content, turns[n].blocks);
      AllBlocksOkNext(turns, n);
    }
  }

  predicate AllBlocksOk(turns: seq<Turn>) {
    forall i :: 0 <= i < |turns| ==> BlocksOk(turns[i].blocks)
  }

  lemma AllBlocksOkNext(turns: seq<Turn>, n: nat)
    requires n == |turns| - 1
    ensures AllBlocksOk(turns) <==> AllBlocksOk(turns[..n]) && BlocksOk(turns[n].blocks)
  {
    assert forall i :: 0 <= i < n ==> turns[..n][i] == turns[i];
  }

  /** Accepted exactly: messages of users and assistants that say nothing unreadable. */
  lemma {:induction false} AcceptedIff(turns: seq<Turn>)
    ensures TurnsOk(turns) <==>
              (forall i :: 0 <= i < |turns| ==> turns[i].role == "user" || turns[i].role == "assistant") && UnreadableAtom !in AllAtoms(turns)
  {
    TurnsReadable(turns);
  }
}
