/**
 * Messages to Responses: when the terminal output is what was streamed, in terms of the upstream alone.
 * The stream sends text as it arrives; the terminal output has it block by block.
 */
module MessagesText {
  import opened Wire
  import opened Folds
  import opened Clients
  import opened Pieces
  import opened MessagesConvert
  import opened MessagesStream
  import opened MessagesParity

  /** The text of the text blocks, in their order. */
  function TextsOf(content: seq<ClaudeBlock>): string
    decreases |content|
  {
    if content == [] then ""
    else
      var b := content[|content| - 1];
      TextsOf(content[..|content| - 1]) + if b.kind == "text" then b.text else ""
  }

  lemma TextsNext(content: seq<ClaudeBlock>, b: ClaudeBlock)
    ensures TextsOf(content + [b]) == TextsOf(content) + if b.kind == "text" then b.text else ""
  {
    assert (content + [b])[..|content|] == content;
  }

  // ---- the converter's blocks and the gathered message ----

  lemma {:induction false} SameTexts(blocks: seq<Blk>, indices: seq<int>, content: seq<ClaudeBlock>)
    requires |blocks| == |indices| == |content| && forall p :: 0 <= p < |blocks| ==> Tells(blocks[p], indices[p], content[p])
    ensures Texts(RawPieces(blocks)) == TextsOf(content)
    decreases |blocks|
  {
    if blocks != [] {
      var n := |blocks| - 1;
      SameTexts(blocks[..n], indices[..n], content[..n]);
      PiecesOfBlksLast(blocks);
      assert Tells(blocks[n], indices[n], content[n]);
      PiecesNext(RawPieces(blocks[..n]), RawPiece(blocks[n]));
    }
  }

  /**
   * For increasing block indices: the terminal output is item for item what was streamed if and only if
   * the text, in order of arrival, is the text gathered block by block.
   */
  lemma {:induction false} PayloadIsStreamedIff(ups: seq<Up>)
    requires Read(ups).ok && Run(ups).status.Open?
    ensures OutputItems(Run(ups).state) == FinishItems(Receive(NoItems, Run(ups).events).items)
            <==> Read(ups).streamed == TextsOf(GatherAll(ups).content)
  {
    PayloadMatchesIff(ups);
    RunSame(ups);
    SameTexts(Run(ups).state.blocks, GatherAll(ups).indices, GatherAll(ups).content);
  }

  // ---- text in block order ----

  /** The block a non-empty text delta adds to what is streamed. */
  predicate Adds(before: seq<Up>, up: Up) {
    up.UpText? && up.text != "" && Read(before).texted
  }

  /** The last block text was streamed for. */
  function LastText(ups: seq<Up>): Option<int>
    decreases |ups|
  {
    if ups == [] then None
    else if Adds(ups[..|ups| - 1], ups[|ups| - 1]) then Some(ups[|ups| - 1].index)
    else LastText(ups[..|ups| - 1])
  }

  /** The block at an index is a text block. */
  predicate IsText(g: Gathered, index: int) {
    var p := IndexOf(g.indices, index);
    p < |g.content| && g.content[p].kind == "text"
  }

  /** Streamed text belongs to text blocks, and never to an earlier one than text before it. */
  predicate TextInOrder(ups: seq<Up>)
    decreases |ups|
  {
    ups == [] ||
    var before, up := ups[..|ups| - 1], ups[|ups| - 1];
    TextInOrder(before) &&
    (Adds(before, up) ==> IsText(GatherAll(before), up.index) && (LastText(before).Some? ==> LastText(before).value <= up.index))
  }

  /** Text blocks after the last one streamed for are still empty. */
  predicate EmptyAfter(g: Gathered, last: Option<int>) {
    forall p :: 0 <= p < |g.content| && p < |g.indices| && g.content[p].kind == "text" && (last.Some? ==> last.value < g.indices[p]) ==> g.content[p].text == ""
  }

  predicate Listed(g: Gathered, o: Order) {
    && |g.indices| == |g.content|
    && (forall p, q :: 0 <= p < q < |g.indices| ==> g.indices[p] < g.indices[q])
    && (forall p :: 0 <= p < |g.indices| ==> o.last.Some? && g.indices[p] <= o.last.value)
    && (o.texted <==> exists p :: 0 <= p < |g.content| && g.content[p].kind == "text")
  }

  /** Extending a block's text when the text blocks after it are empty. */
  lemma {:induction false} ExtendLast(content: seq<ClaudeBlock>, p: nat, more: string)
    requires p < |content| && content[p].kind == "text"
    requires forall q :: p < q < |content| && content[q].kind == "text" ==> content[q].text == ""
    ensures TextsOf(content[p := content[p].(text := content[p].text + more)]) == TextsOf(content) + more
    decreases |content|
  {
    var n := |content| - 1;
    var grown := content[p := content[p].(text := content[p].text + more)];
    if p == n {
      assert grown[..n] == content[..n];
      Assoc(TextsOf(content[..n]), content[n].text, more);
    } else {
      assert grown[..n] == content[..n][p := content[..n][p].(text := content[..n][p].text + more)];
      ExtendLast(content[..n], p, more);
      EmptyAdds(TextsOf(content[..n]), more, content[n]);
    }
  }

  lemma EmptyAdds(texts: string, more: string, b: ClaudeBlock)
    requires b.kind == "text" ==> b.text == ""
    ensures texts + more + (if b.kind == "text" then b.text else "") == texts + (if b.kind == "text" then b.text else "") + more
  {
    assert texts + more + "" == texts + more && texts + "" == texts;
  }

  /** Changing a block that is not text, or by nothing, changes no text. */
  lemma {:induction false} SameTextsOf(content: seq<ClaudeBlock>, p: nat, b: ClaudeBlock)
    requires p < |content| && b.kind == content[p].kind && (b.kind == "text" ==> b.text == content[p].text)
    ensures TextsOf(content[p := b]) == TextsOf(content)
    decreases |content|
  {
    var n := |content| - 1;
    if p < n {
      assert content[p := b][..n] == content[..n][p := b];
      SameTextsOf(content[..n], p, b);
    } else {
      assert content[p := b][..n] == content[..n];
    }
  }

  // ---- runs ----

  lemma ListedBlock(g: Gathered, o: Order, up: Up)
    requires Listed(g, o) && up.UpBlock? && ReadUp(o, up).ok
    ensures Listed(Gather(g, up), ReadUp(o, up))
  {
    var g', o' := Gather(g, up), ReadUp(o, up);
    if o.texted {
      var p :| 0 <= p < |g.content| && g.content[p].kind == "text";
      assert g'.content[p].kind == "text";
    }
    if up.kind == "text" {
      assert g'.content[|g.content|].kind == "text";
    }
    if exists p :: 0 <= p < |g'.content| && g'.content[p].kind == "text" {
      var p :| 0 <= p < |g'.content| && g'.content[p].kind == "text";
      assert p < |g.content| ==> g.content[p].kind == "text";
    }
  }

  lemma ListedOther(g: Gathered, o: Order, up: Up)
    requires Listed(g, o) && !up.UpBlock?
    ensures Listed(Gather(g, up), ReadUp(o, up))
  {
    var g' := Gather(g, up);
    assert forall p :: 0 <= p < |g.content| ==> g'.content[p].kind == g.content[p].kind;
    if o.texted {
      var p :| 0 <= p < |g.content| && g.content[p].kind == "text";
      assert g'.content[p].kind == "text";
    }
  }

  lemma {:induction false} RunListed(ups: seq<Up>)
    requires Read(ups).ok
    ensures Listed(GatherAll(ups), Read(ups))
    decreases |ups|
  {
    if ups != [] {
      var before, up := ups[..|ups| - 1], ups[|ups| - 1];
      OkStays(Read(before), up);
      RunListed(before);
      if up.UpBlock? {
        ListedBlock(GatherAll(before), Read(before), up);
      } else {
        ListedOther(GatherAll(before), Read(before), up);
      }
    }
  }

  /** What was streamed is what was gathered, and the blocks still to come are empty. */
  predicate Even(g: Gathered, o: Order, last: Option<int>) {
    o.streamed == TextsOf(g.content) && EmptyAfter(g, last)
  }

  /** A delta that adds to what is streamed. */
  lemma TextEven(g: Gathered, o: Order, up: Up, last: Option<int>)
    requires Listed(g, o) && Even(g, o, last) && up.UpText? && o.texted
    requires IsText(g, up.index) && (last.Some? ==> last.value <= up.index)
    ensures Even(Gather(g, up), ReadUp(o, up), Some(up.index))
  {
    var p := IndexOf(g.indices, up.index);
    forall q | p < q < |g.content| && g.content[q].kind == "text" ensures g.content[q].text == "" {
      assert g.indices[p] < g.indices[q];
    }
    ExtendLast(g.content, p, up.text);
  }

  /** The block at `p` becomes `b`, with no text gained or lost. */
  predicate Replaces(g: Gathered, g': Gathered, p: nat, b: ClaudeBlock) {
    && p < |g.content| == |g.indices| && g'.indices == g.indices && g'.content == g.content[p := b]
    && b.kind == g.content[p].kind && (b.kind == "text" ==> b.text == g.content[p].text)
  }

  lemma ReplacedEven(g: Gathered, g': Gathered, o: Order, last: Option<int>, p: nat, b: ClaudeBlock)
    requires Even(g, o, last) && Replaces(g, g', p, b)
    ensures Even(g', o, last)
  {
    SameTextsOf(g.content, p, b);
  }

  /** Text that is not streamed: an empty delta, or one before any text block. */
  lemma UnstreamedEven(g: Gathered, o: Order, up: Up, last: Option<int>)
    requires Listed(g, o) && Even(g, o, last) && up.UpText? && (up.text == "" || !o.texted)
    ensures Even(Gather(g, up), ReadUp(o, up), last)
  {
    var p := IndexOf(g.indices, up.index);
    assert o.streamed + "" == o.streamed;
    if p < |g.content| {
      assert g.content[p].text + "" == g.content[p].text;
      ReplacedEven(g, Gather(g, up), ReadUp(o, up), last, p, g.content[p].(text := g.content[p].text + up.text));
    }
  }

  lemma JsonEven(g: Gathered, o: Order, up: Up, last: Option<int>)
    requires Listed(g, o) && Even(g, o, last) && up.UpJson?
    ensures Even(Gather(g, up), ReadUp(o, up), last)
  {
    var p := IndexOf(g.indices, up.index);
    if p < |g.content| {
      ReplacedEven(g, Gather(g, up), o, last, p, g.content[p].(input := g.content[p].input + up.json));
    }
  }

  lemma BlockEven(g: Gathered, o: Order, up: Up, last: Option<int>)
    requires Listed(g, o) && Even(g, o, last) && up.UpBlock?
    ensures Even(Gather(g, up), ReadUp(o, up), last)
  {
    TextsNext(g.content, ClaudeBlock(up.kind, "", up.id, up.name, ""));
    assert TextsOf(g.content) + "" == TextsOf(g.content);
  }

  /** Every other event adds to neither. */
  lemma OtherEven(g: Gathered, o: Order, up: Up, last: Option<int>)
    requires Listed(g, o) && Even(g, o, last) && !(up.UpText? && up.text != "" && o.texted)
    ensures Even(Gather(g, up), ReadUp(o, up), last)
  {
    match up
    case UpBlock(_, _, _, _) => BlockEven(g, o, up, last);
    case UpText(_, _) => UnstreamedEven(g, o, up, last);
    case UpJson(_, _) => JsonEven(g, o, up, last);
    case _ =>
  }

  lemma {:induction false} RunEven(ups: seq<Up>)
    requires Read(ups).ok && TextInOrder(ups)
    ensures Even(GatherAll(ups), Read(ups), LastText(ups))
    decreases |ups|
  {
    if ups != [] {
      var before, up := ups[..|ups| - 1], ups[|ups| - 1];
      OkStays(Read(before), up);
      RunListed(before);
      RunEven(before);
      if Adds(before, up) {
        TextEven(GatherAll(before), Read(before), up, LastText(before));
      } else {
        OtherEven(GatherAll(before), Read(before), up, LastText(before));
      }
    }
  }

  /**
   * In particular: when every non-empty text delta names a text block, none after one for a later block,
   * the terminal output is exactly what was streamed.
   */
  lemma {:induction false} InOrderTextIsStreamed(ups: seq<Up>)
    requires Read(ups).ok && Run(ups).status.Open? && TextInOrder(ups)
    ensures OutputItems(Run(ups).state) == FinishItems(Receive(NoItems, Run(ups).events).items)
  {
    RunEven(ups);
    PayloadIsStreamedIff(ups);
  }
}
