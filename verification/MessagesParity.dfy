/**
 * Messages to Responses over whole runs: announced positions are terminal positions, the terminal
 * payload is what was streamed exactly when the text came in block order, and it is what the
 * non-streaming converter makes of the gathered message.
 */
module MessagesParity {
  import opened Wire
  import opened Folds
  import opened Clients
  import A = Assembler
  import opened Pieces
  import LF = LineFeed
  import opened MessagesConvert
  import opened MessagesStream

  // ---- changing one piece ----

  function Rank(pieces: seq<Piece>, p: nat): nat
    requires p <= |pieces|
  {
    |CallsIn(pieces[..p])|
  }

  lemma {:induction false} SetText(pieces: seq<Piece>, p: nat, text: string)
    requires p < |pieces| && pieces[p].TextPiece?
    ensures var q := pieces[p := TextPiece(text)];
            CallsIn(q) == CallsIn(pieces) && HasText(q) == HasText(pieces) && Before(q) == Before(pieces)
    decreases |pieces|
  {
    var n := |pieces| - 1;
    var q := pieces[p := TextPiece(text)];
    if p < n {
      assert q[..n] == pieces[..n][p := TextPiece(text)];
      SetText(pieces[..n], p, text);
    } else {
      assert q[..n] == pieces[..n];
    }
  }

  lemma {:induction false} SetCall(pieces: seq<Piece>, p: nat, c: Piece)
    requires p < |pieces| && pieces[p].CallPiece? && c.CallPiece?
    ensures var q := pieces[p := c];
            && Rank(pieces, p) < |CallsIn(pieces)|
            && CallsIn(pieces)[Rank(pieces, p)] == CallItem(pieces[p].id, pieces[p].name, pieces[p].args)
            && CallsIn(q) == CallsIn(pieces)[Rank(pieces, p) := CallItem(c.id, c.name, c.args)]
            && HasText(q) == HasText(pieces) && Before(q) == Before(pieces)
    decreases |pieces|
  {
    var n := |pieces| - 1;
    var q := pieces[p := c];
    assert pieces[..n][..p] == pieces[..p] || p == n;
    if p < n {
      assert q[..n] == pieces[..n][p := c];
      SetCall(pieces[..n], p, c);
    } else {
      assert q[..n] == pieces[..n] && pieces[..n] == pieces[..p];
    }
  }

  lemma {:induction false} SetCallRank(pieces: seq<Piece>, p: nat, c: Piece, m: nat)
    requires p < |pieces| && pieces[p].CallPiece? && c.CallPiece? && m <= |pieces|
    ensures Rank(pieces[p := c], m) == Rank(pieces, m)
  {
    if p < m {
      assert pieces[p := c][..m] == pieces[..m][p := c];
      SetCall(pieces[..m], p, c);
    } else {
      assert pieces[p := c][..m] == pieces[..m];
    }
  }

  lemma {:induction false} SetTextRank(pieces: seq<Piece>, p: nat, text: string, m: nat)
    requires p < |pieces| && pieces[p].TextPiece? && m <= |pieces|
    ensures Rank(pieces[p := TextPiece(text)], m) == Rank(pieces, m)
  {
    if p < m {
      assert pieces[p := TextPiece(text)][..m] == pieces[..m][p := TextPiece(text)];
      SetText(pieces[..m], p, text);
    } else {
      assert pieces[p := TextPiece(text)][..m] == pieces[..m];
    }
  }

  // ---- the upstream on its own ----

  /**
   * `ok`: message_start first and once, block indices strictly increasing. `streamed` is the text
   * that arrived once a text block had started; `early` says some arrived before.
   */
  datatype Order = Order(started: bool, last: Option<int>, texted: bool, streamed: string, early: bool, ok: bool)

  function ReadUp(o: Order, up: Up): Order {
    match up
    case UpStart(_, _, _) => o.(started := true, ok := o.ok && !o.started)
    case UpBlock(index, kind, _, _) =>
      o.(last := Some(index), texted := o.texted || kind == "text",
         ok := o.ok && o.started && (o.last.Some? ==> o.last.value < index))
    case UpText(_, text) => if o.texted then o.(streamed := o.streamed + text) else o.(early := true)
    case _ => o
  }

  function Read(ups: seq<Up>): Order
    decreases |ups|
  {
    if ups == [] then Order(false, None, false, "", false, true) else ReadUp(Read(ups[..|ups| - 1]), ups[|ups| - 1])
  }

  // ---- the invariant ----

  function RawPiece(b: Blk): Piece {
    if b.kind == "text" then TextPiece(b.text)
    else if b.kind == "tool_use" then CallPiece(b.id, b.name, b.args)
    else NoPiece
  }

  function RawPieces(blocks: seq<Blk>): (r: seq<Piece>)
    ensures |r| == |blocks|
  {
    seq(|blocks|, i requires 0 <= i < |blocks| => RawPiece(blocks[i]))
  }

  function Slot(pieces: seq<Piece>, p: nat): nat
    requires p <= |pieces|
  {
    var r := Rank(pieces, p);
    if HasText(pieces) && Before(pieces) <= r then r + 1 else r
  }

  predicate Increasing(blocks: seq<Blk>, last: Option<int>) {
    && (forall p, q :: 0 <= p < q < |blocks| ==> blocks[p].index < blocks[q].index)
    && last == (if blocks == [] then None else Some(blocks[|blocks| - 1].index))
  }

  /** Every tool block carries the position of its item. */
  predicate Positioned(blocks: seq<Blk>) {
    forall p :: 0 <= p < |blocks| && blocks[p].kind == "tool_use" ==> blocks[p].outIdx == Slot(RawPieces(blocks), p)
  }

  /** The client's items, when the message holds `text`. */
  function ItemsOf(id: string, pieces: seq<Piece>, text: string): seq<Item> {
    BeforeBound(pieces);
    A.Placed(MessageItem(id, text), CallsIn(pieces), HasText(pieces), Before(pieces))
  }

  predicate Numbered(st: State) {
    var pieces := RawPieces(st.blocks);
    && st.msgIdx == (if HasText(pieces) then Before(pieces) else -1)
    && st.outCount == |CallsIn(pieces)| + (if HasText(pieces) then 1 else 0)
  }

  predicate Mirrors(st: State, c: Items, o: Order) {
    && Increasing(st.blocks, o.last) && Positioned(st.blocks) && Numbered(st)
    && o.texted == HasText(RawPieces(st.blocks)) && (!o.texted ==> o.streamed == "")
    && c.items == ItemsOf(st.msgId, RawPieces(st.blocks), o.streamed)
    && c.created == o.started && (!o.started ==> st.blocks == [])
    && c.ok == !o.early
  }

  // ---- starting a block ----

  lemma PutLast(blocks: seq<Blk>, last: Option<int>, b: Blk)
    requires Increasing(blocks, last) && (last.Some? ==> last.value < b.index)
    ensures Put(blocks, b) == blocks + [b] && Increasing(blocks + [b], Some(b.index))
  {
    assert forall q :: 0 <= q < |blocks| ==> blocks[q].index < b.index;
    assert Where(blocks, b.index) == |blocks|;
  }

  lemma RawPiecesNext(blocks: seq<Blk>, b: Blk)
    ensures RawPieces(blocks + [b]) == RawPieces(blocks) + [RawPiece(b)]
  {
  }

  /** Adding a block does not move the items announced before. */
  lemma SlotsStay(pieces: seq<Piece>, x: Piece, p: nat)
    requires p < |pieces| && pieces[p].CallPiece?
    ensures Slot(pieces + [x], p) == Slot(pieces, p)
  {
    assert (pieces + [x])[..p] == pieces[..p];
    PiecesNext(pieces, x);
    SetCall(pieces, p, pieces[p]);
    BeforeBound(pieces);
  }

  lemma PositionedNext(blocks: seq<Blk>, b: Blk)
    requires Positioned(blocks) && (b.kind == "tool_use" ==> b.outIdx == Slot(RawPieces(blocks), |blocks|))
    ensures Positioned(blocks + [b])
  {
    var pieces, all := RawPieces(blocks), RawPieces(blocks + [b]);
    RawPiecesNext(blocks, b);
    forall p | 0 <= p < |blocks| + 1 && (blocks + [b])[p].kind == "tool_use"
      ensures (blocks + [b])[p].outIdx == Slot(all, p)
    {
      if p < |blocks| {
        assert pieces[p] == RawPiece(blocks[p]);
        SlotsStay(pieces, RawPiece(b), p);
      } else {
        PiecesNext(pieces, RawPiece(b));
        assert all[..p] == pieces && pieces[..p] == pieces;
      }
    }
  }

  /** The position the next item takes. */
  lemma NextSlot(st: State)
    requires Numbered(st)
    ensures Slot(RawPieces(st.blocks), |st.blocks|) == st.outCount
  {
    var pieces := RawPieces(st.blocks);
    assert pieces[..|st.blocks|] == pieces;
    BeforeBound(pieces);
  }

  lemma {:induction false} ItemsNext(id: string, pieces: seq<Piece>, x: Piece, text: string)
    requires x.TextPiece? ==> x.text == ""
    requires !HasText(pieces) ==> text == ""
    ensures ItemsOf(id, pieces + [x], text) ==
            ItemsOf(id, pieces, text) + (if x.CallPiece? then [CallItem(x.id, x.name, x.args)]
                                         else if x.TextPiece? && !HasText(pieces) then [MessageItem(id, "")]
                                         else [])
  {
    PiecesNext(pieces, x);
    BeforeBound(pieces);
    BeforeBound(pieces + [x]);
    var calls := CallsIn(pieces);
    if !HasText(pieces) && x.TextPiece? {
      assert calls[..|calls|] == calls && calls[|calls|..] == [];
    }
  }

  /** The block a start event adds. */
  function NewBlk(st: State, up: Up): Blk
    requires up.UpBlock?
  {
    Blk(up.index, up.kind, up.id, up.name, if up.kind == "tool_use" then st.outCount else 0, "", "", 0, false)
  }

  lemma BlockNumbered(st: State, up: Up)
    requires Numbered(st) && up.UpBlock?
    ensures var st' := StartBlock(st, up.index, up.kind, up.id, up.name).0;
            Numbered(st'.(blocks := st.blocks + [NewBlk(st, up)]))
  {
    RawPiecesNext(st.blocks, NewBlk(st, up));
    PiecesNext(RawPieces(st.blocks), RawPiece(NewBlk(st, up)));
    BeforeBound(RawPieces(st.blocks));
  }

  lemma BlockTable(st: State, o: Order, up: Up)
    requires Increasing(st.blocks, o.last) && Positioned(st.blocks) && Numbered(st)
    requires up.UpBlock? && (o.last.Some? ==> o.last.value < up.index)
    ensures var st' := StartBlock(st, up.index, up.kind, up.id, up.name).0;
            && st'.blocks == st.blocks + [NewBlk(st, up)]
            && Increasing(st'.blocks, Some(up.index)) && Positioned(st'.blocks) && Numbered(st')
  {
    var b := NewBlk(st, up);
    PutLast(st.blocks, o.last, b);
    assert StartBlock(st, up.index, up.kind, up.id, up.name).0.blocks == st.blocks + [b];
    NextSlot(st);
    PositionedNext(st.blocks, b);
    BlockNumbered(st, up);
  }

  lemma BlockClient(st: State, c: Items, o: Order, up: Up)
    requires Mirrors(st, c, o) && up.UpBlock? && o.started
    ensures var r := StartBlock(st, up.index, up.kind, up.id, up.name);
            var c' := Receive(c, r.1);
            && c'.items == ItemsOf(st.msgId, RawPieces(st.blocks) + [RawPiece(NewBlk(st, up))], o.streamed)
            && c'.created == c.created && c'.ok == c.ok
  {
    var es := StartBlock(st, up.index, up.kind, up.id, up.name).1;
    var pieces := RawPieces(st.blocks);
    BeforeBound(pieces);
    ItemsNext(st.msgId, pieces, RawPiece(NewBlk(st, up)), o.streamed);
    if es != [] {
      FoldOne(ItemsStep, c, es[0]);
      assert es == [es[0]];
    } else {
      assert c.items + [] == c.items;
    }
  }

  lemma BlockMirrors(st: State, c: Items, o: Order, up: Up)
    requires Mirrors(st, c, o) && up.UpBlock? && ReadUp(o, up).ok
    ensures var r := StartBlock(st, up.index, up.kind, up.id, up.name);
            Mirrors(r.0, Receive(c, r.1), ReadUp(o, up))
  {
    BlockTable(st, o, up);
    BlockClient(st, c, o, up);
    RawPiecesNext(st.blocks, NewBlk(st, up));
    PiecesNext(RawPieces(st.blocks), RawPiece(NewBlk(st, up)));
  }

  // ---- deltas ----

  /** A block whose text or arguments grew. */
  predicate Grows(b: Blk, b': Blk) {
    b'.index == b.index && b'.kind == b.kind && b'.id == b.id && b'.name == b.name && b'.outIdx == b.outIdx
  }

  lemma RawPiecesSet(blocks: seq<Blk>, p: nat, b: Blk)
    requires p < |blocks|
    ensures RawPieces(blocks[p := b]) == RawPieces(blocks)[p := RawPiece(b)]
  {
  }

  lemma GrowsRank(blocks: seq<Blk>, p: nat, b: Blk, m: nat)
    requires p < |blocks| && Grows(blocks[p], b) && m <= |blocks|
    ensures Rank(RawPieces(blocks[p := b]), m) == Rank(RawPieces(blocks), m)
    ensures HasText(RawPieces(blocks[p := b])) == HasText(RawPieces(blocks))
    ensures Before(RawPieces(blocks[p := b])) == Before(RawPieces(blocks))
    ensures |CallsIn(RawPieces(blocks[p := b]))| == |CallsIn(RawPieces(blocks))|
  {
    var pieces := RawPieces(blocks);
    RawPiecesSet(blocks, p, b);
    if b.kind == "text" {
      SetText(pieces, p, b.text);
      SetTextRank(pieces, p, b.text, m);
    } else if b.kind == "tool_use" {
      SetCall(pieces, p, RawPiece(b));
      SetCallRank(pieces, p, RawPiece(b), m);
    } else {
      assert pieces[p := NoPiece] == pieces;
    }
  }

  lemma GrowsSlots(blocks: seq<Blk>, p: nat, b: Blk)
    requires Positioned(blocks) && p < |blocks| && Grows(blocks[p], b)
    ensures Positioned(blocks[p := b])
  {
    forall m | 0 <= m < |blocks| ensures Slot(RawPieces(blocks[p := b]), m) == Slot(RawPieces(blocks), m) {
      GrowsRank(blocks, p, b, m);
    }
  }

  /** Growing a block keeps the table in order and every position. */
  lemma GrowsTable(st: State, last: Option<int>, p: nat, b: Blk)
    requires Increasing(st.blocks, last) && Positioned(st.blocks) && Numbered(st) && p < |st.blocks| && Grows(st.blocks[p], b)
    ensures var st' := st.(blocks := st.blocks[p := b]);
            Increasing(st'.blocks, last) && Positioned(st'.blocks) && Numbered(st')
            && HasText(RawPieces(st'.blocks)) == HasText(RawPieces(st.blocks))
  {
    GrowsSlots(st.blocks, p, b);
    GrowsRank(st.blocks, p, b, 0);
  }

  /** The items do not depend on the text kept per block. */
  lemma TextKeepsItems(id: string, blocks: seq<Blk>, p: nat, b: Blk, text: string)
    requires p < |blocks| && Grows(blocks[p], b) && b.args == blocks[p].args
    ensures ItemsOf(id, RawPieces(blocks[p := b]), text) == ItemsOf(id, RawPieces(blocks), text)
  {
    var pieces := RawPieces(blocks);
    RawPiecesSet(blocks, p, b);
    if b.kind == "text" {
      SetText(pieces, p, b.text);
    } else {
      assert pieces[p := RawPiece(b)] == pieces;
    }
  }

  /** A text delta extends the message the client holds; without one it is rejected and changes nothing. */
  lemma TextClient(st: State, c: Items, o: Order, e: Event, index: int, text: string)
    requires Mirrors(st, c, o)
    requires e == TextDelta(st.msgId, if st.msgIdx >= 0 then st.msgIdx else index, text)
    ensures var c' := Receive(c, [e]);
            && c'.items == ItemsOf(st.msgId, RawPieces(st.blocks), if o.texted then o.streamed + text else o.streamed)
            && c'.created == c.created && c'.ok == (c.ok && o.texted)
  {
    FoldOne(ItemsStep, c, e);
    var pieces := RawPieces(st.blocks);
    BeforeBound(pieces);
    if o.texted {
      var calls, at := CallsIn(pieces), Before(pieces);
      assert c.items == calls[..at] + [MessageItem(st.msgId, o.streamed)] + calls[at..];
      assert ItemsOf(st.msgId, pieces, o.streamed + text) == c.items[at := MessageItem(st.msgId, o.streamed + text)];
    } else {
      CallsAreCalls(pieces);
    }
  }

  lemma {:induction false} CallsAreCalls(pieces: seq<Piece>)
    ensures forall i :: 0 <= i < |CallsIn(pieces)| ==> CallsIn(pieces)[i].CallItem?
    decreases |pieces|
  {
    if pieces != [] {
      CallsAreCalls(pieces[..|pieces| - 1]);
    }
  }

  lemma TextMirrors(st: State, c: Items, o: Order, up: Up)
    requires Mirrors(st, c, o) && up.UpText?
    ensures var r := AddText(st, up.index, up.text); Mirrors(r.0, Receive(c, r.1), ReadUp(o, up))
  {
    var r := AddText(st, up.index, up.text);
    TextClient(st, c, o, r.1[0], up.index, up.text);
    var p := Get(st.blocks, up.index);
    if p.Some? {
      var b := st.blocks[p.value].(text := st.blocks[p.value].text + up.text);
      TextGrows(st, Receive(c, r.1), ReadUp(o, up), p.value, b);
    }
  }

  /** What text does to the table, once the client has its part. */
  lemma TextGrows(st: State, c: Items, o: Order, p: nat, b: Blk)
    requires Mirrors(st, c, o) && p < |st.blocks| && Grows(st.blocks[p], b) && b.args == st.blocks[p].args
    ensures Mirrors(st.(blocks := st.blocks[p := b]), c, o)
  {
    GrowsTable(st, o.last, p, b);
    TextKeepsItems(st.msgId, st.blocks, p, b, o.streamed);
  }

  /** Where a call stands among placed items, and what changing it there does. */
  lemma PlacedCall(msg: Item, calls: seq<Item>, reserved: bool, slot: nat, r: nat, c: Item)
    requires slot <= |calls| && msg.MessageItem? && r < |calls| && (!reserved ==> msg.text == "")
    ensures var i := if reserved && slot <= r then r + 1 else r;
            var items := A.Placed(msg, calls, reserved, slot);
            && i < |items| && items[i] == calls[r]
            && A.Placed(msg, calls[r := c], reserved, slot) == items[i := c]
  {
    if reserved {
      var i := if slot <= r then r + 1 else r;
      var was, now := A.Placed(msg, calls, true, slot), A.Placed(msg, calls[r := c], true, slot);
      assert |was| == |now| == |calls| + 1;
      forall k | 0 <= k < |was| && k != i ensures now[k] == was[k] {
      }
    }
  }

  /** An argument delta extends the call at the position its block carries. */
  lemma JsonItems(st: State, p: nat, text: string, more: string)
    requires Positioned(st.blocks) && p < |st.blocks| && st.blocks[p].kind == "tool_use"
    requires !HasText(RawPieces(st.blocks)) ==> text == ""
    ensures var b := st.blocks[p];
            var b' := b.(args := b.args + more);
            var items := ItemsOf(st.msgId, RawPieces(st.blocks), text);
            && 0 <= b.outIdx < |items| && items[b.outIdx] == CallItem(b.id, b.name, b.args)
            && ItemsOf(st.msgId, RawPieces(st.blocks[p := b']), text) == items[b.outIdx := CallItem(b.id, b.name, b'.args)]
  {
    var b := st.blocks[p];
    var b', pieces := b.(args := b.args + more), RawPieces(st.blocks);
    RawPiecesSet(st.blocks, p, b');
    SetCall(pieces, p, RawPiece(b'));
    BeforeBound(pieces);
    BeforeBound(pieces[p := RawPiece(b')]);
    PlacedCall(MessageItem(st.msgId, text), CallsIn(pieces), HasText(pieces), Before(pieces), Rank(pieces, p), CallItem(b.id, b.name, b'.args));
  }

  lemma JsonMirrors(st: State, c: Items, o: Order, up: Up)
    requires Mirrors(st, c, o) && up.UpJson? && AddJson(st, up.index, up.json).status.Open?
    ensures var r := AddJson(st, up.index, up.json); Mirrors(r.state, Receive(c, r.events), o)
  {
    var r := AddJson(st, up.index, up.json);
    var p := Get(st.blocks, up.index).value;
    var b := st.blocks[p];
    JsonItems(st, p, o.streamed, up.json);
    GrowsTable(st, o.last, p, b.(args := b.args + up.json));
    FoldOne(ItemsStep, c, r.events[0]);
    JsonClient(c, b, up.json);
  }

  lemma JsonClient(c: Items, b: Blk, more: string)
    requires 0 <= b.outIdx < |c.items| && c.items[b.outIdx] == CallItem(b.id, b.name, b.args)
    ensures ItemsStep(c, ArgsDelta(b.id, b.outIdx, more)) == c.(items := c.items[b.outIdx := CallItem(b.id, b.name, b.args + more)])
  {
  }

  // ---- runs ----

  lemma StartMirrors(st: State, c: Items, o: Order, up: Up)
    requires Mirrors(st, c, o) && up.UpStart? && ReadUp(o, up).ok
    ensures var r := Dispatch(st, up); Mirrors(r.state, Receive(c, r.events), ReadUp(o, up))
  {
    FoldOne(ItemsStep, c, Created(up.id));
  }

  lemma OkStays(o: Order, up: Up)
    requires ReadUp(o, up).ok
    ensures o.ok
  {
  }

  lemma DispatchMirrors(st: State, c: Items, o: Order, up: Up)
    requires Mirrors(st, c, o) && ReadUp(o, up).ok && Dispatch(st, up).status.Open?
    ensures var r := Dispatch(st, up); Mirrors(r.state, Receive(c, r.events), ReadUp(o, up))
  {
    match up
    case UpStart(_, _, _) => StartMirrors(st, c, o, up);
    case UpBlock(_, _, _, _) => BlockMirrors(st, c, o, up);
    case UpText(_, _) => TextMirrors(st, c, o, up);
    case UpJson(_, _) => JsonMirrors(st, c, o, up);
    case UpMessage(_, _) =>
    case UpOther =>
  }

  lemma NotedMirrors(o: Order, c: Items, r: Outcome)
    requires Mirrors(r.state, c, o)
    ensures Mirrors(Noted(r).state, c, o)
  {
  }

  lemma {:induction false} RunMirrors(ups: seq<Up>)
    requires Read(ups).ok && Run(ups).status.Open?
    ensures Mirrors(Run(ups).state, Receive(NoItems, Run(ups).events), Read(ups))
    decreases |ups|
  {
    if ups != [] {
      var before, up := ups[..|ups| - 1], ups[|ups| - 1];
      OkStays(Read(before), up);
      RunMirrors(before);
      var f := Run(before);
      var r := Dispatch(f.state, up);
      DispatchMirrors(f.state, Receive(NoItems, f.events), Read(before), up);
      FoldAppend(ItemsStep, NoItems, f.events, r.events);
      NotedMirrors(Read(ups), Receive(NoItems, f.events + r.events), r);
    }
  }

  // ---- the terminal payload against the client ----

  lemma PiecesOfBlksLast(blocks: seq<Blk>)
    requires blocks != []
    ensures PiecesOfBlks(blocks) == PiecesOfBlks(blocks[..|blocks| - 1]) + [PieceOfBlk(blocks[|blocks| - 1])]
    ensures RawPieces(blocks) == RawPieces(blocks[..|blocks| - 1]) + [RawPiece(blocks[|blocks| - 1])]
  {
  }

  /** Pieces that differ only in the absent-arguments default. */
  predicate Defaulted(raw: seq<Piece>, done: seq<Piece>) {
    CallsIn(done) == FinishItems(CallsIn(raw)) && Texts(done) == Texts(raw) && HasText(done) == HasText(raw) && Before(done) == Before(raw)
  }

  lemma DefaultedNext(raw: seq<Piece>, done: seq<Piece>, b: Blk)
    requires Defaulted(raw, done)
    ensures Defaulted(raw + [RawPiece(b)], done + [PieceOfBlk(b)])
  {
    var x, y := RawPiece(b), PieceOfBlk(b);
    PiecesNext(raw, x);
    PiecesNext(done, y);
    FinishAppend(CallsIn(raw), if x.CallPiece? then [CallItem(x.id, x.name, x.args)] else []);
  }

  lemma {:induction false} DefaultedPieces(blocks: seq<Blk>)
    ensures Defaulted(RawPieces(blocks), PiecesOfBlks(blocks))
    decreases |blocks|
  {
    if blocks != [] {
      var n := |blocks| - 1;
      DefaultedPieces(blocks[..n]);
      PiecesOfBlksLast(blocks);
      DefaultedNext(RawPieces(blocks[..n]), PiecesOfBlks(blocks[..n]), blocks[n]);
    }
  }

  lemma FinishAppend(a: seq<Item>, b: seq<Item>)
    ensures FinishItems(a + b) == FinishItems(a) + FinishItems(b)
  {
  }

  lemma FinishPlaced(msg: Item, calls: seq<Item>, reserved: bool, slot: nat)
    requires slot <= |calls| && msg.MessageItem?
    ensures |FinishItems(calls)| == |calls|
    ensures FinishItems(A.Placed(msg, calls, reserved, slot)) == A.Placed(msg, FinishItems(calls), reserved, slot)
  {
  }

  /** The same item but for its text or arguments. */
  predicate SameHead(a: Item, b: Item) {
    match a
    case MessageItem(id, _) => b.MessageItem? && b.id == id
    case CallItem(callId, name, _) => b.CallItem? && b.callId == callId && b.name == name
  }

  predicate SameHeads(a: seq<Item>, b: seq<Item>) {
    |a| == |b| && forall i :: 0 <= i < |a| ==> SameHead(a[i], b[i])
  }

  /** The text of the gathered message: by block, not by arrival. */
  function BlockText(st: State): string {
    Texts(RawPieces(st.blocks))
  }

  lemma HeadsStay(c: Items, e: Event, i: nat)
    requires i < |c.items|
    ensures i < |ItemsStep(c, e).items| && SameHead(ItemsStep(c, e).items[i], c.items[i])
  {
  }

  /** A client never holds anything at a position but what was announced there. */
  lemma {:induction false} AnnouncedStays(c: Items, es: seq<Event>, p: nat)
    requires p < |es| && es[p].ItemAdded?
    requires Receive(c, es).ok || forall q :: 0 <= q < |es| && es[q].ItemAdded? ==> es[q].index == |Receive(c, es[..q]).items|
    ensures var items := Receive(c, es).items;
            0 <= es[p].index < |items| && SameHead(items[es[p].index], es[p].item)
    decreases |es|
  {
    var n := |es| - 1;
    FoldLast(ItemsStep, c, es);
    var mid := Receive(c, es[..n]);
    assert es[..n][..p] == es[..p];
    if p < n {
      assert forall q :: 0 <= q < n ==> es[..n][q] == es[q] && es[..n][..q] == es[..q];
      AnnouncedStays(c, es[..n], p);
      HeadsStay(mid, es[n], es[p].index);
    }
  }

  /** Each announcement takes the next free position. */
  predicate InOrder(c: Items, es: seq<Event>) {
    forall q :: 0 <= q < |es| && es[q].ItemAdded? ==> es[q].index == |Receive(c, es[..q]).items|
  }

  lemma InOrderThen(c: Items, a: seq<Event>, b: seq<Event>)
    requires InOrder(c, a) && InOrder(Receive(c, a), b)
    ensures InOrder(c, a + b)
  {
    forall q | 0 <= q < |a + b| && (a + b)[q].ItemAdded? ensures (a + b)[q].index == |Receive(c, (a + b)[..q]).items| {
      if q < |a| {
        assert (a + b)[..q] == a[..q];
      } else {
        assert (a + b)[..q] == a + b[..q - |a|];
        FoldAppend(ItemsStep, c, a, b[..q - |a|]);
      }
    }
  }

  lemma DispatchInOrder(st: State, c: Items, o: Order, up: Up)
    requires Mirrors(st, c, o)
    ensures InOrder(c, Dispatch(st, up).events)
  {
    var es := Dispatch(st, up).events;
    BeforeBound(RawPieces(st.blocks));
    forall q | 0 <= q < |es| && es[q].ItemAdded? ensures es[q].index == |Receive(c, es[..q]).items| {
      assert es[..q] == [];
    }
  }

  lemma {:induction false} RunInOrder(ups: seq<Up>)
    requires Read(ups).ok && Run(ups).status.Open?
    ensures InOrder(NoItems, Run(ups).events)
    decreases |ups|
  {
    if ups != [] {
      var before, up := ups[..|ups| - 1], ups[|ups| - 1];
      OkStays(Read(before), up);
      RunInOrder(before);
      RunMirrors(before);
      var f := Run(before);
      DispatchInOrder(f.state, Receive(NoItems, f.events), Read(before), up);
      InOrderThen(NoItems, f.events, Dispatch(f.state, up).events);
    }
  }

  // ---- main results ----

  lemma PlacedHeads(a: Item, b: Item, xs: seq<Item>, ys: seq<Item>, reserved: bool, slot: nat)
    requires a.MessageItem? && b.MessageItem? && a.id == b.id && slot <= |xs| && SameHeads(xs, ys)
    requires !reserved ==> a.text == "" && b.text == ""
    ensures SameHeads(A.Placed(a, xs, reserved, slot), A.Placed(b, ys, reserved, slot))
  {
  }

  /** Other text and finished arguments leave every item where it is. */
  lemma HeadsMatch(id: string, raw: seq<Piece>, text: string, other: string)
    requires !HasText(raw) ==> text == "" && other == ""
    ensures SameHeads(FinishItems(ItemsOf(id, raw, text)), ItemsOf(id, raw, other))
  {
    BeforeBound(raw);
    PlacedHeads(MessageItem(id, text), MessageItem(id, other), CallsIn(raw), CallsIn(raw), HasText(raw), Before(raw));
    var items := ItemsOf(id, raw, text);
    assert SameHeads(FinishItems(items), items);
  }

  /** What the terminal payload is, next to what the client holds. */
  lemma {:induction false} PayloadAndClient(ups: seq<Up>)
    requires Read(ups).ok && Run(ups).status.Open?
    ensures var st, o := Run(ups).state, Read(ups);
            var c := Receive(NoItems, Run(ups).events);
            && OutputItems(st) == FinishItems(ItemsOf(st.msgId, RawPieces(st.blocks), BlockText(st)))
            && c.items == ItemsOf(st.msgId, RawPieces(st.blocks), o.streamed)
            && o.texted == HasText(RawPieces(st.blocks)) && (!o.texted ==> o.streamed == "" && BlockText(st) == "")
            && c.ok == !o.early
  {
    RunMirrors(ups);
    var st := Run(ups).state;
    var raw := RawPieces(st.blocks);
    DefaultedPieces(st.blocks);
    BeforeBound(raw);
    BeforeBound(PiecesOfBlks(st.blocks));
    FinishPlaced(MessageItem(st.msgId, BlockText(st)), CallsIn(raw), HasText(raw), Before(raw));
  }

  /**
   * For increasing block indices: every position announced in the stream is that item's position in
   * the terminal output, whatever blocks were dropped in between.
   */
  lemma {:induction false} AnnouncedPositionsAreTerminal(ups: seq<Up>, p: nat)
    requires Read(ups).ok && Run(ups).status.Open?
    requires p < |Run(ups).events| && Run(ups).events[p].ItemAdded?
    ensures var e, output := Run(ups).events[p], OutputItems(Run(ups).state);
            && |output| == |Receive(NoItems, Run(ups).events).items|
            && 0 <= e.index < |output| && SameHead(output[e.index], e.item)
  {
    RunInOrder(ups);
    AnnouncedStays(NoItems, Run(ups).events, p);
    PayloadAndClient(ups);
    HeadsMatch(Run(ups).state.msgId, RawPieces(Run(ups).state.blocks), BlockText(Run(ups).state), Read(ups).streamed);
  }

  /** The terminal output is item for item what was streamed exactly when the blocks hold the streamed text. */
  lemma {:induction false} PayloadMatchesIff(ups: seq<Up>)
    requires Read(ups).ok && Run(ups).status.Open?
    ensures OutputItems(Run(ups).state) == FinishItems(Receive(NoItems, Run(ups).events).items)
            <==> Read(ups).streamed == BlockText(Run(ups).state)
  {
    PayloadAndClient(ups);
    var st, o := Run(ups).state, Read(ups);
    var raw := RawPieces(st.blocks);
    BeforeBound(raw);
    if HasText(raw) {
      FinishPlaced(MessageItem(st.msgId, o.streamed), CallsIn(raw), true, Before(raw));
      assert FinishItems(ItemsOf(st.msgId, raw, o.streamed))[Before(raw)] == MessageItem(st.msgId, o.streamed);
      FinishPlaced(MessageItem(st.msgId, BlockText(st)), CallsIn(raw), true, Before(raw));
      assert OutputItems(st)[Before(raw)] == MessageItem(st.msgId, BlockText(st));
    }
  }

  /** Every delta names an announced item by position and id, exactly when no text came before its block. */
  lemma {:induction false} ClientKeepsUpIff(ups: seq<Up>)
    requires Read(ups).ok && Run(ups).status.Open?
    ensures Receive(NoItems, Run(ups).events).ok <==> !Read(ups).early
  {
    PayloadAndClient(ups);
  }

  lemma {:induction false} OneAtMost(es: seq<Event>)
    requires |es| <= 1
    ensures Terminals(es) == if es != [] && es[0].Completed? then 1 else 0
  {
    if es != [] {
      assert es[1..] == [];
    }
  }

  lemma DispatchTerminals(st: State, up: Up)
    ensures var o := Dispatch(st, up);
            && Terminals(o.events) == (if o.status.Done? then 1 else 0)
            && o.state.flushed == st.flushed && o.state.emitted == st.emitted
  {
    OneAtMost(Dispatch(st, up).events);
  }

  /** One terminal event at most; the converter remembers whether it has emitted anything. */
  lemma {:induction false} TerminalOnce(ups: seq<Up>)
    ensures Terminals(Run(ups).events) == if Run(ups).status.Done? then 1 else 0
    ensures (Run(ups).state.emitted <==> Run(ups).events != []) && !Run(ups).state.flushed
    decreases |ups|
  {
    if ups != [] {
      var before, up := ups[..|ups| - 1], ups[|ups| - 1];
      TerminalOnce(before);
      var f := Run(before);
      if f.status.Open? {
        DispatchTerminals(f.state, up);
        TerminalsAppend(f.events, Dispatch(f.state, up).events);
      }
    }
  }

  /** With message_stop, or with Flush once anything was emitted, the terminal event is sent, and only then. */
  lemma {:induction false} TerminalSentAtTheEnd(ups: seq<Up>)
    requires Run(ups).status.Open?
    ensures var st := Run(ups).state;
            && Run(ups + [UpStop]).events == Run(ups).events + [Terminal(st)] && Run(ups + [UpStop]).status.Done?
            && Flush(st).1 == (if Run(ups).events != [] then [Terminal(st)] else [])
            && Flush(Flush(st).0).1 == []
  {
    RunNext(ups, UpStop);
    TerminalOnce(ups);
  }

  /** Two calls started in the given order of upstream indices, from a fresh converter. */
  lemma TwoCalls(i: int, j: int)
    requires i > j
    ensures var f := Run([UpBlock(i, "tool_use", "a", "f"), UpBlock(j, "tool_use", "b", "g")]);
            && f.events == [ItemAdded(0, CallItem("a", "f", "")), ItemAdded(1, CallItem("b", "g", ""))]
            && f.state.blocks == [Blk(j, "tool_use", "b", "g", 1, "", "", 0, false), Blk(i, "tool_use", "a", "f", 0, "", "", 0, false)]
  {
    var u0, u1 := UpBlock(i, "tool_use", "a", "f"), UpBlock(j, "tool_use", "b", "g");
    RunNext([], u0);
    RunNext([u0], u1);
    assert [] + [u0] == [u0] && [u0] + [u1] == [u0, u1];
    var f := Run([u0]);
    assert f.state.blocks == [Blk(i, "tool_use", "a", "f", 0, "", "", 0, false)] && f.state.outCount == 1;
    assert f.events == [ItemAdded(0, CallItem("a", "f", ""))];
    assert Where(f.state.blocks, j) == 0;
  }

  lemma TwoCallPieces(b: Blk, c: Blk)
    requires b.kind == c.kind == "tool_use" && b.args == c.args == ""
    ensures Aggregate("", PiecesOfBlks([b, c])) == [CallItem(b.id, b.name, "{}"), CallItem(c.id, c.name, "{}")]
  {
    assert TrimLeft("") == "" && TrimRight("") == "";
    var x, y := PieceOfBlk(b), PieceOfBlk(c);
    assert PiecesOfBlks([b, c]) == [x] + [y] && [x] == [] + [x];
    PiecesNext([], x);
    PiecesNext([x], y);
  }

  /** Out of order, the position announced first is not where the call ends up. */
  lemma OutOfOrderMovesItems()
    ensures var f := Run([UpBlock(1, "tool_use", "a", "f"), UpBlock(0, "tool_use", "b", "g")]);
            && |f.events| > 0 && f.events[0] == ItemAdded(0, CallItem("a", "f", ""))
            && OutputItems(f.state) == [CallItem("b", "g", "{}"), CallItem("a", "f", "{}")]
  {
    TwoCalls(1, 0);
    var f := Run([UpBlock(1, "tool_use", "a", "f"), UpBlock(0, "tool_use", "b", "g")]);
    TwoCallPieces(f.state.blocks[0], f.state.blocks[1]);
    OnlyBlocksKeepId();
  }

  lemma OnlyBlocksKeepId()
    ensures Run([UpBlock(1, "tool_use", "a", "f"), UpBlock(0, "tool_use", "b", "g")]).state.msgId == ""
  {
    var u0, u1 := UpBlock(1, "tool_use", "a", "f"), UpBlock(0, "tool_use", "b", "g");
    RunNext([], u0);
    RunNext([u0], u1);
    assert [] + [u0] == [u0] && [u0] + [u1] == [u0, u1];
  }

  // ---- parity with the non-streaming converter ----

  /** The message a non-streaming response would have carried; `indices` are its blocks' upstream indices. */
  datatype Gathered = Gathered(indices: seq<int>, content: seq<ClaudeBlock>, id: string, model: string, stopReason: string, usage: ClaudeUsage)

  const Nothing := Gathered([], [], "", "", "", ClaudeUsage(0, 0, None, None))

  function IndexOf(indices: seq<int>, index: int): (p: nat)
    ensures p <= |indices|
    ensures p < |indices| ==> indices[p] == index
    ensures forall q :: 0 <= q < p ==> indices[q] != index
    decreases |indices|
  {
    if indices == [] || indices[0] == index then 0 else
    var p := IndexOf(indices[1..], index);
    assert forall q :: 0 < q < p + 1 ==> indices[q] == indices[1..][q - 1];
    p + 1
  }

  /** Counts as last reported. */
  function LaterUsage(was: ClaudeUsage, u: ClaudeUsage, input: int): ClaudeUsage {
    ClaudeUsage(input, u.output, if u.cacheRead.Some? then u.cacheRead else was.cacheRead,
                if u.cacheCreation.Some? then u.cacheCreation else was.cacheCreation)
  }

  /** Blocks in order of arrival; tool input is gathered as text. */
  function Gather(g: Gathered, up: Up): Gathered {
    match up
    case UpStart(id, model, u) => g.(id := id, model := model, usage := LaterUsage(g.usage, u, u.input))
    case UpBlock(index, kind, id, name) =>
      g.(indices := g.indices + [index], content := g.content + [ClaudeBlock(kind, "", id, name, "")])
    case UpText(index, text) =>
      var p := IndexOf(g.indices, index);
      if p < |g.content| then g.(content := g.content[p := g.content[p].(text := g.content[p].text + text)]) else g
    case UpJson(index, json) =>
      var p := IndexOf(g.indices, index);
      if p < |g.content| then g.(content := g.content[p := g.content[p].(input := g.content[p].input + json)]) else g
    case UpMessage(stop, u) =>
      g.(stopReason := stop, usage := LaterUsage(g.usage, u, if u.input != 0 then u.input else g.usage.input))
    case _ => g
  }

  function GatherAll(ups: seq<Up>): Gathered
    decreases |ups|
  {
    if ups == [] then Nothing else Gather(GatherAll(ups[..|ups| - 1]), ups[|ups| - 1])
  }

  /** The gathered message, absent tool input being the empty object. */
  function Message(g: Gathered): ClaudeResponse {
    ClaudeResponse(g.id, g.model, Some(seq(|g.content|, i requires 0 <= i < |g.content| => g.content[i].(input := DefaultArgs(g.content[i].input)))),
                   g.stopReason, g.usage)
  }

  predicate Tells(b: Blk, index: int, c: ClaudeBlock) {
    b.index == index && b.kind == c.kind && b.id == c.id && b.name == c.name && b.text == c.text && b.args == c.input
  }

  predicate Same(st: State, g: Gathered) {
    && |g.indices| == |g.content| == |st.blocks|
    && (forall p :: 0 <= p < |st.blocks| ==> Tells(st.blocks[p], g.indices[p], g.content[p]))
    && Sealed(st, g)
  }

  /** Identity, stop reason and all counts but the output's. */
  predicate Sealed(st: State, g: Gathered) {
    && st.msgId == g.id && st.model == g.model && st.stopReason == g.stopReason
    && Usage(st) == g.usage.(output := st.completion)
  }

  lemma {:induction false} RunSealed(ups: seq<Up>)
    requires Run(ups).status.Open?
    ensures Sealed(Run(ups).state, GatherAll(ups)) && Run(ups).state.completion == DeltaOutput(ups)
    decreases |ups|
  {
    if ups != [] {
      RunSealed(ups[..|ups| - 1]);
      SealedNext(Run(ups[..|ups| - 1]).state, GatherAll(ups[..|ups| - 1]), ups[|ups| - 1]);
    }
  }

  lemma SealedNext(st: State, g: Gathered, up: Up)
    requires Sealed(st, g) && Dispatch(st, up).status.Open?
    ensures Sealed(Dispatch(st, up).state, Gather(g, up))
    ensures Dispatch(st, up).state.completion == if up.UpMessage? then up.usage.output else st.completion
  {
    if up.UpBlock? || up.UpText? || up.UpJson? {
      ContentKeepsSeal(st, up);
      ContentGathersNoSeal(g, up);
    }
  }

  lemma ContentKeepsSeal(st: State, up: Up)
    requires up.UpBlock? || up.UpText? || up.UpJson?
    ensures var st' := Dispatch(st, up).state;
            st'.msgId == st.msgId && st'.model == st.model && st'.stopReason == st.stopReason && Usage(st') == Usage(st)
  {
  }

  lemma ContentGathersNoSeal(g: Gathered, up: Up)
    requires up.UpBlock? || up.UpText? || up.UpJson?
    ensures var g' := Gather(g, up); g'.id == g.id && g'.model == g.model && g'.stopReason == g.stopReason && g'.usage == g.usage
  {
  }

  // ---- which output count is reported ----

  /** The output count of the last message_delta. */
  function DeltaOutput(ups: seq<Up>): int
    decreases |ups|
  {
    if ups == [] then 0
    else if ups[|ups| - 1].UpMessage? then ups[|ups| - 1].usage.output
    else DeltaOutput(ups[..|ups| - 1])
  }

  /** The output count of the last message_start, if no message_delta came after it. */
  function StartOutput(ups: seq<Up>): Option<int>
    decreases |ups|
  {
    if ups == [] || ups[|ups| - 1].UpMessage? then None
    else if ups[|ups| - 1].UpStart? then Some(ups[|ups| - 1].usage.output)
    else StartOutput(ups[..|ups| - 1])
  }

  /** A message_delta came after the last message_start, or that start reported the count held already. */
  predicate OutputInTime(ups: seq<Up>) {
    StartOutput(ups).Some? ==> StartOutput(ups).value == DeltaOutput(ups)
  }

  lemma {:induction false} GatheredOutput(ups: seq<Up>)
    ensures GatherAll(ups).usage.output == if StartOutput(ups).Some? then StartOutput(ups).value else DeltaOutput(ups)
    decreases |ups|
  {
    if ups != [] {
      GatheredOutput(ups[..|ups| - 1]);
    }
  }

  lemma {:induction false} SamePlace(st: State, g: Gathered, last: Option<int>, index: int)
    requires Same(st, g) && Increasing(st.blocks, last)
    ensures var p := IndexOf(g.indices, index);
            if p < |g.content| then Get(st.blocks, index) == Some(p) else Get(st.blocks, index).None?
  {
    var p, q := IndexOf(g.indices, index), Where(st.blocks, index);
    if p < |g.content| {
      assert Tells(st.blocks[p], g.indices[p], g.content[p]);
    }
    if q < |st.blocks| {
      assert Tells(st.blocks[q], g.indices[q], g.content[q]);
    }
  }

  lemma SameBlock(st: State, g: Gathered, o: Order, up: Up)
    requires Same(st, g) && Increasing(st.blocks, o.last) && up.UpBlock? && ReadUp(o, up).ok
    ensures Same(Dispatch(st, up).state, Gather(g, up))
  {
    PutLast(st.blocks, o.last, NewBlk(st, up));
    assert Dispatch(st, up).state.blocks == st.blocks + [NewBlk(st, up)];
    SameAppended(st, g, Dispatch(st, up).state, Gather(g, up), NewBlk(st, up), up);
  }

  lemma SameAppended(st: State, g: Gathered, st': State, g': Gathered, b: Blk, up: Up)
    requires Same(st, g) && up.UpBlock? && st'.blocks == st.blocks + [b]
    requires b.index == up.index && b.kind == up.kind && b.id == up.id && b.name == up.name && b.text == b.args == ""
    requires g' == g.(indices := g.indices + [up.index], content := g.content + [ClaudeBlock(up.kind, "", up.id, up.name, "")])
    requires st'.msgId == st.msgId && st'.model == st.model && st'.stopReason == st.stopReason && Usage(st') == Usage(st)
    ensures Same(st', g')
  {
  }

  lemma SameText(st: State, g: Gathered, o: Order, up: Up)
    requires Same(st, g) && Increasing(st.blocks, o.last) && up.UpText?
    ensures Same(Dispatch(st, up).state, Gather(g, up))
  {
    SamePlace(st, g, o.last, up.index);
    var p := IndexOf(g.indices, up.index);
    if p < |g.content| {
      assert Tells(st.blocks[p], g.indices[p], g.content[p]);
    }
  }

  lemma SameJson(st: State, g: Gathered, o: Order, up: Up)
    requires Same(st, g) && Increasing(st.blocks, o.last) && up.UpJson? && Dispatch(st, up).status.Open?
    ensures Same(Dispatch(st, up).state, Gather(g, up))
  {
    SamePlace(st, g, o.last, up.index);
    var p := IndexOf(g.indices, up.index);
    assert Tells(st.blocks[p], g.indices[p], g.content[p]);
  }

  lemma SameNext(st: State, g: Gathered, o: Order, up: Up)
    requires Same(st, g) && Increasing(st.blocks, o.last) && ReadUp(o, up).ok && Dispatch(st, up).status.Open?
    ensures Same(Dispatch(st, up).state, Gather(g, up))
  {
    match up
    case UpBlock(_, _, _, _) => SameBlock(st, g, o, up);
    case UpText(_, _) => SameText(st, g, o, up);
    case UpJson(_, _) => SameJson(st, g, o, up);
    case _ =>
  }

  lemma {:induction false} RunSame(ups: seq<Up>)
    requires Read(ups).ok && Run(ups).status.Open?
    ensures Same(Run(ups).state, GatherAll(ups))
    decreases |ups|
  {
    if ups != [] {
      var before, up := ups[..|ups| - 1], ups[|ups| - 1];
      OkStays(Read(before), up);
      RunSame(before);
      RunMirrors(before);
      SameNext(Run(before).state, GatherAll(before), Read(before), up);
    }
  }

  /** Re-encoding of tool arguments, which the non-streaming converter does and the stream does not. */
  function Reencode<V>(j: Json<V>, it: Item): Item {
    if it.CallItem? then it.(args := EncodeInput(j, it.args)) else it
  }

  function ReencodeAll<V>(j: Json<V>, items: seq<Item>): seq<Item> {
    seq(|items|, i requires 0 <= i < |items| => Reencode(j, items[i]))
  }

  predicate Encodes(b: Blk, c: ClaudeBlock) {
    c.kind == b.kind && c.text == b.text && c.id == b.id && c.name == b.name && c.input == DefaultArgs(b.args)
  }

  /** Pieces that differ only in the encoding of the arguments. */
  predicate Reencoded<V>(j: Json<V>, a: seq<Piece>, b: seq<Piece>) {
    CallsIn(b) == ReencodeAll(j, CallsIn(a)) && Texts(b) == Texts(a) && HasText(b) == HasText(a) && Before(b) == Before(a)
  }

  lemma ReencodedNext<V>(j: Json<V>, a: seq<Piece>, b: seq<Piece>, x: Piece, y: Piece)
    requires Reencoded(j, a, b)
    requires y == if x.CallPiece? then x.(args := EncodeInput(j, x.args)) else x
    ensures Reencoded(j, a + [x], b + [y])
  {
    PiecesNext(a, x);
    PiecesNext(b, y);
  }

  lemma {:induction false} ReencodedPieces<V>(j: Json<V>, blocks: seq<Blk>, content: seq<ClaudeBlock>)
    requires |blocks| == |content| && forall p :: 0 <= p < |blocks| ==> Encodes(blocks[p], content[p])
    ensures Reencoded(j, PiecesOfBlks(blocks), PiecesOf(j, content))
    decreases |blocks|
  {
    if blocks != [] {
      var n := |blocks| - 1;
      ReencodedPieces(j, blocks[..n], content[..n]);
      PiecesOfBlksLast(blocks);
      PiecesOfLast(j, content);
      assert Encodes(blocks[n], content[n]);
      ReencodedNext(j, PiecesOfBlks(blocks[..n]), PiecesOf(j, content[..n]), PieceOfBlk(blocks[n]), PieceOf(j, content[n]));
    }
  }

  lemma ReencodePlaced<V>(j: Json<V>, msg: Item, calls: seq<Item>, reserved: bool, slot: nat)
    requires slot <= |calls| && msg.MessageItem?
    ensures ReencodeAll(j, A.Placed(msg, calls, reserved, slot)) == A.Placed(msg, ReencodeAll(j, calls), reserved, slot)
  {
  }

  lemma {:induction false} OutputsAgree<V>(j: Json<V>, ups: seq<Up>)
    requires Read(ups).ok && Run(ups).status.Open? && AllKnown(Message(GatherAll(ups)).content.value)
    ensures var msg := Message(GatherAll(ups));
            Converted(j, msg, msg.content.value).output == ReencodeAll(j, Terminal(Run(ups).state).output)
  {
    RunSame(ups);
    var st, msg := Run(ups).state, Message(GatherAll(ups));
    var content := msg.content.value;
    forall p | 0 <= p < |st.blocks| ensures Encodes(st.blocks[p], content[p]) {
      assert Tells(st.blocks[p], GatherAll(ups).indices[p], GatherAll(ups).content[p]);
    }
    ReencodedPieces(j, st.blocks, content);
    var pieces := PiecesOfBlks(st.blocks);
    BeforeBound(pieces);
    BeforeBound(PiecesOf(j, content));
    ReencodePlaced(j, MessageItem(st.msgId, Texts(pieces)), CallsIn(pieces), HasText(pieces), Before(pieces));
  }

  /**
   * Mode parity of the terminal event with the non-streaming converter on the gathered message,
   * whenever that converter accepts the block kinds: the same identity and status; the same tokens if
   * and only if a message_delta came after the last message_start, or that start reported the output
   * count held already; and for increasing block indices, up to the re-encoding of tool arguments, the
   * same output.
   */
  lemma {:induction false} ModeParity<V>(j: Json<V>, ups: seq<Up>)
    requires Run(ups).status.Open? && AllKnown(Message(GatherAll(ups)).content.value)
    ensures var msg := Message(GatherAll(ups));
            var r, e := Converted(j, msg, msg.content.value), Terminal(Run(ups).state);
            && r.id == e.id && r.model == e.model && r.status == e.status
            && (r.tokens == e.tokens <==> OutputInTime(ups))
            && (Read(ups).ok ==> r.output == ReencodeAll(j, e.output))
  {
    RunSealed(ups);
    GatheredOutput(ups);
    if Read(ups).ok {
      OutputsAgree(j, ups);
    }
  }

  /** The count of a message_start that no message_delta follows is not reported. */
  lemma StartCountIsDropped()
    ensures var ups := [UpStart("m", "x", ClaudeUsage(3, 1, None, None))];
            && Run(ups).status.Open? && Message(GatherAll(ups)).usage.output == 1
            && Terminal(Run(ups).state).tokens.output == 0
  {
    var up := UpStart("m", "x", ClaudeUsage(3, 1, None, None));
    RunNext([], up);
    assert [] + [up] == [up] && [up][..0] == [];
    assert GatherAll([up]) == Gather(GatherAll([]), up);
  }
}
