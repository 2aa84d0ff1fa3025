/**
 * Messages to Responses: exactly when the positions announced in the stream are the positions of the
 * terminal output, for every order in which blocks are started and started again.
 */
module MessagesOrder {
  import opened Wire
  import opened Folds
  import opened Pieces
  import A = Assembler
  import LF = LineFeed
  import opened MessagesConvert
  import opened MessagesStream

  /** What an output position is for: the one message, or the call of one block. */
  datatype Mark = TextMark | CallMark(index: int, id: string, name: string)

  predicate Shows(it: Item, m: Mark) {
    if m.TextMark? then it.MessageItem? else it.CallItem? && it.callId == m.id && it.name == m.name
  }

  // ---- the upstream on its own ----

  predicate StartsCall(up: Up) {
    up.UpBlock? && up.kind == "tool_use"
  }

  predicate StartsText(up: Up) {
    up.UpBlock? && up.kind == "text"
  }

  /** The calls, in the order they were started. */
  function Tools(ups: seq<Up>): seq<Mark>
    decreases |ups|
  {
    if ups == [] then []
    else
      var up := ups[|ups| - 1];
      Tools(ups[..|ups| - 1]) + if StartsCall(up) then [CallMark(up.index, up.id, up.name)] else []
  }

  /** How many calls had been started when the first text block was; -1 without one. */
  function TextPlace(ups: seq<Up>): (n: int)
    ensures -1 <= n <= |Tools(ups)|
    decreases |ups|
  {
    if ups == [] then -1
    else
      var before := ups[..|ups| - 1];
      if TextPlace(before) >= 0 then TextPlace(before) else if StartsText(ups[|ups| - 1]) then |Tools(before)| else -1
  }

  /** The newest block started at an index. */
  function Latest(ups: seq<Up>, index: int): Option<Up>
    decreases |ups|
  {
    if ups == [] then None
    else if ups[|ups| - 1].UpBlock? && ups[|ups| - 1].index == index then Some(ups[|ups| - 1])
    else Latest(ups[..|ups| - 1], index)
  }

  predicate LiveCall(ups: seq<Up>, index: int) {
    Latest(ups, index).Some? && StartsCall(Latest(ups, index).value)
  }

  predicate LiveText(ups: seq<Up>, index: int) {
    Latest(ups, index).Some? && StartsText(Latest(ups, index).value)
  }

  predicate ByIndex(calls: seq<Mark>) {
    && (forall k :: 0 <= k < |calls| ==> calls[k].CallMark?)
    && (forall p, q :: 0 <= p < q < |calls| ==> calls[p].index < calls[q].index)
  }

  /** `x` is the least index of the text blocks that are left, and exactly the first `n` calls stand before it. */
  ghost predicate FirstText(ups: seq<Up>, calls: seq<Mark>, n: int, x: int) {
    && LiveText(ups, x) && (forall y :: LiveText(ups, y) ==> x <= y)
    && (forall k :: 0 <= k < |calls| && calls[k].CallMark? ==> (calls[k].index < x <==> k < n))
  }

  /**
   * Calls are started by increasing index, none of their indices is started again, and if text was
   * started, some text block is left and the first of those stands where the first text was started.
   */
  ghost predicate StartedInOrder(ups: seq<Up>) {
    && ByIndex(Tools(ups))
    && (forall k :: 0 <= k < |Tools(ups)| ==> LiveCall(ups, Tools(ups)[k].index))
    && (TextPlace(ups) >= 0 ==> exists x :: FirstText(ups, Tools(ups), TextPlace(ups), x))
  }

  function Insert(calls: seq<Mark>, at: int): seq<Mark>
    requires -1 <= at <= |calls|
  {
    if at < 0 then calls else calls[..at] + [TextMark] + calls[at..]
  }

  /** What the stream announces, position by position. */
  function Announced(ups: seq<Up>): seq<Mark> {
    Insert(Tools(ups), TextPlace(ups))
  }

  // ---- what is announced ----

  /** The announcements among the events. */
  function Added(es: seq<Event>): seq<Event>
    decreases |es|
  {
    if es == [] then [] else Added(es[..|es| - 1]) + if es[|es| - 1].ItemAdded? then [es[|es| - 1]] else []
  }

  lemma AddedNext(es: seq<Event>, more: seq<Event>)
    requires |more| <= 1
    ensures Added(es + more) == Added(es) + if more != [] && more[0].ItemAdded? then more else []
  {
    if more == [] {
      assert es + more == es && Added(es) + [] == Added(es);
    } else {
      assert (es + more)[..|es|] == es && more == [more[0]];
    }
  }

  lemma UpNext(ups: seq<Up>, up: Up)
    ensures Tools(ups + [up]) == Tools(ups) + (if StartsCall(up) then [CallMark(up.index, up.id, up.name)] else [])
    ensures TextPlace(ups + [up]) == if TextPlace(ups) >= 0 then TextPlace(ups) else if StartsText(up) then |Tools(ups)| else -1
  {
    assert (ups + [up])[..|ups|] == ups;
  }

  lemma LatestNext(ups: seq<Up>, up: Up, index: int)
    ensures Latest(ups + [up], index) == if up.UpBlock? && up.index == index then Some(up) else Latest(ups, index)
  {
    assert (ups + [up])[..|ups|] == ups;
  }

  /** What a start adds to the announcements. */
  function MoreMarks(ups: seq<Up>, up: Up): seq<Mark> {
    if StartsCall(up) then [CallMark(up.index, up.id, up.name)]
    else if StartsText(up) && TextPlace(ups) < 0 then [TextMark]
    else []
  }

  lemma AnnouncedNext(ups: seq<Up>, up: Up)
    ensures Announced(ups + [up]) == Announced(ups) + MoreMarks(ups, up)
  {
    UpNext(ups, up);
    var calls, at := Tools(ups), TextPlace(ups);
    if at < 0 && StartsText(up) {
      assert calls[..|calls|] == calls && calls[|calls|..] == [];
    }
    assert Announced(ups) + [] == Announced(ups);
  }

  /** Announcements carry consecutive positions and say what they are for. */
  ghost predicate Told(ups: seq<Up>, f: Outcome) {
    && |Added(f.events)| == |Announced(ups)| == f.state.outCount
    && (forall q :: 0 <= q < |Added(f.events)| ==>
          var e := Added(f.events)[q]; e.ItemAdded? && e.index == q && Shows(e.item, Announced(ups)[q]))
    && (f.state.msgIdx >= 0 <==> TextPlace(ups) >= 0)
  }

  /** What a block start announces. */
  lemma StartAnnounces(ups: seq<Up>, up: Up, st: State)
    requires up.UpBlock? && st.outCount == |Announced(ups)| && (st.msgIdx >= 0 <==> TextPlace(ups) >= 0)
    ensures var r, more := StartBlock(st, up.index, up.kind, up.id, up.name), MoreMarks(ups, up);
            && r.0.outCount == st.outCount + |more| && (r.0.msgIdx >= 0 <==> TextPlace(ups) >= 0 || StartsText(up))
            && (if more == [] then r.1 == [] else exists it :: r.1 == [ItemAdded(st.outCount, it)] && Shows(it, more[0]))
  {
    if StartsCall(up) {
      assert Shows(CallItem(up.id, up.name, ""), CallMark(up.index, up.id, up.name));
    } else if StartsText(up) {
      assert Shows(MessageItem(st.msgId, ""), TextMark);
    }
  }

  /** One event announces what it adds, at the next free position. */
  lemma DispatchAnnounces(ups: seq<Up>, up: Up, st: State)
    requires st.outCount == |Announced(ups)| && (st.msgIdx >= 0 <==> TextPlace(ups) >= 0)
    ensures var o, more := Dispatch(st, up), MoreMarks(ups, up);
            && |o.events| <= 1 && |more| <= 1 && o.state.outCount == st.outCount + |more|
            && (o.state.msgIdx >= 0 <==> TextPlace(ups + [up]) >= 0)
            && (if more == [] then o.events == [] || !o.events[0].ItemAdded?
                else |o.events| == 1 && o.events[0].ItemAdded? && o.events[0].index == st.outCount && Shows(o.events[0].item, more[0]))
  {
    UpNext(ups, up);
    if up.UpBlock? {
      StartAnnounces(ups, up, st);
    } else {
      OthersAnnounceNothing(st, up);
    }
  }

  lemma OthersAnnounceNothing(st: State, up: Up)
    requires !up.UpBlock?
    ensures var o := Dispatch(st, up);
            && |o.events| <= 1 && (o.events != [] ==> !o.events[0].ItemAdded?)
            && o.state.outCount == st.outCount && o.state.msgIdx == st.msgIdx
  {
  }

  lemma ToldNext(ups: seq<Up>, up: Up, f: Outcome)
    requires Told(ups, f) && f.status.Open?
    ensures Told(ups + [up], LF.Then(f, Noted(Dispatch(f.state, up))))
  {
    var o := Dispatch(f.state, up);
    DispatchAnnounces(ups, up, f.state);
    AnnouncedNext(ups, up);
    AddedNext(f.events, o.events);
    ToldWith(ups, up, f, Noted(o), MoreMarks(ups, up));
  }

  lemma ToldWith(ups: seq<Up>, up: Up, f: Outcome, o: Outcome, more: seq<Mark>)
    requires Told(ups, f) && Announced(ups + [up]) == Announced(ups) + more && |more| <= 1 && |o.events| <= 1
    requires Added(f.events + o.events) == Added(f.events) + if o.events != [] && o.events[0].ItemAdded? then o.events else []
    requires o.state.outCount == f.state.outCount + |more| && (o.state.msgIdx >= 0 <==> TextPlace(ups + [up]) >= 0)
    requires if more == [] then o.events == [] || !o.events[0].ItemAdded?
             else |o.events| == 1 && o.events[0].ItemAdded? && o.events[0].index == f.state.outCount && Shows(o.events[0].item, more[0])
    ensures Told(ups + [up], LF.Then(f, o))
  {
    assert Added(f.events) + [] == Added(f.events) && Announced(ups) + [] == Announced(ups);
  }

  lemma {:induction false} RunTold(ups: seq<Up>)
    ensures Run(ups).status.Open? ==> Told(ups, Run(ups))
    decreases |ups|
  {
    if ups != [] {
      RunTold(ups[..|ups| - 1]);
      Last(ups);
      RunNext(ups[..|ups| - 1], ups[|ups| - 1]);
      if Run(ups[..|ups| - 1]).status.Open? {
        ToldNext(ups[..|ups| - 1], ups[|ups| - 1], Run(ups[..|ups| - 1]));
      }
    }
  }

  // ---- the table ----

  predicate Matches(b: Option<Blk>, up: Option<Up>) {
    && (b.Some? <==> up.Some?)
    && (b.Some? ==> up.value.UpBlock? && b.value.index == up.value.index && b.value.kind == up.value.kind && b.value.id == up.value.id && b.value.name == up.value.name)
  }

  ghost predicate Tabled(ups: seq<Up>, blocks: seq<Blk>) {
    Sorted(blocks) && forall i :: Matches(Found(blocks, i), Latest(ups, i))
  }

  /** A block that grows in place. */
  lemma FoundSet(blocks: seq<Blk>, p: nat, b: Blk, i: int)
    requires Sorted(blocks) && p < |blocks| && b.index == blocks[p].index
    ensures Sorted(blocks[p := b])
    ensures Found(blocks[p := b], i) == if i == b.index then Some(b) else Found(blocks, i)
  {
    assert Where(blocks, b.index) == p;
    assert blocks[p := b] == Put(blocks, b);
    FoundPut(blocks, b, i);
    PutIsSorted(blocks, b);
  }

  lemma GrowsTabled(ups: seq<Up>, up: Up, blocks: seq<Blk>, p: nat, b: Blk)
    requires Tabled(ups, blocks) && !up.UpBlock? && p < |blocks|
    requires b.index == blocks[p].index && b.kind == blocks[p].kind && b.id == blocks[p].id && b.name == blocks[p].name
    ensures Tabled(ups + [up], blocks[p := b])
  {
    FoundSet(blocks, p, b, b.index);
    FoundIff(blocks, blocks[p]);
    forall i ensures Matches(Found(blocks[p := b], i), Latest(ups + [up], i)) {
      FoundSet(blocks, p, b, i);
      LatestNext(ups, up, i);
      assert Matches(Found(blocks, i), Latest(ups, i));
    }
  }

  lemma PutTabled(ups: seq<Up>, up: Up, blocks: seq<Blk>, b: Blk)
    requires Tabled(ups, blocks) && up.UpBlock?
    requires b.index == up.index && b.kind == up.kind && b.id == up.id && b.name == up.name
    ensures Tabled(ups + [up], Put(blocks, b))
  {
    PutIsSorted(blocks, b);
    forall i ensures Matches(Found(Put(blocks, b), i), Latest(ups + [up], i)) {
      FoundPut(blocks, b, i);
      LatestNext(ups, up, i);
      assert Matches(Found(blocks, i), Latest(ups, i));
    }
  }

  lemma SameTabled(ups: seq<Up>, up: Up, blocks: seq<Blk>)
    requires Tabled(ups, blocks) && !up.UpBlock?
    ensures Tabled(ups + [up], blocks)
  {
    forall i ensures Matches(Found(blocks, i), Latest(ups + [up], i)) {
      LatestNext(ups, up, i);
      assert Matches(Found(blocks, i), Latest(ups, i));
    }
  }

  lemma DispatchTabled(ups: seq<Up>, up: Up, st: State)
    requires Tabled(ups, st.blocks)
    ensures Tabled(ups + [up], Dispatch(st, up).state.blocks)
  {
    match up
    case UpBlock(index, kind, id, name) =>
      PutTabled(ups, up, st.blocks, Blk(index, kind, id, name, if kind == "tool_use" then st.outCount else 0, "", "", 0, false));
    case UpText(index, text) =>
      var p := Get(st.blocks, index);
      if p.Some? {
        GrowsTabled(ups, up, st.blocks, p.value, st.blocks[p.value].(text := st.blocks[p.value].text + text));
      } else {
        SameTabled(ups, up, st.blocks);
      }
    case UpJson(index, json) =>
      var p := Get(st.blocks, index);
      if p.Some? && st.blocks[p.value].kind == "tool_use" {
        GrowsTabled(ups, up, st.blocks, p.value, st.blocks[p.value].(args := st.blocks[p.value].args + json));
      } else {
        SameTabled(ups, up, st.blocks);
      }
    case _ => SameTabled(ups, up, st.blocks);
  }

  lemma {:induction false} RunTabled(ups: seq<Up>)
    requires Run(ups).status.Open?
    ensures Tabled(ups, Run(ups).state.blocks)
    decreases |ups|
  {
    if ups == [] {
      forall i ensures Matches(Found([], i), Latest([], i)) {
      }
    } else {
      Last(ups);
      RunNext(ups[..|ups| - 1], ups[|ups| - 1]);
      RunTabled(ups[..|ups| - 1]);
      DispatchTabled(ups[..|ups| - 1], ups[|ups| - 1], Run(ups[..|ups| - 1]).state);
    }
  }

  // ---- the terminal output ----

  /** The calls of the table, by index. */
  function CallMarks(blocks: seq<Blk>): seq<Mark>
    decreases |blocks|
  {
    if blocks == [] then []
    else
      var b := blocks[|blocks| - 1];
      CallMarks(blocks[..|blocks| - 1]) + if b.kind == "tool_use" then [CallMark(b.index, b.id, b.name)] else []
  }

  /** How many calls stand before the first text block; -1 without one. */
  function TextSlot(blocks: seq<Blk>): (n: int)
    ensures -1 <= n <= |CallMarks(blocks)|
    decreases |blocks|
  {
    if blocks == [] then -1
    else
      var before := blocks[..|blocks| - 1];
      if TextSlot(before) >= 0 then TextSlot(before) else if blocks[|blocks| - 1].kind == "text" then |CallMarks(before)| else -1
  }

  /** What the terminal output holds, position by position. */
  function Terminals(blocks: seq<Blk>): seq<Mark> {
    Insert(CallMarks(blocks), TextSlot(blocks))
  }

  /** The pieces of a table are its calls and its text. */
  predicate Pieced(blocks: seq<Blk>, pieces: seq<Piece>) {
    && |CallsIn(pieces)| == |CallMarks(blocks)|
    && (forall k :: 0 <= k < |CallMarks(blocks)| ==> CallMarks(blocks)[k].CallMark? && Shows(CallsIn(pieces)[k], CallMarks(blocks)[k]))
    && HasText(pieces) == (TextSlot(blocks) >= 0)
    && (HasText(pieces) ==> Before(pieces) == TextSlot(blocks))
  }

  lemma PiecedNext(blocks: seq<Blk>, pieces: seq<Piece>, b: Blk, all: seq<Blk>)
    requires Pieced(blocks, pieces) && all == blocks + [b]
    ensures Pieced(all, pieces + [PieceOfBlk(b)])
  {
    assert all[..|blocks|] == blocks;
    PiecesNext(pieces, PieceOfBlk(b));
    BeforeBound(pieces);
  }

  lemma {:induction false} TablePieced(blocks: seq<Blk>)
    ensures Pieced(blocks, PiecesOfBlks(blocks))
    decreases |blocks|
  {
    if blocks != [] {
      var n := |blocks| - 1;
      Last(blocks);
      TablePieced(blocks[..n]);
      PiecedNext(blocks[..n], PiecesOfBlks(blocks[..n]), blocks[n], blocks);
      assert PiecesOfBlks(blocks) == PiecesOfBlks(blocks[..n]) + [PieceOfBlk(blocks[n])];
    }
  }

  /** Every position of the terminal output shows what the table has for it. */
  lemma OutputShows(st: State)
    ensures |OutputItems(st)| == |Terminals(st.blocks)|
    ensures forall q :: 0 <= q < |Terminals(st.blocks)| ==> Shows(OutputItems(st)[q], Terminals(st.blocks)[q])
  {
    var pieces := PiecesOfBlks(st.blocks);
    TablePieced(st.blocks);
    BeforeBound(pieces);
    OutputPlaced(MessageItem(st.msgId, Texts(pieces)), CallsIn(pieces), HasText(pieces), Before(pieces), CallMarks(st.blocks));
  }

  lemma OutputPlaced(msg: Item, items: seq<Item>, reserved: bool, slot: nat, calls: seq<Mark>)
    requires slot <= |items| == |calls| && msg.MessageItem? && (!reserved ==> msg.text == "")
    requires forall k :: 0 <= k < |calls| ==> Shows(items[k], calls[k])
    ensures var out, marks := A.Placed(msg, items, reserved, slot), Insert(calls, if reserved then slot else -1);
            |out| == |marks| && forall q :: 0 <= q < |marks| ==> Shows(out[q], marks[q])
  {
  }

  // ---- marks by index ----

  predicate Holds(calls: seq<Mark>, m: Mark) {
    exists k :: 0 <= k < |calls| && calls[k] == m
  }

  /** The calls of a table, and what they are about. */
  ghost predicate CallsOf(blocks: seq<Blk>, calls: seq<Mark>) {
    && ByIndex(calls)
    && (forall k :: 0 <= k < |calls| ==> HasIndex(blocks, calls[k].index))
    && (forall m: Mark :: m.CallMark? ==> (Holds(calls, m) <==> exists c :: c in blocks && IsCall(c, m)))
  }

  predicate HasIndex(blocks: seq<Blk>, index: int) {
    exists c :: c in blocks && c.index == index
  }

  predicate IsCall(b: Blk, m: Mark) {
    b.kind == "tool_use" && m == CallMark(b.index, b.id, b.name)
  }

  lemma CallsOfNext(blocks: seq<Blk>, b: Blk, all: seq<Blk>, calls: seq<Mark>, more: seq<Mark>)
    requires all == blocks + [b] && CallsOf(blocks, calls) && (forall d :: d in blocks ==> d.index < b.index)
    requires more == calls + if b.kind == "tool_use" then [CallMark(b.index, b.id, b.name)] else []
    ensures CallsOf(all, more)
  {
    assert b in all && forall c :: c in all <==> c in blocks || c == b;
    forall k | 0 <= k < |calls| ensures HasIndex(all, calls[k].index) && calls[k].index < b.index {
      assert HasIndex(blocks, calls[k].index);
      var c :| c in blocks && c.index == calls[k].index;
      assert c in all;
    }
    forall m: Mark | m.CallMark? ensures Holds(more, m) <==> exists c :: c in all && IsCall(c, m) {
      HoldsNext(calls, more, m, b);
      if exists c :: c in all && IsCall(c, m) {
        var c :| c in all && IsCall(c, m);
        assert c == b || c in blocks;
      }
      if Holds(calls, m) {
        var c :| c in blocks && IsCall(c, m);
        assert c in all;
      }
    }
  }

  lemma HoldsNext(calls: seq<Mark>, more: seq<Mark>, m: Mark, b: Blk)
    requires more == calls + if b.kind == "tool_use" then [CallMark(b.index, b.id, b.name)] else []
    ensures Holds(more, m) <==> Holds(calls, m) || (b.kind == "tool_use" && m == CallMark(b.index, b.id, b.name))
  {
    if Holds(calls, m) {
      var k :| 0 <= k < |calls| && calls[k] == m;
      assert more[k] == m;
    }
    if b.kind == "tool_use" && m == CallMark(b.index, b.id, b.name) {
      assert more[|calls|] == m;
    }
  }

  lemma {:induction false} TableCalls(blocks: seq<Blk>)
    requires Sorted(blocks)
    ensures CallsOf(blocks, CallMarks(blocks))
    decreases |blocks|
  {
    if blocks != [] {
      var n := |blocks| - 1;
      Last(blocks);
      SortedLast(blocks);
      TableCalls(blocks[..n]);
      CallsOfNext(blocks[..n], blocks[n], blocks, CallMarks(blocks[..n]), CallMarks(blocks));
    }
  }

  /** Calls listed by index are determined by which calls they are. */
  lemma {:induction false} SameCalls(a: seq<Mark>, b: seq<Mark>)
    requires ByIndex(a) && ByIndex(b)
    requires forall m: Mark :: Holds(a, m) <==> Holds(b, m)
    ensures a == b
    decreases |a|
  {
    if a == [] {
      if b != [] {
        assert Holds(b, b[0]);
      }
    } else {
      assert Holds(a, a[|a| - 1]);
      var k :| 0 <= k < |b| && b[k] == a[|a| - 1];
      assert Holds(b, b[|b| - 1]);
      var l :| 0 <= l < |a| && a[l] == b[|b| - 1];
      LastsEqual(a, b, k, l);
      var a', b' := a[..|a| - 1], b[..|b| - 1];
      forall m: Mark ensures Holds(a', m) <==> Holds(b', m) {
        HoldsBefore(a, m);
        HoldsBefore(b, m);
      }
      SameCalls(a', b');
      Last(a);
      Last(b);
    }
  }

  lemma LastsEqual(a: seq<Mark>, b: seq<Mark>, k: nat, l: nat)
    requires ByIndex(a) && ByIndex(b) && k < |b| && l < |a| && b[k] == a[|a| - 1] && a[l] == b[|b| - 1]
    ensures a[|a| - 1] == b[|b| - 1]
  {
    assert a[l].index <= a[|a| - 1].index;
    assert b[k].index <= b[|b| - 1].index;
  }

  lemma OneIndex(a: seq<Mark>, k: nat, l: nat)
    requires ByIndex(a) && k < |a| && l < |a| && a[k].index == a[l].index
    ensures k == l
  {
  }

  lemma HoldsBefore(a: seq<Mark>, m: Mark)
    requires ByIndex(a) && a != []
    ensures Holds(a[..|a| - 1], m) <==> Holds(a, m) && m != a[|a| - 1]
  {
    var n := |a| - 1;
    if Holds(a[..n], m) {
      var k :| 0 <= k < n && a[..n][k] == m;
      assert a[k] == m && a[k].index < a[n].index;
    }
    if Holds(a, m) && m != a[n] {
      var k :| 0 <= k < |a| && a[k] == m;
      assert a[..n][k] == m;
    }
  }

  /** A call that is left was started, and the table holds exactly the calls that are left. */
  lemma {:induction false} LiveWasStarted(ups: seq<Up>, index: int)
    ensures LiveCall(ups, index) ==> var up := Latest(ups, index).value; up.index == index && Holds(Tools(ups), CallMark(index, up.id, up.name))
    ensures LiveText(ups, index) ==> TextPlace(ups) >= 0 && Latest(ups, index).value.index == index
    decreases |ups|
  {
    if ups != [] {
      var before, up := ups[..|ups| - 1], ups[|ups| - 1];
      LiveWasStarted(before, index);
      if StartsCall(up) {
        assert Tools(ups)[|Tools(before)|] == CallMark(up.index, up.id, up.name);
      }
      if LiveCall(before, index) {
        var m := CallMark(index, Latest(before, index).value.id, Latest(before, index).value.name);
        var k :| 0 <= k < |Tools(before)| && Tools(before)[k] == m;
        assert Tools(ups)[k] == m;
      }
    }
  }

  lemma TableHolds(ups: seq<Up>, blocks: seq<Blk>, m: Mark)
    requires Tabled(ups, blocks) && m.CallMark?
    ensures Holds(CallMarks(blocks), m) <==> LiveCall(ups, m.index) && Latest(ups, m.index).value.id == m.id && Latest(ups, m.index).value.name == m.name
  {
    TableCalls(blocks);
    FoundIndex(blocks, m.index);
    assert Matches(Found(blocks, m.index), Latest(ups, m.index));
    if Holds(CallMarks(blocks), m) {
      var b :| b in blocks && IsCall(b, m);
      FoundIff(blocks, b);
    }
    if LiveCall(ups, m.index) && Latest(ups, m.index).value.id == m.id && Latest(ups, m.index).value.name == m.name {
      var b := Found(blocks, m.index).value;
      assert b in blocks && IsCall(b, m);
    }
  }

  lemma {:induction false} ToolsAreCalls(ups: seq<Up>)
    ensures forall k :: 0 <= k < |Tools(ups)| ==> Tools(ups)[k].CallMark?
    decreases |ups|
  {
    if ups != [] {
      ToolsAreCalls(ups[..|ups| - 1]);
    }
  }

  /** Calls started by increasing index and all left are the calls of the table, in its order. */
  lemma InOrderCalls(ups: seq<Up>, blocks: seq<Blk>)
    requires Tabled(ups, blocks) && ByIndex(Tools(ups))
    requires forall k :: 0 <= k < |Tools(ups)| ==> LiveCall(ups, Tools(ups)[k].index)
    ensures Tools(ups) == CallMarks(blocks)
  {
    TableCalls(blocks);
    var tools := Tools(ups);
    forall m: Mark ensures Holds(tools, m) <==> Holds(CallMarks(blocks), m) {
      if m.CallMark? {
        TableHolds(ups, blocks, m);
        LiveWasStarted(ups, m.index);
        if Holds(tools, m) {
          var k :| 0 <= k < |tools| && tools[k] == m;
          var up := Latest(ups, m.index).value;
          var l :| 0 <= l < |tools| && tools[l] == CallMark(m.index, up.id, up.name);
          OneIndex(tools, k, l);
        }
      }
    }
    SameCalls(tools, CallMarks(blocks));
  }

  /** Where the first text block of the table stands among its calls. */
  lemma {:induction false} SlotByIndex(blocks: seq<Blk>)
    requires Sorted(blocks)
    ensures SlotSays(blocks)
    decreases |blocks|
  {
    if blocks != [] {
      var n := |blocks| - 1;
      Last(blocks);
      SlotByIndex(blocks[..n]);
      SlotNext(blocks[..n], blocks[n], blocks);
    }
  }

  predicate NoText(blocks: seq<Blk>) {
    forall b :: b in blocks ==> b.kind != "text"
  }

  ghost predicate SlotSays(blocks: seq<Blk>) {
    && (TextSlot(blocks) < 0 <==> NoText(blocks))
    && (TextSlot(blocks) >= 0 ==> exists b :: b in blocks && FirstTextBlock(blocks, b))
  }

  predicate FirstTextBlock(blocks: seq<Blk>, b: Blk) {
    && b.kind == "text" && (forall c :: c in blocks && c.kind == "text" ==> b.index <= c.index)
    && (forall k :: 0 <= k < |CallMarks(blocks)| && CallMarks(blocks)[k].CallMark? ==> (CallMarks(blocks)[k].index < b.index <==> k < TextSlot(blocks)))
  }

  /** A later block leaves the first text block where it is. */
  lemma SlotStays(blocks: seq<Blk>, b: Blk, all: seq<Blk>, c: Blk)
    requires all == blocks + [b] && (forall d :: d in blocks ==> d.index < b.index)
    requires TextSlot(blocks) >= 0 && c in blocks && FirstTextBlock(blocks, c)
    ensures FirstTextBlock(all, c)
  {
    assert all[..|blocks|] == blocks;
    forall d | d in all && d.kind == "text" ensures c.index <= d.index {
      assert d in blocks || d == b;
    }
  }

  lemma SlotBegins(blocks: seq<Blk>, b: Blk, all: seq<Blk>)
    requires all == blocks + [b] && Sorted(blocks) && (forall d :: d in blocks ==> d.index < b.index)
    requires TextSlot(blocks) < 0 && b.kind == "text" && NoText(blocks)
    ensures FirstTextBlock(all, b)
  {
    assert all[..|blocks|] == blocks;
    TableCalls(blocks);
    forall k | 0 <= k < |CallMarks(blocks)| ensures CallMarks(blocks)[k].index < b.index {
      assert HasIndex(blocks, CallMarks(blocks)[k].index);
    }
  }

  lemma SortedLast(all: seq<Blk>)
    requires Sorted(all) && all != []
    ensures forall d :: d in all[..|all| - 1] ==> d.index < all[|all| - 1].index
  {
    forall d | d in all[..|all| - 1] ensures d.index < all[|all| - 1].index {
      var q :| 0 <= q < |all| - 1 && all[..|all| - 1][q] == d;
      assert all[q].index < all[|all| - 1].index;
    }
  }

  lemma NoTextNext(blocks: seq<Blk>, b: Blk)
    ensures NoText(blocks + [b]) <==> NoText(blocks) && b.kind != "text"
    ensures b in blocks + [b] && forall c :: c in blocks ==> c in blocks + [b]
  {
    assert forall c :: c in blocks + [b] <==> c in blocks || c == b;
  }

  lemma SlotNext(blocks: seq<Blk>, b: Blk, all: seq<Blk>)
    requires all == blocks + [b] && Sorted(all) && SlotSays(blocks)
    ensures SlotSays(all)
  {
    assert all[..|blocks|] == blocks;
    NoTextNext(blocks, b);
    SortedLast(all);
    if TextSlot(blocks) >= 0 {
      SlotKept(blocks, b, all);
    } else if b.kind == "text" {
      SlotBegins(blocks, b, all);
    }
  }

  lemma SlotKept(blocks: seq<Blk>, b: Blk, all: seq<Blk>)
    requires all == blocks + [b] && (forall d :: d in blocks ==> d.index < b.index) && TextSlot(blocks) >= 0 && SlotSays(blocks)
    ensures exists c :: c in all && FirstTextBlock(all, c)
  {
    var c :| c in blocks && FirstTextBlock(blocks, c);
    NoTextNext(blocks, b);
    SlotStays(blocks, b, all, c);
  }

  /** The first text block of the table, seen from the upstream. */
  lemma SlotIsFirstText(ups: seq<Up>, blocks: seq<Blk>)
    requires Tabled(ups, blocks)
    ensures TextSlot(blocks) >= 0 <==> exists x :: LiveText(ups, x)
    ensures TextSlot(blocks) >= 0 ==> exists x :: FirstText(ups, CallMarks(blocks), TextSlot(blocks), x)
  {
    SlotByIndex(blocks);
    forall x ensures LiveText(ups, x) <==> exists b :: b in blocks && b.kind == "text" && b.index == x {
      LiveTextTabled(ups, blocks, x);
    }
    if TextSlot(blocks) >= 0 {
      var b :| b in blocks && FirstTextBlock(blocks, b);
      forall y | LiveText(ups, y) ensures b.index <= y {
        var c :| c in blocks && c.kind == "text" && c.index == y;
      }
      assert FirstText(ups, CallMarks(blocks), TextSlot(blocks), b.index);
    }
  }

  lemma LiveTextTabled(ups: seq<Up>, blocks: seq<Blk>, x: int)
    requires Tabled(ups, blocks)
    ensures LiveText(ups, x) <==> exists b :: b in blocks && b.kind == "text" && b.index == x
  {
    FoundIndex(blocks, x);
    assert Matches(Found(blocks, x), Latest(ups, x));
    if exists b :: b in blocks && b.kind == "text" && b.index == x {
      var b :| b in blocks && b.kind == "text" && b.index == x;
      FoundIff(blocks, b);
    }
    if LiveText(ups, x) {
      assert Found(blocks, x).value in blocks;
    }
  }

  lemma Below(ups: seq<Up>, calls: seq<Mark>, n: int, x: int, k: nat)
    requires FirstText(ups, calls, n, x) && k < |calls| && calls[k].CallMark?
    ensures calls[k].index < x <==> k < n
  {
  }

  lemma SlotsEqual(ups: seq<Up>, calls: seq<Mark>, m: nat, n: nat, x: int, y: int)
    requires FirstText(ups, calls, m, x) && FirstText(ups, calls, n, y) && m <= |calls| && n <= |calls|
    requires forall k :: 0 <= k < |calls| ==> calls[k].CallMark?
    ensures m == n
  {
    assert x == y;
    if m < |calls| {
      Below(ups, calls, m, x, m);
      Below(ups, calls, n, y, m);
    }
    if n < |calls| {
      Below(ups, calls, m, x, n);
      Below(ups, calls, n, y, n);
    }
  }

  // ---- the exact condition ----

  /** Every announced position is that item's position in the terminal output. */
  predicate PlacesKept(ups: seq<Up>, blocks: seq<Blk>) {
    Announced(ups) <= Terminals(blocks)
  }

  lemma InOrderKeeps(ups: seq<Up>, blocks: seq<Blk>)
    requires Tabled(ups, blocks) && StartedInOrder(ups)
    ensures Announced(ups) == Terminals(blocks)
  {
    InOrderCalls(ups, blocks);
    ToolsAreCalls(ups);
    SlotIsFirstText(ups, blocks);
    if TextPlace(ups) >= 0 {
      var x :| FirstText(ups, Tools(ups), TextPlace(ups), x);
      var y :| FirstText(ups, CallMarks(blocks), TextSlot(blocks), y);
      SlotsEqual(ups, Tools(ups), TextPlace(ups), TextSlot(blocks), x, y);
    } else if TextSlot(blocks) >= 0 {
      var x :| LiveText(ups, x);
      LiveWasStarted(ups, x);
    }
  }

  /** The calls among some marks. */
  function OnlyCalls(marks: seq<Mark>): seq<Mark>
    decreases |marks|
  {
    if marks == [] then [] else OnlyCalls(marks[..|marks| - 1]) + if marks[|marks| - 1].CallMark? then [marks[|marks| - 1]] else []
  }

  lemma {:induction false} OnlyCallsAppend(a: seq<Mark>, b: seq<Mark>)
    ensures OnlyCalls(a + b) == OnlyCalls(a) + OnlyCalls(b)
    decreases |b|
  {
    if b == [] {
      assert a + b == a && OnlyCalls(a) + [] == OnlyCalls(a);
    } else {
      Last(b);
      OnlyCallsAppend(a, b[..|b| - 1]);
      OnlyCallsStep(a, b[..|b| - 1], b[|b| - 1], b);
    }
  }

  lemma OnlyCallsStep(a: seq<Mark>, b: seq<Mark>, m: Mark, all: seq<Mark>)
    requires OnlyCalls(a + b) == OnlyCalls(a) + OnlyCalls(b) && all == b + [m]
    ensures OnlyCalls(a + all) == OnlyCalls(a) + OnlyCalls(all)
  {
    Assoc(a, b, [m]);
    assert ((a + b) + [m])[..|a + b|] == a + b && all[..|b|] == b;
    Assoc(OnlyCalls(a), OnlyCalls(b), if m.CallMark? then [m] else []);
  }

  lemma {:induction false} AllCallsAlready(calls: seq<Mark>)
    requires forall k :: 0 <= k < |calls| ==> calls[k].CallMark?
    ensures OnlyCalls(calls) == calls
    decreases |calls|
  {
    if calls != [] {
      Last(calls);
      AllCallsAlready(calls[..|calls| - 1]);
    }
  }

  lemma InsertKeepsCalls(calls: seq<Mark>, at: int)
    requires -1 <= at <= |calls| && forall k :: 0 <= k < |calls| ==> calls[k].CallMark?
    ensures OnlyCalls(Insert(calls, at)) == calls
  {
    AllCallsAlready(calls);
    if at >= 0 {
      AroundText(calls[..at], calls[at..]);
      assert calls[..at] + calls[at..] == calls;
    }
  }

  lemma AroundText(a: seq<Mark>, b: seq<Mark>)
    requires (forall k :: 0 <= k < |a| ==> a[k].CallMark?) && (forall k :: 0 <= k < |b| ==> b[k].CallMark?)
    ensures OnlyCalls(a + [TextMark] + b) == a + b
  {
    AllCallsAlready(a);
    AllCallsAlready(b);
    OnlyCallsAppend(a + [TextMark], b);
    assert (a + [TextMark])[..|a|] == a && a + [] == a;
  }

  /** A prefix keeps the prefix property of calls. */
  lemma PrefixCalls(a: seq<Mark>, b: seq<Mark>)
    requires a <= b
    ensures OnlyCalls(a) <= OnlyCalls(b)
  {
    assert b == a + b[|a|..];
    OnlyCallsAppend(a, b[|a|..]);
  }

  lemma KeptCalls(ups: seq<Up>, blocks: seq<Blk>)
    requires Tabled(ups, blocks) && Tools(ups) <= CallMarks(blocks)
    ensures ByIndex(Tools(ups)) && Tools(ups) == CallMarks(blocks)
    ensures forall k :: 0 <= k < |Tools(ups)| ==> LiveCall(ups, Tools(ups)[k].index)
  {
    TableCalls(blocks);
    var tools, calls := Tools(ups), CallMarks(blocks);
    forall k | 0 <= k < |tools| ensures LiveCall(ups, tools[k].index) {
      assert calls[k] == tools[k] && Holds(calls, tools[k]);
      TableHolds(ups, blocks, tools[k]);
    }
    if |tools| < |calls| {
      var m := calls[|tools|];
      assert Holds(calls, m);
      LaterIsNew(calls, |tools|);
      TableHolds(ups, blocks, m);
      LiveWasStarted(ups, m.index);
    }
  }

  lemma LaterIsNew(calls: seq<Mark>, n: nat)
    requires ByIndex(calls) && n < |calls|
    ensures !Holds(calls[..n], calls[n])
  {
    forall k | 0 <= k < n ensures calls[..n][k] != calls[n] {
      assert calls[k].index < calls[n].index;
    }
  }

  lemma KeptMeansInOrder(ups: seq<Up>, blocks: seq<Blk>)
    requires Tabled(ups, blocks) && PlacesKept(ups, blocks)
    ensures StartedInOrder(ups)
  {
    ToolsAreCalls(ups);
    TableCalls(blocks);
    InsertKeepsCalls(Tools(ups), TextPlace(ups));
    InsertKeepsCalls(CallMarks(blocks), TextSlot(blocks));
    PrefixCalls(Announced(ups), Terminals(blocks));
    KeptCalls(ups, blocks);
    var n := TextPlace(ups);
    if n >= 0 {
      assert Announced(ups)[n] == TextMark && Terminals(blocks)[n] == TextMark;
      TextMarkAt(CallMarks(blocks), TextSlot(blocks), n);
      SlotIsFirstText(ups, blocks);
    }
  }

  lemma TextMarkAt(calls: seq<Mark>, at: int, n: nat)
    requires -1 <= at <= |calls| && (forall k :: 0 <= k < |calls| ==> calls[k].CallMark?)
    requires n < |Insert(calls, at)| && Insert(calls, at)[n] == TextMark
    ensures at == n
  {
    forall k | 0 <= k < |Insert(calls, at)| && k != at ensures Insert(calls, at)[k].CallMark? {
    }
  }

  /**
   * Every stream: the positions announced, which are 0, 1, 2, ..., are those of the terminal output if
   * and only if blocks were started in order: the calls by increasing index, none of their indices
   * started again, and the first text block that is left where the first text was started. Then the
   * output holds nothing else either.
   */
  lemma {:induction false} PositionsKeptIff(ups: seq<Up>)
    requires Run(ups).status.Open?
    ensures var st, added := Run(ups).state, Added(Run(ups).events);
            && |added| == |Announced(ups)| && |OutputItems(st)| == |Terminals(st.blocks)|
            && (forall q :: 0 <= q < |added| ==> added[q].ItemAdded? && added[q].index == q && Shows(added[q].item, Announced(ups)[q]))
            && (forall q :: 0 <= q < |OutputItems(st)| ==> Shows(OutputItems(st)[q], Terminals(st.blocks)[q]))
            && (PlacesKept(ups, st.blocks) <==> StartedInOrder(ups))
            && (StartedInOrder(ups) ==> Announced(ups) == Terminals(st.blocks))
  {
    RunTold(ups);
    RunTabled(ups);
    OutputShows(Run(ups).state);
    if StartedInOrder(ups) {
      InOrderKeeps(ups, Run(ups).state.blocks);
    }
    if PlacesKept(ups, Run(ups).state.blocks) {
      KeptMeansInOrder(ups, Run(ups).state.blocks);
    }
  }
}
