/** The Messages stream converter as the object it is, for all three targets. */
module MessagesConverter {
  import opened Wire
  import opened Folds
  import opened Assembler
  import opened Pieces
  import LF = LineFeed
  import S = SseFramer
  import opened MessagesConvert
  import opened MessagesStream
  import C = MessagesChat
  import F = MessagesFrames

  class BlockState {
    const kind: string
    const id: string
    const name: string
    const ordinal: int
    const outIdx: int
    var emitted: bool
    var text: string
    var args: string

    constructor (kind: string, id: string, name: string, outIdx: int, ordinal: int)
      ensures View(0) == Blk(0, kind, id, name, outIdx, "", "", ordinal, false)
    {
      this.kind, this.id, this.name, this.outIdx, this.ordinal := kind, id, name, outIdx, ordinal;
      emitted, text, args := false, "", "";
    }

    function View(index: int): Blk
      reads this
    {
      Blk(index, kind, id, name, outIdx, text, args, ordinal, emitted)
    }
  }

  predicate Lists(table: seq<Blk>, index: int) {
    exists p :: 0 <= p < |table| && table[p].index == index
  }

  ghost predicate Shows(blocks: map<int, BlockState>, owned: set<BlockState>, b: Blk)
    reads owned
  {
    b.index in blocks && blocks[b.index] in owned && b == blocks[b.index].View(b.index)
  }

  /** `table` lists the map's blocks by increasing index, each with its own state. */
  ghost predicate Agree(blocks: map<int, BlockState>, owned: set<BlockState>, table: seq<Blk>)
    reads owned
  {
    && Sorted(table)
    && (forall p :: 0 <= p < |table| ==> Shows(blocks, owned, table[p]))
    && (forall i :: i in blocks ==> Lists(table, i) && blocks[i] in owned)
    && (forall i, j :: i in blocks && j in blocks && i != j ==> blocks[i] != blocks[j])
  }

  lemma AgreeGet(blocks: map<int, BlockState>, owned: set<BlockState>, table: seq<Blk>, index: int)
    requires Agree(blocks, owned, table)
    ensures var p := Get(table, index);
            && (index in blocks <==> p.Some?)
            && (p.Some? ==> table[p.value] == blocks[index].View(index) && blocks[index] in owned)
  {
    if index in blocks {
      assert Lists(table, index);
      var p :| 0 <= p < |table| && table[p].index == index;
      var q := Where(table, index);
      assert !(q < p) && !(p < q);
    }
    var p := Get(table, index);
    if p.Some? {
      assert Shows(blocks, owned, table[p.value]);
    }
  }

  /** The table after a put: sorted, and holding the new block and all others. */
  lemma PutSorted(table: seq<Blk>, v: Blk)
    requires Sorted(table)
    ensures Sorted(Put(table, v)) && v in Put(table, v)
    ensures forall b :: b in Put(table, v) <==> b == v || (b in table && b.index != v.index)
  {
    PutIsSorted(table, v);
    forall b ensures b in Put(table, v) <==> b == v || (b in table && b.index != v.index) {
      PutHolds(table, v, b);
    }
  }

  lemma AgreePut(blocks: map<int, BlockState>, owned: set<BlockState>, table: seq<Blk>, index: int, b: BlockState)
    requires Agree(blocks, owned, table) && b !in owned
    ensures Agree(blocks[index := b], owned + {b}, Put(table, b.View(index)))
  {
    var v, blocks' := b.View(index), blocks[index := b];
    var table' := Put(table, v);
    PutSorted(table, v);
    forall p | 0 <= p < |table'| ensures Shows(blocks', owned + {b}, table'[p]) {
      assert table'[p] in table';
      if table'[p] != v {
        assert Shows(blocks, owned, table'[p]);
      }
    }
    forall i | i in blocks' ensures Lists(table', i) && blocks'[i] in owned + {b} {
      if i == index {
        assert v in table';
      } else {
        assert Lists(table, i);
        var q :| 0 <= q < |table| && table[q].index == i;
        assert table[q] in table';
      }
    }
  }

  /** After the state behind one entry changed in place. */
  lemma AgreeSet(blocks: map<int, BlockState>, owned: set<BlockState>, table: seq<Blk>, p: nat, v: Blk)
    requires Sorted(table) && p < |table| && v.index == table[p].index && Shows(blocks, owned, v)
    requires forall q :: 0 <= q < |table| && q != p ==> Shows(blocks, owned, table[q])
    requires forall i :: i in blocks ==> Lists(table, i) && blocks[i] in owned
    requires forall i, j :: i in blocks && j in blocks && i != j ==> blocks[i] != blocks[j]
    ensures Agree(blocks, owned, table[p := v])
  {
    forall i | i in blocks ensures Lists(table[p := v], i) {
      assert Lists(table, i);
      var q :| 0 <= q < |table| && table[q].index == i;
      assert table[p := v][q].index == i;
    }
  }

  // ---- the indices in order ----

  method Insert(s: seq<int>, x: int) returns (r: seq<int>)
    requires forall p, q :: 0 <= p < q < |s| ==> s[p] < s[q]
    requires x !in s
    ensures forall p, q :: 0 <= p < q < |r| ==> r[p] < r[q]
    ensures forall i :: i in r <==> i in s || i == x
  {
    var n := 0;
    while n < |s| && s[n] < x
      invariant 0 <= n <= |s|
      invariant forall q :: 0 <= q < n ==> s[q] < x
    {
      n := n + 1;
    }
    assert n < |s| ==> s[n] in s && s[n] != x;
    assert s == s[..n] + s[n..];
    InsertedSorted(s[..n], x, s[n..]);
    r := s[..n] + [x] + s[n..];
  }

  lemma InsertedSorted(a: seq<int>, x: int, b: seq<int>)
    requires forall p, q :: 0 <= p < q < |a| ==> a[p] < a[q]
    requires forall p, q :: 0 <= p < q < |b| ==> b[p] < b[q]
    requires forall p :: 0 <= p < |a| ==> a[p] < x
    requires forall p :: 0 <= p < |b| ==> x < b[p]
    ensures var r := a + [x] + b; forall p, q :: 0 <= p < q < |r| ==> r[p] < r[q]
  {
  }

  method SortedIndexes(m: map<int, BlockState>) returns (indexes: seq<int>)
    ensures forall p, q :: 0 <= p < q < |indexes| ==> indexes[p] < indexes[q]
    ensures forall i :: i in indexes <==> i in m
  {
    indexes := [];
    var left := m.Keys;
    while left != {}
      invariant forall p, q :: 0 <= p < q < |indexes| ==> indexes[p] < indexes[q]
      invariant left <= m.Keys
      invariant forall i :: i in indexes <==> i in m && i !in left
    {
      SomeElement(left);
      var i :| i in left;
      indexes := Insert(indexes, i);
      left := left - {i};
    }
  }

  lemma EmptyOrNot(indexes: seq<int>)
    ensures indexes == [] || exists i :: i in indexes
  {
    if indexes != [] {
      var x := indexes[0];
      assert x in indexes;
    }
  }

  lemma SomeElement(s: set<int>)
    ensures s == {} || exists i :: i in s
  {
    if forall i :: i !in s {
      assert s == {};
    }
  }

  /** Two increasing listings of the same indices are the same. */
  lemma {:induction false} SameListing(indexes: seq<int>, table: seq<Blk>)
    requires forall p, q :: 0 <= p < q < |indexes| ==> indexes[p] < indexes[q]
    requires Sorted(table)
    requires forall i :: i in indexes <==> Lists(table, i)
    ensures |indexes| == |table| && forall p :: 0 <= p < |table| ==> indexes[p] == table[p].index
    decreases |table|
  {
    if table == [] {
      forall i ensures i !in indexes {
        assert !Lists(table, i);
      }
      EmptyOrNot(indexes);
    } else {
      var n := |table| - 1;
      assert Lists(table, table[n].index);
      var last := |indexes| - 1;
      assert indexes[last] in indexes;
      LastsAgree(indexes, table);
      forall i ensures i in indexes[..last] <==> Lists(table[..n], i) {
        ListedBelow(indexes, table, i);
      }
      SameListing(indexes[..last], table[..n]);
    }
  }

  lemma LastsAgree(indexes: seq<int>, table: seq<Blk>)
    requires forall p, q :: 0 <= p < q < |indexes| ==> indexes[p] < indexes[q]
    requires Sorted(table) && table != [] && indexes != []
    requires forall i :: i in indexes <==> Lists(table, i)
    ensures indexes[|indexes| - 1] == table[|table| - 1].index
  {
    var a, b := indexes[|indexes| - 1], table[|table| - 1].index;
    assert Lists(table, b) && a in indexes;
    var p :| 0 <= p < |indexes| && indexes[p] == b;
    assert Lists(table, a);
    var q :| 0 <= q < |table| && table[q].index == a;
  }

  lemma ListedBelow(indexes: seq<int>, table: seq<Blk>, i: int)
    requires forall p, q :: 0 <= p < q < |indexes| ==> indexes[p] < indexes[q]
    requires Sorted(table) && table != [] && indexes != [] && indexes[|indexes| - 1] == table[|table| - 1].index
    requires forall i :: i in indexes <==> Lists(table, i)
    ensures i in indexes[..|indexes| - 1] <==> Lists(table[..|table| - 1], i)
  {
    var m, n := |indexes| - 1, |table| - 1;
    if i in indexes[..m] {
      var p :| 0 <= p < m && indexes[..m][p] == i;
      assert i in indexes && i != indexes[m];
      var q :| 0 <= q < |table| && table[q].index == i;
      assert table[..n][q].index == i;
    }
    if Lists(table[..n], i) {
      var q :| 0 <= q < n && table[..n][q].index == i;
      assert table[q].index == i;
      assert Lists(table, i);
      var p :| 0 <= p < |indexes| && indexes[p] == i;
      assert indexes[..m][p] == i;
    }
  }

  // ---- the converter ----

  class StreamConverter {
    const framer: S.SSEFramer
    const sourceFormat: string
    const decode: F.Decoder
    const probe: F.Probe
    var blocks: map<int, BlockState>
    var msgId: string
    var model: string
    var promptTokens: int
    var completionTokens: int
    var cacheRead: Option<int>
    var cacheCreation: Option<int>
    var stopReason: string
    var msgIdx: int
    var outCount: int
    var emitted: bool
    var flushed: bool
    var toolOrdinal: int
    var toolsSeen: bool
    var roleSent: bool
    ghost var owned: set<BlockState>
    ghost var table: seq<Blk>

    ghost predicate Valid()
      reads this, owned, framer
    {
      Agree(blocks, owned, table) && framer.wantRaw == (sourceFormat == "claude")
    }

    ghost function View(): State
      reads this
    {
      State(table, msgId, model, promptTokens, completionTokens, cacheRead, cacheCreation, stopReason, msgIdx, outCount, emitted, flushed,
            toolOrdinal, toolsSeen, roleSent)
    }

    constructor (sourceFormat: string, decode: F.Decoder, probe: F.Probe)
      ensures Valid() && View() == Fresh && fresh(framer) && framer.View() == S.Fresh && framer.buf == "" && owned == {}
      ensures this.sourceFormat == sourceFormat && this.decode == decode && this.probe == probe
    {
      this.sourceFormat, this.decode, this.probe := sourceFormat, decode, probe;
      framer := new S.SSEFramer(sourceFormat == "claude");
      blocks, msgId, model, promptTokens, completionTokens := map[], "", "", 0, 0;
      cacheRead, cacheCreation, stopReason, msgIdx, outCount := None, None, "", -1, 0;
      emitted, flushed, owned, table := false, false, {}, [];
      toolOrdinal, toolsSeen, roleSent := 0, false, false;
    }

    // ---- blocks ----

    /** Starting a block, or starting it again. */
    method PutBlock(index: int, kind: string, id: string, name: string, outIdx: int, ordinal: int)
      requires Agree(blocks, owned, table)
      modifies this`blocks, this`owned, this`table
      ensures Agree(blocks, owned, table) && fresh(owned - old(owned))
      ensures table == Put(old(table), Blk(index, kind, id, name, outIdx, "", "", ordinal, false))
    {
      var bs := new BlockState(kind, id, name, outIdx, ordinal);
      assert bs.View(index) == Blk(index, kind, id, name, outIdx, "", "", ordinal, false);
      AgreePut(blocks, owned, table, index, bs);
      blocks := blocks[index := bs];
      owned := owned + {bs};
      table := Put(table, bs.View(index));
    }

    /** No other entry of the table is about the block of this one. */
    lemma OthersApart(index: int, p: nat)
      requires Agree(blocks, owned, table) && index in blocks && p < |table| && table[p].index == index
      ensures forall q :: 0 <= q < |table| && q != p ==> Shows(blocks, owned, table[q]) && blocks[table[q].index] != blocks[index]
    {
    }

    method WriteText(index: int, text: string)
      requires Agree(blocks, owned, table) && index in blocks
      modifies owned, this`table
      ensures Agree(blocks, owned, table)
      ensures var p := Get(old(table), index);
              p.Some? && table == old(table)[p.value := old(table)[p.value].(text := old(table)[p.value].text + text)]
    {
      AgreeGet(blocks, owned, table, index);
      ghost var p, was := Get(table, index).value, table;
      var bs := blocks[index];
      OthersApart(index, p);
      bs.text := bs.text + text;
      AgreeSet(blocks, owned, was, p, bs.View(index));
      table := table[p := bs.View(index)];
    }

    method WriteArgs(index: int, json: string)
      requires Agree(blocks, owned, table) && index in blocks
      modifies owned, this`table
      ensures Agree(blocks, owned, table)
      ensures var p := Get(old(table), index);
              p.Some? && table == old(table)[p.value := old(table)[p.value].(args := old(table)[p.value].args + json)]
    {
      AgreeGet(blocks, owned, table, index);
      ghost var p, was := Get(table, index).value, table;
      var bs := blocks[index];
      OthersApart(index, p);
      bs.args := bs.args + json;
      AgreeSet(blocks, owned, was, p, bs.View(index));
      table := table[p := bs.View(index)];
    }

    // ---- events ----

    /** The output array: blocks in upstream index order through the assembler. */
    method CollectOutput() returns (output: seq<Item>)
      requires Agree(blocks, owned, table)
      ensures output == OutputItems(View())
    {
      var indexes := SortedIndexes(blocks);
      ListsExactly();
      SameListing(indexes, table);
      var oa := new OutputAssembler(msgId);
      AssembleBlocks(oa, indexes);
      AssemblyAggregates(msgId, PiecesOfBlks(table));
      output := oa.Render();
    }

    /** The loop over the indices. */
    method AssembleBlocks(oa: OutputAssembler, indexes: seq<int>)
      requires Agree(blocks, owned, table) && oa.View() == Empty(msgId)
      requires |indexes| == |table| && forall p :: 0 <= p < |table| ==> indexes[p] == table[p].index
      modifies oa
      ensures oa.View() == Pieces.Assembly(msgId, PiecesOfBlks(table))
    {
      ghost var t, pieces := table, PiecesOfBlks(table);
      var n := 0;
      while n < |indexes|
        invariant 0 <= n <= |indexes| == |pieces|
        invariant oa.View() == Pieces.Assembly(msgId, pieces[..n])
      {
        assert Shows(blocks, owned, t[n]);
        AssembleBlock(oa, indexes[n], blocks[indexes[n]]);
        assert pieces[..n + 1][..n] == pieces[..n];
        n := n + 1;
      }
      assert pieces[..n] == pieces;
    }

    lemma ListsExactly()
      requires Agree(blocks, owned, table)
      ensures forall i :: i in blocks <==> Lists(table, i)
    {
      forall i ensures i in blocks <==> Lists(table, i) {
        if Lists(table, i) {
          var p :| 0 <= p < |table| && table[p].index == i;
          assert Shows(blocks, owned, table[p]);
        }
      }
    }

    method ResponsesCompleted() returns (e: Event)
      requires Agree(blocks, owned, table)
      ensures e == Terminal(View())
    {
      var status := StatusFromClaudeStop(stopReason);
      var tokens := ResponsesTokensFrom(Wrap64(Wrap64(promptTokens + OrZero(cacheRead)) + OrZero(cacheCreation)),
                                        completionTokens, cacheRead, cacheCreation, None);
      var output := CollectOutput();
      e := Completed(msgId, model, status, tokens, output);
    }

    method CaptureUsage(u: ClaudeUsage)
      modifies this`cacheRead, this`cacheCreation
      ensures View() == CaptureCache(old(View()), u)
    {
      if u.cacheRead.Some? {
        cacheRead := u.cacheRead;
      }
      if u.cacheCreation.Some? {
        cacheCreation := u.cacheCreation;
      }
    }

    method BlockStart(index: int, kind: string, id: string, name: string) returns (events: seq<Event>)
      requires Valid()
      modifies this`blocks, this`owned, this`table, this`msgIdx, this`outCount, this`toolsSeen
      ensures Valid() && fresh(owned - old(owned)) && (View(), events) == StartBlock(old(View()), index, kind, id, name)
    {
      events := [];
      PutBlock(index, kind, id, name, if kind == "tool_use" then outCount else 0, 0);
      if kind == "text" {
        if msgIdx >= 0 {
          return;
        }
        PlaceMessage();
        events := [ItemAdded(msgIdx, MessageItem(msgId, ""))];
      } else if kind == "tool_use" {
        events := [ItemAdded(outCount, CallItem(id, name, ""))];
        PlaceCall();
      }
    }

    /** The message takes the next output position. */
    method PlaceMessage()
      requires Valid()
      modifies this`msgIdx, this`outCount
      ensures Valid() && View() == old(View()).(msgIdx := old(outCount), outCount := old(outCount) + 1)
    {
      msgIdx := outCount;
      outCount := outCount + 1;
    }

    /** A call does. */
    method PlaceCall()
      requires Valid()
      modifies this`outCount, this`toolsSeen
      ensures Valid() && View() == old(View()).(outCount := old(outCount) + 1, toolsSeen := true)
    {
      outCount := outCount + 1;
      toolsSeen := true;
    }

    method TextDeltaEvent(index: int, text: string) returns (events: seq<Event>)
      requires Valid()
      modifies owned, this`table
      ensures Valid() && (View(), events) == AddText(old(View()), index, text)
    {
      AgreeGet(blocks, owned, table, index);
      if index in blocks {
        WriteText(index, text);
      }
      var at := index;
      if msgIdx >= 0 {
        at := msgIdx;
      }
      events := [TextDelta(msgId, at, text)];
    }

    method JsonDeltaEvent(index: int, json: string) returns (events: seq<Event>, failure: Option<Failure>)
      requires Valid()
      modifies owned, this`table
      ensures Valid() && Matches(View(), events, false, failure, AddJson(old(View()), index, json))
    {
      AgreeGet(blocks, owned, table, index);
      if index !in blocks || blocks[index].kind != "tool_use" {
        return [], Some(Translation);
      }
      WriteArgs(index, json);
      events, failure := [ArgsDelta(blocks[index].id, blocks[index].outIdx, json)], None;
    }

    method MessageDeltaEvent(stop: string, u: ClaudeUsage)
      requires Valid()
      modifies this`promptTokens, this`completionTokens, this`cacheRead, this`cacheCreation, this`stopReason
      ensures Valid() && Proceed((View(), [])) == Dispatch(old(View()), UpMessage(stop, u))
    {
      CountUsage(u);
      stopReason := stop;
    }

    method CaptureStart(id: string, m: string, u: ClaudeUsage)
      modifies this`msgId, this`model, this`promptTokens, this`cacheRead, this`cacheCreation
      ensures View() == CaptureCache(old(View()).(msgId := id, model := m, prompt := u.input), u)
    {
      msgId, model, promptTokens := id, m, u.input;
      CaptureUsage(u);
    }

    method CountUsage(u: ClaudeUsage)
      modifies this`promptTokens, this`completionTokens, this`cacheRead, this`cacheCreation
      ensures View() == C.Counted(old(View()), u)
    {
      if u.input != 0 {
        promptTokens := u.input;
      }
      completionTokens := u.output;
      CaptureUsage(u);
    }

    method DispatchResponses(up: Up) returns (events: seq<Event>, done: bool, failure: Option<Failure>)
      requires Valid()
      modifies this, owned
      ensures Valid() && fresh(owned - old(owned)) && Matches(View(), events, done, failure, Dispatch(old(View()), up))
    {
      events, done, failure := [], false, None;
      match up
      case UpStart(id, m, u) =>
        CaptureStart(id, m, u);
        events := [Created(id)];
      case UpBlock(index, kind, id, name) => events := BlockStart(index, kind, id, name);
      case UpText(index, text) => events := TextDeltaEvent(index, text);
      case UpJson(index, json) => events, failure := JsonDeltaEvent(index, json);
      case UpMessage(stop, u) => MessageDeltaEvent(stop, u);
      case UpStop =>
        var e := ResponsesCompleted();
        events, done := [e], true;
      case UpError(f) => failure := Some(f);
      case UpOther =>
    }

    // ---- the Chat Completions target ----

    method EmitRole() returns (events: seq<Event>)
      requires Valid()
      modifies this`roleSent
      ensures Valid() && (View(), events) == C.RoleOnly(old(View()))
    {
      events := [];
      if !roleSent {
        roleSent := true;
        events := [RoleChunk];
      }
    }

    method EmitChunk(e: Event) returns (events: seq<Event>)
      requires Valid()
      modifies this`roleSent
      ensures Valid() && (View(), events) == C.Chunk(old(View()), e)
    {
      var role := EmitRole();
      assert [] + [e] == [e] && [RoleChunk] + [e] == [RoleChunk, e];
      events := role + [e];
    }

    method ChatBlockStart(index: int, kind: string, id: string, name: string)
      requires Valid()
      modifies this`blocks, this`owned, this`table, this`toolOrdinal, this`toolsSeen
      ensures Valid() && fresh(owned - old(owned)) && View() == C.StartChatBlock(old(View()), index, kind, id, name)
    {
      PutBlock(index, kind, id, name, 0, if kind == "tool_use" then toolOrdinal else 0);
      if kind == "tool_use" {
        CountCall();
      }
    }

    method CountCall()
      requires Valid()
      modifies this`toolOrdinal, this`toolsSeen
      ensures Valid() && View() == old(View()).(toolOrdinal := old(toolOrdinal) + 1, toolsSeen := true)
    {
      toolOrdinal := toolOrdinal + 1;
      toolsSeen := true;
    }

    method MarkTold(index: int)
      requires Agree(blocks, owned, table) && index in blocks
      modifies owned, this`table
      ensures Agree(blocks, owned, table)
      ensures var p := Get(old(table), index);
              p.Some? && table == old(table)[p.value := old(table)[p.value].(told := true)]
    {
      AgreeGet(blocks, owned, table, index);
      ghost var p, was := Get(table, index).value, table;
      var bs := blocks[index];
      OthersApart(index, p);
      bs.emitted := true;
      AgreeSet(blocks, owned, was, p, bs.View(index));
      table := table[p := bs.View(index)];
    }

    method ChatJsonDelta(index: int, json: string) returns (events: seq<Event>, failure: Option<Failure>)
      requires Valid()
      modifies owned, this`table, this`roleSent
      ensures Valid() && Matches(View(), events, false, failure, C.ChatJson(old(View()), index, json))
    {
      AgreeGet(blocks, owned, table, index);
      if index !in blocks || blocks[index].kind != "tool_use" {
        return [], Some(Translation);
      }
      var bs := blocks[index];
      var e := if bs.emitted then CallArgs(bs.ordinal, json) else CallOpening(bs.ordinal, bs.id, bs.name, json);
      MarkTold(index);
      events := EmitChunk(e);
      failure := None;
    }

    method ChatMessageDelta(stop: string, u: ClaudeUsage) returns (e: Event)
      requires Valid()
      modifies this`promptTokens, this`completionTokens, this`cacheRead, this`cacheCreation
      ensures Valid() && Proceed((View(), [e])) == C.DispatchChat(old(View()), UpMessage(stop, u))
    {
      CountUsage(u);
      var input := Wrap64(Wrap64(promptTokens + OrZero(cacheRead)) + OrZero(cacheCreation));
      e := FinishChunk(TerminalReason(toolsSeen, "tool_calls", ClaudeStopToFinish(stop)),
                       ResponsesTokensFrom(input, completionTokens, cacheRead, None, None));
    }

    method DispatchOpenAI(up: Up) returns (events: seq<Event>, done: bool, failure: Option<Failure>)
      requires Valid()
      modifies this, owned
      ensures Valid() && fresh(owned - old(owned)) && Matches(View(), events, done, failure, C.DispatchChat(old(View()), up))
    {
      events, done, failure := [], false, None;
      match up
      case UpStart(id, m, u) =>
        CaptureStart(id, m, u);
        events := EmitRole();
      case UpBlock(index, kind, id, name) => ChatBlockStart(index, kind, id, name);
      case UpText(_, text) => events := EmitChunk(ContentChunk(text));
      case UpJson(index, json) => events, failure := ChatJsonDelta(index, json);
      case UpMessage(stop, u) =>
        var e := ChatMessageDelta(stop, u);
        events := [e];
      case UpStop => done := true;
      case UpError(f) => failure := Some(f);
      case UpOther =>
    }

    // ---- passthrough ----

    method DispatchClaude(frame: S.Frame) returns (events: seq<Event>, done: bool, failure: Option<Failure>)
      requires Valid()
      ensures Matches(View(), events, done, failure, F.PassFrame(probe, View(), frame))
    {
      var name := frame.eventType;
      if name == "" && frame.data != "" {
        name := probe.typeOf(frame.data);
      }
      if name == "error" {
        return [], false, Some(probe.failureOf(frame.data));
      }
      events := if |frame.raw| > 0 then [Raw(frame.raw)] else [];
      done, failure := name == "message_stop", None;
    }

    method DispatchFrame(frame: S.Frame) returns (events: seq<Event>, done: bool, failure: Option<Failure>)
      requires Valid()
      modifies this, owned
      ensures Valid() && fresh(owned - old(owned))
      ensures Matches(View(), events, done, failure, F.HandleFrame(sourceFormat, decode, probe, old(View()), frame))
    {
      if sourceFormat == "claude" {
        events, done, failure := DispatchClaude(frame);
      } else {
        var r := decode(frame.eventType, frame.data);
        if r.Err? {
          return [], false, Some(r.error);
        }
        if sourceFormat == "openai" {
          events, done, failure := DispatchOpenAI(r.value);
        } else if sourceFormat == "openai-response" {
          events, done, failure := DispatchResponses(r.value);
        } else {
          return [], false, Some(Unsupported);
        }
      }
      NoteEmitted(events);
    }

    method NoteEmitted(events: seq<Event>)
      requires Valid()
      modifies this`emitted
      ensures Valid() && View() == old(View()).(emitted := old(emitted) || events != [])
    {
      if |events| > 0 {
        emitted := true;
      }
    }

    /** Ends a stream whose upstream closed early; later calls emit nothing. */
    method FlushStream() returns (events: seq<Event>)
      requires Valid()
      modifies this`flushed
      ensures Valid() && (View(), events) ==
              if old(flushed) then (old(View()), [])
              else (old(View()).(flushed := true), if sourceFormat == "openai-response" then Flush(old(View())).1 else [])
    {
      if flushed {
        return [];
      }
      flushed := true;
      events := [];
      if emitted && sourceFormat == "openai-response" {
        var terminal := ResponsesCompleted();
        events := [terminal];
      }
    }

    // ---- chunks ----

    /** The frames taken so far and what became of them. */
    ghost predicate Midway(st: State, b: S.Block, bytes: string, taken: seq<S.Frame>, o: Outcome)
      reads framer
    {
      && S.Advances(framer.wantRaw, b, bytes, taken, framer.View(), framer.buf)
      && o == F.HandleFrames(sourceFormat, decode, probe, st, taken)
    }

    /** What Feed hands out is the conversion of the frames `bytes` complete; an open stream keeps the rest. */
    ghost predicate Fed(o: Outcome, st: State, b: S.Block, bytes: string, now: S.Block, buf: string)
    {
      var f := LF.Drain(S.Handler(framer.wantRaw), b, LF.Lines(bytes));
      && o == F.HandleFrames(sourceFormat, decode, probe, st, f.events)
      && (o.status.Open? ==> now == f.state && buf == LF.Tail(bytes))
    }

    /** The next frame, tied to what was taken before. */
    method TakeFrame(ghost b: S.Block, ghost bytes: string, ghost taken: seq<S.Frame>) returns (frame: Option<S.Frame>)
      requires S.Advances(framer.wantRaw, b, bytes, taken, framer.View(), framer.buf)
      modifies framer
      ensures S.Advances(framer.wantRaw, b, bytes, taken + S.Emitted(frame), framer.View(), framer.buf)
      ensures frame.Some? ==> |framer.buf| < |old(framer.buf)|
      ensures frame.None? ==>
                LF.Drain(S.Handler(framer.wantRaw), b, LF.Lines(bytes)) == LF.Feed(framer.View(), taken, LF.Open) &&
                framer.buf == LF.Tail(bytes)
    {
      frame := framer.Next();
      S.AdvanceThen(framer.wantRaw, b, bytes, taken, old(framer.View()), old(framer.buf), S.Emitted(frame), framer.View(), framer.buf);
      if frame.None? {
        assert taken + [] == taken;
        S.AdvanceEnd(framer.wantRaw, b, bytes, taken, framer.View(), framer.buf);
      }
    }

    /** Once the stream has ended the frames still buffered no longer matter. */
    lemma {:induction false} EndIsFinal(b: S.Block, bytes: string, taken: seq<S.Frame>, st: State)
      requires S.Advances(framer.wantRaw, b, bytes, taken, framer.View(), framer.buf)
      requires !F.HandleFrames(sourceFormat, decode, probe, st, taken).status.Open?
      ensures F.HandleFrames(sourceFormat, decode, probe, st, LF.Drain(S.Handler(framer.wantRaw), b, LF.Lines(bytes)).events)
           == F.HandleFrames(sourceFormat, decode, probe, st, taken)
    {
      S.AdvanceRest(framer.wantRaw, b, bytes, taken, framer.View(), framer.buf);
      LF.DrainAppend(F.Handler(sourceFormat, decode, probe), st, taken,
                     LF.Drain(S.Handler(framer.wantRaw), framer.View(), LF.Lines(framer.buf)).events);
    }

    /** The frame just taken is handled; `taken` are the frames before it. */
    method FeedFrame(events: seq<Event>, frame: S.Frame, ghost st: State, ghost taken: seq<S.Frame>)
      returns (all: seq<Event>, done: bool, failure: Option<Failure>)
      requires Valid()
      requires LF.Feed(View(), events, LF.Open) == F.HandleFrames(sourceFormat, decode, probe, st, taken)
      modifies this, owned
      ensures Valid() && fresh(owned - old(owned))
      ensures Matches(View(), all, done, failure, F.HandleFrames(sourceFormat, decode, probe, st, taken + [frame]))
      ensures failure.Some? ==> !done
    {
      assert (taken + [frame])[..|taken|] == taken;
      var more;
      more, done, failure := DispatchFrame(frame);
      all := events + more;
      if failure.Some? {
        done := false;
      }
    }

    /** One turn of Feed's loop; `more` is false when the buffer holds no further frame. */
    method FeedNext(events: seq<Event>, ghost st: State, ghost b: S.Block, ghost bytes: string, ghost taken: seq<S.Frame>)
      returns (all: seq<Event>, done: bool, failure: Option<Failure>, more: bool, ghost taken': seq<S.Frame>)
      requires Valid() && Midway(st, b, bytes, taken, LF.Feed(View(), events, LF.Open))
      modifies this, owned, framer
      ensures Valid() && fresh(owned - old(owned)) && (failure.Some? ==> !done) && (!more ==> failure.None? && !done)
      ensures Midway(st, b, bytes, taken', LF.Feed(View(), all, StatusOf(done, failure)))
      ensures failure.Some? || done || !more ==>
                Fed(LF.Feed(View(), all, StatusOf(done, failure)), st, b, bytes, framer.View(), framer.buf)
      ensures more ==> |framer.buf| < |old(framer.buf)|
    {
      var frame := TakeFrame(b, bytes, taken);
      if frame.None? {
        assert taken + [] == taken;
        return events, false, None, false, taken;
      }
      taken' := taken + [frame.value];
      all, done, failure := FeedFrame(events, frame.value, st, taken);
      more := true;
      if failure.Some? || done {
        EndIsFinal(b, bytes, taken', st);
      }
    }

    /** One network chunk: the frames it completes, until message_stop or a failure. */
    method Feed(chunk: string) returns (events: seq<Event>, done: bool, failure: Option<Failure>)
      requires Valid()
      modifies this, owned, framer
      ensures Valid() && fresh(owned - old(owned)) && (failure.Some? ==> !done)
      ensures Fed(LF.Feed(View(), events, StatusOf(done, failure)), old(View()), old(framer.View()), old(framer.buf) + chunk, framer.View(), framer.buf)
    {
      framer.Push(chunk);
      events := [];
      ghost var st, b, bytes, taken: seq<S.Frame> := View(), framer.View(), framer.buf, [];
      LF.HalfwayStart(S.Handler(framer.wantRaw), b, bytes);
      while true
        invariant Valid() && fresh(owned - old(owned))
        invariant Midway(st, b, bytes, taken, LF.Feed(View(), events, LF.Open))
        decreases |framer.buf|
      {
        var more: bool;
        events, done, failure, more, taken := FeedNext(events, st, b, bytes, taken);
        if failure.Some? || done || !more {
          return;
        }
      }
    }
  }

  /** The body of the output loop: one block through the assembler. */
  method AssembleBlock(oa: OutputAssembler, index: int, bs: BlockState)
    modifies oa
    ensures oa.View() == Fold(Apply, old(oa.View()), PieceOps(PieceOfBlk(bs.View(index))))
  {
    if bs.kind == "text" {
      AssemblePiece(oa, TextPiece(bs.text));
    } else if bs.kind == "tool_use" {
      AssemblePiece(oa, CallPiece(bs.id, bs.name, DefaultArgs(bs.args)));
    }
  }

  function StatusOf(done: bool, failure: Option<Failure>): LF.Status<Failure> {
    if failure.Some? then LF.Failed(failure.value) else if done then LF.Done else LF.Open
  }

  /** What a method returns and leaves behind is the given outcome. */
  predicate Matches(st: State, events: seq<Event>, done: bool, failure: Option<Failure>, o: Outcome) {
    o == LF.Feed(st, events, StatusOf(done, failure))
  }
}
