/**
 * Messages upstream, Responses target: what one decoded event does to the converter's state, and the
 * client events it produces.
 */
module MessagesStream {
  import opened Wire
  import opened Folds
  import opened Pieces
  import LF = LineFeed
  import opened MessagesConvert

  /**
   * One upstream content block. Responses target: `outIdx` is the output position it was announced
   * at, and text and arguments accumulate. Chat Completions target: `ordinal` is its place among the
   * tool calls, and `told` says whether a client has been told its id and name.
   */
  datatype Blk = Blk(
    index: int, kind: string, id: string, name: string, outIdx: int, text: string, args: string, ordinal: int, told: bool)

  datatype Up =
    | UpStart(id: string, model: string, usage: ClaudeUsage)
    | UpBlock(index: int, kind: string, id: string, name: string)
    | UpText(index: int, text: string)
    | UpJson(index: int, json: string)
    | UpMessage(stopReason: string, usage: ClaudeUsage)
    | UpStop
    | UpError(failure: Failure)
    | UpOther

  /** Blocks are kept by increasing upstream index. */
  datatype State = State(
    blocks: seq<Blk>, msgId: string, model: string,
    prompt: int, completion: int, cacheRead: Option<int>, cacheCreation: Option<int>,
    stopReason: string, msgIdx: int, outCount: int, emitted: bool, flushed: bool,
    toolOrdinal: int, toolsSeen: bool, roleSent: bool)

  const Fresh := State([], "", "", 0, 0, None, None, "", -1, 0, false, false, 0, false, false)

  type Outcome = LF.Feed<State, Event, Failure>

  // ---- the block table ----

  /** The first position whose index is not below the given one. */
  function Where(blocks: seq<Blk>, index: int): (p: nat)
    ensures p <= |blocks|
    ensures forall q :: 0 <= q < p ==> blocks[q].index < index
    ensures p < |blocks| ==> blocks[p].index >= index
    decreases |blocks|
  {
    if blocks == [] || blocks[0].index >= index then 0 else
    var p := Where(blocks[1..], index);
    assert forall q :: 0 < q < p + 1 ==> blocks[q] == blocks[1..][q - 1];
    p + 1
  }

  /** Position of a started block. */
  function Get(blocks: seq<Blk>, index: int): (r: Option<nat>)
    ensures r.Some? ==> r.value < |blocks| && blocks[r.value].index == index
  {
    var p := Where(blocks, index);
    if p < |blocks| && blocks[p].index == index then Some(p) else None
  }

  /** Starting a block again replaces it. */
  function Put(blocks: seq<Blk>, b: Blk): seq<Blk> {
    var p := Where(blocks, b.index);
    if p < |blocks| && blocks[p].index == b.index then blocks[p := b] else blocks[..p] + [b] + blocks[p..]
  }

  /** The started block, if any. */
  function Found(blocks: seq<Blk>, index: int): Option<Blk> {
    var p := Get(blocks, index);
    if p.Some? then Some(blocks[p.value]) else None
  }

  predicate Sorted(blocks: seq<Blk>) {
    forall p, q :: 0 <= p < q < |blocks| ==> blocks[p].index < blocks[q].index
  }

  lemma PutIsSorted(blocks: seq<Blk>, b: Blk)
    requires Sorted(blocks)
    ensures Sorted(Put(blocks, b))
  {
  }

  lemma PutHolds(blocks: seq<Blk>, b: Blk, c: Blk)
    requires Sorted(blocks)
    ensures c in Put(blocks, b) <==> c == b || (c in blocks && c.index != b.index)
  {
    var p := Where(blocks, b.index);
    var blocks' := Put(blocks, b);
    assert blocks'[p] == b;
    if c in blocks && c.index != b.index {
      var q :| 0 <= q < |blocks| && blocks[q] == c;
      assert blocks'[if |blocks'| == |blocks| || q < p then q else q + 1] == c;
    }
    if c in blocks' && c != b {
      var q :| 0 <= q < |blocks'| && blocks'[q] == c;
      assert q != p;
      var r := if |blocks'| == |blocks| || q < p then q else q - 1;
      assert blocks[r] == c;
    }
  }

  /** A sorted table finds exactly what it holds. */
  lemma FoundIff(blocks: seq<Blk>, b: Blk)
    requires Sorted(blocks)
    ensures Found(blocks, b.index) == Some(b) <==> b in blocks
  {
    if b in blocks {
      var p :| 0 <= p < |blocks| && blocks[p] == b;
      var q := Where(blocks, b.index);
      assert !(q < p) && !(p < q);
    }
  }

  lemma FoundIndex(blocks: seq<Blk>, index: int)
    ensures Found(blocks, index).Some? ==> Found(blocks, index).value.index == index && Found(blocks, index).value in blocks
  {
  }

  /** Starting a block makes it the one found at its index and moves no other. */
  lemma FoundPut(blocks: seq<Blk>, b: Blk, index: int)
    requires Sorted(blocks)
    ensures Found(Put(blocks, b), index) == if index == b.index then Some(b) else Found(blocks, index)
  {
    PutIsSorted(blocks, b);
    PutHolds(blocks, b, b);
    FoundIff(Put(blocks, b), b);
    var was, now := Found(blocks, index), Found(Put(blocks, b), index);
    FoundIndex(blocks, index);
    FoundIndex(Put(blocks, b), index);
    if index != b.index && was.Some? {
      PutHolds(blocks, b, was.value);
      FoundIff(Put(blocks, b), was.value);
    }
    if index != b.index && now.Some? {
      PutHolds(blocks, b, now.value);
      FoundIff(blocks, now.value);
    }
  }

  // ---- the terminal payload ----

  function PieceOfBlk(b: Blk): Piece {
    if b.kind == "text" then TextPiece(b.text)
    else if b.kind == "tool_use" then CallPiece(b.id, b.name, DefaultArgs(b.args))
    else NoPiece
  }

  function PiecesOfBlks(blocks: seq<Blk>): seq<Piece> {
    seq(|blocks|, i requires 0 <= i < |blocks| => PieceOfBlk(blocks[i]))
  }

  /** The output array: blocks by upstream index, text aggregated. */
  function OutputItems(st: State): seq<Item> {
    Aggregate(st.msgId, PiecesOfBlks(st.blocks))
  }

  function Usage(st: State): ClaudeUsage {
    ClaudeUsage(st.prompt, st.completion, st.cacheRead, st.cacheCreation)
  }

  function Terminal(st: State): Event {
    Completed(st.msgId, st.model, StatusFromClaudeStop(st.stopReason), TokensOf(Usage(st)), OutputItems(st))
  }

  // ---- one event ----

  function CaptureCache(st: State, u: ClaudeUsage): State {
    st.(cacheRead := if u.cacheRead.Some? then u.cacheRead else st.cacheRead,
        cacheCreation := if u.cacheCreation.Some? then u.cacheCreation else st.cacheCreation)
  }

  function StartBlock(st: State, index: int, kind: string, id: string, name: string): (State, seq<Event>) {
    var b := Blk(index, kind, id, name, 0, "", "", 0, false);
    if kind == "text" then
      var st1 := st.(blocks := Put(st.blocks, b));
      if st.msgIdx >= 0 then (st1, [])
      else (st1.(msgIdx := st.outCount, outCount := st.outCount + 1), [ItemAdded(st.outCount, MessageItem(st.msgId, ""))])
    else if kind == "tool_use" then
      (st.(blocks := Put(st.blocks, b.(outIdx := st.outCount)), outCount := st.outCount + 1, toolsSeen := true),
       [ItemAdded(st.outCount, CallItem(id, name, ""))])
    else (st.(blocks := Put(st.blocks, b)), [])
  }

  /** Text goes to the one announced message, wherever its block is. */
  function AddText(st: State, index: int, text: string): (State, seq<Event>) {
    var p := Get(st.blocks, index);
    (if p.Some? then st.(blocks := st.blocks[p.value := st.blocks[p.value].(text := st.blocks[p.value].text + text)]) else st,
     [TextDelta(st.msgId, if st.msgIdx >= 0 then st.msgIdx else index, text)])
  }

  function Proceed(r: (State, seq<Event>)): Outcome {
    LF.Feed(r.0, r.1, LF.Open)
  }

  function AddJson(st: State, index: int, json: string): Outcome {
    var p := Get(st.blocks, index);
    if p.None? || st.blocks[p.value].kind != "tool_use" then LF.Feed(st, [], LF.Failed(Translation))
    else
      var b := st.blocks[p.value];
      Proceed((st.(blocks := st.blocks[p.value := b.(args := b.args + json)]), [ArgsDelta(b.id, b.outIdx, json)]))
  }

  function Dispatch(st: State, up: Up): Outcome {
    match up
    case UpStart(id, model, u) => Proceed((CaptureCache(st.(msgId := id, model := model, prompt := u.input), u), [Created(id)]))
    case UpBlock(index, kind, id, name) => Proceed(StartBlock(st, index, kind, id, name))
    case UpText(index, text) => Proceed(AddText(st, index, text))
    case UpJson(index, json) => AddJson(st, index, json)
    case UpMessage(stop, u) =>
      Proceed((CaptureCache(st.(prompt := if u.input != 0 then u.input else st.prompt, completion := u.output, stopReason := stop), u), []))
    case UpStop => LF.Feed(st, [Terminal(st)], LF.Done)
    case UpError(failure) => LF.Feed(st, [], LF.Failed(failure))
    case UpOther => Proceed((st, []))
  }

  /** Anything emitted makes a later Flush eligible. */
  function Noted(o: Outcome): Outcome {
    o.(state := o.state.(emitted := o.state.emitted || o.events != []))
  }

  function Flush(st: State): (State, seq<Event>) {
    if st.flushed then (st, [])
    else (st.(flushed := true), if st.emitted then [Terminal(st)] else [])
  }

  /** Events in order until the stream ends or fails. */
  function Run(ups: seq<Up>): Outcome
    decreases |ups|
  {
    if ups == [] then LF.Feed(Fresh, [], LF.Open)
    else
      var f := Run(ups[..|ups| - 1]);
      if f.status.Open? then LF.Then(f, Noted(Dispatch(f.state, ups[|ups| - 1]))) else f
  }

  lemma {:induction false} RunNext(ups: seq<Up>, up: Up)
    ensures Run(ups + [up]) == if Run(ups).status.Open? then LF.Then(Run(ups), Noted(Dispatch(Run(ups).state, up))) else Run(ups)
  {
    assert (ups + [up])[..|ups|] == ups;
  }
}
