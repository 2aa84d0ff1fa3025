/**
 * Responses upstream: what the client accumulates is what the upstream said. Under one-to-one
 * pairings of identifiers every call has one entry at the client, announced as it was first seen,
 * with exactly the arguments the decision table sends.
 */
module ResponsesContents {
  import opened Wire
  import opened Folds
  import opened Clients
  import opened BlockLists
  import T = ToolTracker
  import opened ResponsesStream
  import opened ResponsesClaude

  // ---- the reference ----

  /** The identifier and name a call is announced with: those of its first event. */
  function Head(p: T.Pairing, ups: seq<Up>, k: int): Option<(string, string)>
    decreases |ups|
  {
    if ups == [] then None
    else
      var before, up := Head(p, ups[..|ups| - 1], k), ups[|ups| - 1];
      if before.None? && TracksCall(up) && p.owner(up.itemId) == k
      then Some(if up.UpItem? then (up.callId, up.name) else (up.itemId, ""))
      else before
  }

  /** Some event was about the call. */
  predicate Heard(p: T.Pairing, ups: seq<Up>, k: int)
    decreases |ups|
  {
    ups != [] && (Heard(p, ups[..|ups| - 1], k) || (TracksCall(ups[|ups| - 1]) && p.owner(ups[|ups| - 1].itemId) == k))
  }

  /** Some event of the call was a fragment, even an empty one, or carried complete arguments. */
  predicate ArgsHeard(p: T.Pairing, ups: seq<Up>, k: int)
    decreases |ups|
  {
    ups != [] &&
    var up := ups[|ups| - 1];
    ArgsHeard(p, ups[..|ups| - 1], k) || (TracksCall(up) && p.owner(up.itemId) == k && (up.UpArgs? || up.args != ""))
  }

  /** The call's first event was an item event. */
  predicate Led(p: T.Pairing, ups: seq<Up>, k: int)
    decreases |ups|
  {
    ups != [] &&
    if Heard(p, ups[..|ups| - 1], k) then Led(p, ups[..|ups| - 1], k)
    else ups[|ups| - 1].UpItem? && ups[|ups| - 1].isCall && p.owner(ups[|ups| - 1].itemId) == k
  }

  /** The identifier and name of a call in its first item event. */
  function FirstItem(p: T.Pairing, ups: seq<Up>, k: int): Option<(string, string)>
    decreases |ups|
  {
    if ups == [] then None
    else
      var before, up := FirstItem(p, ups[..|ups| - 1], k), ups[|ups| - 1];
      if before.None? && up.UpItem? && up.isCall && p.owner(up.itemId) == k then Some((up.callId, up.name)) else before
  }

  /** Item events carry both identifiers of their call, fragments the item's. */
  predicate PairedUps(p: T.Pairing, ups: seq<Up>) {
    forall i :: 0 <= i < |ups| && TracksCall(ups[i]) ==> T.Fits(p, OpOf(ups[i], 0))
  }

  /** A call goes by its first item event, unless fragments were heard before it. */
  lemma {:induction false} HeadIs(p: T.Pairing, ups: seq<Up>, k: int)
    requires PairedUps(p, ups)
    ensures Head(p, ups, k).Some? <==> Heard(p, ups, k)
    ensures !Heard(p, ups, k) ==> FirstItem(p, ups, k).None? && !Led(p, ups, k)
    ensures Led(p, ups, k) ==> Head(p, ups, k) == FirstItem(p, ups, k)
    ensures Heard(p, ups, k) && !Led(p, ups, k) ==> Head(p, ups, k) == Some((p.itemId(k), ""))
    decreases |ups|
  {
    if ups != [] {
      var n := |ups| - 1;
      HeadIs(p, ups[..n], k);
      assert TracksCall(ups[n]) ==> T.Fits(p, OpOf(ups[n], 0));
    }
  }

  /** The client's calls by index. */
  type Entries = int -> Option<Call>

  ghost predicate Tied(p: T.Pairing, ups: seq<Up>, log: seq<T.Op>, next: int, get: Entries, k: int) {
    var i, head := T.IndexOf(p, log, k), Head(p, ups, k);
    && i.Some? && 0 <= i.value < next && head.Some?
    && get(i.value) == Some(Call(head.value.0, head.value.1, T.Sent(p, log, T.Run(log).1, k)))
  }

  ghost predicate AllTied(p: T.Pairing, ups: seq<Up>, log: seq<T.Op>, next: int, get: Entries) {
    forall k :: T.IndexOf(p, log, k).Some? ==> Tied(p, ups, log, next, get, k)
  }

  ghost predicate OneCallPerIndex(p: T.Pairing, log: seq<T.Op>) {
    forall j, k :: T.IndexOf(p, log, j).Some? && T.IndexOf(p, log, j) == T.IndexOf(p, log, k) ==> j == k
  }

  ghost predicate Backed(p: T.Pairing, log: seq<T.Op>, i: int) {
    exists k :: T.IndexOf(p, log, k) == Some(i)
  }

  ghost predicate AllBacked(p: T.Pairing, log: seq<T.Op>, get: Entries) {
    forall i :: get(i).Some? ==> Backed(p, log, i)
  }

  ghost predicate HeadsKnown(p: T.Pairing, ups: seq<Up>, log: seq<T.Op>) {
    forall k :: Head(p, ups, k).Some? ==> T.IndexOf(p, log, k).Some?
  }

  /** Calls and client entries correspond one to one. */
  ghost predicate Conveyed(p: T.Pairing, ups: seq<Up>, log: seq<T.Op>, next: int, get: Entries) {
    AllTied(p, ups, log, next, get) && OneCallPerIndex(p, log) && AllBacked(p, log, get) && HeadsKnown(p, ups, log)
  }

  function Piece(op: T.Op, d: T.Decision): string {
    if op.Fragment? then op.delta else if d.deliver then op.args else ""
  }

  /** What one tracked event does to the entries. */
  ghost predicate Extends(get: Entries, get': Entries, d: T.Decision, id: string, name: string, piece: string) {
    forall i :: get'(i) == (
      if i != d.index then get(i)
      else if d.first then Some(Call(id, name, piece))
      else if get(i).Some? then Some(get(i).value.(args := get(i).value.args + piece))
      else None)
  }

  lemma {:induction false} SentNext(p: T.Pairing, log: seq<T.Op>, op: T.Op, k: int)
    ensures var d := T.Run(log + [op]).1[|log|];
            T.Sent(p, log + [op], T.Run(log + [op]).1, k) ==
            T.Sent(p, log, T.Run(log).1, k) + if T.Key(p, op) == k then Piece(op, d) else ""
  {
    assert (log + [op])[..|log|] == log;
    assert T.Run(log + [op]).1[..|log|] == T.Run(log).1;
  }

  lemma {:induction false} HeadNext(p: T.Pairing, ups: seq<Up>, up: Up, k: int)
    ensures Head(p, ups + [up], k) ==
            if Head(p, ups, k).None? && TracksCall(up) && p.owner(up.itemId) == k
            then Some(if up.UpItem? then (up.callId, up.name) else (up.itemId, ""))
            else Head(p, ups, k)
  {
    assert (ups + [up])[..|ups|] == ups;
  }

  /** The entry of call `k` after the event. */
  lemma {:induction false} TiedNext(p: T.Pairing, ups: seq<Up>, log: seq<T.Op>, next: int, get: Entries, up: Up, get': Entries, k: int)
    requires TracksCall(up) && T.Paired(p, log + [OpOf(up, next)]) && Conveyed(p, ups, log, next, get)
    requires var op := OpOf(up, next);
             var d := T.Expected(p, log + [op], |log|);
             && T.Run(log + [op]).1[|log|] == d
             && Extends(get, get', d, if up.UpItem? then up.callId else up.itemId, if up.UpItem? then up.name else "", Piece(op, d))
    requires T.IndexOf(p, log + [OpOf(up, next)], k).Some? && next >= 0
    ensures var op := OpOf(up, next);
            var d := T.Expected(p, log + [op], |log|);
            Tied(p, ups + [up], log + [op], if d.first then next + 1 else next, get', k)
  {
    var op := OpOf(up, next);
    T.LogNext(p, log, op, k);
    HeadNext(p, ups, up, k);
    SentNext(p, log, op, k);
    assert (log + [op])[..|log|] == log;
    var before := T.IndexOf(p, log, k);
    if before.Some? {
      assert Tied(p, ups, log, next, get, k);
      assert T.Sent(p, log, T.Run(log).1, k) + "" == T.Sent(p, log, T.Run(log).1, k);
    } else {
      NothingSentYet(p, log, k);
      assert "" + Piece(op, T.Expected(p, log + [op], |log|)) == Piece(op, T.Expected(p, log + [op], |log|));
    }
  }

  lemma {:induction false} NothingSentYet(p: T.Pairing, log: seq<T.Op>, k: int)
    requires T.IndexOf(p, log, k).None?
    ensures T.Sent(p, log, T.Run(log).1, k) == ""
    decreases |log|
  {
    if log != [] {
      var n := |log| - 1;
      NothingSentYet(p, log[..n], k);
      assert T.Run(log).1[..n] == T.Run(log[..n]).1;
    }
  }

  lemma OneCallPerIndexNext(p: T.Pairing, ups: seq<Up>, log: seq<T.Op>, op: T.Op, get: Entries)
    requires AllTied(p, ups, log, op.next, get) && OneCallPerIndex(p, log)
    ensures OneCallPerIndex(p, log + [op])
  {
    forall j, k | T.IndexOf(p, log + [op], j).Some? && T.IndexOf(p, log + [op], j) == T.IndexOf(p, log + [op], k) ensures j == k {
      T.LogNext(p, log, op, j);
      T.LogNext(p, log, op, k);
      assert T.IndexOf(p, log, j).Some? ==> Tied(p, ups, log, op.next, get, j);
      assert T.IndexOf(p, log, k).Some? ==> Tied(p, ups, log, op.next, get, k);
    }
  }

  lemma BackedNext(p: T.Pairing, log: seq<T.Op>, get: Entries, op: T.Op, get': Entries, id: string, name: string, piece: string)
    requires AllBacked(p, log, get) && Extends(get, get', T.Expected(p, log + [op], |log|), id, name, piece)
    ensures AllBacked(p, log + [op], get')
  {
    assert (log + [op])[..|log|] == log;
    forall i | get'(i).Some? ensures Backed(p, log + [op], i) {
      var k := T.Key(p, op);
      if get(i).Some? {
        assert Backed(p, log, i);
        k :| T.IndexOf(p, log, k) == Some(i);
      }
      T.LogNext(p, log, op, k);
      assert T.IndexOf(p, log + [op], k) == Some(i);
    }
  }

  lemma HeadsNext(p: T.Pairing, ups: seq<Up>, log: seq<T.Op>, up: Up, next: int)
    requires TracksCall(up) && HeadsKnown(p, ups, log)
    ensures HeadsKnown(p, ups + [up], log + [OpOf(up, next)])
  {
    forall k | Head(p, ups + [up], k).Some? ensures T.IndexOf(p, log + [OpOf(up, next)], k).Some? {
      T.LogNext(p, log, OpOf(up, next), k);
      HeadNext(p, ups, up, k);
    }
  }

  /** What one tracked upstream event does to the entries. */
  ghost predicate UpExtends(get: Entries, get': Entries, up: Up, next: int, d: T.Decision)
    requires TracksCall(up)
  {
    Extends(get, get', d, if up.UpItem? then up.callId else up.itemId, if up.UpItem? then up.name else "", Piece(OpOf(up, next), d))
  }

  lemma {:induction false} ConveyedNext(p: T.Pairing, ups: seq<Up>, log: seq<T.Op>, next: int, get: Entries, up: Up, get': Entries, d: T.Decision)
    requires TracksCall(up) && T.Paired(p, log + [OpOf(up, next)]) && Conveyed(p, ups, log, next, get) && next >= 0
    requires d == T.Run(log + [OpOf(up, next)]).1[|log|] && UpExtends(get, get', up, next, d)
    ensures Conveyed(p, ups + [up], log + [OpOf(up, next)], if d.first then next + 1 else next, get')
  {
    var op := OpOf(up, next);
    T.DecisionsAreExpected(p, log + [op], |log|);
    forall k | T.IndexOf(p, log + [op], k).Some?
      ensures Tied(p, ups + [up], log + [op], if d.first then next + 1 else next, get', k)
    {
      TiedNext(p, ups, log, next, get, up, get', k);
    }
    OneCallPerIndexNext(p, ups, log, op, get);
    BackedNext(p, log, get, op, get', if up.UpItem? then up.callId else up.itemId, if up.UpItem? then up.name else "", Piece(op, d));
    HeadsNext(p, ups, log, up, next);
  }

  /** Events that are not about calls, and leave the entries alone, change nothing. */
  lemma ConveyedQuiet(p: T.Pairing, ups: seq<Up>, log: seq<T.Op>, next: int, get: Entries, up: Up, next': int, get': Entries)
    requires !TracksCall(up) && Conveyed(p, ups, log, next, get) && next <= next'
    requires forall i :: get'(i) == get(i)
    ensures Conveyed(p, ups + [up], log, next', get')
  {
    forall k ensures Head(p, ups + [up], k) == Head(p, ups, k) {
      HeadNext(p, ups, up, k);
    }
    forall k | T.IndexOf(p, log, k).Some? ensures Tied(p, ups + [up], log, next', get', k) {
      assert Tied(p, ups, log, next, get, k);
    }
    forall i | get'(i).Some? ensures Backed(p, log, i) {
      assert get(i).Some?;
    }
  }

  // ---- Messages target ----

  /** The tracker events of a run, with the indices the converter offered. */
  function LogClaude(ups: seq<Up>): seq<T.Op>
    requires Healthy(ups)
    decreases |ups|
  {
    if ups == [] then []
    else
      var before, up := ups[..|ups| - 1], ups[|ups| - 1];
      LogClaude(before) + if TracksCall(up) then [OpOf(up, RunClaude(before).0.nextIndex)] else []
  }

  /** The log knows of a call what the upstream said of it. */
  lemma {:induction false} LogTells(p: T.Pairing, ups: seq<Up>, k: int)
    requires Healthy(ups)
    ensures T.IndexOf(p, LogClaude(ups), k).Some? <==> Heard(p, ups, k)
    ensures T.Carried(p, LogClaude(ups), k) <==> ArgsHeard(p, ups, k)
    decreases |ups|
  {
    if ups != [] {
      var before, up := ups[..|ups| - 1], ups[|ups| - 1];
      LogTells(p, before, k);
      if TracksCall(up) {
        T.LogNext(p, LogClaude(before), OpOf(up, RunClaude(before).0.nextIndex), k);
      } else {
        assert LogClaude(before) + [] == LogClaude(before);
      }
    }
  }

  lemma {:induction false} PairedIff(p: T.Pairing, ups: seq<Up>)
    requires Healthy(ups)
    ensures PairedUps(p, ups) <==> T.Paired(p, LogClaude(ups))
    decreases |ups|
  {
    if ups != [] {
      var before, up := ups[..|ups| - 1], ups[|ups| - 1];
      PairedIff(p, before);
      PairedUpsNext(p, before, up, ups);
      if TracksCall(up) {
        PairedNext(p, LogClaude(before), OpOf(up, RunClaude(before).0.nextIndex));
      } else {
        assert LogClaude(before) + [] == LogClaude(before);
      }
    }
  }

  lemma PairedUpsNext(p: T.Pairing, before: seq<Up>, up: Up, ups: seq<Up>)
    requires ups != [] && before == ups[..|ups| - 1] && up == ups[|ups| - 1]
    ensures PairedUps(p, ups) <==> PairedUps(p, before) && (TracksCall(up) ==> T.Fits(p, OpOf(up, 0)))
  {
    assert forall i :: 0 <= i < |before| ==> before[i] == ups[i];
  }

  lemma PairedNext(p: T.Pairing, log: seq<T.Op>, op: T.Op)
    ensures T.Paired(p, log + [op]) <==> T.Paired(p, log) && T.Fits(p, op)
  {
    assert (log + [op])[|log|] == op && forall m :: 0 <= m < |log| ==> (log + [op])[m] == log[m];
  }

  function ToolAt(bs: seq<Block>): Entries {
    i => if 0 <= i < |bs| && bs[i].ToolBlock? then Some(Call(bs[i].id, bs[i].name, bs[i].json)) else None
  }

  ghost predicate Told(p: T.Pairing, ups: seq<Up>, st: State, bs: seq<Block>, log: seq<T.Op>) {
    && |bs| == st.nextIndex && st.tracker == T.Run(log).0
    && Conveyed(p, ups, log, st.nextIndex, ToolAt(bs))
    && TextOf(bs) == Text(ups)
    && (st.textOpen ==> TextAt(st, bs))
  }

  lemma {:induction false} SilentEvents(bs: seq<Block>, es: seq<Event>)
    requires forall e :: e in es ==> !e.BlockStart? && !e.BlockDelta?
    ensures Blocks(bs, es) == bs
    decreases |es|
  {
    if es != [] {
      assert es[0] in es;
      SilentEvents(bs, es[1..]);
    }
  }

  lemma StartedBlocks(bs: seq<Block>, st: State, index: int, kind: BlockKind)
    ensures Blocks(bs, StartBlock(st, index, kind).1) == bs + [if kind.TextKind? then TextBlock("") else ToolBlock(kind.id, kind.name, "")]
  {
    var stops := CloseOpen(st).1;
    SilentEvents(bs, stops);
    FoldAppend(BlocksStep, bs, stops, [BlockStart(index, kind)]);
    FoldOne(BlocksStep, bs, BlockStart(index, kind));
  }

  lemma {:induction false} TextNext(ups: seq<Up>, up: Up)
    ensures Text(ups + [up]) == Text(ups) + if up.UpText? then up.delta else ""
  {
    assert (ups + [up])[..|ups|] == ups;
  }

  predicate TextAt(st: State, bs: seq<Block>) {
    0 <= st.textIndex < |bs| && bs[st.textIndex].TextBlock?
  }

  lemma {:induction false} OpenTextTold(bs: seq<Block>, st: State)
    requires Shape(st) && |bs| == st.nextIndex && (st.textOpen ==> TextAt(st, bs))
    ensures var out := OpenText(st);
            var bs' := Blocks(bs, out.1);
            && |bs'| == out.0.nextIndex == out.0.textIndex + 1 && out.0.textOpen && TextAt(out.0, bs')
            && TextOf(bs') == TextOf(bs) && (forall i :: ToolAt(bs')(i) == ToolAt(bs)(i))
  {
    if !st.textOpen {
      StartedBlocks(bs, st, st.nextIndex, TextKind);
      AddBlock(bs, TextBlock(""));
      assert TextOf(bs) + "" == TextOf(bs);
    }
  }

  lemma {:induction false} DeltaTold(bs: seq<Block>, i: int, delta: string)
    requires 0 <= i == |bs| - 1 && bs[i].TextBlock?
    ensures var bs' := Blocks(bs, [BlockDelta(i, TextPart(delta))]);
            && |bs'| == |bs| && bs'[i].TextBlock?
            && TextOf(bs') == TextOf(bs) + delta && (forall j :: ToolAt(bs')(j) == ToolAt(bs)(j))
  {
    FoldOne(BlocksStep, bs, BlockDelta(i, TextPart(delta)));
    SetTextBlock(bs, i, delta);
  }

  /** A text block, new or open, is extended by the delta. */
  lemma {:induction false} TextTold(bs: seq<Block>, st: State, delta: string)
    requires Shape(st) && |bs| == st.nextIndex && (st.textOpen ==> TextAt(st, bs))
    ensures var out := ClaudeText(st, delta);
            var bs' := Blocks(bs, out.1);
            && |bs'| == out.0.nextIndex && TextAt(out.0, bs') && out.0.tracker == st.tracker
            && TextOf(bs') == TextOf(bs) + delta && (forall i :: ToolAt(bs')(i) == ToolAt(bs)(i))
  {
    var a := OpenText(st);
    OpenTextTold(bs, st);
    FoldAppend(BlocksStep, bs, a.1, [BlockDelta(a.0.textIndex, TextPart(delta))]);
    DeltaTold(Blocks(bs, a.1), a.0.textIndex, delta);
  }

  /** The blocks after a tracked event. */
  function CallBlocks(bs: seq<Block>, d: T.Decision, id: string, name: string, part: Option<string>): seq<Block> {
    var bs1 := if d.first then bs + [ToolBlock(id, name, "")] else bs;
    if part.Some? && 0 <= d.index < |bs1| && bs1[d.index].ToolBlock?
    then bs1[d.index := bs1[d.index].(json := bs1[d.index].json + part.value)]
    else bs1
  }

  lemma CallTold(bs: seq<Block>, st: State, d: T.Decision, id: string, name: string, part: Option<string>)
    ensures Blocks(bs, ClaudeCall(st, d, id, name, part).1) == CallBlocks(bs, d, id, name, part)
  {
    var a: Out := if d.first then StartBlock(st, d.index, ToolKind(id, name)) else (st, []);
    if d.first {
      StartedBlocks(bs, st, d.index, ToolKind(id, name));
    }
    if part.Some? {
      var e := BlockDelta(d.index, JsonPart(part.value));
      FoldAppend(BlocksStep, bs, a.1, [e]);
      FoldOne(BlocksStep, Blocks(bs, a.1), e);
    } else {
      assert a.1 + [] == a.1;
    }
  }

  lemma {:induction false} CallBlocksExtend(bs: seq<Block>, d: T.Decision, id: string, name: string, part: Option<string>)
    requires d.first ==> d.index == |bs|
    ensures var bs' := CallBlocks(bs, d, id, name, part);
            && |bs'| == (if d.first then |bs| + 1 else |bs|)
            && TextOf(bs') == TextOf(bs)
            && (forall i :: 0 <= i < |bs| && bs[i].TextBlock? ==> bs'[i] == bs[i])
            && Extends(ToolAt(bs), ToolAt(bs'), d, id, name, if part.Some? then part.value else "")
  {
    var bs1 := if d.first then bs + [ToolBlock(id, name, "")] else bs;
    if d.first {
      AddBlock(bs, ToolBlock(id, name, ""));
      assert TextOf(bs) + "" == TextOf(bs);
    }
    if part.Some? && 0 <= d.index < |bs1| && bs1[d.index].ToolBlock? {
      SetToolBlock(bs1, d.index, bs1[d.index].(json := bs1[d.index].json + part.value));
      assert "" + part.value == part.value;
    } else if part.None? && !d.first {
      NoPieceExtends(ToolAt(bs), d, id, name);
    }
  }

  lemma QuietTold(p: T.Pairing, ups: seq<Up>, st: State, bs: seq<Block>, log: seq<T.Op>, up: Up, st': State)
    requires Told(p, ups, st, bs, log) && !TracksCall(up) && !up.UpText?
    requires st'.nextIndex == st.nextIndex && st'.tracker == st.tracker && st'.textIndex == st.textIndex && st'.textOpen == st.textOpen
    ensures Told(p, ups + [up], st', bs, log)
  {
    ConveyedQuiet(p, ups, log, st.nextIndex, ToolAt(bs), up, st.nextIndex, ToolAt(bs));
    TextNext(ups, up);
    assert Text(ups) + "" == Text(ups);
  }

  lemma TextUpTold(p: T.Pairing, ups: seq<Up>, st: State, bs: seq<Block>, log: seq<T.Op>, up: Up)
    requires Told(p, ups, st, bs, log) && Shape(st) && up.UpText?
    ensures var out := ClaudeText(st, up.delta); Told(p, ups + [up], out.0, Blocks(bs, out.1), log)
  {
    var out := ClaudeText(st, up.delta);
    TextTold(bs, st, up.delta);
    ConveyedQuiet(p, ups, log, st.nextIndex, ToolAt(bs), up, out.0.nextIndex, ToolAt(Blocks(bs, out.1)));
    TextNext(ups, up);
  }

  /** A tracked event: `st1` is the state after tracking, `out` what the converter made of it. */
  lemma CallUpTold(p: T.Pairing, ups: seq<Up>, st: State, bs: seq<Block>, log: seq<T.Op>, up: Up, st0: State)
    requires Told(p, ups, st, bs, log) && Shape(st) && TracksCall(up) && T.Paired(p, log + [OpOf(up, st.nextIndex)])
    requires st0 == st || st0 == st.(toolCallsSeen := true)
    ensures var op := OpOf(up, st.nextIndex);
            var (st1, d) := Track(st0, op);
            var id, name := if up.UpItem? then up.callId else up.itemId, if up.UpItem? then up.name else "";
            var part := if up.UpArgs? then Some(up.delta) else if d.deliver then Some(up.args) else None;
            var out := ClaudeCall(st1, d, id, name, part);
            Told(p, ups + [up], out.0, Blocks(bs, out.1), log + [op])
  {
    var op := OpOf(up, st.nextIndex);
    var (st1, d) := Track(st0, op);
    var id, name := if up.UpItem? then up.callId else up.itemId, if up.UpItem? then up.name else "";
    var part := if up.UpArgs? then Some(up.delta) else if d.deliver then Some(up.args) else None;
    T.RunNext(log, op);
    TrackIndexes(st0, op);
    CallTold(bs, st1, d, id, name, part);
    CallBlocksExtend(bs, d, id, name, part);
    ConveyedNext(p, ups, log, st.nextIndex, ToolAt(bs), up, ToolAt(CallBlocks(bs, d, id, name, part)), d);
    TextNext(ups, up);
    assert Text(ups) + "" == Text(ups);
  }

  lemma UpTold(p: T.Pairing, ups: seq<Up>, st: State, bs: seq<Block>, log: seq<T.Op>, up: Up)
    requires Told(p, ups, st, bs, log) && Shape(st) && !up.UpFailed?
    requires TracksCall(up) ==> T.Paired(p, log + [OpOf(up, st.nextIndex)])
    ensures var out := ClaudeUp(st, up);
            Told(p, ups + [up], out.0, Blocks(bs, out.1), log + if TracksCall(up) then [OpOf(up, st.nextIndex)] else [])
  {
    var out := ClaudeUp(st, up);
    if TracksCall(up) {
      CallUpTold(p, ups, st, bs, log, up, if up.UpItem? then st.(toolCallsSeen := true) else st);
    } else {
      assert log + [] == log;
      if up.UpText? {
        TextUpTold(p, ups, st, bs, log, up);
      } else {
        SilentEvents(bs, out.1);
        QuietTold(p, ups, st, bs, log, up, out.0);
      }
    }
  }

  lemma {:induction false} RunShape(ups: seq<Up>)
    requires Healthy(ups) && forall i :: 0 <= i < |ups| ==> !ups[i].UpTerminal?
    ensures Shape(RunClaude(ups).0)
    decreases |ups|
  {
    if ups != [] {
      var before, up := ups[..|ups| - 1], ups[|ups| - 1];
      RunShape(before);
      if !up.UpCreated? {
        UpWatched(RunClaude(before).0, up);
      }
    }
  }

  lemma {:induction false} RunTold(p: T.Pairing, ups: seq<Up>)
    requires UpToTerminal(ups) && T.Paired(p, LogClaude(ups))
    ensures var out := RunClaude(ups); Told(p, ups, out.0, Blocks([], out.1), LogClaude(ups))
    decreases |ups|
  {
    if ups != [] {
      var before, up := ups[..|ups| - 1], ups[|ups| - 1];
      var a, log := RunClaude(before), LogClaude(before);
      assert before + [up] == ups;
      assert T.Paired(p, log) by {
        assert forall m :: 0 <= m < |log| ==> log[m] == LogClaude(ups)[m];
      }
      RunTold(p, before);
      RunShape(before);
      UpTold(p, before, a.0, Blocks([], a.1), log, up);
      FoldAppend(BlocksStep, [], a.1, ClaudeUp(a.0, up).1);
    }
  }

  /**
   * Up to the terminal event, for one-to-one pairings: the client's text is the upstream's, every
   * call the upstream mentions is exactly one tool block, at the index handed out at its first
   * event, with that event's identifier and name and exactly the arguments the decision table sends;
   * and there is no other tool block.
   */
  lemma {:induction false} ClaudeClientHolds(p: T.Pairing, ups: seq<Up>)
    requires UpToTerminal(ups) && T.Paired(p, LogClaude(ups))
    ensures var bs := Blocks([], RunClaude(ups).1);
            TextOf(bs) == Text(ups) && Conveyed(p, ups, LogClaude(ups), |bs|, ToolAt(bs))
  {
    RunTold(p, ups);
  }

  // ---- Chat Completions target ----

  function LogChat(ups: seq<Up>): seq<T.Op>
    requires Healthy(ups)
    decreases |ups|
  {
    if ups == [] then []
    else
      var before, up := ups[..|ups| - 1], ups[|ups| - 1];
      LogChat(before) + if TracksCall(up) then [OpOf(up, RunChat(before).0.nextIndex)] else []
  }

  function CallAt(calls: seq<Call>): Entries {
    i => if 0 <= i < |calls| then Some(calls[i]) else None
  }

  ghost predicate ToldChat(p: T.Pairing, ups: seq<Up>, st: State, c: ChatView, log: seq<T.Op>) {
    && c.ok && |c.calls| == st.nextIndex && st.tracker == T.Run(log).0
    && IndexesBelow(st.tracker.states, st.nextIndex)
    && Conveyed(p, ups, log, st.nextIndex, CallAt(c.calls))
    && c.text == Text(ups)
  }

  /** The one event, if any, that a tracked upstream event becomes. */
  function ChatEvents(up: Up, d: T.Decision, piece: string): seq<Event>
    requires TracksCall(up)
  {
    if d.first then [CallOpening(d.index, if up.UpItem? then up.callId else up.itemId, if up.UpItem? then up.name else "", piece)]
    else if up.UpArgs? || d.deliver then [CallArgs(d.index, piece)]
    else []
  }

  lemma ChatUpIs(st: State, up: Up)
    requires st.tracker.Valid() && TracksCall(up)
    ensures var op, out := OpOf(up, st.nextIndex), ChatUp(st, up);
            var (t, d) := T.Step(st.tracker, op);
            && out.0.tracker == t && out.0.nextIndex == (if d.first then st.nextIndex + 1 else st.nextIndex)
            && out.1 == ChatEvents(up, d, Piece(op, d))
  {
  }

  /** The client after a tracked event. */
  lemma ChatCallTold(c: ChatView, up: Up, d: T.Decision, piece: string)
    requires TracksCall(up) && c.ok && 0 <= d.index <= |c.calls| && (d.first <==> d.index == |c.calls|)
    requires up.UpArgs? || d.deliver || piece == ""
    ensures var c' := ReadChat(c, ChatEvents(up, d, piece));
            && c'.ok && c'.text == c.text && |c'.calls| == (if d.first then |c.calls| + 1 else |c.calls|)
            && Extends(CallAt(c.calls), CallAt(c'.calls), d, if up.UpItem? then up.callId else up.itemId,
                       if up.UpItem? then up.name else "", piece)
  {
    var es := ChatEvents(up, d, piece);
    if es != [] {
      FoldOne(ChatStep, c, es[0]);
    } else {
      NoPieceExtends(CallAt(c.calls), d, up.callId, up.name);
    }
  }

  lemma TrackedIndexes(t: T.Tracker, op: T.Op)
    requires t.Valid() && op.next >= 0 && IndexesBelow(t.states, op.next)
    ensures var (t', d) := T.Step(t, op);
            && 0 <= d.index <= op.next && (d.first <==> d.index == op.next)
            && IndexesBelow(t'.states, if d.first then op.next + 1 else op.next)
  {
    T.StepIs(t, op);
    ResolveIndexes(t, T.First(op), T.Second(op), op.next);
  }

  lemma ChatUpTold(p: T.Pairing, ups: seq<Up>, st: State, c: ChatView, log: seq<T.Op>, up: Up)
    requires ToldChat(p, ups, st, c, log) && st.tracker.Valid() && TracksCall(up) && T.Paired(p, log + [OpOf(up, st.nextIndex)])
    ensures var out := ChatUp(st, up); ToldChat(p, ups + [up], out.0, ReadChat(c, out.1), log + [OpOf(up, st.nextIndex)])
  {
    var op := OpOf(up, st.nextIndex);
    var d := T.Step(st.tracker, op).1;
    T.RunNext(log, op);
    TrackedIndexes(st.tracker, op);
    ChatUpIs(st, up);
    ChatCallTold(c, up, d, Piece(op, d));
    ConveyedNext(p, ups, log, st.nextIndex, CallAt(c.calls), up, CallAt(ReadChat(c, ChatUp(st, up).1).calls), d);
    TextNext(ups, up);
    assert Text(ups) + "" == Text(ups);
  }

  lemma NoPieceExtends(get: Entries, d: T.Decision, id: string, name: string)
    requires !d.first
    ensures Extends(get, get, d, id, name, "")
  {
    forall i | get(i).Some? ensures get(i).value.args + "" == get(i).value.args {
    }
  }

  /** Every other event leaves the calls alone. */
  lemma ChatQuiet(st: State, c: ChatView, up: Up)
    requires st.tracker.Valid() && !TracksCall(up) && !up.UpFailed?
    ensures var out := ChatUp(st, up);
            && out.0.tracker == st.tracker && out.0.nextIndex == st.nextIndex
            && ReadChat(c, out.1) == c.(text := c.text + if up.UpText? then up.delta else "")
  {
    var out := ChatUp(st, up);
    if out.1 != [] {
      FoldOne(ChatStep, c, out.1[0]);
      assert out.1 == [out.1[0]];
    }
    assert c.text + "" == c.text;
  }

  lemma ChatQuietTold(p: T.Pairing, ups: seq<Up>, st: State, c: ChatView, log: seq<T.Op>, up: Up)
    requires ToldChat(p, ups, st, c, log) && st.tracker.Valid() && !TracksCall(up) && !up.UpFailed?
    ensures var out := ChatUp(st, up); ToldChat(p, ups + [up], out.0, ReadChat(c, out.1), log)
  {
    var out := ChatUp(st, up);
    var c' := ReadChat(c, out.1);
    ChatQuiet(st, c, up);
    ConveyedQuiet(p, ups, log, st.nextIndex, CallAt(c.calls), up, st.nextIndex, CallAt(c'.calls));
    TextNext(ups, up);
    assert Text(ups) + "" == Text(ups);
  }

  lemma ChatTold(p: T.Pairing, ups: seq<Up>, st: State, c: ChatView, log: seq<T.Op>, up: Up)
    requires ToldChat(p, ups, st, c, log) && st.tracker.Valid() && !up.UpFailed?
    requires TracksCall(up) ==> T.Paired(p, log + [OpOf(up, st.nextIndex)])
    ensures var out := ChatUp(st, up);
            ToldChat(p, ups + [up], out.0, ReadChat(c, out.1), log + if TracksCall(up) then [OpOf(up, st.nextIndex)] else [])
  {
    if TracksCall(up) {
      ChatUpTold(p, ups, st, c, log, up);
    } else {
      assert log + [] == log;
      ChatQuietTold(p, ups, st, c, log, up);
    }
  }

  lemma {:induction false} RunChatTold(p: T.Pairing, ups: seq<Up>)
    requires Healthy(ups) && T.Paired(p, LogChat(ups))
    ensures var out := RunChat(ups); ToldChat(p, ups, out.0, ReadChat(NoChat, out.1), LogChat(ups))
    decreases |ups|
  {
    if ups != [] {
      var before, up := ups[..|ups| - 1], ups[|ups| - 1];
      var a, log := RunChat(before), LogChat(before);
      assert before + [up] == ups;
      assert T.Paired(p, log) by {
        assert forall m :: 0 <= m < |log| ==> log[m] == LogChat(ups)[m];
      }
      RunChatTold(p, before);
      ChatTold(p, before, a.0, ReadChat(NoChat, a.1), log, up);
      FoldAppend(ChatStep, NoChat, a.1, ChatUp(a.0, up).1);
    }
  }

  /**
   * For one-to-one pairings, to the end of the stream: calls open at 0, 1, 2, ..., every fragment
   * names an open call, the text is the upstream's, and entry and call correspond one to one as for
   * Messages.
   */
  lemma {:induction false} ChatClientHolds(p: T.Pairing, ups: seq<Up>)
    requires Healthy(ups) && T.Paired(p, LogChat(ups))
    ensures var c := ReadChat(NoChat, RunChat(ups).1);
            c.ok && c.text == Text(ups) && Conveyed(p, ups, LogChat(ups), |c.calls|, CallAt(c.calls))
  {
    RunChatTold(p, ups);
  }
}
