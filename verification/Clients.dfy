/**
 * What the far end of each protocol does with an event log. None of these mentions a
 * converter: they are the reference the converters are proved against.
 */
module Clients {
  import opened Wire
  import opened Folds

  // ---- Anthropic: the full event grammar ----
  //   message_start (start delta* stop)* message_delta message_stop
  // with blocks numbered 0, 1, 2, ... and every delta of the kind of the open block.

  datatype Phase = Idle | Between(next: int) | InBlock(current: int, kind: BlockKind) | Ended | Closed | Broken

  predicate Fits(kind: BlockKind, delta: Delta) {
    kind.TextKind? <==> delta.TextPart?
  }

  function GrammarStep(p: Phase, e: Event): Phase {
    match p
    case Idle => if e.MessageStart? then Between(0) else Broken
    case Between(n) =>
      if e.BlockStart? && e.index == n then InBlock(n, e.kind)
      else if e.MessageDelta? then Ended
      else Broken
    case InBlock(n, k) =>
      if e.BlockDelta? && e.index == n && Fits(k, e.delta) then p
      else if e.BlockStop? && e.index == n then Between(n + 1)
      else Broken
    case Ended => if e.MessageStop? then Closed else Broken
    case Closed => Broken
    case Broken => Broken
  }

  function Grammar(p: Phase, es: seq<Event>): Phase {
    Fold(GrammarStep, p, es)
  }

  predicate WellFormedMessage(es: seq<Event>) {
    Grammar(Idle, es) == Closed
  }

  // ---- Anthropic: block discipline only ----
  // Starts are 0, 1, 2, ... and only while nothing is open; a stop names the open block;
  // a text delta hits the open block; an argument delta hits a block already started;
  // nothing but message_stop may come before message_start; one message_start, one message_delta;
  // nothing comes after message_stop.

  datatype Monitor = Monitor(started: bool, next: int, open: Option<int>, deltas: nat, stopped: bool, ok: bool)

  const FreshMonitor := Monitor(false, 0, None, 0, false, true)

  function MonitorStep(m: Monitor, e: Event): Monitor {
    if m.stopped then m.(ok := false) else
    match e
    case MessageStart(_, _, _) => m.(started := true, ok := m.ok && !m.started)
    case BlockStart(i, _) =>
      m.(next := m.next + 1, open := Some(i), ok := m.ok && m.started && m.open.None? && i == m.next)
    case BlockStop(i) => m.(open := None, ok := m.ok && m.open == Some(i))
    case BlockDelta(i, d) =>
      m.(ok := m.ok && if d.TextPart? then m.open == Some(i) else 0 <= i < m.next)
    case MessageDelta(_, _) => m.(deltas := m.deltas + 1, ok := m.ok && m.started && m.open.None? && m.deltas == 0)
    case MessageStop => m.(stopped := true)
    case _ => m.(ok := false)
  }

  function Watch(m: Monitor, es: seq<Event>): Monitor {
    Fold(MonitorStep, m, es)
  }

  function Starts(es: seq<Event>, i: int): nat
    decreases |es|
  {
    if es == [] then 0
    else
      var e := es[|es| - 1];
      Starts(es[..|es| - 1], i) + if e.BlockStart? && e.index == i then 1 else 0
  }

  function Stops(es: seq<Event>, i: int): nat
    decreases |es|
  {
    if es == [] then 0
    else
      var e := es[|es| - 1];
      Stops(es[..|es| - 1], i) + if e.BlockStop? && e.index == i then 1 else 0
  }

  /** The blocks a monitor has seen: each started once, each stopped once except the open one. */
  predicate Counted(m: Monitor, starts: nat, stops: nat, i: int) {
    && starts == (if 0 <= i < m.next then 1 else 0)
    && stops == (if 0 <= i < m.next && m.open != Some(i) then 1 else 0)
  }

  /** A log the monitor accepts starts every index below `next` once and stops it once unless it is open. */
  lemma {:induction false} MonitorCounts(es: seq<Event>, i: int)
    requires Watch(FreshMonitor, es).ok
    ensures var m := Watch(FreshMonitor, es);
            && 0 <= m.next && (m.open.Some? ==> 0 <= m.open.value < m.next)
            && Counted(m, Starts(es, i), Stops(es, i), i)
    decreases |es|
  {
    if es != [] {
      FoldLast(MonitorStep, FreshMonitor, es);
      MonitorCounts(es[..|es| - 1], i);
    }
  }

  // ---- Anthropic: block contents as a client accumulates them, by block index ----

  datatype Block = TextBlock(text: string) | ToolBlock(id: string, name: string, json: string)

  function BlocksStep(bs: seq<Block>, e: Event): seq<Block> {
    match e
    case BlockStart(_, k) => bs + [if k.TextKind? then TextBlock("") else ToolBlock(k.id, k.name, "")]
    case BlockDelta(i, d) =>
      if !(0 <= i < |bs|) then bs
      else if bs[i].TextBlock? && d.TextPart? then bs[i := TextBlock(bs[i].text + d.text)]
      else if bs[i].ToolBlock? && d.JsonPart? then bs[i := bs[i].(json := bs[i].json + d.json)]
      else bs
    case _ => bs
  }

  function Blocks(bs: seq<Block>, es: seq<Event>): seq<Block> {
    Fold(BlocksStep, bs, es)
  }

  function BlockText(b: Block): string {
    if b.TextBlock? then b.text else ""
  }

  /** All text of the message, in block order. */
  function TextOf(bs: seq<Block>): string
    decreases |bs|
  {
    if bs == [] then "" else TextOf(bs[..|bs| - 1]) + BlockText(bs[|bs| - 1])
  }

  /** A tool call as a client ends up with it. */
  datatype Call = Call(id: string, name: string, args: string)

  /** The tool calls of the message, in block order. */
  function CallsOf(bs: seq<Block>): seq<Call>
    decreases |bs|
  {
    if bs == [] then [] else
    var b := bs[|bs| - 1];
    CallsOf(bs[..|bs| - 1]) + if b.ToolBlock? then [Call(b.id, b.name, b.json)] else []
  }

  // ---- Responses: output items as a client accumulates them, by output index ----

  datatype Items = Items(created: bool, items: seq<Item>, ok: bool)

  const NoItems := Items(false, [], true)

  /** `ok` drops as soon as an event refers to an item that was not announced as it should be. */
  function ItemsStep(c: Items, e: Event): Items {
    match e
    case Created(_) => c.(created := true, ok := c.ok && !c.created && c.items == [])
    case ItemAdded(i, item) => c.(items := c.items + [item], ok := c.ok && c.created && i == |c.items|)
    case TextDelta(id, i, t) =>
      if 0 <= i < |c.items| && c.items[i].MessageItem? && c.items[i].id == id
      then c.(items := c.items[i := c.items[i].(text := c.items[i].text + t)])
      else c.(ok := false)
    case ArgsDelta(id, i, t) =>
      if 0 <= i < |c.items| && c.items[i].CallItem? && c.items[i].callId == id
      then c.(items := c.items[i := c.items[i].(args := c.items[i].args + t)])
      else c.(ok := false)
    case Completed(_, _, _, _, _) => c.(ok := c.ok && c.created)
    case _ => c.(ok := false)
  }

  function Receive(c: Items, es: seq<Event>): Items {
    Fold(ItemsStep, c, es)
  }

  /** The text, and the calls, of an output array. */
  function ItemsText(items: seq<Item>): string
    decreases |items|
  {
    if items == [] then ""
    else (if items[0].MessageItem? then items[0].text else "") + ItemsText(items[1..])
  }

  function ItemsCalls(items: seq<Item>): seq<Call>
    decreases |items|
  {
    if items == [] then []
    else (if items[0].CallItem? then [Call(items[0].callId, items[0].name, items[0].args)] else []) + ItemsCalls(items[1..])
  }

  /** The absent-arguments policy applied to what was streamed. */
  function FinishItem(it: Item): Item {
    match it
    case MessageItem(_, _) => it
    case CallItem(id, name, args) => CallItem(id, name, DefaultArgs(args))
  }

  function FinishItems(items: seq<Item>): (r: seq<Item>) {
    seq(|items|, i requires 0 <= i < |items| => FinishItem(items[i]))
  }

  /** Every terminal payload equals what a client holds when it arrives. */
  predicate Truthful(c: Items, es: seq<Event>)
    decreases |es|
  {
    es == [] || (
      && (es[0].Completed? ==> es[0].output == FinishItems(c.items))
      && Truthful(ItemsStep(c, es[0]), es[1..])
    )
  }

  lemma {:induction false} TruthfulAppend(c: Items, a: seq<Event>, b: seq<Event>)
    ensures Truthful(c, a + b) <==> Truthful(c, a) && Truthful(Receive(c, a), b)
    decreases |a|
  {
    if a == [] {
      assert a + b == b;
    } else {
      assert (a + b)[1..] == a[1..] + b;
      TruthfulAppend(ItemsStep(c, a[0]), a[1..], b);
    }
  }

  /** The same, position by position. */
  lemma {:induction false} TruthfulAt(c: Items, es: seq<Event>, p: nat)
    requires Truthful(c, es) && p < |es| && es[p].Completed?
    ensures es[p].output == FinishItems(Receive(c, es[..p]).items)
    decreases p
  {
    if p > 0 {
      assert es[..p][1..] == es[1..][..p - 1];
      TruthfulAt(ItemsStep(c, es[0]), es[1..], p - 1);
    }
  }

  function Terminals(es: seq<Event>): nat
    decreases |es|
  {
    if es == [] then 0 else (if es[0].Completed? then 1 else 0) + Terminals(es[1..])
  }

  lemma {:induction false} TerminalsAppend(a: seq<Event>, b: seq<Event>)
    ensures Terminals(a + b) == Terminals(a) + Terminals(b)
    decreases |a|
  {
    if a == [] {
      assert a + b == b;
    } else {
      assert (a + b)[1..] == a[1..] + b;
      TerminalsAppend(a[1..], b);
    }
  }

  // ---- Chat Completions: text and calls as a client accumulates them ----

  datatype ChatView = ChatView(text: string, calls: seq<Call>, ok: bool)

  const NoChat := ChatView("", [], true)

  /** `ok` drops when a call is not opened at the next index, or arguments name no call. */
  function ChatStep(c: ChatView, e: Event): ChatView {
    match e
    case RoleChunk => c
    case ContentChunk(t) => c.(text := c.text + t)
    case CallOpening(i, id, name, t) => c.(calls := c.calls + [Call(id, name, t)], ok := c.ok && i == |c.calls|)
    case CallArgs(i, t) =>
      if 0 <= i < |c.calls| then c.(calls := c.calls[i := c.calls[i].(args := c.calls[i].args + t)]) else c.(ok := false)
    case FinishChunk(_, _) => c
    case _ => c.(ok := false)
  }

  function ReadChat(c: ChatView, es: seq<Event>): ChatView {
    Fold(ChatStep, c, es)
  }
}
