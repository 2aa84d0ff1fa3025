/**
 * Messages upstream, Chat Completions target: what one decoded event does, and what a client that
 * keys tool calls by their index ends up holding.
 */
module MessagesChat {
  import opened Wire
  import opened Folds
  import opened Clients
  import LF = LineFeed
  import opened MessagesConvert
  import opened MessagesStream

  // ---- one event ----

  /** A chunk, led by the role chunk the first time. */
  function Chunk(st: State, e: Event): (State, seq<Event>) {
    if st.roleSent then (st, [e]) else (st.(roleSent := true), [RoleChunk, e])
  }

  function RoleOnly(st: State): (State, seq<Event>) {
    if st.roleSent then (st, []) else (st.(roleSent := true), [RoleChunk])
  }

  function StartChatBlock(st: State, index: int, kind: string, id: string, name: string): State {
    if kind == "tool_use" then
      st.(blocks := Put(st.blocks, Blk(index, kind, id, name, 0, "", "", st.toolOrdinal, false)),
          toolOrdinal := st.toolOrdinal + 1, toolsSeen := true)
    else st.(blocks := Put(st.blocks, Blk(index, kind, id, name, 0, "", "", 0, false)))
  }

  /** The first fragment opens the call; later ones continue it. */
  function Fragment(b: Blk, json: string): Event {
    if b.told then CallArgs(b.ordinal, json) else CallOpening(b.ordinal, b.id, b.name, json)
  }

  function Told(st: State, index: int): State {
    var p := Get(st.blocks, index);
    if p.Some? then st.(blocks := st.blocks[p.value := st.blocks[p.value].(told := true)]) else st
  }

  function ChatJson(st: State, index: int, json: string): Outcome {
    var b := Found(st.blocks, index);
    if b.None? || b.value.kind != "tool_use" then LF.Feed(st, [], LF.Failed(Translation))
    else Proceed(Chunk(Told(st, index), Fragment(b.value, json)))
  }

  function ChatFinish(st: State, stop: string): Event {
    var u := TokensOf(Usage(st));
    FinishChunk(TerminalReason(st.toolsSeen, "tool_calls", ClaudeStopToFinish(stop)),
                ResponsesTokensFrom(u.input, st.completion, st.cacheRead, None, None))
  }

  function Counted(st: State, u: ClaudeUsage): State {
    CaptureCache(st.(prompt := if u.input != 0 then u.input else st.prompt, completion := u.output), u)
  }

  function DispatchChat(st: State, up: Up): Outcome {
    match up
    case UpStart(id, model, u) => Proceed(RoleOnly(CaptureCache(st.(msgId := id, model := model, prompt := u.input), u)))
    case UpBlock(index, kind, id, name) => Proceed((StartChatBlock(st, index, kind, id, name), []))
    case UpText(_, text) => Proceed(Chunk(st, ContentChunk(text)))
    case UpJson(index, json) => ChatJson(st, index, json)
    case UpMessage(stop, u) => Proceed((Counted(st, u), [ChatFinish(Counted(st, u), stop)]))
    case UpStop => LF.Feed(st, [], LF.Done)
    case UpError(failure) => LF.Feed(st, [], LF.Failed(failure))
    case UpOther => Proceed((st, []))
  }

  function RunChat(ups: seq<Up>): Outcome
    decreases |ups|
  {
    if ups == [] then LF.Feed(Fresh, [], LF.Open)
    else
      var f := RunChat(ups[..|ups| - 1]);
      if f.status.Open? then LF.Then(f, Noted(DispatchChat(f.state, ups[|ups| - 1]))) else f
  }

  lemma {:induction false} RunChatNext(ups: seq<Up>, up: Up)
    ensures RunChat(ups + [up]) ==
            if RunChat(ups).status.Open? then LF.Then(RunChat(ups), Noted(DispatchChat(RunChat(ups).state, up))) else RunChat(ups)
  {
    assert (ups + [up])[..|ups|] == ups;
  }

  // ---- the upstream on its own ----

  datatype Started = Started(index: int, id: string, name: string)

  /** The tool calls in the order they were started. */
  function Starts(ups: seq<Up>): seq<Started>
    decreases |ups|
  {
    if ups == [] then []
    else
      var up := ups[|ups| - 1];
      Starts(ups[..|ups| - 1]) + if up.UpBlock? && up.kind == "tool_use" then [Started(up.index, up.id, up.name)] else []
  }

  /** The call that argument fragments at an index belong to: the newest block there, if it is a call. */
  function Owner(ups: seq<Up>, index: int): Option<nat>
    decreases |ups|
  {
    if ups == [] then None
    else
      var before, up := ups[..|ups| - 1], ups[|ups| - 1];
      if up.UpBlock? && up.index == index then (if up.kind == "tool_use" then Some(|Starts(before)|) else None)
      else Owner(before, index)
  }

  predicate Feeds(before: seq<Up>, up: Up, k: int) {
    up.UpJson? && Owner(before, up.index).Some? && Owner(before, up.index).value == k
  }

  /** Whether any fragment, even an empty one, arrived for call `k`. */
  predicate Heard(ups: seq<Up>, k: int)
    decreases |ups|
  {
    ups != [] && (Heard(ups[..|ups| - 1], k) || Feeds(ups[..|ups| - 1], ups[|ups| - 1], k))
  }

  function ArgsOf(ups: seq<Up>, k: int): string
    decreases |ups|
  {
    if ups == [] then ""
    else
      var before, up := ups[..|ups| - 1], ups[|ups| - 1];
      ArgsOf(before, k) + if Feeds(before, up, k) then up.json else ""
  }

  function TextOf(ups: seq<Up>): string
    decreases |ups|
  {
    if ups == [] then ""
    else TextOf(ups[..|ups| - 1]) + if ups[|ups| - 1].UpText? then ups[|ups| - 1].text else ""
  }

  // ---- a client that keys calls by index ----

  datatype KeyedChat = KeyedChat(text: string, calls: map<int, Call>, ok: bool)

  /** `ok` drops when an index is opened twice, or arguments name no open call. */
  function KeyedStep(c: KeyedChat, e: Event): KeyedChat {
    match e
    case RoleChunk => c
    case ContentChunk(t) => c.(text := c.text + t)
    case CallOpening(i, id, name, t) => c.(calls := c.calls[i := Call(id, name, t)], ok := c.ok && i !in c.calls)
    case CallArgs(i, t) =>
      if i in c.calls then c.(calls := c.calls[i := c.calls[i].(args := c.calls[i].args + t)]) else c.(ok := false)
    case FinishChunk(_, _) => c
    case _ => c.(ok := false)
  }

  function ReadKeyed(es: seq<Event>): KeyedChat {
    Fold(KeyedStep, KeyedChat("", map[], true), es)
  }

  /** The text, and exactly the calls heard of, each with all its fragments. */
  ghost predicate Holds(ups: seq<Up>, c: KeyedChat) {
    && c.ok && c.text == TextOf(ups)
    && (forall k :: k in c.calls <==> 0 <= k < |Starts(ups)| && Heard(ups, k))
    && (forall k :: k in c.calls ==> c.calls[k] == Call(Starts(ups)[k].id, Starts(ups)[k].name, ArgsOf(ups, k)))
  }

  // ---- one more event, upstream ----

  lemma {:induction false} UpNext(ups: seq<Up>, up: Up)
    ensures Starts(ups + [up]) == Starts(ups) + (if up.UpBlock? && up.kind == "tool_use" then [Started(up.index, up.id, up.name)] else [])
    ensures TextOf(ups + [up]) == TextOf(ups) + if up.UpText? then up.text else ""
  {
    assert (ups + [up])[..|ups|] == ups;
  }

  lemma {:induction false} OwnerNext(ups: seq<Up>, up: Up, index: int)
    ensures Owner(ups + [up], index) ==
            if up.UpBlock? && up.index == index then (if up.kind == "tool_use" then Some(|Starts(ups)|) else None) else Owner(ups, index)
  {
    assert (ups + [up])[..|ups|] == ups;
  }

  lemma {:induction false} HeardNext(ups: seq<Up>, up: Up, k: int)
    ensures Heard(ups + [up], k) <==> Heard(ups, k) || Feeds(ups, up, k)
    ensures ArgsOf(ups + [up], k) == ArgsOf(ups, k) + if Feeds(ups, up, k) then up.json else ""
  {
    assert (ups + [up])[..|ups|] == ups;
  }

  lemma {:induction false} OwnerStarted(ups: seq<Up>, index: int)
    ensures var k := Owner(ups, index); k.Some? ==> k.value < |Starts(ups)| && Starts(ups)[k.value].index == index
    decreases |ups|
  {
    if ups != [] {
      OwnerStarted(ups[..|ups| - 1], index);
    }
  }

  /** Only started calls are heard of, and a call not heard of has no arguments. */
  lemma {:induction false} HeardStarted(ups: seq<Up>, k: int)
    ensures Heard(ups, k) ==> 0 <= k < |Starts(ups)|
    ensures !Heard(ups, k) ==> ArgsOf(ups, k) == ""
    decreases |ups|
  {
    if ups != [] {
      var before, up := ups[..|ups| - 1], ups[|ups| - 1];
      HeardStarted(before, k);
      if up.UpJson? {
        OwnerStarted(before, up.index);
      }
    }
  }

  // ---- the converter's table and the upstream ----

  predicate TiedAt(ups: seq<Up>, blocks: seq<Blk>, index: int) {
    var b, k := Found(blocks, index), Owner(ups, index);
    && (k.Some? <==> b.Some? && b.value.kind == "tool_use")
    && (k.Some? ==> && b.value.ordinal == k.value < |Starts(ups)|
                    && Starts(ups)[k.value] == Started(index, b.value.id, b.value.name)
                    && (b.value.told <==> Heard(ups, k.value)))
  }

  ghost predicate Tied(ups: seq<Up>, st: State) {
    && Sorted(st.blocks) && st.toolOrdinal == |Starts(ups)| && (st.toolsSeen <==> Starts(ups) != [])
    && forall i :: TiedAt(ups, st.blocks, i)
  }

  lemma QuietTied(ups: seq<Up>, up: Up, st: State, st': State)
    requires Tied(ups, st) && !up.UpBlock? && !up.UpJson?
    requires st'.blocks == st.blocks && st'.toolOrdinal == st.toolOrdinal && st'.toolsSeen == st.toolsSeen
    ensures Tied(ups + [up], st')
  {
    UpNext(ups, up);
    forall i ensures TiedAt(ups + [up], st'.blocks, i) {
      assert TiedAt(ups, st.blocks, i);
      OwnerNext(ups, up, i);
      if Owner(ups, i).Some? {
        HeardNext(ups, up, Owner(ups, i).value);
      }
    }
  }

  lemma BlockTiedAt(ups: seq<Up>, up: Up, st: State, index: int)
    requires Tied(ups, st) && up.UpBlock?
    ensures TiedAt(ups + [up], StartChatBlock(st, up.index, up.kind, up.id, up.name).blocks, index)
  {
    var tool := up.kind == "tool_use";
    var b := Blk(up.index, up.kind, up.id, up.name, 0, "", "", if tool then st.toolOrdinal else 0, false);
    assert TiedAt(ups, st.blocks, index);
    UpNext(ups, up);
    OwnerNext(ups, up, index);
    FoundPut(st.blocks, b, index);
    var k := Owner(ups + [up], index);
    if k.Some? {
      HeardNext(ups, up, k.value);
      HeardStarted(ups, |Starts(ups)|);
    }
  }

  lemma BlockTied(ups: seq<Up>, up: Up, st: State)
    requires Tied(ups, st) && up.UpBlock?
    ensures Tied(ups + [up], StartChatBlock(st, up.index, up.kind, up.id, up.name))
  {
    UpNext(ups, up);
    var b := Blk(up.index, up.kind, up.id, up.name, 0, "", "", if up.kind == "tool_use" then st.toolOrdinal else 0, false);
    PutIsSorted(st.blocks, b);
    forall i ensures TiedAt(ups + [up], StartChatBlock(st, up.index, up.kind, up.id, up.name).blocks, i) {
      BlockTiedAt(ups, up, st, i);
    }
  }

  /** Telling a client of a call changes that block and no other. */
  lemma FoundTold(st: State, index: int, i: int)
    requires Sorted(st.blocks) && Found(st.blocks, index).Some?
    ensures Sorted(Told(st, index).blocks)
    ensures Found(Told(st, index).blocks, i) ==
            if i == index then Some(Found(st.blocks, index).value.(told := true)) else Found(st.blocks, i)
  {
    var p := Get(st.blocks, index).value;
    var b := st.blocks[p].(told := true);
    assert Where(st.blocks, index) == p;
    assert Told(st, index).blocks == Put(st.blocks, b);
    FoundPut(st.blocks, b, i);
    PutIsSorted(st.blocks, b);
  }

  lemma {:induction false} JsonTied(ups: seq<Up>, up: Up, st: State)
    requires Tied(ups, st) && up.UpJson? && Owner(ups, up.index).Some?
    ensures Tied(ups + [up], Told(st, up.index))
  {
    UpNext(ups, up);
    assert TiedAt(ups, st.blocks, up.index);
    FoundTold(st, up.index, up.index);
    forall i ensures TiedAt(ups + [up], Told(st, up.index).blocks, i) {
      assert TiedAt(ups, st.blocks, i);
      FoundTold(st, up.index, i);
      OwnerNext(ups, up, i);
      if Owner(ups, i).Some? {
        HeardNext(ups, up, Owner(ups, i).value);
      }
    }
  }

  // ---- the client ----

  lemma ReadOne(es: seq<Event>, e: Event)
    ensures ReadKeyed(es + [e]) == KeyedStep(ReadKeyed(es), e)
  {
    FoldAppend(KeyedStep, KeyedChat("", map[], true), es, [e]);
    FoldOne(KeyedStep, ReadKeyed(es), e);
  }

  /** The role chunk, when it is sent, is not content. */
  lemma ReadChunk(es: seq<Event>, st: State, e: Event)
    ensures ReadKeyed(es + Chunk(st, e).1) == KeyedStep(ReadKeyed(es), e)
  {
    ReadOne(es, e);
    ReadOne(es, RoleChunk);
    ReadOne(es + [RoleChunk], e);
    assert es + [RoleChunk, e] == es + [RoleChunk] + [e];
  }

  lemma QuietArgs(ups: seq<Up>, up: Up, k: int)
    requires !up.UpJson?
    ensures Heard(ups + [up], k) == Heard(ups, k) && ArgsOf(ups + [up], k) == ArgsOf(ups, k)
  {
    HeardNext(ups, up, k);
    assert ArgsOf(ups, k) + "" == ArgsOf(ups, k);
  }

  lemma QuietHolds(ups: seq<Up>, up: Up, c: KeyedChat)
    requires Holds(ups, c) && !up.UpJson?
    ensures Holds(ups + [up], c.(text := c.text + if up.UpText? then up.text else ""))
  {
    UpNext(ups, up);
    forall k ensures Heard(ups + [up], k) == Heard(ups, k) && ArgsOf(ups + [up], k) == ArgsOf(ups, k) {
      QuietArgs(ups, up, k);
    }
    forall k ensures Heard(ups, k) ==> 0 <= k < |Starts(ups)| {
      HeardStarted(ups, k);
    }
  }

  /** A fragment extends its call, opening it first if need be. */
  lemma FragmentRead(c: KeyedChat, b: Blk, json: string, args: string)
    requires b.told <==> b.ordinal in c.calls
    requires if b.told then c.calls[b.ordinal] == Call(b.id, b.name, args) else args == ""
    ensures KeyedStep(c, Fragment(b, json)) == c.(calls := c.calls[b.ordinal := Call(b.id, b.name, args + json)])
  {
    assert "" + json == json;
  }

  lemma {:induction false} JsonHolds(ups: seq<Up>, up: Up, st: State, c: KeyedChat)
    requires Holds(ups, c) && Tied(ups, st) && up.UpJson? && Owner(ups, up.index).Some?
    ensures Found(st.blocks, up.index).Some? && Holds(ups + [up], KeyedStep(c, Fragment(Found(st.blocks, up.index).value, up.json)))
  {
    assert TiedAt(ups, st.blocks, up.index);
    var k := Owner(ups, up.index).value;
    UpNext(ups, up);
    HeardStarted(ups, k);
    HeardNext(ups, up, k);
    FragmentRead(c, Found(st.blocks, up.index).value, up.json, ArgsOf(ups, k));
    assert TextOf(ups) + "" == TextOf(ups) && Starts(ups) + [] == Starts(ups);
    forall i | i != k ensures Heard(ups + [up], i) == Heard(ups, i) && ArgsOf(ups + [up], i) == ArgsOf(ups, i) {
      HeardNext(ups, up, i);
      assert ArgsOf(ups, i) + "" == ArgsOf(ups, i);
    }
  }

  ghost predicate Kept(ups: seq<Up>, f: Outcome) {
    f.status.Open? ==> Tied(ups, f.state) && Holds(ups, ReadKeyed(f.events))
  }

  /** An event that is neither a block start nor arguments. */
  lemma QuietKept(ups: seq<Up>, up: Up, f: Outcome, o: Outcome)
    requires Tied(ups, f.state) && Holds(ups, ReadKeyed(f.events)) && !up.UpBlock? && !up.UpJson? && o == DispatchChat(f.state, up) && o.status.Open?
    ensures Tied(ups + [up], o.state) && Holds(ups + [up], ReadKeyed(f.events + o.events))
  {
    QuietTied(ups, up, f.state, o.state);
    QuietHolds(ups, up, ReadKeyed(f.events));
    QuietRead(up, f, o);
  }

  /** Only text adds to what the client holds. */
  lemma QuietRead(up: Up, f: Outcome, o: Outcome)
    requires !up.UpBlock? && !up.UpJson? && o == DispatchChat(f.state, up)
    ensures var c := ReadKeyed(f.events); ReadKeyed(f.events + o.events) == c.(text := c.text + if up.UpText? then up.text else "")
  {
    var c := ReadKeyed(f.events);
    assert c.text + "" == c.text && f.events + [] == f.events;
    match up
    case UpStart(_, _, _) => ReadOne(f.events, RoleChunk);
    case UpText(_, text) => ReadChunk(f.events, f.state, ContentChunk(text));
    case UpMessage(stop, u) => ReadOne(f.events, ChatFinish(Counted(f.state, u), stop));
    case _ =>
  }

  lemma BlockKept(ups: seq<Up>, up: Up, f: Outcome)
    requires Tied(ups, f.state) && Holds(ups, ReadKeyed(f.events)) && up.UpBlock?
    ensures var o := DispatchChat(f.state, up); Tied(ups + [up], o.state) && Holds(ups + [up], ReadKeyed(f.events + o.events))
  {
    BlockTied(ups, up, f.state);
    QuietHolds(ups, up, ReadKeyed(f.events));
    assert f.events + [] == f.events && ReadKeyed(f.events).text + "" == ReadKeyed(f.events).text;
  }

  lemma {:induction false} JsonKept(ups: seq<Up>, up: Up, f: Outcome)
    requires Tied(ups, f.state) && Holds(ups, ReadKeyed(f.events)) && up.UpJson?
    ensures var o := DispatchChat(f.state, up);
            && (o.status.Open? <==> Owner(ups, up.index).Some?) && (o.status.Failed? <==> Owner(ups, up.index).None?)
            && (o.status.Open? ==> Tied(ups + [up], o.state) && Holds(ups + [up], ReadKeyed(f.events + o.events)))
  {
    assert TiedAt(ups, f.state.blocks, up.index);
    if Owner(ups, up.index).Some? {
      var told := Told(f.state, up.index);
      JsonTied(ups, up, f.state);
      JsonHolds(ups, up, f.state, ReadKeyed(f.events));
      ReadChunk(f.events, told, Fragment(Found(f.state.blocks, up.index).value, up.json));
      RoleIsAside(ups + [up], told, Chunk(told, RoleChunk).0);
    }
  }

  lemma RoleIsAside(ups: seq<Up>, st: State, st': State)
    requires Tied(ups, st) && st'.blocks == st.blocks && st'.toolOrdinal == st.toolOrdinal && st'.toolsSeen == st.toolsSeen
    ensures Tied(ups, st')
  {
  }

  lemma EmittedIsAside(ups: seq<Up>, f: Outcome, o: Outcome)
    requires f.status.Open? && (o.status.Open? ==> Tied(ups, o.state) && Holds(ups, ReadKeyed(f.events + o.events)))
    ensures Kept(ups, LF.Then(f, Noted(o)))
  {
    if o.status.Open? {
      RoleIsAside(ups, o.state, Noted(o).state);
    }
  }

  lemma {:induction false} RunKept(ups: seq<Up>)
    ensures Kept(ups, RunChat(ups))
    decreases |ups|
  {
    if ups == [] {
      forall i ensures TiedAt([], Fresh.blocks, i) {
      }
    } else {
      var before, up := ups[..|ups| - 1], ups[|ups| - 1];
      RunKept(before);
      Last(ups);
      var f := RunChat(before);
      if f.status.Open? {
        var o := DispatchChat(f.state, up);
        if up.UpBlock? {
          BlockKept(before, up, f);
        } else if up.UpJson? {
          JsonKept(before, up, f);
        } else if o.status.Open? {
          QuietKept(before, up, f, o);
        }
        EmittedIsAside(ups, f, o);
      }
    }
  }

  // ---- main results ----

  /**
   * Every stream: a client that keys calls by index holds the text, and exactly those tool calls for
   * which a fragment arrived, with their identity and all their fragments in order.
   */
  lemma {:induction false} ChatClientHolds(ups: seq<Up>)
    requires RunChat(ups).status.Open?
    ensures Holds(ups, ReadKeyed(RunChat(ups).events))
  {
    RunKept(ups);
  }

  /** The event that ends a stream emits nothing, so the client holds what it held. */
  lemma {:induction false} EndIsQuiet(ups: seq<Up>, up: Up)
    requires RunChat(ups).status.Open? && !RunChat(ups + [up]).status.Open?
    ensures RunChat(ups + [up]).events == RunChat(ups).events
  {
    RunChatNext(ups, up);
    assert RunChat(ups).events + [] == RunChat(ups).events;
  }

  predicate Carries(ups: seq<Up>, calls: map<int, Call>, k: nat)
    requires k < |Starts(ups)|
  {
    k in calls && calls[k] == Call(Starts(ups)[k].id, Starts(ups)[k].name, ArgsOf(ups, k))
  }

  predicate AllCarried(ups: seq<Up>, calls: map<int, Call>) {
    forall k :: 0 <= k < |Starts(ups)| ==> Carries(ups, calls, k)
  }

  predicate AllHeard(ups: seq<Up>) {
    forall k :: 0 <= k < |Starts(ups)| ==> Heard(ups, k)
  }

  /** No call is lost exactly when each started call had at least one fragment. */
  lemma {:induction false} NoCallLostIff(ups: seq<Up>)
    requires RunChat(ups).status.Open?
    ensures AllCarried(ups, ReadKeyed(RunChat(ups).events).calls) <==> AllHeard(ups)
  {
    ChatClientHolds(ups);
    var calls := ReadKeyed(RunChat(ups).events).calls;
    if AllCarried(ups, calls) {
      forall k | 0 <= k < |Starts(ups)| ensures Heard(ups, k) {
        assert Carries(ups, calls, k);
      }
    }
  }

  /** A call without fragments is lost, though the finish reason still announces tool calls. */
  lemma SilentCallIsLost(u: ClaudeUsage)
    ensures var ups := [UpBlock(0, "tool_use", "a", "f"), UpMessage("tool_use", u)];
            && RunChat(ups).status.Open? && Starts(ups) == [Started(0, "a", "f")]
            && ReadKeyed(RunChat(ups).events).calls == map[]
            && |RunChat(ups).events| == 1 && RunChat(ups).events[0].FinishChunk? && RunChat(ups).events[0].reason == "tool_calls"
  {
    var x, y := UpBlock(0, "tool_use", "a", "f"), UpMessage("tool_use", u);
    assert [] + [x] == [x] && [x] + [y] == [x, y];
    RunChatNext([], x);
    RunChatNext([x], y);
    UpNext([], x);
    UpNext([x], y);
    var f := RunChat([x, y]);
    assert RunChat([x]).events == [] && f.events == [] + [ChatFinish(Counted(RunChat([x]).state, u), "tool_use")];
    ReadOne([], f.events[0]);
  }

  /** Arguments fail the stream exactly when the newest block at their index is not a tool call. */
  lemma {:induction false} ArgumentsNeedACall(ups: seq<Up>, index: int, json: string)
    requires RunChat(ups).status.Open?
    ensures RunChat(ups + [UpJson(index, json)]).status == if Owner(ups, index).Some? then LF.Open else LF.Failed(Translation)
  {
    RunKept(ups);
    RunChatNext(ups, UpJson(index, json));
    assert TiedAt(ups, RunChat(ups).state.blocks, index);
  }

  /** Any started call outranks the upstream's own stop reason. */
  lemma {:induction false} FinishTellsOfCalls(ups: seq<Up>, stop: string, u: ClaudeUsage)
    requires RunChat(ups).status.Open?
    ensures var f := RunChat(ups + [UpMessage(stop, u)]);
            && |f.events| == |RunChat(ups).events| + 1 && f.events[..|RunChat(ups).events|] == RunChat(ups).events
            && f.events[|RunChat(ups).events|].FinishChunk?
            && f.events[|RunChat(ups).events|].reason == if Starts(ups) != [] then "tool_calls" else ClaudeStopToFinish(stop)
  {
    RunKept(ups);
    RunChatNext(ups, UpMessage(stop, u));
  }

  /** `sent`: the role chunk has been seen; `ok`: once only, and before any content or call. */
  datatype Led = Led(sent: bool, ok: bool)

  function LedStep(l: Led, e: Event): Led {
    match e
    case RoleChunk => Led(true, l.ok && !l.sent)
    case FinishChunk(_, _) => l
    case _ => Led(l.sent, l.ok && l.sent)
  }

  lemma LedNext(st: State, up: Up)
    ensures var o := DispatchChat(st, up); Fold(LedStep, Led(st.roleSent, true), o.events) == Led(o.state.roleSent, true)
  {
    match up
    case UpStart(id, model, u) =>
      if !st.roleSent {
        FoldOne(LedStep, Led(false, true), RoleChunk);
      }
    case UpText(_, text) => ChunkLed(st, ContentChunk(text));
    case UpJson(index, json) =>
      if ChatJson(st, index, json).status.Open? {
        ChunkLed(Told(st, index), Fragment(Found(st.blocks, index).value, json));
      }
    case UpMessage(stop, u) => FoldOne(LedStep, Led(st.roleSent, true), ChatFinish(Counted(st, u), stop));
    case _ =>
  }

  /** A chunk is led by the role chunk, sent now or before. */
  lemma ChunkLed(st: State, e: Event)
    requires e.ContentChunk? || e.CallOpening? || e.CallArgs?
    ensures Fold(LedStep, Led(st.roleSent, true), Chunk(st, e).1) == Led(true, true) && Chunk(st, e).0.roleSent
  {
    FoldOne(LedStep, Led(true, true), e);
    if !st.roleSent {
      assert [RoleChunk, e] == [RoleChunk] + [e];
      FoldAppend(LedStep, Led(false, true), [RoleChunk], [e]);
      FoldOne(LedStep, Led(false, true), RoleChunk);
    }
  }

  /** The role chunk comes at most once, and before any content or call. */
  lemma {:induction false} RoleLeads(ups: seq<Up>)
    ensures Fold(LedStep, Led(false, true), RunChat(ups).events) == Led(RunChat(ups).state.roleSent, true)
    decreases |ups|
  {
    if ups != [] {
      var before, up := ups[..|ups| - 1], ups[|ups| - 1];
      RoleLeads(before);
      Last(ups);
      RunChatNext(before, up);
      var f := RunChat(before);
      if f.status.Open? {
        LedNext(f.state, up);
        FoldAppend(LedStep, Led(false, true), f.events, DispatchChat(f.state, up).events);
      }
    }
  }
}
