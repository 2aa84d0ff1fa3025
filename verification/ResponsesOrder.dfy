/**
 * Responses to Messages: the content a client is streamed stands in the order the upstream spoke, and
 * is the content of the non-streaming conversion of the final response exactly when no call's
 * arguments went out twice or not at all.
 */
module ResponsesOrder {
  import opened Wire
  import opened Folds
  import opened Clients
  import T = ToolTracker
  import opened ResponsesStream
  import opened ResponsesClaude
  import opened ResponsesContents
  import M = MessagesConvert
  import V = ResponsesConvert

  // ---- what the upstream said, in order ----

  /** Text between calls, or the first mention of a call. */
  datatype Mark = Spoken(text: string) | Called(k: int)

  predicate EndsSpoken(ms: seq<Mark>) {
    ms != [] && ms[|ms| - 1].Spoken?
  }

  function Marked(p: T.Pairing, ms: seq<Mark>, up: Up): seq<Mark> {
    if up.UpText? then
      if EndsSpoken(ms) then ms[..|ms| - 1] + [Spoken(ms[|ms| - 1].text + up.delta)] else ms + [Spoken(up.delta)]
    else if TracksCall(up) && Called(p.owner(up.itemId)) !in ms then ms + [Called(p.owner(up.itemId))]
    else ms
  }

  function Marks(p: T.Pairing, ups: seq<Up>): seq<Mark>
    decreases |ups|
  {
    if ups == [] then [] else Marked(p, Marks(p, ups[..|ups| - 1]), ups[|ups| - 1])
  }

  // ---- blocks follow the marks ----

  ghost predicate IndexedBy(p: T.Pairing, log: seq<T.Op>, ms: seq<Mark>) {
    && (forall i :: 0 <= i < |ms| && ms[i].Called? ==> T.IndexOf(p, log, ms[i].k) == Some(i))
    && (forall k :: T.IndexOf(p, log, k).Some? ==> 0 <= T.IndexOf(p, log, k).value < |ms| && ms[T.IndexOf(p, log, k).value] == Called(k))
  }

  predicate TextsShown(ms: seq<Mark>, bs: seq<Block>) {
    |bs| == |ms| && forall i :: 0 <= i < |ms| && ms[i].Spoken? ==> bs[i] == TextBlock(ms[i].text)
  }

  /** The open text block is the newest block, and the newest mark is text. */
  predicate TextIsLast(ms: seq<Mark>, textOpen: bool, textIndex: int) {
    (textOpen <==> EndsSpoken(ms)) && (textOpen ==> textIndex == |ms| - 1)
  }

  ghost predicate Ordered(p: T.Pairing, st: State, bs: seq<Block>, log: seq<T.Op>, ms: seq<Mark>) {
    && |bs| == st.nextIndex && st.tracker == T.Run(log).0
    && IndexedBy(p, log, ms) && TextsShown(ms, bs) && TextIsLast(ms, st.textOpen, st.textIndex)
  }

  lemma TextBlocksAre(bs: seq<Block>, st: State, delta: string)
    requires |bs| == st.nextIndex && (st.textOpen ==> TextAt(st, bs))
    ensures var out := ClaudeText(st, delta);
            && Blocks(bs, out.1) == (if st.textOpen then bs[st.textIndex := TextBlock(bs[st.textIndex].text + delta)] else bs + [TextBlock(delta)])
            && out.0.textOpen && out.0.textIndex == (if st.textOpen then st.textIndex else |bs|)
            && out.0.nextIndex == (if st.textOpen then |bs| else |bs| + 1) && out.0.tracker == st.tracker
  {
    var a := OpenText(st);
    var e := BlockDelta(a.0.textIndex, TextPart(delta));
    FoldAppend(BlocksStep, bs, a.1, [e]);
    FoldOne(BlocksStep, Blocks(bs, a.1), e);
    if !st.textOpen {
      StartedBlocks(bs, st, st.nextIndex, TextKind);
      assert "" + delta == delta;
    }
  }

  /** A delta extends the newest mark if that is text, and adds one otherwise; so do the blocks. */
  lemma TextMarked(p: T.Pairing, log: seq<T.Op>, ms: seq<Mark>, bs: seq<Block>, up: Up)
    requires IndexedBy(p, log, ms) && TextsShown(ms, bs) && up.UpText?
    ensures var ms', n := Marked(p, ms, up), |ms| - 1;
            && |ms'| == (if EndsSpoken(ms) then |ms| else |ms| + 1) && EndsSpoken(ms') && IndexedBy(p, log, ms')
            && TextsShown(ms', if EndsSpoken(ms) then bs[n := TextBlock(bs[n].text + up.delta)] else bs + [TextBlock(up.delta)])
  {
  }

  lemma TextOrdered(p: T.Pairing, st: State, bs: seq<Block>, log: seq<T.Op>, ms: seq<Mark>, up: Up)
    requires Ordered(p, st, bs, log, ms) && up.UpText?
    ensures var out := ClaudeText(st, up.delta); Ordered(p, out.0, Blocks(bs, out.1), log, Marked(p, ms, up))
  {
    TextBlocksAre(bs, st, up.delta);
    TextMarked(p, log, ms, bs, up);
  }

  lemma CalledIffKnown(p: T.Pairing, log: seq<T.Op>, ms: seq<Mark>, k: int)
    requires IndexedBy(p, log, ms)
    ensures Called(k) in ms <==> T.IndexOf(p, log, k).Some?
  {
  }

  lemma IndexedNext(p: T.Pairing, log: seq<T.Op>, ms: seq<Mark>, op: T.Op)
    requires IndexedBy(p, log, ms) && op.next == |ms|
    ensures IndexedBy(p, log + [op], if Called(T.Key(p, op)) in ms then ms else ms + [Called(T.Key(p, op))])
  {
    CalledIffKnown(p, log, ms, T.Key(p, op));
    forall k ensures T.IndexOf(p, log + [op], k) ==
      if T.IndexOf(p, log, k).None? && T.Key(p, op) == k then Some(op.next) else T.IndexOf(p, log, k)
    {
      T.LogNext(p, log, op, k);
    }
  }

  /** The blocks and the open text after a tracked event. */
  lemma CallKeepsTexts(st: State, bs: seq<Block>, ms: seq<Mark>, d: T.Decision, id: string, name: string, part: Option<string>, k: int)
    requires TextsShown(ms, bs) && TextIsLast(ms, st.textOpen, st.textIndex) && (d.first ==> d.index == |bs|)
    requires Layout(st.textIndex, st.textOpen, |bs|, st.openBlocks)
    ensures var ms' := if d.first then ms + [Called(k)] else ms;
            var out := ClaudeCall(st.(nextIndex := |ms'|), d, id, name, part);
            TextsShown(ms', Blocks(bs, out.1)) && TextIsLast(ms', out.0.textOpen, out.0.textIndex)
  {
    var ms' := if d.first then ms + [Called(k)] else ms;
    CallTold(bs, st.(nextIndex := |ms'|), d, id, name, part);
  }

  lemma FirstIfUnmarked(p: T.Pairing, t: T.Tracker, log: seq<T.Op>, ms: seq<Mark>, op: T.Op)
    requires IndexedBy(p, log, ms) && t == T.Run(log).0 && T.Paired(p, log + [op])
    ensures var (t', d) := T.Step(t, op);
            t' == T.Run(log + [op]).0 && (d.first <==> Called(T.Key(p, op)) !in ms)
  {
    T.RunNext(log, op);
    T.DecisionsAreExpected(p, log + [op], |log|);
    assert (log + [op])[..|log|] == log;
    CalledIffKnown(p, log, ms, T.Key(p, op));
  }

  lemma CallOrdered(p: T.Pairing, st: State, bs: seq<Block>, log: seq<T.Op>, ms: seq<Mark>, up: Up, st0: State)
    requires Ordered(p, st, bs, log, ms) && Shape(st) && TracksCall(up) && T.Paired(p, log + [OpOf(up, st.nextIndex)])
    requires st0 == st || st0 == st.(toolCallsSeen := true)
    ensures var op := OpOf(up, st.nextIndex);
            var (st1, d) := Track(st0, op);
            var id, name := if up.UpItem? then up.callId else up.itemId, if up.UpItem? then up.name else "";
            var part := if up.UpArgs? then Some(up.delta) else if d.deliver then Some(up.args) else None;
            var out := ClaudeCall(st1, d, id, name, part);
            Ordered(p, out.0, Blocks(bs, out.1), log + [op], Marked(p, ms, up))
  {
    var op := OpOf(up, st.nextIndex);
    var (st1, d) := Track(st0, op);
    var id, name := if up.UpItem? then up.callId else up.itemId, if up.UpItem? then up.name else "";
    var part := if up.UpArgs? then Some(up.delta) else if d.deliver then Some(up.args) else None;
    var k := T.Key(p, op);
    FirstIfUnmarked(p, st.tracker, log, ms, op);
    TrackIndexes(st0, op);
    IndexedNext(p, log, ms, op);
    CallKeepsTexts(st1, bs, ms, d, id, name, part, k);
  }

  lemma UpOrdered(p: T.Pairing, st: State, bs: seq<Block>, log: seq<T.Op>, ms: seq<Mark>, up: Up)
    requires Ordered(p, st, bs, log, ms) && Shape(st) && !up.UpFailed?
    requires TracksCall(up) ==> T.Paired(p, log + [OpOf(up, st.nextIndex)])
    ensures var out := ClaudeUp(st, up);
            Ordered(p, out.0, Blocks(bs, out.1), log + (if TracksCall(up) then [OpOf(up, st.nextIndex)] else []), Marked(p, ms, up))
  {
    var out := ClaudeUp(st, up);
    if TracksCall(up) {
      CallOrdered(p, st, bs, log, ms, up, if up.UpItem? then st.(toolCallsSeen := true) else st);
    } else {
      assert log + [] == log;
      if up.UpText? {
        TextOrdered(p, st, bs, log, ms, up);
      } else {
        SilentEvents(bs, out.1);
      }
    }
  }

  lemma {:induction false} RunOrdered(p: T.Pairing, ups: seq<Up>)
    requires UpToTerminal(ups) && T.Paired(p, LogClaude(ups))
    ensures var out := RunClaude(ups); Ordered(p, out.0, Blocks([], out.1), LogClaude(ups), Marks(p, ups))
    decreases |ups|
  {
    if ups != [] {
      var before, up := ups[..|ups| - 1], ups[|ups| - 1];
      var a, log := RunClaude(before), LogClaude(before);
      assert T.Paired(p, log) by {
        assert forall m :: 0 <= m < |log| ==> log[m] == LogClaude(ups)[m];
      }
      RunOrdered(p, before);
      RunShape(before);
      UpOrdered(p, a.0, Blocks([], a.1), log, Marks(p, before), up);
      FoldAppend(BlocksStep, [], a.1, ClaudeUp(a.0, up).1);
    }
  }

  // ---- pieces of content ----

  datatype Piece<A> = SaidText(text: string) | MadeCall(id: string, name: string, args: A)

  /** The piece a mark stands for, `calls(k)` being call `k`. */
  function PieceOf(calls: int -> Call, m: Mark): Piece<string> {
    match m
    case Spoken(t) => SaidText(t)
    case Called(k) => MadeCall(calls(k).id, calls(k).name, calls(k).args)
  }

  /** What an upstream says whose calls are `calls`. */
  function PiecesSaid(p: T.Pairing, ups: seq<Up>, calls: int -> Call): seq<Piece<string>> {
    var ms := Marks(p, ups);
    seq(|ms|, i requires 0 <= i < |ms| => PieceOf(calls, ms[i]))
  }

  /** A client's blocks as pieces. */
  function Held(b: Block): Piece<string> {
    match b
    case TextBlock(t) => SaidText(t)
    case ToolBlock(id, name, json) => MadeCall(id, name, json)
  }

  function AllHeld(bs: seq<Block>): seq<Piece<string>> {
    seq(|bs|, i requires 0 <= i < |bs| => Held(bs[i]))
  }

  /** Each call as it was announced, with the arguments that were sent for it. */
  function SentFor(p: T.Pairing, ups: seq<Up>): int -> Call
    requires Healthy(ups)
  {
    k =>
      var head := Head(p, ups, k);
      var args := T.Sent(p, LogClaude(ups), T.Run(LogClaude(ups)).1, k);
      if head.Some? then Call(head.value.0, head.value.1, args) else Call("", "", args)
  }

  /**
   * Up to the terminal event, for one-to-one pairings: the client's blocks, in order, are the runs of
   * text and the calls of the upstream in the order they were first heard of, each call as its first
   * event announced it and with the arguments that were sent for it.
   */
  lemma {:induction false} BlocksInOrder(p: T.Pairing, ups: seq<Up>)
    requires UpToTerminal(ups) && T.Paired(p, LogClaude(ups))
    ensures AllHeld(Blocks([], RunClaude(ups).1)) == PiecesSaid(p, ups, SentFor(p, ups))
  {
    RunOrdered(p, ups);
    ClaudeClientHolds(p, ups);
    var bs, ms, log := Blocks([], RunClaude(ups).1), Marks(p, ups), LogClaude(ups);
    forall i | 0 <= i < |bs| ensures Held(bs[i]) == PieceOf(SentFor(p, ups), ms[i]) {
      if ms[i].Called? {
        assert Tied(p, ups, log, |bs|, ToolAt(bs), ms[i].k);
      }
    }
  }

  // ---- joining text ----

  /** Adds a piece, joining adjacent text and leaving out empty text. */
  function Say<A>(ps: seq<Piece<A>>, x: Piece<A>): seq<Piece<A>> {
    if x.MadeCall? then ps + [x]
    else if x.text == "" then ps
    else if ps != [] && ps[|ps| - 1].SaidText? then ps[..|ps| - 1] + [SaidText(ps[|ps| - 1].text + x.text)]
    else ps + [x]
  }

  function Joined<A>(ps: seq<Piece<A>>): seq<Piece<A>>
    decreases |ps|
  {
    if ps == [] then [] else Say(Joined(ps[..|ps| - 1]), ps[|ps| - 1])
  }

  predicate SameKind<A, B>(x: Piece<A>, y: Piece<B>) {
    if x.SaidText? then y.SaidText? && x.text == y.text else y.MadeCall?
  }

  predicate Outlined<A, B>(a: seq<Piece<A>>, b: seq<Piece<B>>) {
    |a| == |b| && forall i :: 0 <= i < |a| ==> SameKind(a[i], b[i])
  }

  lemma SayOutlined<A, B>(a: seq<Piece<A>>, b: seq<Piece<B>>, x: Piece<A>, y: Piece<B>)
    requires Outlined(a, b) && SameKind(x, y)
    ensures Outlined(Say(a, x), Say(b, y))
  {
  }

  lemma SnocInjective<A>(a: seq<A>, b: seq<A>, x: A, y: A)
    requires |a| == |b| && a + [x] == b + [y]
    ensures a == b && x == y
  {
    assert (a + [x])[..|a|] == a && (b + [y])[..|b|] == b;
    assert (a + [x])[|a|] == x && (b + [y])[|b|] == y;
  }

  lemma SayInjective<A>(a: seq<Piece<A>>, b: seq<Piece<A>>, x: Piece<A>, y: Piece<A>)
    requires Outlined(a, b) && SameKind(x, y)
    ensures Say(a, x) == Say(b, y) <==> a == b && x == y
  {
    if Say(a, x) == Say(b, y) {
      if x.SaidText? && x.text != "" && a != [] && a[|a| - 1].SaidText? {
        SnocInjective(a[..|a| - 1], b[..|b| - 1], SaidText(a[|a| - 1].text + x.text), SaidText(b[|b| - 1].text + y.text));
        Last(a);
        Last(b);
      } else if x.MadeCall? || x.text != "" {
        SnocInjective(a, b, x, y);
      }
    }
  }

  /** Pieces that differ in their calls still differ when text is joined. */
  lemma {:induction false} JoinedEqualIff<A>(a: seq<Piece<A>>, b: seq<Piece<A>>)
    requires Outlined(a, b)
    ensures Outlined(Joined(a), Joined(b)) && (Joined(a) == Joined(b) <==> a == b)
    decreases |a|
  {
    if a != [] {
      var n := |a| - 1;
      JoinedEqualIff(a[..n], b[..n]);
      SayOutlined(Joined(a[..n]), Joined(b[..n]), a[n], b[n]);
      SayInjective(Joined(a[..n]), Joined(b[..n]), a[n], b[n]);
      Last(a);
      Last(b);
    }
  }

  // ---- the non-streaming conversion ----

  function ItemPieces(it: V.OutputItem): seq<Piece<string>> {
    if it.kind == "message" then TextPieces(it.parts)
    else if it.kind == "function_call" then [MadeCall(it.callId, it.name, it.args)]
    else []
  }

  function TextPieces(parts: seq<V.Part>): seq<Piece<string>>
    decreases |parts|
  {
    if parts == [] then []
    else
      var x := parts[|parts| - 1];
      TextPieces(parts[..|parts| - 1]) + if x.kind == "output_text" && x.text != "" then [SaidText(x.text)] else []
  }

  /** What a final response says: its texts and calls in order. */
  function ResponsePieces(items: seq<V.OutputItem>): seq<Piece<string>>
    decreases |items|
  {
    if items == [] then [] else ResponsePieces(items[..|items| - 1]) + ItemPieces(items[|items| - 1])
  }

  function Decoded<J>(j: M.Json<J>, x: Piece<string>): Piece<J> {
    match x
    case SaidText(t) => SaidText(t)
    case MadeCall(id, name, args) => MadeCall(id, name, V.NormalInput(j, args))
  }

  function AllDecoded<J>(j: M.Json<J>, ps: seq<Piece<string>>): seq<Piece<J>> {
    seq(|ps|, i requires 0 <= i < |ps| => Decoded(j, ps[i]))
  }

  function Shown<J>(b: V.OutBlock<J>): Piece<J> {
    match b
    case OutText(t) => SaidText(t)
    case OutTool(id, name, input) => MadeCall(id, name, input)
  }

  function AllShown<J>(bs: seq<V.OutBlock<J>>): seq<Piece<J>> {
    seq(|bs|, i requires 0 <= i < |bs| => Shown(bs[i]))
  }

  lemma ShownAppend<J>(a: seq<V.OutBlock<J>>, b: seq<V.OutBlock<J>>)
    ensures AllShown(a + b) == AllShown(a) + AllShown(b)
  {
  }

  lemma DecodedAppend<J>(j: M.Json<J>, a: seq<Piece<string>>, b: seq<Piece<string>>)
    ensures AllDecoded(j, a + b) == AllDecoded(j, a) + AllDecoded(j, b)
  {
  }

  lemma {:induction false} PartsShown<J>(j: M.Json<J>, parts: seq<V.Part>)
    ensures AllShown(V.TextBlocks<J>(parts)) == AllDecoded(j, TextPieces(parts))
    decreases |parts|
  {
    if parts != [] {
      var n := |parts| - 1;
      var x := parts[n];
      PartsShown(j, parts[..n]);
      var more: seq<V.OutBlock<J>> := if x.kind == "output_text" && x.text != "" then [V.OutText(x.text)] else [];
      ShownAppend(V.TextBlocks<J>(parts[..n]), more);
      DecodedAppend(j, TextPieces(parts[..n]), if more != [] then [SaidText(x.text)] else []);
    }
  }

  lemma ItemShown<J>(j: M.Json<J>, it: V.OutputItem)
    requires V.Representable(j, it)
    ensures AllShown(V.BlocksOf(j, it)) == AllDecoded(j, ItemPieces(it))
  {
    PartsShown(j, it.parts);
  }

  /** The non-streaming content is what the response says, decoded. */
  lemma {:induction false} ContentShown<J>(j: M.Json<J>, items: seq<V.OutputItem>)
    requires V.AllRepresentable(j, items)
    ensures AllShown(V.ContentOf(j, items)) == AllDecoded(j, ResponsePieces(items))
    decreases |items|
  {
    if items != [] {
      var n := |items| - 1;
      ContentShown(j, items[..n]);
      ItemShown(j, items[n]);
      ShownAppend(V.ContentOf(j, items[..n]), V.BlocksOf(j, items[n]));
      DecodedAppend(j, ResponsePieces(items[..n]), ItemPieces(items[n]));
    }
  }

  lemma SayDecoded<J>(j: M.Json<J>, ps: seq<Piece<string>>, x: Piece<string>)
    ensures Say(AllDecoded(j, ps), Decoded(j, x)) == AllDecoded(j, Say(ps, x))
  {
  }

  lemma {:induction false} JoinedDecoded<J>(j: M.Json<J>, ps: seq<Piece<string>>)
    ensures Joined(AllDecoded(j, ps)) == AllDecoded(j, Joined(ps))
    decreases |ps|
  {
    if ps != [] {
      var n := |ps| - 1;
      JoinedDecoded(j, ps[..n]);
      assert AllDecoded(j, ps)[..n] == AllDecoded(j, ps[..n]);
      SayDecoded(j, Joined(ps[..n]), ps[n]);
    }
  }

  // ---- streaming against non-streaming ----

  /**
   * What the upstream says of a call is `call`: its first item event, if it has one, carries that
   * identifier and name, and its complete arguments, and fragments if they carry text, spell those
   * arguments.
   */
  predicate Spelled(p: T.Pairing, ups: seq<Up>, k: int, call: Call)
    requires Healthy(ups)
  {
    var log := LogClaude(ups);
    && (FirstItem(p, ups, k).Some? ==> FirstItem(p, ups, k).value == (call.id, call.name))
    && (forall m :: 0 <= m < |log| && T.Key(p, log[m]) == k && log[m].Seen? && log[m].args != "" ==> log[m].args == call.args)
    && (T.Fragments(p, log, k) == "" || T.Fragments(p, log, k) == call.args)
  }

  /** Arguments came complete first, or as fragments, but not both. */
  predicate SentOneWay(p: T.Pairing, log: seq<T.Op>, k: int) {
    (T.Lead(p, log, k) == "") != (T.Fragments(p, log, k) == "")
  }

  /** The call was named in time: it was first heard of through an item event, or the item's identifier was all there is to it. */
  predicate NamedInTime(p: T.Pairing, ups: seq<Up>, k: int, call: Call) {
    Led(p, ups, k) || (call.id == p.itemId(k) && call.name == "")
  }

  /** Every call was named in time and its arguments, if any, were sent one way. */
  ghost predicate AllToldRight(p: T.Pairing, ups: seq<Up>, said: int -> Call)
    requires Healthy(ups)
  {
    forall k :: Heard(p, ups, k) ==>
      NamedInTime(p, ups, k, said(k)) && (said(k).args == "" || SentOneWay(p, LogClaude(ups), k))
  }

  lemma SentWholeIff(p: T.Pairing, ups: seq<Up>, k: int, call: Call)
    requires Healthy(ups) && T.Paired(p, LogClaude(ups)) && Spelled(p, ups, k, call)
    ensures T.Sent(p, LogClaude(ups), T.Run(LogClaude(ups)).1, k) == call.args <==> call.args == "" || SentOneWay(p, LogClaude(ups), k)
  {
    if call.args == "" {
      T.SentIs(p, LogClaude(ups), k);
      T.LeadIsComplete(p, LogClaude(ups), k, call.args);
    } else {
      T.ReassembledIff(p, LogClaude(ups), k, call.args);
    }
  }

  lemma {:induction false} CallWholeIff(p: T.Pairing, ups: seq<Up>, k: int, call: Call)
    requires Healthy(ups) && T.Paired(p, LogClaude(ups)) && Spelled(p, ups, k, call) && Heard(p, ups, k)
    ensures SentFor(p, ups)(k) == call <==>
              NamedInTime(p, ups, k, call) && (call.args == "" || SentOneWay(p, LogClaude(ups), k))
  {
    SentWholeIff(p, ups, k, call);
    PairedIff(p, ups);
    HeadIs(p, ups, k);
  }

  /** The pieces sent are the pieces meant if and only if every call was told right. */
  lemma {:induction false} PiecesWholeIff(p: T.Pairing, ups: seq<Up>, said: int -> Call)
    requires UpToTerminal(ups) && T.Paired(p, LogClaude(ups)) && forall k :: Spelled(p, ups, k, said(k))
    ensures var sent, meant := PiecesSaid(p, ups, SentFor(p, ups)), PiecesSaid(p, ups, said);
            Outlined(sent, meant) && (sent == meant <==> AllToldRight(p, ups, said))
  {
    var log, ms := LogClaude(ups), Marks(p, ups);
    var sent, meant := PiecesSaid(p, ups, SentFor(p, ups)), PiecesSaid(p, ups, said);
    RunOrdered(p, ups);
    forall i | 0 <= i < |ms|
      ensures SameKind(sent[i], meant[i])
      ensures sent[i] == meant[i] <==> (ms[i].Called? ==> SentFor(p, ups)(ms[i].k) == said(ms[i].k))
    {
    }
    forall k | Heard(p, ups, k)
      ensures SentFor(p, ups)(k) == said(k) <==>
                NamedInTime(p, ups, k, said(k)) && (said(k).args == "" || SentOneWay(p, log, k))
      ensures 0 <= MarkOf(p, ups, k) < |ms| && ms[MarkOf(p, ups, k)] == Called(k)
    {
      CallWholeIff(p, ups, k, said(k));
      LogTells(p, ups, k);
    }
    forall i | 0 <= i < |ms| && ms[i].Called? ensures Heard(p, ups, ms[i].k) {
      LogTells(p, ups, ms[i].k);
    }
    if sent == meant {
      forall k | Heard(p, ups, k) ensures SentFor(p, ups)(k) == said(k) {
        assert sent[MarkOf(p, ups, k)] == meant[MarkOf(p, ups, k)];
      }
    }
  }

  function MarkOf(p: T.Pairing, ups: seq<Up>, k: int): int
    requires Healthy(ups)
  {
    var i := T.IndexOf(p, LogClaude(ups), k);
    if i.Some? then i.value else -1
  }

  /**
   * A final response that says what the upstream said, text and calls in the same order, each call as
   * its first item event named it and with the arguments its events spell: the client holds that
   * content, adjacent text joined, if and only if no call with a name of its own was first heard of
   * through a fragment, and the arguments of every call went out one way, complete or in fragments.
   * Then it decodes to the content of the non-streaming conversion.
   */
  lemma {:induction false} ContentAgreesIff<J>(j: M.Json<J>, p: T.Pairing, ups: seq<Up>, items: seq<V.OutputItem>, said: int -> Call)
    requires UpToTerminal(ups) && T.Paired(p, LogClaude(ups)) && forall k :: Spelled(p, ups, k, said(k))
    requires Joined(PiecesSaid(p, ups, said)) == Joined(ResponsePieces(items))
    ensures var held := AllHeld(Blocks([], RunClaude(ups).1));
            && (Joined(held) == Joined(ResponsePieces(items)) <==> AllToldRight(p, ups, said))
            && (AllToldRight(p, ups, said) && V.AllRepresentable(j, items) ==>
                  Joined(AllDecoded(j, held)) == Joined(AllShown(V.ContentOf(j, items))))
  {
    var held := AllHeld(Blocks([], RunClaude(ups).1));
    BlocksInOrder(p, ups);
    PiecesWholeIff(p, ups, said);
    JoinedEqualIff(held, PiecesSaid(p, ups, said));
    if V.AllRepresentable(j, items) {
      ContentShown(j, items);
    }
    JoinedDecoded(j, held);
    JoinedDecoded(j, ResponsePieces(items));
  }

  /** A call first heard of through a fragment keeps the item's identifier and no name, though its item event has both. */
  lemma EarlyFragmentHidesName()
    ensures var ups := [UpCreated("r", "m"), UpArgs("item", "{}"), UpItem(true, "call", "item", "f", "")];
            Blocks([], RunClaude(ups).1) == [ToolBlock("item", "", "{}")]
  {
    var a, b, c := UpCreated("r", "m"), UpArgs("item", "{}"), UpItem(true, "call", "item", "f", "");
    EarlyFragmentRun(a, b);
    SilentUp([a, b], c);
    assert [a, b] + [c] == [a, b, c];
    OneCallBlocks(MessageStart("r", "m", 0), BlockStart(0, ToolKind("item", "")), BlockDelta(0, JsonPart("{}")));
  }

  lemma OneCallBlocks(created: Event, start: Event, piece: Event)
    requires created.MessageStart? && start == BlockStart(0, ToolKind("item", "")) && piece == BlockDelta(0, JsonPart("{}"))
    ensures Blocks([], [created] + [start, piece]) == [ToolBlock("item", "", "{}")]
  {
    FoldOne(BlocksStep, [], created);
    FoldAppend(BlocksStep, [], [created], [start, piece]);
    FoldAppend(BlocksStep, [], [start], [piece]);
    assert [start, piece] == [start] + [piece] && "" + "{}" == "{}";
    FoldOne(BlocksStep, [], start);
    FoldOne(BlocksStep, [ToolBlock("item", "", "")], piece);
  }

  lemma EarlyFragmentRun(a: Up, b: Up)
    requires a == UpCreated("r", "m") && b == UpArgs("item", "{}")
    ensures var (st, es) := RunClaude([a, b]);
            && es == [MessageStart("r", "m", 0)] + [BlockStart(0, ToolKind("item", "")), BlockDelta(0, JsonPart("{}"))]
            && Named([a, b], "item")
  {
    RunSplit([], a);
    RunSplit([a], b);
    assert [] + [a] == [a] && [a] + [b] == [a, b];
    var st := RunClaude([a]).0;
    assert st == Fresh.(id := "r", model := "m") && RunClaude([a]).1 == [MessageStart("r", "m", 0)];
    StepNames(st.tracker, OpOf(b, 0), "item");
    assert [a, b][..1] == [a] && NamesId(b, "item");
    var d := T.Step(st.tracker, OpOf(b, 0)).1;
    assert d.first && d.index == 0;
  }

  /** A call item that is known and has no arguments emits nothing. */
  lemma SilentUp(before: seq<Up>, up: Up)
    requires Healthy(before) && up.UpItem? && up.isCall && up.args == "" && Named(before, up.itemId)
    ensures Healthy(before + [up]) && RunClaude(before + [up]).1 == RunClaude(before).1
  {
    FirstIffNew(before, up);
    RunSplit(before, up);
    assert RunClaude(before).1 + [] == RunClaude(before).1;
  }
}
