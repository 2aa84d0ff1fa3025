/**
 * Responses to Messages, up to the terminal event: block discipline for every upstream, accepted by
 * the block monitor exactly when the response is announced once and first.
 */
module ResponsesClaude {
  import opened Wire
  import opened Folds
  import opened Clients
  import opened ToolTracker
  import opened ResponsesStream

  // ---- the shape of states before the terminal event ----

  predicate IndexesBelow(states: seq<CallState>, n: int) {
    forall j :: 0 <= j < |states| ==> 0 <= states[j].index < n
  }

  /** At most one block is open, it is the newest, and `textOpen` says whether it is `textIndex`. */
  predicate Layout(textIndex: int, textOpen: bool, nextIndex: int, open: seq<int>) {
    && 0 <= nextIndex && -1 <= textIndex < nextIndex
    && |open| <= 1 && (open != [] ==> nextIndex > 0 && open == [nextIndex - 1])
    && (textOpen <==> open == [textIndex])
  }

  predicate Shape(st: State) {
    && Layout(st.textIndex, st.textOpen, st.nextIndex, st.openBlocks)
    && st.tracker.Valid() && IndexesBelow(st.tracker.states, st.nextIndex)
  }

  function MonitorOf(st: State): Monitor {
    Monitor(true, st.nextIndex, if st.openBlocks == [] then None else Some(st.openBlocks[0]), 0, false, true)
  }

  predicate Watched(st: State, out: Out) {
    Shape(out.0) && Watch(MonitorOf(st), out.1) == MonitorOf(out.0)
  }

  lemma WatchedThen(st: State, a: Out, b: Out)
    requires Watched(st, a) && Watched(a.0, b)
    ensures Watched(st, (b.0, a.1 + b.1))
  {
    FoldAppend(MonitorStep, MonitorOf(st), a.1, b.1);
  }

  lemma CloseWatched(st: State)
    requires Shape(st)
    ensures Watched(st, CloseOpen(st)) && CloseOpen(st).0.openBlocks == [] && !CloseOpen(st).0.textOpen
  {
    if st.openBlocks != [] {
      assert StopAll(st.openBlocks) == [BlockStop(st.nextIndex - 1)];
      FoldOne(MonitorStep, MonitorOf(st), BlockStop(st.nextIndex - 1));
    }
  }

  /** Closing, then starting a block at the next free index; `st'` is the state that results. */
  lemma StartWatched(st: State, kind: BlockKind, st': State)
    requires Shape(st) && Shape(st') && st'.nextIndex == st.nextIndex + 1 && st'.openBlocks == [st.nextIndex]
    ensures Watched(st, (st', StartBlock(st, st.nextIndex, kind).1))
  {
    var a := CloseOpen(st);
    CloseWatched(st);
    FoldOne(MonitorStep, MonitorOf(a.0), BlockStart(st.nextIndex, kind));
    WatchedThen(st, a, (st', [BlockStart(st.nextIndex, kind)]));
  }

  lemma TextWatched(st: State, delta: string)
    requires Shape(st)
    ensures Watched(st, ClaudeText(st, delta))
  {
    var a := OpenText(st);
    if !st.textOpen {
      StartWatched(st, TextKind, a.0);
    }
    var e := BlockDelta(a.0.textIndex, TextPart(delta));
    FoldOne(MonitorStep, MonitorOf(a.0), e);
    WatchedThen(st, a, (a.0, [e]));
  }

  lemma TrackIndexes(st: State, op: Op)
    requires Shape(st) && op.next == st.nextIndex
    ensures var (st1, d) := Track(st, op);
            && st1.tracker.Valid() && IndexesBelow(st1.tracker.states, st1.nextIndex)
            && 0 <= d.index < st1.nextIndex && (d.first ==> d.index == st.nextIndex)
  {
    StepIs(st.tracker, op);
    TrackValid(st, op);
    ResolveIndexes(st.tracker, First(op), Second(op), op.next);
  }

  lemma ResolveIndexes(t: Tracker, key: string, alias: string, next: int)
    requires t.Valid() && next >= 0 && IndexesBelow(t.states, next)
    ensures var (t', first, pos) := Resolve(t, key, alias, next);
            && pos < |t'.states| && IndexesBelow(t'.states, if first then next + 1 else next)
            && (first ==> t'.states[pos].index == next)
  {
  }

  /** A first sight starts the block at the index just handed out. */
  lemma FirstWatched(st: State, st1: State, id: string, name: string)
    requires Shape(st) && st1.tracker.Valid() && IndexesBelow(st1.tracker.states, st1.nextIndex)
    requires st1 == st.(tracker := st1.tracker, nextIndex := st.nextIndex + 1)
    ensures Watched(st, StartBlock(st1, st.nextIndex, ToolKind(id, name)))
  {
    var kind := ToolKind(id, name);
    assert StartBlock(st1, st.nextIndex, kind).1 == StartBlock(st, st.nextIndex, kind).1;
    StartWatched(st, kind, StartBlock(st1, st.nextIndex, kind).0);
  }

  lemma CallWatched(st: State, op: Op, id: string, name: string, part: Option<string>)
    requires Shape(st) && op.next == st.nextIndex
    ensures var (st1, d) := Track(st, op); Watched(st, ClaudeCall(st1, d, id, name, part))
  {
    var (st1, d) := Track(st, op);
    TrackIndexes(st, op);
    var a := if d.first then StartBlock(st1, d.index, ToolKind(id, name)) else (st1, []);
    if d.first {
      FirstWatched(st, st1, id, name);
    }
    PartWatched(st, a, d.index, part);
  }

  lemma PartWatched(st: State, a: Out, index: int, part: Option<string>)
    requires Watched(st, a) && 0 <= index < a.0.nextIndex
    ensures Watched(st, (a.0, a.1 + if part.Some? then [BlockDelta(index, JsonPart(part.value))] else []))
  {
    if part.Some? {
      var e := BlockDelta(index, JsonPart(part.value));
      FoldOne(MonitorStep, MonitorOf(a.0), e);
      WatchedThen(st, a, (a.0, [e]));
    } else {
      assert a.1 + [] == a.1;
    }
  }

  lemma UpWatched(st: State, up: Up)
    requires Shape(st) && !up.UpCreated? && !up.UpTerminal? && !up.UpFailed?
    ensures Watched(st, ClaudeUp(st, up))
  {
    match up
    case UpText(delta) => TextWatched(st, delta);
    case UpItem(isCall, callId, _, name, args) =>
      if isCall {
        var st0, op := st.(toolCallsSeen := true), OpOf(up, st.nextIndex);
        var d := Track(st0, op).1;
        assert Shape(st0) && MonitorOf(st0) == MonitorOf(st);
        CallWatched(st0, op, callId, name, if d.deliver then Some(args) else None);
      }
    case UpArgs(itemId, delta) => CallWatched(st, OpOf(up, st.nextIndex), itemId, "", Some(delta));
    case UpOther =>
  }

  // ---- whole runs ----

  predicate Untouched(st: State) {
    && st.nextIndex == 0 && st.openBlocks == [] && st.textIndex == -1 && !st.textOpen && st.tracker == NoCalls
  }

  /** What the monitor made of everything emitted so far, at each stage. */
  predicate Verdict(out: Out, stage: Stage) {
    var m := Watch(FreshMonitor, out.1);
    match stage
    case Waiting => Untouched(out.0) && out.1 == []
    case Running => Shape(out.0) && m == MonitorOf(out.0)
    case Ended => m.ok && m.stopped && m.open.None? && m.started && m.deltas == 1 && out.0.openBlocks == []
    case Disorderly => !m.ok
  }

  lemma {:induction false} NotOkStays(m: Monitor, es: seq<Event>)
    requires !m.ok
    ensures !Watch(m, es).ok
    decreases |es|
  {
    if es != [] {
      NotOkStays(MonitorStep(m, es[0]), es[1..]);
    }
  }

  /** Output before message_start is rejected. */
  lemma EarlyOutput(st: State, up: Up)
    requires Untouched(st) && (up.UpText? || TracksCall(up) || up.UpTerminal?)
    ensures !Watch(FreshMonitor, ClaudeUp(st, up).1).ok
  {
    var es := ClaudeUp(st, up).1;
    assert es != [] && (es[0].BlockStart? || es[0].MessageDelta?) by {
      if TracksCall(up) {
        var op := OpOf(up, st.nextIndex);
        StepIs(st.tracker, op);
      }
    }
    NotOkStays(MonitorStep(FreshMonitor, es[0]), es[1..]);
  }

  lemma SecondCreated(m: Monitor, st: State, up: Up)
    requires m.started && up.UpCreated? && st.tracker.Valid()
    ensures !Watch(m, ClaudeUp(st, up).1).ok
  {
    var es := ClaudeUp(st, up).1;
    FoldOne(MonitorStep, m, es[0]);
  }

  lemma TerminalWatched(st: State, up: Up)
    requires Shape(st) && up.UpTerminal?
    ensures var m := Watch(MonitorOf(st), ClaudeTerminal(st, up).1);
            m.ok && m.stopped && m.open.None? && m.started && m.deltas == 1 && ClaudeTerminal(st, up).0.openBlocks == []
  {
    var stops, es := StopAll(st.openBlocks), ClaudeTerminal(st, up).1;
    CloseWatched(st);
    var m := MonitorOf(CloseOpen(st).0);
    assert Watch(MonitorOf(st), stops) == m by {
      assert st.openBlocks == [] ==> stops == [];
    }
    var x, y := es[|stops|], es[|stops| + 1];
    assert es == stops + [x] + [y];
    FoldAppend(MonitorStep, MonitorOf(st), stops, [x]);
    FoldOne(MonitorStep, m, x);
    FoldAppend(MonitorStep, MonitorOf(st), stops + [x], [y]);
    FoldOne(MonitorStep, MonitorStep(m, x), y);
  }

  lemma VerdictNext(out: Out, stage: Stage, up: Up)
    requires Verdict(out, stage) && !stage.Ended? && out.0.tracker.Valid() && !up.UpFailed?
    ensures var b := ClaudeUp(out.0, up); Verdict((b.0, out.1 + b.1), NextStage(stage, up))
  {
    var b := ClaudeUp(out.0, up);
    var m := Watch(FreshMonitor, out.1);
    FoldAppend(MonitorStep, FreshMonitor, out.1, b.1);
    match stage
    case Disorderly => NotOkStays(m, b.1);
    case Waiting =>
      assert out.1 + b.1 == b.1;
      if up.UpText? || TracksCall(up) || up.UpTerminal? {
        EarlyOutput(out.0, up);
      } else if up.UpCreated? {
        FoldOne(MonitorStep, FreshMonitor, b.1[0]);
      }
    case Running =>
      if up.UpCreated? {
        SecondCreated(m, out.0, up);
      } else if up.UpTerminal? {
        TerminalWatched(out.0, up);
      } else {
        UpWatched(out.0, up);
      }
  }

  lemma {:induction false} NotYetEnded(ups: seq<Up>)
    requires forall i :: 0 <= i < |ups| ==> !ups[i].UpTerminal?
    ensures !StageOf(ups).Ended?
    decreases |ups|
  {
    if ups != [] {
      NotYetEnded(ups[..|ups| - 1]);
    }
  }

  lemma {:induction false} RunVerdict(ups: seq<Up>)
    requires UpToTerminal(ups)
    ensures Verdict(RunClaude(ups), StageOf(ups))
    decreases |ups|
  {
    if ups != [] {
      var before := ups[..|ups| - 1];
      RunVerdict(before);
      NotYetEnded(before);
      VerdictNext(RunClaude(before), StageOf(before), ups[|ups| - 1]);
    }
  }

  /**
   * The block monitor accepts what has been emitted, up to and including the terminal event, if and
   * only if response.created came first and once. Then blocks are numbered 0, 1, 2, ... with at most
   * one open at any event, text deltas hit the open block, and before the terminal `textOpen` holds
   * exactly when the open block is `textIndex`.
   */
  lemma {:induction false} DisciplineIffAnnounced(ups: seq<Up>)
    requires UpToTerminal(ups)
    ensures Watch(FreshMonitor, RunClaude(ups).1).ok <==> !StageOf(ups).Disorderly?
    ensures var st := RunClaude(ups).0;
            StageOf(ups).Running? ==> |st.openBlocks| <= 1 && (st.textOpen <==> st.openBlocks == [st.textIndex])
  {
    RunVerdict(ups);
  }

  /** After the terminal event every block that was started has been stopped exactly once. */
  lemma {:induction false} EveryBlockStoppedOnce(ups: seq<Up>, i: int)
    requires UpToTerminal(ups) && StageOf(ups).Ended?
    ensures var es := RunClaude(ups).1; Starts(es, i) == Stops(es, i) <= 1
  {
    RunVerdict(ups);
    MonitorCounts(RunClaude(ups).1, i);
  }

  // ---- after the terminal event ----

  lemma RunSplit(before: seq<Up>, up: Up)
    requires Healthy(before) && !up.UpFailed?
    ensures Healthy(before + [up]) && RunClaude(before + [up]).1 == RunClaude(before).1 + ClaudeUp(RunClaude(before).0, up).1
    ensures RunClaude(before + [up]).0 == ClaudeUp(RunClaude(before).0, up).0
  {
    assert (before + [up])[..|before|] == before;
  }

  /** Anything emitted after message_stop is rejected. */
  lemma StoppedIsFinal(m: Monitor, es: seq<Event>)
    requires m.stopped && m.ok
    ensures Watch(m, es).ok <==> es == []
  {
    if es != [] {
      NotOkStays(MonitorStep(m, es[0]), es[1..]);
    }
  }

  lemma {:induction false} RunExtends(ups: seq<Up>, late: seq<Up>)
    requires Healthy(ups) && Healthy(late)
    ensures Healthy(ups + late) && RunClaude(ups).1 <= RunClaude(ups + late).1
    decreases |late|
  {
    if late == [] {
      assert ups + late == ups;
    } else {
      Last(late);
      RunExtends(ups, late[..|late| - 1]);
      RunExtendsNext(ups, late[..|late| - 1], late[|late| - 1], late);
    }
  }

  lemma RunExtendsNext(ups: seq<Up>, most: seq<Up>, up: Up, late: seq<Up>)
    requires late == most + [up] && !up.UpFailed?
    requires Healthy(ups) && Healthy(ups + most) && RunClaude(ups).1 <= RunClaude(ups + most).1
    ensures Healthy(ups + late) && RunClaude(ups).1 <= RunClaude(ups + late).1
  {
    RunSplit(ups + most, up);
    Assoc(ups, most, [up]);
  }

  /**
   * Feed goes on after the terminal event, and whatever comes then is misplaced: the monitor accepts
   * the whole emission if and only if no later event made the converter emit anything.
   */
  lemma {:induction false} LateOutputIsRejected(ups: seq<Up>, late: seq<Up>)
    requires UpToTerminal(ups) && StageOf(ups).Ended? && Healthy(late)
    ensures Healthy(ups + late)
    ensures Watch(FreshMonitor, RunClaude(ups + late).1).ok <==> RunClaude(ups + late).1 == RunClaude(ups).1
  {
    RunVerdict(ups);
    RunExtends(ups, late);
    var es, all := RunClaude(ups).1, RunClaude(ups + late).1;
    var more := all[|es|..];
    assert all == es + more;
    FoldAppend(MonitorStep, FreshMonitor, es, more);
    StoppedIsFinal(Watch(FreshMonitor, es), more);
  }

  // ---- where late text lands ----

  /** An event of a call carried the identifier. */
  predicate Named(ups: seq<Up>, id: string)
    decreases |ups|
  {
    ups != [] && (Named(ups[..|ups| - 1], id) || NamesId(ups[|ups| - 1], id))
  }

  predicate NamesId(up: Up, id: string) {
    id != "" && TracksCall(up) && (up.itemId == id || (up.UpItem? && up.callId == id))
  }

  /** A call none of whose identifiers was named before. */
  predicate NewCall(before: seq<Up>, up: Up) {
    TracksCall(up) && !Named(before, up.itemId) && (up.UpItem? ==> !Named(before, up.callId))
  }

  datatype Opener = Nothing | ByText | ByCall

  /** What last opened a block: text, or a new call. */
  function LastOpener(ups: seq<Up>): Opener
    decreases |ups|
  {
    if ups == [] then Nothing
    else
      var before, up := ups[..|ups| - 1], ups[|ups| - 1];
      if up.UpText? then ByText else if NewCall(before, up) then ByCall else LastOpener(before)
  }

  lemma StepNames(t: Tracker, op: Op, id: string)
    requires t.Valid() && "" !in t.calls
    ensures id in Step(t, op).0.calls <==> id in t.calls || (id != "" && (op.itemId == id || (op.Seen? && op.callId == id)))
    ensures Step(t, op).1.first <==> op.itemId !in t.calls && (op.Seen? ==> op.callId !in t.calls)
  {
    StepValid(t, op);
  }

  lemma {:induction false} TrackerNames(ups: seq<Up>, id: string)
    requires Healthy(ups)
    ensures id in RunClaude(ups).0.tracker.calls <==> Named(ups, id)
    decreases |ups|
  {
    if ups != [] {
      var before, up := ups[..|ups| - 1], ups[|ups| - 1];
      TrackerNames(before, id);
      TrackerNames(before, "");
      NeverEmpty(before);
      var st := RunClaude(before).0;
      if TracksCall(up) {
        StepNames(st.tracker, OpOf(up, st.nextIndex), id);
      }
    }
  }

  lemma {:induction false} NeverEmpty(ups: seq<Up>)
    ensures !Named(ups, "")
    decreases |ups|
  {
    if ups != [] {
      NeverEmpty(ups[..|ups| - 1]);
    }
  }

  /** The tracker's first sights are the new calls. */
  lemma FirstIffNew(ups: seq<Up>, up: Up)
    requires Healthy(ups) && TracksCall(up)
    ensures var st := RunClaude(ups).0; Step(st.tracker, OpOf(up, st.nextIndex)).1.first <==> NewCall(ups, up)
  {
    var st := RunClaude(ups).0;
    TrackerNames(ups, "");
    NeverEmpty(ups);
    TrackerNames(ups, up.itemId);
    if up.UpItem? {
      TrackerNames(ups, up.callId);
    }
    StepNames(st.tracker, OpOf(up, st.nextIndex), "");
  }

  /** One event before the terminal: the text block is the open one after text, and not after a new call. */
  lemma TextOpenNext(st: State, up: Up)
    requires Shape(st) && !up.UpFailed?
    ensures var st' := ClaudeUp(st, up).0;
            st'.textOpen == if up.UpText? then true
                            else if TracksCall(up) && Step(st.tracker, OpOf(up, st.nextIndex)).1.first then false
                            else st.textOpen
  {
  }

  lemma {:induction false} TextOpenIff(ups: seq<Up>)
    requires UpToTerminal(ups) && !StageOf(ups).Disorderly?
    ensures RunClaude(ups).0.textOpen <==> LastOpener(ups).ByText?
    decreases |ups|
  {
    if ups != [] {
      var before, up := ups[..|ups| - 1], ups[|ups| - 1];
      NotYetEnded(before);
      RunVerdict(before);
      TextOpenIff(before);
      if StageOf(before).Running? {
        TextOpenNext(RunClaude(before).0, up);
        if TracksCall(up) {
          FirstIffNew(before, up);
        }
      }
    }
  }

  /** The terminal event leaves the text block's index among those started. */
  lemma TextIndexStarted(ups: seq<Up>)
    requires UpToTerminal(ups) && StageOf(ups).Ended?
    ensures var st := RunClaude(ups).0; st.textOpen ==> 0 <= st.textIndex < st.nextIndex
  {
    var before, up := ups[..|ups| - 1], ups[|ups| - 1];
    NotYetEnded(before);
    RunVerdict(before);
  }

  /**
   * A late text delta lands on a block that was stopped if and only if text, and not a new call, was
   * the last to open a block before the terminal event; otherwise it starts another block.
   */
  lemma {:induction false} LateTextOnStoppedBlockIff(ups: seq<Up>, delta: string)
    requires UpToTerminal(ups) && StageOf(ups).Ended?
    ensures var es, more := RunClaude(ups).1, ClaudeUp(RunClaude(ups).0, UpText(delta)).1;
            && more != []
            && (more[0].BlockDelta? && Starts(es, more[0].index) == Stops(es, more[0].index) == 1 <==> LastOpener(ups).ByText?)
            && (more[0].BlockStart? <==> !LastOpener(ups).ByText?)
  {
    RunVerdict(ups);
    TextOpenIff(ups);
    TerminalNext(ups);
    TextIndexStarted(ups);
    MonitorCounts(RunClaude(ups).1, RunClaude(ups).0.textIndex);
  }

  // ---- where text lands, at any time ----

  /** Some block is open. */
  predicate AnyOpen(ups: seq<Up>)
    decreases |ups|
  {
    ups != [] &&
    var before, up := ups[..|ups| - 1], ups[|ups| - 1];
    !up.UpTerminal? && (AnyOpen(before) || NewCall(before, up) || (up.UpText? && !TextCurrent(before)))
  }

  /** Text goes on where it went before: nothing but a new call beside an open block has come since the last text. */
  predicate TextCurrent(ups: seq<Up>)
    decreases |ups|
  {
    ups != [] &&
    var before, up := ups[..|ups| - 1], ups[|ups| - 1];
    up.UpText? || (TextCurrent(before) && !(NewCall(before, up) && AnyOpen(before)))
  }

  lemma OpenNext(st: State, up: Up)
    requires st.tracker.Valid() && !up.UpFailed?
    ensures var st' := ClaudeUp(st, up).0;
            var isNew := TracksCall(up) && Step(st.tracker, OpOf(up, st.nextIndex)).1.first;
            && (st'.openBlocks != [] <==> !up.UpTerminal? && (st.openBlocks != [] || isNew || (up.UpText? && !st.textOpen)))
            && (st'.textOpen <==> up.UpText? || (st.textOpen && !(isNew && st.openBlocks != [])))
  {
  }

  lemma {:induction false} OpenTold(ups: seq<Up>)
    requires Healthy(ups)
    ensures var st := RunClaude(ups).0; (st.textOpen <==> TextCurrent(ups)) && (st.openBlocks != [] <==> AnyOpen(ups))
    decreases |ups|
  {
    if ups != [] {
      var before, up := ups[..|ups| - 1], ups[|ups| - 1];
      OpenTold(before);
      if TracksCall(up) {
        FirstIffNew(before, up);
      }
      OpenNext(RunClaude(before).0, up);
    }
  }

  lemma TextLands(st: State, delta: string)
    ensures var more := ClaudeText(st, delta).1;
            if st.textOpen then more == [BlockDelta(st.textIndex, TextPart(delta))]
            else |more| >= 2 && more[|more| - 2] == BlockStart(st.nextIndex, TextKind)
                 && more[|more| - 1] == BlockDelta(st.nextIndex, TextPart(delta))
  {
  }

  /**
   * Every stream, beyond terminal events too: a text delta goes to the text block already there exactly
   * when nothing but a new call beside an open block has come since the last text, and otherwise starts
   * the next block.
   */
  lemma {:induction false} TextLandsWhere(ups: seq<Up>, delta: string)
    requires Healthy(ups)
    ensures var st, more := RunClaude(ups).0, ClaudeUp(RunClaude(ups).0, UpText(delta)).1;
            && more != []
            && (TextCurrent(ups) ==> more == [BlockDelta(st.textIndex, TextPart(delta))])
            && (!TextCurrent(ups) ==> |more| >= 2 && more[|more| - 2] == BlockStart(st.nextIndex, TextKind)
                                      && more[|more| - 1] == BlockDelta(st.nextIndex, TextPart(delta)))
  {
    OpenTold(ups);
    TextLands(RunClaude(ups).0, delta);
  }

  /** The terminal event leaves the allocator in step with the blocks that were started. */
  lemma {:induction false} TerminalNext(ups: seq<Up>)
    requires UpToTerminal(ups) && StageOf(ups).Ended?
    ensures Watch(FreshMonitor, RunClaude(ups).1).next == RunClaude(ups).0.nextIndex
    decreases |ups|
  {
    var before, up := ups[..|ups| - 1], ups[|ups| - 1];
    var a := RunClaude(before);
    RunVerdict(before);
    NotYetEnded(before);
    if up.UpTerminal? {
      NextAfterTerminal(MonitorOf(a.0), ClaudeTerminal(a.0, up).1);
      FoldAppend(MonitorStep, FreshMonitor, a.1, ClaudeTerminal(a.0, up).1);
    }
  }

  lemma {:induction false} NextAfterTerminal(m: Monitor, es: seq<Event>)
    requires forall e :: e in es ==> !e.BlockStart?
    ensures Watch(m, es).next == m.next
    decreases |es|
  {
    if es != [] {
      assert es[0] in es;
      NextAfterTerminal(MonitorStep(m, es[0]), es[1..]);
    }
  }
}
