/**
 * Responses upstream: what one decoded event does to the converter's state, and the client events it
 * produces, for the Messages and Chat Completions targets.
 */
module ResponsesStream {
  import opened Wire
  import opened ToolTracker

  datatype Details = Details(cached: Option<int>, cacheWrite: Option<int>, reasoning: Option<int>)

  /** Decoded upstream events; other item types and informational events say nothing. */
  datatype Up =
    | UpCreated(id: string, model: string)
    | UpText(delta: string)
    | UpItem(isCall: bool, callId: string, itemId: string, name: string, args: string)
    | UpArgs(itemId: string, delta: string)
    | UpTerminal(incomplete: bool, input: int, output: int, details: Details)
    | UpFailed(failure: Failure)
    | UpOther

  datatype State = State(
    id: string, model: string, toolCallsSeen: bool,
    textIndex: int, textOpen: bool, nextIndex: int, openBlocks: seq<int>, tracker: Tracker)

  const Fresh := State("opencode-go", "", false, -1, false, 0, [], NoCalls)

  type Out = (State, seq<Event>)

  predicate TracksCall(up: Up) {
    (up.UpItem? && up.isCall) || up.UpArgs?
  }

  /** The tracker event of an upstream event, with the index the converter would allocate. */
  function OpOf(up: Up, next: int): Op
    requires TracksCall(up)
  {
    if up.UpItem? then Seen(up.callId, up.itemId, up.args, next) else Fragment(up.itemId, up.delta, next)
  }

  /** The tracker decides; a new call consumes an index. */
  function Track(st: State, op: Op): (State, Decision)
    requires st.tracker.Valid()
  {
    var (t, d) := Step(st.tracker, op);
    (st.(tracker := t, nextIndex := if d.first then st.nextIndex + 1 else st.nextIndex), d)
  }

  lemma TrackValid(st: State, op: Op)
    requires st.tracker.Valid()
    ensures Track(st, op).0.tracker.Valid()
  {
    StepValid(st.tracker, op);
  }

  function Capture(st: State, id: string, model: string): State {
    st.(id := if id != "" then id else st.id, model := if model != "" then model else st.model)
  }

  // ---- Messages target ----

  function StopAll(open: seq<int>): seq<Event> {
    seq(|open|, i requires 0 <= i < |open| => BlockStop(open[i]))
  }

  function CloseOpen(st: State): Out {
    if st.openBlocks == [] then (st, []) else (st.(openBlocks := [], textOpen := false), StopAll(st.openBlocks))
  }

  /** Close what is open, then start block `index`. */
  function StartBlock(st: State, index: int, kind: BlockKind): Out {
    var a := CloseOpen(st);
    (a.0.(openBlocks := a.0.openBlocks + [index]), a.1 + [BlockStart(index, kind)])
  }

  function OpenText(st: State): Out {
    if st.textOpen then (st, [])
    else
      var a := StartBlock(st, st.nextIndex, TextKind);
      (a.0.(textIndex := st.nextIndex, nextIndex := st.nextIndex + 1, textOpen := true), a.1)
  }

  function ClaudeText(st: State, delta: string): Out {
    var a := OpenText(st);
    (a.0, a.1 + [BlockDelta(a.0.textIndex, TextPart(delta))])
  }

  /** A tracked event: a first sight starts the block; `part` is what it has to deliver. */
  function ClaudeCall(st: State, d: Decision, id: string, name: string, part: Option<string>): Out {
    var a := if d.first then StartBlock(st, d.index, ToolKind(id, name)) else (st, []);
    (a.0, a.1 + if part.Some? then [BlockDelta(d.index, JsonPart(part.value))] else [])
  }

  function ClaudeItem(st: State, up: Up): Out
    requires up.UpItem? && st.tracker.Valid()
  {
    if !up.isCall then (st, [])
    else
      var (st1, d) := Track(st.(toolCallsSeen := true), OpOf(up, st.nextIndex));
      ClaudeCall(st1, d, up.callId, up.name, if d.deliver then Some(up.args) else None)
  }

  function ClaudeArgs(st: State, up: Up): Out
    requires up.UpArgs? && st.tracker.Valid()
  {
    var (st1, d) := Track(st, OpOf(up, st.nextIndex));
    ClaudeCall(st1, d, up.itemId, "", Some(up.delta))
  }

  /** Stops what is open; only the list of open blocks is reset. */
  function ClaudeTerminal(st: State, up: Up): Out
    requires up.UpTerminal?
  {
    var stop := TerminalReason(st.toolCallsSeen, "tool_use", ClaudeStopFromStatus(if up.incomplete then "incomplete" else "completed"));
    var d := up.details;
    (st.(openBlocks := []),
     StopAll(st.openBlocks) + [
       MessageDelta(stop, ClaudeTokens(ClampSubtract(up.input, [d.cached, d.cacheWrite]), up.output, d.cached, d.cacheWrite)),
       MessageStop])
  }

  function ClaudeUp(st: State, up: Up): Out
    requires st.tracker.Valid() && !up.UpFailed?
  {
    match up
    case UpCreated(id, model) =>
      var st1 := Capture(st, id, model);
      (st1, [MessageStart(st1.id, st1.model, 0)])
    case UpText(delta) => ClaudeText(st, delta)
    case UpItem(_, _, _, _, _) => ClaudeItem(st, up)
    case UpArgs(_, _) => ClaudeArgs(st, up)
    case UpTerminal(_, _, _, _) => ClaudeTerminal(st, up)
    case UpOther => (st, [])
  }

  // ---- Chat Completions target ----

  function ChatItem(st: State, up: Up): Out
    requires up.UpItem? && st.tracker.Valid()
  {
    if !up.isCall then (st, [])
    else
      var (st1, d) := Track(st.(toolCallsSeen := true), OpOf(up, st.nextIndex));
      (st1, if d.first then [CallOpening(d.index, up.callId, up.name, if d.deliver then up.args else "")]
            else if d.deliver then [CallArgs(d.index, up.args)]
            else [])
  }

  function ChatArgs(st: State, up: Up): Out
    requires up.UpArgs? && st.tracker.Valid()
  {
    var (st1, d) := Track(st, OpOf(up, st.nextIndex));
    (st1.(toolCallsSeen := true), [if d.first then CallOpening(d.index, up.itemId, "", up.delta) else CallArgs(d.index, up.delta)])
  }

  function ChatTerminal(st: State, up: Up): Out
    requires up.UpTerminal?
  {
    var finish := TerminalReason(st.toolCallsSeen, "tool_calls", FinishFromStatus(if up.incomplete then "incomplete" else "completed"));
    (st, [FinishChunk(finish, ResponsesTokensFrom(up.input, up.output, up.details.cached, None, up.details.reasoning))])
  }

  function ChatUp(st: State, up: Up): Out
    requires st.tracker.Valid() && !up.UpFailed?
  {
    match up
    case UpCreated(id, model) => (Capture(st, id, model), [RoleChunk])
    case UpText(delta) => (st, [ContentChunk(delta)])
    case UpItem(_, _, _, _, _) => ChatItem(st, up)
    case UpArgs(_, _) => ChatArgs(st, up)
    case UpTerminal(_, _, _, _) => ChatTerminal(st, up)
    case UpOther => (st, [])
  }

  // ---- runs ----

  lemma ClaudeUpValid(st: State, up: Up)
    requires st.tracker.Valid() && !up.UpFailed?
    ensures ClaudeUp(st, up).0.tracker.Valid()
  {
    if TracksCall(up) {
      TrackValid(st, OpOf(up, st.nextIndex));
    }
  }

  lemma ChatUpValid(st: State, up: Up)
    requires st.tracker.Valid() && !up.UpFailed?
    ensures ChatUp(st, up).0.tracker.Valid()
  {
    if TracksCall(up) {
      TrackValid(st, OpOf(up, st.nextIndex));
    }
  }

  /** No upstream failure: the events before one are all there is. */
  predicate Healthy(ups: seq<Up>) {
    forall i :: 0 <= i < |ups| ==> !ups[i].UpFailed?
  }

  function RunClaude(ups: seq<Up>): (r: Out)
    requires Healthy(ups)
    ensures r.0.tracker.Valid()
    decreases |ups|
  {
    if ups == [] then (Fresh, [])
    else
      var a := RunClaude(ups[..|ups| - 1]);
      var b := ClaudeUp(a.0, ups[|ups| - 1]);
      ClaudeUpValid(a.0, ups[|ups| - 1]);
      (b.0, a.1 + b.1)
  }

  function RunChat(ups: seq<Up>): (r: Out)
    requires Healthy(ups)
    ensures r.0.tracker.Valid()
    decreases |ups|
  {
    if ups == [] then (Fresh, [])
    else
      var a := RunChat(ups[..|ups| - 1]);
      var b := ChatUp(a.0, ups[|ups| - 1]);
      ChatUpValid(a.0, ups[|ups| - 1]);
      (b.0, a.1 + b.1)
  }

  // ---- what the upstream says on its own ----

  function Text(ups: seq<Up>): string
    decreases |ups|
  {
    if ups == [] then ""
    else
      var up := ups[|ups| - 1];
      Text(ups[..|ups| - 1]) + if up.UpText? then up.delta else ""
  }

  /** The stage an orderly response is in; output before response.created, or a second one, is disorderly. */
  datatype Stage = Waiting | Running | Ended | Disorderly

  function NextStage(s: Stage, up: Up): Stage {
    if up.UpCreated? then (if s.Waiting? then Running else Disorderly)
    else if up.UpText? || TracksCall(up) then (if s.Running? then s else Disorderly)
    else if up.UpTerminal? then (if s.Running? then Ended else Disorderly)
    else s
  }

  function StageOf(ups: seq<Up>): Stage
    decreases |ups|
  {
    if ups == [] then Waiting else NextStage(StageOf(ups[..|ups| - 1]), ups[|ups| - 1])
  }

  /** A terminal event comes last, if at all. */
  predicate UpToTerminal(ups: seq<Up>) {
    Healthy(ups) && forall i :: 0 <= i < |ups| - 1 ==> !ups[i].UpTerminal?
  }
}
