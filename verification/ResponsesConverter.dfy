/** The Responses stream converter as the object it is. */
module ResponsesConverter {
  import opened Wire
  import opened Folds
  import LineFeed
  import S = SseFramer
  import T = ToolTracker
  import opened ResponsesStream
  import F = ResponsesFrames

  class StreamConverter {
    const framer: S.SSEFramer
    const source: string
    const decode: F.Decoder
    const failureOf: string -> Failure
    var id: string
    var model: string
    var toolCallsSeen: bool
    var textIndex: int
    var textOpen: bool
    var nextIndex: int
    var openBlocks: seq<int>
    const tracker: T.ToolCallTracker

    ghost predicate Valid()
      reads this, framer, tracker, tracker.owned
    {
      tracker.Valid() && framer.wantRaw == (source == "openai-response")
    }

    ghost function View(): State
      reads this, tracker
    {
      State(id, model, toolCallsSeen, textIndex, textOpen, nextIndex, openBlocks, tracker.view)
    }

    constructor (source: string, decode: F.Decoder, failureOf: string -> Failure)
      ensures Valid() && fresh(framer) && fresh(tracker) && tracker.owned == {}
      ensures View() == Fresh && framer.View() == S.Fresh && framer.buf == ""
      ensures this.source == source && this.decode == decode && this.failureOf == failureOf
    {
      this.source, this.decode, this.failureOf := source, decode, failureOf;
      framer := new S.SSEFramer(source == "openai-response");
      tracker := new T.ToolCallTracker();
      id, model, toolCallsSeen := "opencode-go", "", false;
      textIndex, textOpen, nextIndex, openBlocks := -1, false, 0, [];
    }

    /** Records an item event with the tracker; a new call consumes the next index. */
    method Observe(callId: string, itemId: string, args: string) returns (d: T.Decision)
      requires Valid()
      modifies this`nextIndex, tracker, tracker.owned
      ensures Valid() && fresh(tracker.owned - old(tracker.owned))
      ensures (View(), d) == Track(old(View()), T.Seen(callId, itemId, args, old(nextIndex)))
    {
      d := tracker.Observe(callId, itemId, args, nextIndex);
      if d.first {
        nextIndex := nextIndex + 1;
      }
    }

    method StreamArgs(itemId: string, delta: string) returns (d: T.Decision)
      requires Valid()
      modifies this`nextIndex, tracker, tracker.owned
      ensures Valid() && fresh(tracker.owned - old(tracker.owned))
      ensures (View(), d) == Track(old(View()), T.Fragment(itemId, delta, old(nextIndex)))
    {
      d := tracker.StreamArgs(itemId, delta, nextIndex);
      if d.first {
        nextIndex := nextIndex + 1;
      }
    }

    // ---- Messages target ----

    method StopEvents() returns (events: seq<Event>)
      ensures events == StopAll(openBlocks)
    {
      events := [];
      for n := 0 to |openBlocks|
        invariant events == StopAll(openBlocks[..n])
      {
        events := events + [BlockStop(openBlocks[n])];
      }
      assert openBlocks[..|openBlocks|] == openBlocks;
    }

    method CloseOpenBlocks() returns (events: seq<Event>)
      modifies this`openBlocks, this`textOpen
      ensures (View(), events) == CloseOpen(old(View()))
    {
      if |openBlocks| == 0 {
        return [];
      }
      events := StopEvents();
      openBlocks := [];
      textOpen := false;
    }

    method StartBlock(index: int, kind: BlockKind) returns (events: seq<Event>)
      modifies this`openBlocks, this`textOpen
      ensures (View(), events) == ResponsesStream.StartBlock(old(View()), index, kind)
    {
      events := CloseOpenBlocks();
      openBlocks := openBlocks + [index];
      events := events + [BlockStart(index, kind)];
    }

    method OpenTextBlock() returns (events: seq<Event>)
      modifies this`openBlocks, this`textOpen, this`textIndex, this`nextIndex
      ensures (View(), events) == OpenText(old(View()))
    {
      events := [];
      if !textOpen {
        events := StartBlock(nextIndex, TextKind);
        textIndex := nextIndex;
        nextIndex := nextIndex + 1;
        textOpen := true;
      }
    }

    method ClaudeTextDelta(delta: string) returns (events: seq<Event>)
      modifies this`openBlocks, this`textOpen, this`textIndex, this`nextIndex
      ensures (View(), events) == ClaudeText(old(View()), delta)
    {
      events := OpenTextBlock();
      events := events + [BlockDelta(textIndex, TextPart(delta))];
    }

    method AnnounceAndDeliver(d: T.Decision, id: string, name: string, part: Option<string>) returns (events: seq<Event>)
      modifies this`openBlocks, this`textOpen
      ensures (View(), events) == ClaudeCall(old(View()), d, id, name, part)
    {
      events := [];
      if d.first {
        events := StartBlock(d.index, ToolKind(id, name));
      }
      if part.Some? {
        events := events + [BlockDelta(d.index, JsonPart(part.value))];
      } else {
        assert events + [] == events;
      }
    }

    method ClaudeOutputItem(up: Up) returns (events: seq<Event>)
      requires Valid() && up.UpItem?
      modifies this, tracker, tracker.owned
      ensures Valid() && fresh(tracker.owned - old(tracker.owned)) && (View(), events) == ClaudeItem(old(View()), up)
    {
      if !up.isCall {
        return [];
      }
      toolCallsSeen := true;
      var d := Observe(up.callId, up.itemId, up.args);
      events := AnnounceAndDeliver(d, up.callId, up.name, if d.deliver then Some(up.args) else None);
    }

    method ClaudeArgsFragment(up: Up) returns (events: seq<Event>)
      requires Valid() && up.UpArgs?
      modifies this, tracker, tracker.owned
      ensures Valid() && fresh(tracker.owned - old(tracker.owned)) && (View(), events) == ClaudeArgs(old(View()), up)
    {
      var d := StreamArgs(up.itemId, up.delta);
      events := AnnounceAndDeliver(d, up.itemId, "", Some(up.delta));
    }

    method ClaudeTerminalEvents(up: Up) returns (events: seq<Event>)
      requires up.UpTerminal?
      modifies this`openBlocks
      ensures (View(), events) == ClaudeTerminal(old(View()), up)
    {
      var status := if up.incomplete then "incomplete" else "completed";
      var stop := TerminalReason(toolCallsSeen, "tool_use", ClaudeStopFromStatus(status));
      var cached, write := up.details.cached, up.details.cacheWrite;
      events := StopEvents();
      openBlocks := [];
      events := events + [
        MessageDelta(stop, ClaudeTokens(ClampSubtract(up.input, [cached, write]), up.output, cached, write)), MessageStop];
    }

    method CaptureResponse(id: string, model: string)
      modifies this`id, this`model
      ensures View() == Capture(old(View()), id, model)
    {
      if id != "" {
        this.id := id;
      }
      if model != "" {
        this.model := model;
      }
    }

    method ClaudeEvent(up: Up) returns (events: seq<Event>)
      requires Valid() && !up.UpFailed?
      modifies this, tracker, tracker.owned
      ensures Valid() && fresh(tracker.owned - old(tracker.owned)) && (View(), events) == ClaudeUp(old(View()), up)
    {
      match up
      case UpCreated(id, model) =>
        CaptureResponse(id, model);
        events := [MessageStart(this.id, this.model, 0)];
      case UpText(delta) => events := ClaudeTextDelta(delta);
      case UpItem(_, _, _, _, _) => events := ClaudeOutputItem(up);
      case UpArgs(_, _) => events := ClaudeArgsFragment(up);
      case UpTerminal(_, _, _, _) => events := ClaudeTerminalEvents(up);
      case UpOther => events := [];
    }

    // ---- Chat Completions target ----

    method ChatOutputItem(up: Up) returns (events: seq<Event>)
      requires Valid() && up.UpItem?
      modifies this, tracker, tracker.owned
      ensures Valid() && fresh(tracker.owned - old(tracker.owned)) && (View(), events) == ChatItem(old(View()), up)
    {
      if !up.isCall {
        return [];
      }
      toolCallsSeen := true;
      var d := Observe(up.callId, up.itemId, up.args);
      if d.first {
        var entryArgs := "";
        if d.deliver {
          entryArgs := up.args;
        }
        events := [CallOpening(d.index, up.callId, up.name, entryArgs)];
      } else if d.deliver {
        events := [CallArgs(d.index, up.args)];
      } else {
        events := [];
      }
    }

    method ChatArgsFragment(up: Up) returns (events: seq<Event>)
      requires Valid() && up.UpArgs?
      modifies this, tracker, tracker.owned
      ensures Valid() && fresh(tracker.owned - old(tracker.owned)) && (View(), events) == ChatArgs(old(View()), up)
    {
      var d := StreamArgs(up.itemId, up.delta);
      toolCallsSeen := true;
      if d.first {
        return [CallOpening(d.index, up.itemId, "", up.delta)];
      }
      events := [CallArgs(d.index, up.delta)];
    }

    method ChatEvent(up: Up) returns (events: seq<Event>)
      requires Valid() && !up.UpFailed?
      modifies this, tracker, tracker.owned
      ensures Valid() && fresh(tracker.owned - old(tracker.owned)) && (View(), events) == ChatUp(old(View()), up)
    {
      match up
      case UpCreated(id, model) =>
        CaptureResponse(id, model);
        events := [RoleChunk];
      case UpText(delta) => events := [ContentChunk(delta)];
      case UpItem(_, _, _, _, _) => events := ChatOutputItem(up);
      case UpArgs(_, _) => events := ChatArgsFragment(up);
      case UpTerminal(incomplete, input, output, details) =>
        var finish := TerminalReason(toolCallsSeen, "tool_calls", FinishFromStatus(if incomplete then "incomplete" else "completed"));
        events := [FinishChunk(finish, ResponsesTokensFrom(input, output, details.cached, None, details.reasoning))];
      case UpOther => events := [];
    }

    // ---- frames and chunks ----

    method ConvertEvent(frame: S.Frame) returns (events: seq<Event>, done: bool, failure: Option<Failure>)
      requires Valid() && source != "openai-response"
      modifies this, tracker, tracker.owned
      ensures Valid() && fresh(tracker.owned - old(tracker.owned))
      ensures F.Outcome(View(), events, done, failure) == F.HandleFrame(source, decode, failureOf, old(View()), frame)
    {
      events, done, failure := [], false, None;
      var r := decode(frame.eventType, frame.data);
      if r.Err? {
        return [], false, Some(r.error);
      }
      var up := r.value;
      if up.UpOther? {
        return;
      }
      if source != "openai" && source != "claude" {
        return [], false, Some(Unsupported);
      }
      if up.UpFailed? {
        return [], false, Some(up.failure);
      }
      if source == "openai" {
        events := ChatEvent(up);
      } else {
        events := ClaudeEvent(up);
      }
      done := up.UpTerminal?;
    }

    method PassthroughEvent(frame: S.Frame) returns (events: seq<Event>, done: bool, failure: Option<Failure>)
      requires Valid() && source == "openai-response"
      ensures F.Outcome(View(), events, done, failure) == F.HandleFrame(source, decode, failureOf, View(), frame)
    {
      if F.IsTerminalName(frame.eventType) {
        return [Raw(frame.raw)], true, None;
      }
      if F.IsFailureName(frame.eventType) {
        return [], false, Some(failureOf(frame.data));
      }
      events, done, failure := [Raw(frame.raw)], false, None;
    }

    method HandleOneFrame(frame: S.Frame) returns (events: seq<Event>, done: bool, failure: Option<Failure>)
      requires Valid()
      modifies this, tracker, tracker.owned
      ensures Valid() && fresh(tracker.owned - old(tracker.owned))
      ensures F.Outcome(View(), events, done, failure) == F.HandleFrame(source, decode, failureOf, old(View()), frame)
    {
      if source == "openai-response" {
        events, done, failure := PassthroughEvent(frame);
      } else {
        events, done, failure := ConvertEvent(frame);
      }
    }

    /** The frame just taken is handled; `taken` are the frames before it. */
    method FeedFrame(events: seq<Event>, done: bool, frame: S.Frame, ghost st: State, ghost taken: seq<S.Frame>)
      returns (all: seq<Event>, now: bool, failure: Option<Failure>)
      requires Valid() && st.tracker.Valid()
      requires F.Outcome(View(), events, done, None) == F.HandleFrames(source, decode, failureOf, st, taken)
      modifies this, tracker, tracker.owned
      ensures Valid() && fresh(tracker.owned - old(tracker.owned))
      ensures F.Outcome(View(), all, now, failure) == F.HandleFrames(source, decode, failureOf, st, taken + [frame])
    {
      F.HandleNext(source, decode, failureOf, st, taken, frame);
      var more, d;
      more, d, failure := HandleOneFrame(frame);
      all := events + more;
      now := failure.None? && (done || d);
    }

    /** The next frame, tied to what was taken before. */
    method TakeFrame(ghost b: S.Block, ghost bytes: string, ghost taken: seq<S.Frame>) returns (frame: Option<S.Frame>)
      requires S.Advances(framer.wantRaw, b, bytes, taken, framer.View(), framer.buf)
      modifies framer
      ensures S.Advances(framer.wantRaw, b, bytes, taken + S.Emitted(frame), framer.View(), framer.buf)
      ensures frame.Some? ==> |framer.buf| < |old(framer.buf)|
      ensures frame.None? ==>
                LineFeed.Drain(S.Handler(framer.wantRaw), b, LineFeed.Lines(bytes)) == LineFeed.Feed(framer.View(), taken, LineFeed.Open) &&
                framer.buf == LineFeed.Tail(bytes)
    {
      frame := framer.Next();
      S.AdvanceThen(framer.wantRaw, b, bytes, taken, old(framer.View()), old(framer.buf), S.Emitted(frame), framer.View(), framer.buf);
      if frame.None? {
        assert taken + [] == taken;
        S.AdvanceEnd(framer.wantRaw, b, bytes, taken, framer.View(), framer.buf);
      }
    }

    /** After a failure the frames still buffered no longer matter. */
    lemma {:induction false} FailedIsFinal(b: S.Block, bytes: string, taken: seq<S.Frame>, st: State)
      requires S.Advances(framer.wantRaw, b, bytes, taken, framer.View(), framer.buf) && st.tracker.Valid()
      requires F.HandleFrames(source, decode, failureOf, st, taken).failure.Some?
      ensures F.HandleFrames(source, decode, failureOf, st, LineFeed.Drain(S.Handler(framer.wantRaw), b, LineFeed.Lines(bytes)).events)
           == F.HandleFrames(source, decode, failureOf, st, taken)
    {
      S.AdvanceRest(framer.wantRaw, b, bytes, taken, framer.View(), framer.buf);
      F.HandleAppend(source, decode, failureOf, st, taken,
                     LineFeed.Drain(S.Handler(framer.wantRaw), framer.View(), LineFeed.Lines(framer.buf)).events);
    }

    /** The frames taken so far and what became of them. */
    ghost predicate Midway(st: State, b: S.Block, bytes: string, taken: seq<S.Frame>, o: F.Outcome)
      requires st.tracker.Valid()
      reads framer
    {
      && S.Advances(framer.wantRaw, b, bytes, taken, framer.View(), framer.buf)
      && o == F.HandleFrames(source, decode, failureOf, st, taken)
    }

    /** One turn of Feed's loop; `more` is false when the buffer holds no further frame. */
    method FeedNext(events: seq<Event>, done: bool, ghost st: State, ghost b: S.Block, ghost bytes: string, ghost taken: seq<S.Frame>)
      returns (all: seq<Event>, now: bool, failure: Option<Failure>, more: bool, ghost taken': seq<S.Frame>)
      requires Valid() && st.tracker.Valid() && Midway(st, b, bytes, taken, F.Outcome(View(), events, done, None))
      modifies this, framer, tracker, tracker.owned
      ensures Valid() && fresh(tracker.owned - old(tracker.owned))
      ensures Midway(st, b, bytes, taken', F.Outcome(View(), all, now, failure))
      ensures failure.Some? || !more ==> Fed(F.Outcome(View(), all, now, failure), st, b, bytes, framer.View(), framer.buf)
      ensures more ==> |framer.buf| < |old(framer.buf)|
      ensures !more ==> failure.None?
    {
      var frame := TakeFrame(b, bytes, taken);
      if frame.None? {
        assert taken + [] == taken;
        return events, done, None, false, taken;
      }
      taken' := taken + [frame.value];
      all, now, failure := FeedFrame(events, done, frame.value, st, taken);
      more := true;
      if failure.Some? {
        FailedIsFinal(b, bytes, taken', st);
      }
    }

    /** One network chunk: every frame it completes, even after a terminal one, up to a failure. */
    method Feed(chunk: string) returns (events: seq<Event>, done: bool, failure: Option<Failure>)
      requires Valid()
      modifies this, framer, tracker, tracker.owned
      ensures Valid() && fresh(tracker.owned - old(tracker.owned))
      ensures Fed(F.Outcome(View(), events, done, failure), old(View()), old(framer.View()), old(framer.buf) + chunk, framer.View(), framer.buf)
    {
      framer.Push(chunk);
      events, done := [], false;
      ghost var st, b, bytes, taken: seq<S.Frame> := View(), framer.View(), framer.buf, [];
      LineFeed.HalfwayStart(S.Handler(framer.wantRaw), b, bytes);
      while true
        invariant Valid() && fresh(tracker.owned - old(tracker.owned))
        invariant Midway(st, b, bytes, taken, F.Outcome(View(), events, done, None))
        decreases |framer.buf|
      {
        var more: bool;
        events, done, failure, more, taken := FeedNext(events, done, st, b, bytes, taken);
        if failure.Some? || !more {
          return;
        }
      }
    }

    /** What Feed hands out is the conversion of the frames `bytes` complete; the framer keeps the rest. */
    ghost predicate Fed(o: F.Outcome, st: State, b: S.Block, bytes: string, now: S.Block, buf: string)
      requires st.tracker.Valid()
    {
      var f := LineFeed.Drain(S.Handler(framer.wantRaw), b, LineFeed.Lines(bytes));
      && o == F.HandleFrames(source, decode, failureOf, st, f.events)
      && (o.failure.None? ==> now == f.state && buf == LineFeed.Tail(bytes))
    }
  }
}
