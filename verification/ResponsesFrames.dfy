/** Responses upstream, from bytes: frames decode to upstream events, and failures end the stream. */
module ResponsesFrames {
  import opened Wire
  import opened Folds
  import LineFeed
  import S = SseFramer
  import opened ResponsesStream

  /** Decodes a named payload; a malformed one is an error, an unknown name is `UpOther`. */
  type Decoder = (string, string) -> Result<Up, Failure>

  /** What happened so far: `done` once a terminal event was seen, and no longer once something failed. */
  datatype Outcome = Outcome(state: State, events: seq<Event>, done: bool, failure: Option<Failure>) {
    predicate Valid() {
      state.tracker.Valid()
    }
  }

  /** Conversion of one decoded event; only informational events pass an unknown target. */
  function HandleUp(source: string, st: State, up: Up): (o: Outcome)
    requires st.tracker.Valid()
    ensures o.Valid()
  {
    if up.UpOther? then Outcome(st, [], false, None)
    else if source != "openai" && source != "claude" then Outcome(st, [], false, Some(Unsupported))
    else if up.UpFailed? then Outcome(st, [], false, Some(up.failure))
    else
      var out := if source == "openai" then ChatUp(st, up) else ClaudeUp(st, up);
      ClaudeUpValid(st, up);
      ChatUpValid(st, up);
      Outcome(out.0, out.1, up.UpTerminal?, None)
  }

  predicate IsTerminalName(name: string) {
    name == "response.completed" || name == "response.incomplete"
  }

  predicate IsFailureName(name: string) {
    name == "response.failed" || name == "error"
  }

  /** Native frames are echoed verbatim; only failures are looked into. */
  function PassFrame(failureOf: string -> Failure, st: State, f: S.Frame): (o: Outcome)
    requires st.tracker.Valid()
    ensures o.Valid()
  {
    if IsTerminalName(f.eventType) then Outcome(st, [Raw(f.raw)], true, None)
    else if IsFailureName(f.eventType) then Outcome(st, [], false, Some(failureOf(f.data)))
    else Outcome(st, [Raw(f.raw)], false, None)
  }

  function HandleFrame(source: string, decode: Decoder, failureOf: string -> Failure, st: State, f: S.Frame): (o: Outcome)
    requires st.tracker.Valid()
    ensures o.Valid()
  {
    if source == "openai-response" then PassFrame(failureOf, st, f)
    else
      match decode(f.eventType, f.data)
      case Err(e) => Outcome(st, [], false, Some(e))
      case Ok(up) => HandleUp(source, st, up)
  }

  function Then(a: Outcome, b: Outcome): Outcome {
    Outcome(b.state, a.events + b.events, b.failure.None? && (a.done || b.done), b.failure)
  }

  /** All frames in order; the first failure ends it. */
  function HandleFrames(source: string, decode: Decoder, failureOf: string -> Failure, st: State, frames: seq<S.Frame>): (o: Outcome)
    requires st.tracker.Valid()
    ensures o.Valid()
    decreases |frames|
  {
    if frames == [] then Outcome(st, [], false, None)
    else
      var a := HandleFrames(source, decode, failureOf, st, frames[..|frames| - 1]);
      if a.failure.Some? then a else Then(a, HandleFrame(source, decode, failureOf, a.state, frames[|frames| - 1]))
  }

  /** Handling one more frame. */
  function More(source: string, decode: Decoder, failureOf: string -> Failure, o: Outcome, f: S.Frame): Outcome
    requires o.Valid()
  {
    if o.failure.Some? then o else Then(o, HandleFrame(source, decode, failureOf, o.state, f))
  }

  lemma {:induction false} HandleNext(source: string, decode: Decoder, failureOf: string -> Failure, st: State, frames: seq<S.Frame>, f: S.Frame)
    requires st.tracker.Valid()
    ensures HandleFrames(source, decode, failureOf, st, frames + [f]) == More(source, decode, failureOf, HandleFrames(source, decode, failureOf, st, frames), f)
  {
    assert (frames + [f])[..|frames|] == frames;
  }

  /** Handling `b` after `a`. */
  ghost predicate Appends(source: string, decode: Decoder, failureOf: string -> Failure, st: State, a: seq<S.Frame>, b: seq<S.Frame>)
    requires st.tracker.Valid()
  {
    var o := HandleFrames(source, decode, failureOf, st, a);
    HandleFrames(source, decode, failureOf, st, a + b) ==
    if o.failure.Some? then o else Then(o, HandleFrames(source, decode, failureOf, o.state, b))
  }

  lemma AppendNext(source: string, decode: Decoder, failureOf: string -> Failure, st: State, a: seq<S.Frame>, b: seq<S.Frame>, f: S.Frame, all: seq<S.Frame>)
    requires st.tracker.Valid() && Appends(source, decode, failureOf, st, a, b) && all == b + [f]
    ensures Appends(source, decode, failureOf, st, a, all)
  {
    var o := HandleFrames(source, decode, failureOf, st, a);
    Assoc(a, b, [f]);
    HandleNext(source, decode, failureOf, st, a + b, f);
    if o.failure.None? {
      HandleNext(source, decode, failureOf, o.state, b, f);
      var m := HandleFrames(source, decode, failureOf, o.state, b);
      if m.failure.None? {
        Assoc(o.events, m.events, HandleFrame(source, decode, failureOf, m.state, f).events);
      }
    }
  }

  lemma {:induction false} HandleAppend(
    source: string, decode: Decoder, failureOf: string -> Failure, st: State, a: seq<S.Frame>, b: seq<S.Frame>)
    requires st.tracker.Valid()
    ensures Appends(source, decode, failureOf, st, a, b)
    decreases |b|
  {
    if b == [] {
      var o := HandleFrames(source, decode, failureOf, st, a);
      assert a + b == a && o.events + [] == o.events;
    } else {
      HandleAppend(source, decode, failureOf, st, a, b[..|b| - 1]);
      AppendNext(source, decode, failureOf, st, a, b[..|b| - 1], b[|b| - 1], b);
    }
  }

  // ---- any split of the bytes ----

  /** A caller that feeds chunk after chunk until a failure. */
  datatype Feeding = Feeding(outcome: Outcome, framer: S.Block, buf: string)

  function FeedParts(source: string, decode: Decoder, failureOf: string -> Failure, parts: seq<string>): (r: Feeding)
    ensures r.outcome.Valid()
    decreases |parts|
  {
    if parts == [] then Feeding(Outcome(Fresh, [], false, None), S.Fresh, "")
    else
      var a := FeedParts(source, decode, failureOf, parts[..|parts| - 1]);
      if a.outcome.failure.Some? then a
      else
        var bytes := a.buf + parts[|parts| - 1];
        var f := LineFeed.Drain(S.Handler(source == "openai-response"), a.framer, LineFeed.Lines(bytes));
        Feeding(Then(a.outcome, HandleFrames(source, decode, failureOf, a.outcome.state, f.events)), f.state, LineFeed.Tail(bytes))
  }

  /** The frames of a byte stream. */
  function FramesOf(source: string, parts: seq<string>): seq<S.Frame> {
    LineFeed.FeedChunks(S.Handler(source == "openai-response"), S.Fresh, parts).feed.events
  }

  ghost predicate InStep(source: string, decode: Decoder, failureOf: string -> Failure, parts: seq<string>) {
    var r := FeedParts(source, decode, failureOf, parts);
    var g := LineFeed.FeedChunks(S.Handler(source == "openai-response"), S.Fresh, parts);
    && g.feed.status.Open?
    && r.outcome == HandleFrames(source, decode, failureOf, Fresh, g.feed.events)
    && (r.outcome.failure.None? ==> r.framer == g.feed.state && r.buf == g.buf)
  }

  lemma {:induction false} AlwaysOpen(wantRaw: bool, b: S.Block, lines: seq<string>)
    ensures LineFeed.Drain(S.Handler(wantRaw), b, lines).status.Open?
    decreases |lines|
  {
    if lines != [] {
      AlwaysOpen(wantRaw, b, lines[..|lines| - 1]);
    }
  }

  /**
   * Any split of any byte stream: what the caller has received is the conversion of the frames of
   * all bytes, so it does not depend on where the bytes were split.
   */
  lemma {:induction false} FeedIsConversion(source: string, decode: Decoder, failureOf: string -> Failure, parts: seq<string>)
    ensures InStep(source, decode, failureOf, parts)
    decreases |parts|
  {
    if parts != [] {
      var n := |parts| - 1;
      var h := S.Handler(source == "openai-response");
      FeedIsConversion(source, decode, failureOf, parts[..n]);
      var g := LineFeed.FeedChunks(h, S.Fresh, parts[..n]);
      var more := LineFeed.Drain(h, g.feed.state, LineFeed.Lines(g.buf + parts[n]));
      AlwaysOpen(source == "openai-response", g.feed.state, LineFeed.Lines(g.buf + parts[n]));
      HandleAppend(source, decode, failureOf, Fresh, g.feed.events, more.events);
    }
  }

  lemma {:induction false} SplitsAgree(source: string, decode: Decoder, failureOf: string -> Failure, one: seq<string>, other: seq<string>)
    requires Concat(one) == Concat(other)
    ensures FeedParts(source, decode, failureOf, one).outcome == FeedParts(source, decode, failureOf, other).outcome
  {
    FeedIsConversion(source, decode, failureOf, one);
    FeedIsConversion(source, decode, failureOf, other);
    LineFeed.TwoSplitsAgree(S.Handler(source == "openai-response"), S.Fresh, one, other);
  }

  // ---- what a healthy stream delivers ----

  /** Every frame decodes, to an event that is not a failure. */
  predicate Decodes(decode: Decoder, frames: seq<S.Frame>) {
    forall i :: 0 <= i < |frames| ==>
      var r := decode(frames[i].eventType, frames[i].data); r.Ok? && !r.value.UpFailed?
  }

  function UpsOf(decode: Decoder, frames: seq<S.Frame>): (ups: seq<Up>)
    requires Decodes(decode, frames)
    ensures Healthy(ups)
  {
    seq(|frames|, i requires 0 <= i < |frames| && decode(frames[i].eventType, frames[i].data).Ok? =>
      decode(frames[i].eventType, frames[i].data).value)
  }

  lemma {:induction false} HealthyRun(source: string, decode: Decoder, failureOf: string -> Failure, frames: seq<S.Frame>)
    requires Decodes(decode, frames) && (source == "claude" || source == "openai")
    ensures var o := HandleFrames(source, decode, failureOf, Fresh, frames);
            && o.failure.None?
            && (o.state, o.events) == if source == "claude" then RunClaude(UpsOf(decode, frames)) else RunChat(UpsOf(decode, frames))
    decreases |frames|
  {
    if frames != [] {
      var n := |frames| - 1;
      HealthyRun(source, decode, failureOf, frames[..n]);
      UpsOfLast(decode, frames);
      HealthyFrame(source, decode, failureOf, HandleFrames(source, decode, failureOf, Fresh, frames[..n]).state, frames[n]);
    }
  }

  lemma UpsOfLast(decode: Decoder, frames: seq<S.Frame>)
    requires Decodes(decode, frames) && frames != []
    ensures var n, ups := |frames| - 1, UpsOf(decode, frames);
            |ups| == n + 1 && ups[..n] == UpsOf(decode, frames[..n]) && Ok(ups[n]) == decode(frames[n].eventType, frames[n].data)
  {
  }

  lemma HealthyFrame(source: string, decode: Decoder, failureOf: string -> Failure, st: State, f: S.Frame)
    requires st.tracker.Valid() && (source == "claude" || source == "openai")
    requires var r := decode(f.eventType, f.data); r.Ok? && !r.value.UpFailed?
    ensures var o, up := HandleFrame(source, decode, failureOf, st, f), decode(f.eventType, f.data).value;
            o.failure.None? && (o.state, o.events) == if source == "claude" then ClaudeUp(st, up) else ChatUp(st, up)
  {
    assert "claude"[0] != "openai"[0];
  }

  // ---- how a stream ends ----

  /** The failure a frame stands for: its payload is malformed, or it reports one. */
  function FailureIn(decode: Decoder, f: S.Frame): Option<Failure> {
    match decode(f.eventType, f.data)
    case Err(e) => Some(e)
    case Ok(up) => if up.UpFailed? then Some(up.failure) else None
  }

  /** The first frame that stands for a failure. */
  function FirstBad(decode: Decoder, frames: seq<S.Frame>): (n: nat)
    ensures n <= |frames| && Decodes(decode, frames[..n]) && (n < |frames| ==> FailureIn(decode, frames[n]).Some?)
    decreases |frames|
  {
    if frames == [] then 0
    else
      var last := |frames| - 1;
      var m := FirstBad(decode, frames[..last]);
      assert frames[..last][..m] == frames[..m];
      if m < last then m else if FailureIn(decode, frames[last]).Some? then last else last + 1
  }

  predicate Ended(ups: seq<Up>) {
    exists i :: 0 <= i < |ups| && ups[i].UpTerminal?
  }

  lemma {:induction false} HealthyDone(source: string, decode: Decoder, failureOf: string -> Failure, frames: seq<S.Frame>)
    requires Decodes(decode, frames) && (source == "claude" || source == "openai")
    ensures HandleFrames(source, decode, failureOf, Fresh, frames).done == Ended(UpsOf(decode, frames))
    decreases |frames|
  {
    if frames != [] {
      var n := |frames| - 1;
      HealthyDone(source, decode, failureOf, frames[..n]);
      HealthyRun(source, decode, failureOf, frames[..n]);
      EndedLast(UpsOf(decode, frames), UpsOf(decode, frames[..n]));
      HandledDone(source, decode, failureOf, HandleFrames(source, decode, failureOf, Fresh, frames[..n]).state, frames[n]);
    }
  }

  lemma EndedLast(ups: seq<Up>, before: seq<Up>)
    requires ups != [] && before == ups[..|ups| - 1]
    ensures Ended(ups) <==> Ended(before) || ups[|ups| - 1].UpTerminal?
  {
    assert forall i :: 0 <= i < |before| ==> before[i] == ups[i];
  }

  lemma HandledDone(source: string, decode: Decoder, failureOf: string -> Failure, st: State, f: S.Frame)
    requires st.tracker.Valid() && FailureIn(decode, f).None? && (source == "claude" || source == "openai")
    ensures var o := HandleFrame(source, decode, failureOf, st, f);
            o.failure.None? && (o.done <==> decode(f.eventType, f.data).value.UpTerminal?)
  {
  }

  /** After a failure nothing is handled. */
  lemma {:induction false} FailureStays(source: string, decode: Decoder, failureOf: string -> Failure, frames: seq<S.Frame>, n: nat)
    requires n <= |frames| && HandleFrames(source, decode, failureOf, Fresh, frames[..n]).failure.Some?
    ensures HandleFrames(source, decode, failureOf, Fresh, frames) == HandleFrames(source, decode, failureOf, Fresh, frames[..n])
    decreases |frames|
  {
    if n < |frames| {
      assert frames[..|frames| - 1][..n] == frames[..n];
      FailureStays(source, decode, failureOf, frames[..|frames| - 1], n);
    } else {
      assert frames[..n] == frames;
    }
  }

  /** The `n`-th frame fails: what came before it is the outcome, with that failure. */
  lemma {:induction false} FailsAt(source: string, decode: Decoder, failureOf: string -> Failure, frames: seq<S.Frame>, n: nat, e: Failure)
    requires n < |frames| && HandleFrames(source, decode, failureOf, Fresh, frames[..n]).failure.None?
    requires var o := HandleFrames(source, decode, failureOf, Fresh, frames[..n]);
             HandleFrame(source, decode, failureOf, o.state, frames[n]) == Outcome(o.state, [], false, Some(e))
    ensures var o := HandleFrames(source, decode, failureOf, Fresh, frames[..n]);
            HandleFrames(source, decode, failureOf, Fresh, frames) == Outcome(o.state, o.events, false, Some(e))
  {
    var o := HandleFrames(source, decode, failureOf, Fresh, frames[..n]);
    HandleNext(source, decode, failureOf, Fresh, frames[..n], frames[n]);
    assert frames[..n] + [frames[n]] == frames[..n + 1];
    assert o.events + [] == o.events;
    FailureStays(source, decode, failureOf, frames, n + 1);
  }

  lemma BadFrame(source: string, decode: Decoder, failureOf: string -> Failure, st: State, f: S.Frame)
    requires st.tracker.Valid() && FailureIn(decode, f).Some? && (source == "claude" || source == "openai")
    ensures HandleFrame(source, decode, failureOf, st, f) == Outcome(st, [], false, FailureIn(decode, f))
  {
    assert "claude"[0] != "openai"[0];
  }

  /** What came before the first failure, that failure, and whether a terminal event was seen and nothing failed. */
  predicate Told(source: string, decode: Decoder, frames: seq<S.Frame>, o: Outcome) {
    var n := FirstBad(decode, frames);
    var ups := UpsOf(decode, frames[..n]);
    && (o.state, o.events) == (if source == "claude" then RunClaude(ups) else RunChat(ups))
    && o.failure == (if n < |frames| then FailureIn(decode, frames[n]) else None)
    && (o.done <==> n == |frames| && Ended(ups))
  }

  lemma {:induction false} FramesTold(source: string, decode: Decoder, failureOf: string -> Failure, frames: seq<S.Frame>)
    requires source == "claude" || source == "openai"
    ensures Told(source, decode, frames, HandleFrames(source, decode, failureOf, Fresh, frames))
  {
    var n := FirstBad(decode, frames);
    HealthyRun(source, decode, failureOf, frames[..n]);
    HealthyDone(source, decode, failureOf, frames[..n]);
    if n < |frames| {
      BadFrame(source, decode, failureOf, HandleFrames(source, decode, failureOf, Fresh, frames[..n]).state, frames[n]);
      FailsAt(source, decode, failureOf, frames, n, FailureIn(decode, frames[n]).value);
    } else {
      assert frames[..n] == frames;
    }
  }

  /**
   * Both targets, every byte stream, however split: the client receives the run over the events up to
   * the first malformed payload or reported failure, which becomes the outcome; the stream is done
   * exactly when a terminal event was seen and nothing failed, before it or after.
   */
  lemma {:induction false} OutcomeFromBytes(source: string, decode: Decoder, failureOf: string -> Failure, parts: seq<string>)
    requires source == "claude" || source == "openai"
    ensures Told(source, decode, FramesOf(source, parts), FeedParts(source, decode, failureOf, parts).outcome)
  {
    FeedIsConversion(source, decode, failureOf, parts);
    FramesTold(source, decode, failureOf, FramesOf(source, parts));
  }

  /** Every frame decodes, to an event that is only informational. */
  predicate Informational(decode: Decoder, frames: seq<S.Frame>) {
    forall i :: 0 <= i < |frames| ==> decode(frames[i].eventType, frames[i].data) == Ok(UpOther)
  }

  /** An unknown target fails with the first event that it would have to convert, or the malformed payload before it. */
  lemma {:induction false} UnknownTargetFails(source: string, decode: Decoder, failureOf: string -> Failure, frames: seq<S.Frame>, n: nat)
    requires source != "claude" && source != "openai" && source != "openai-response"
    requires n <= |frames| && Informational(decode, frames[..n]) && (n < |frames| ==> !Informational(decode, [frames[n]]))
    ensures var o := HandleFrames(source, decode, failureOf, Fresh, frames);
            && o.events == [] && o.state == Fresh && !o.done
            && o.failure == (if n == |frames| then None
                             else Some(match decode(frames[n].eventType, frames[n].data) case Err(e) => e case Ok(_) => Unsupported))
    decreases |frames|
  {
    if frames != [] {
      var last := |frames| - 1;
      if n <= last {
        assert frames[..last][..n] == frames[..n];
        if n < last {
          UnknownTargetFails(source, decode, failureOf, frames[..last], n);
        } else {
          UnknownTargetFails(source, decode, failureOf, frames[..last], last);
          assert [frames[n]][0] == frames[n];
        }
      } else {
        assert frames[..n] == frames && Informational(decode, frames[..last]);
        UnknownTargetFails(source, decode, failureOf, frames[..last], last);
      }
    }
  }

  /** The Messages client of a healthy byte stream, however split, receives the run over its events. */
  lemma {:induction false} ClaudeFromBytes(decode: Decoder, failureOf: string -> Failure, parts: seq<string>)
    requires Decodes(decode, FramesOf("claude", parts))
    ensures FeedParts("claude", decode, failureOf, parts).outcome.events == RunClaude(UpsOf(decode, FramesOf("claude", parts))).1
  {
    FeedIsConversion("claude", decode, failureOf, parts);
    HealthyRun("claude", decode, failureOf, FramesOf("claude", parts));
  }

  lemma {:induction false} ChatFromBytes(decode: Decoder, failureOf: string -> Failure, parts: seq<string>)
    requires Decodes(decode, FramesOf("openai", parts))
    ensures FeedParts("openai", decode, failureOf, parts).outcome.events == RunChat(UpsOf(decode, FramesOf("openai", parts))).1
  {
    FeedIsConversion("openai", decode, failureOf, parts);
    HealthyRun("openai", decode, failureOf, FramesOf("openai", parts));
  }

  // ---- passthrough is verbatim ----

  function RawBytes(es: seq<Event>): string
    decreases |es|
  {
    if es == [] then ""
    else RawBytes(es[..|es| - 1]) + if es[|es| - 1].Raw? then es[|es| - 1].bytes else ""
  }

  function Terminated(frames: seq<S.Frame>): bool
    decreases |frames|
  {
    frames != [] && (Terminated(frames[..|frames| - 1]) || IsTerminalName(frames[|frames| - 1].eventType))
  }

  predicate Echoed(o: Outcome, frames: seq<S.Frame>) {
    o.failure.None? && RawBytes(o.events) == S.Raws(frames) && o.done == Terminated(frames)
  }

  lemma EchoedNext(failureOf: string -> Failure, o: Outcome, frames: seq<S.Frame>, f: S.Frame)
    requires Echoed(o, frames) && o.Valid() && !IsFailureName(f.eventType)
    ensures Echoed(Then(o, PassFrame(failureOf, o.state, f)), frames + [f])
  {
    assert (o.events + [Raw(f.raw)])[..|o.events|] == o.events;
    assert (frames + [f])[..|frames|] == frames;
  }

  lemma {:induction false} PassEchoes(decode: Decoder, failureOf: string -> Failure, frames: seq<S.Frame>)
    requires forall f :: f in frames ==> !IsFailureName(f.eventType)
    ensures Echoed(HandleFrames("openai-response", decode, failureOf, Fresh, frames), frames)
    decreases |frames|
  {
    if frames != [] {
      var before, f := frames[..|frames| - 1], frames[|frames| - 1];
      PassEchoes(decode, failureOf, before);
      EchoedNext(failureOf, HandleFrames("openai-response", decode, failureOf, Fresh, before), before, f);
      assert before + [f] == frames;
    }
  }

  /**
   * Native passthrough without a failure frame: the bytes the client receives, the block being
   * captured and the partial line are exactly the bytes the upstream sent, however split.
   */
  lemma {:induction false} PassthroughIsVerbatim(decode: Decoder, failureOf: string -> Failure, parts: seq<string>)
    requires forall f :: f in FramesOf("openai-response", parts) ==> !IsFailureName(f.eventType)
    ensures var r := FeedParts("openai-response", decode, failureOf, parts);
            RawBytes(r.outcome.events) + r.framer.raw + r.buf == Concat(parts)
  {
    FeedIsConversion("openai-response", decode, failureOf, parts);
    PassEchoes(decode, failureOf, FramesOf("openai-response", parts));
    S.RawIsLossless(parts);
  }

  /** The frame reports a failure. */
  predicate Reports(f: S.Frame) {
    f.eventType == "response.failed" || f.eventType == "error"
  }

  predicate NoneReports(frames: seq<S.Frame>) {
    forall i :: 0 <= i < |frames| ==> !Reports(frames[i])
  }

  /** Some frame says that the response is over. */
  predicate SaysOver(frames: seq<S.Frame>) {
    exists i :: 0 <= i < |frames| && (frames[i].eventType == "response.completed" || frames[i].eventType == "response.incomplete")
  }

  lemma {:induction false} TerminatedIff(frames: seq<S.Frame>)
    ensures Terminated(frames) <==> SaysOver(frames)
    decreases |frames|
  {
    if frames != [] {
      var before := frames[..|frames| - 1];
      TerminatedIff(before);
      assert forall i :: 0 <= i < |before| ==> before[i] == frames[i];
    }
  }

  /**
   * Native passthrough, every byte stream: the frames before the first failure frame are echoed
   * verbatim, that frame becomes the failure, and without one the stream is done exactly when a frame
   * said that the response is over.
   */
  lemma {:induction false} PassthroughOutcome(decode: Decoder, failureOf: string -> Failure, parts: seq<string>, n: nat)
    requires var frames := FramesOf("openai-response", parts);
             n <= |frames| && NoneReports(frames[..n]) && (n < |frames| ==> Reports(frames[n]))
    ensures var frames, o := FramesOf("openai-response", parts), FeedParts("openai-response", decode, failureOf, parts).outcome;
            && RawBytes(o.events) == S.Raws(frames[..n])
            && o.failure == (if n < |frames| then Some(failureOf(frames[n].data)) else None)
            && (o.done <==> n == |frames| && SaysOver(frames))
  {
    var frames := FramesOf("openai-response", parts);
    FeedIsConversion("openai-response", decode, failureOf, parts);
    assert forall f :: f in frames[..n] ==> !IsFailureName(f.eventType);
    PassEchoes(decode, failureOf, frames[..n]);
    TerminatedIff(frames[..n]);
    if n < |frames| {
      FailsAt("openai-response", decode, failureOf, frames, n, failureOf(frames[n].data));
    } else {
      assert frames[..n] == frames;
    }
  }
}
