/** Messages upstream, from bytes: frames decode to upstream events until the stream stops or fails. */
module MessagesFrames {
  import opened Wire
  import opened Folds
  import LF = LineFeed
  import S = SseFramer
  import opened MessagesStream
  import opened MessagesChat

  /** Decodes a named payload, taking the name from the payload when the event line was absent. */
  type Decoder = (string, string) -> Result<Up, Failure>

  /** What the passthrough looks at: the type named in a payload, and the failure an error payload means. */
  datatype Probe = Probe(typeOf: string -> string, failureOf: string -> Failure)

  /** Event blocks pass verbatim; an in-stream error becomes a failure instead. */
  function PassFrame(probe: Probe, st: State, f: S.Frame): Outcome {
    var name := if f.eventType == "" && f.data != "" then probe.typeOf(f.data) else f.eventType;
    if name == "error" then LF.Feed(st, [], LF.Failed(probe.failureOf(f.data)))
    else LF.Feed(st, if f.raw != "" then [Raw(f.raw)] else [], if name == "message_stop" then LF.Done else LF.Open)
  }

  /** The two conversion targets. */
  predicate Converting(format: string) {
    format == "openai" || format == "openai-response"
  }

  function DispatchTo(format: string, st: State, up: Up): Outcome {
    if format == "openai" then DispatchChat(st, up) else Dispatch(st, up)
  }

  function RunTo(format: string, ups: seq<Up>): Outcome {
    if format == "openai" then RunChat(ups) else Run(ups)
  }

  /** A malformed payload is reported before an unknown target. */
  function HandleFrame(format: string, decode: Decoder, probe: Probe, st: State, f: S.Frame): Outcome {
    if format == "claude" then Noted(PassFrame(probe, st, f))
    else
      match decode(f.eventType, f.data)
      case Err(e) => LF.Feed(st, [], LF.Failed(e))
      case Ok(up) => if Converting(format) then Noted(DispatchTo(format, st, up)) else LF.Feed(st, [], LF.Failed(Unsupported))
  }

  function Handler(format: string, decode: Decoder, probe: Probe): (State, S.Frame) -> Outcome {
    (st: State, f: S.Frame) => HandleFrame(format, decode, probe, st, f)
  }

  function HandleFrames(format: string, decode: Decoder, probe: Probe, st: State, frames: seq<S.Frame>): Outcome {
    LF.Drain(Handler(format, decode, probe), st, frames)
  }

  // ---- any split of the bytes ----

  /** A caller that feeds chunk after chunk until the stream is done or has failed. */
  datatype Feeding = Feeding(outcome: Outcome, framer: S.Block, buf: string)

  function FeedParts(format: string, decode: Decoder, probe: Probe, parts: seq<string>): Feeding
    decreases |parts|
  {
    if parts == [] then Feeding(LF.Feed(Fresh, [], LF.Open), S.Fresh, "")
    else
      var a := FeedParts(format, decode, probe, parts[..|parts| - 1]);
      if !a.outcome.status.Open? then a
      else
        var bytes := a.buf + parts[|parts| - 1];
        var f := LF.Drain(S.Handler(format == "claude"), a.framer, LF.Lines(bytes));
        Feeding(LF.Then(a.outcome, HandleFrames(format, decode, probe, a.outcome.state, f.events)), f.state, LF.Tail(bytes))
  }

  function FramesOf(format: string, parts: seq<string>): seq<S.Frame> {
    LF.FeedChunks(S.Handler(format == "claude"), S.Fresh, parts).feed.events
  }

  ghost predicate InStep(format: string, decode: Decoder, probe: Probe, parts: seq<string>) {
    var r := FeedParts(format, decode, probe, parts);
    var g := LF.FeedChunks(S.Handler(format == "claude"), S.Fresh, parts);
    && g.feed.status.Open?
    && r.outcome == HandleFrames(format, decode, probe, Fresh, g.feed.events)
    && (r.outcome.status.Open? ==> r.framer == g.feed.state && r.buf == g.buf)
  }

  lemma {:induction false} AlwaysOpen(wantRaw: bool, b: S.Block, lines: seq<string>)
    ensures LF.Drain(S.Handler(wantRaw), b, lines).status.Open?
    decreases |lines|
  {
    if lines != [] {
      AlwaysOpen(wantRaw, b, lines[..|lines| - 1]);
    }
  }

  /**
   * Any split of any byte stream: events, state and status up to the end of the stream are those of
   * the frames of all bytes.
   */
  lemma {:induction false} FeedIsConversion(format: string, decode: Decoder, probe: Probe, parts: seq<string>)
    ensures InStep(format, decode, probe, parts)
    decreases |parts|
  {
    if parts == [] {
      assert LF.Drain(Handler(format, decode, probe), Fresh, []) == LF.Feed(Fresh, [], LF.Open);
    } else {
      var n := |parts| - 1;
      var h := S.Handler(format == "claude");
      FeedIsConversion(format, decode, probe, parts[..n]);
      var g := LF.FeedChunks(h, S.Fresh, parts[..n]);
      AlwaysOpen(format == "claude", g.feed.state, LF.Lines(g.buf + parts[n]));
      LF.DrainAppend(Handler(format, decode, probe), Fresh, g.feed.events, LF.Drain(h, g.feed.state, LF.Lines(g.buf + parts[n])).events);
    }
  }

  lemma {:induction false} SplitsAgree(format: string, decode: Decoder, probe: Probe, one: seq<string>, other: seq<string>)
    requires Concat(one) == Concat(other)
    ensures FeedParts(format, decode, probe, one).outcome == FeedParts(format, decode, probe, other).outcome
  {
    FeedIsConversion(format, decode, probe, one);
    FeedIsConversion(format, decode, probe, other);
    LF.TwoSplitsAgree(S.Handler(format == "claude"), S.Fresh, one, other);
  }

  // ---- conversion targets run on the decoded events ----

  /** The events of the frames up to the first malformed one. */
  function Decode(decode: Decoder, frames: seq<S.Frame>): LF.Feed<(), Up, Failure>
    decreases |frames|
  {
    if frames == [] then LF.Feed((), [], LF.Open)
    else
      var d, f := Decode(decode, frames[..|frames| - 1]), frames[|frames| - 1];
      if !d.status.Open? then d
      else
        match decode(f.eventType, f.data)
        case Err(e) => LF.Feed((), d.events, LF.Failed(e))
        case Ok(up) => LF.Feed((), d.events + [up], LF.Open)
  }

  /** What a target makes of the decoded events, and of the malformed payload after them. */
  predicate Converts(format: string, o: Outcome, d: LF.Feed<(), Up, Failure>) {
    var r := RunTo(format, d.events);
    o == if r.status.Open? && d.status.Failed? then LF.Feed(r.state, r.events, LF.Failed(d.status.error)) else r
  }

  lemma ConvertsNext(format: string, decode: Decoder, probe: Probe, o: Outcome, d: LF.Feed<(), Up, Failure>, f: S.Frame)
    requires Converting(format) && Converts(format, o, d) && d.status.Open?
    ensures var r := decode(f.eventType, f.data);
            Converts(format, if o.status.Open? then LF.Then(o, HandleFrame(format, decode, probe, o.state, f)) else o,
                     if r.Ok? then LF.Feed((), d.events + [r.value], LF.Open) else LF.Feed((), d.events, LF.Failed(r.error)))
  {
    var r := decode(f.eventType, f.data);
    if r.Ok? {
      assert (d.events + [r.value])[..|d.events|] == d.events;
    } else {
      assert o.events + [] == o.events;
    }
  }

  lemma {:induction false} FramesConvert(format: string, decode: Decoder, probe: Probe, frames: seq<S.Frame>)
    requires Converting(format)
    ensures Decode(decode, frames).status.Open? || Decode(decode, frames).status.Failed?
    ensures Converts(format, HandleFrames(format, decode, probe, Fresh, frames), Decode(decode, frames))
    decreases |frames|
  {
    if frames == [] {
      assert HandleFrames(format, decode, probe, Fresh, []) == LF.Feed(Fresh, [], LF.Open);
    } else {
      var n := |frames| - 1;
      FramesConvert(format, decode, probe, frames[..n]);
      if Decode(decode, frames[..n]).status.Open? {
        ConvertsNext(format, decode, probe, HandleFrames(format, decode, probe, Fresh, frames[..n]), Decode(decode, frames[..n]), frames[n]);
      }
    }
  }

  /**
   * However the bytes are split, the outcome is the run over the decoded events, and the failure of
   * the first malformed payload if the run had not ended before it.
   */
  lemma {:induction false} ConvertedFromBytes(format: string, decode: Decoder, probe: Probe, parts: seq<string>)
    requires Converting(format)
    ensures var d := Decode(decode, FramesOf(format, parts));
            Converts(format, FeedParts(format, decode, probe, parts).outcome, d)
  {
    FeedIsConversion(format, decode, probe, parts);
    FramesConvert(format, decode, probe, FramesOf(format, parts));
  }

  /** A target that is none of the three fails with the first frame and delivers nothing. */
  lemma {:induction false} UnknownTargetFails(format: string, decode: Decoder, probe: Probe, frames: seq<S.Frame>)
    requires !Converting(format) && format != "claude"
    ensures HandleFrames(format, decode, probe, Fresh, frames) ==
            LF.Feed(Fresh, [], if frames == [] then LF.Open
                               else match decode(frames[0].eventType, frames[0].data) case Err(e) => LF.Failed(e) case Ok(_) => LF.Failed(Unsupported))
    decreases |frames|
  {
    if frames != [] {
      var n := |frames| - 1;
      UnknownTargetFails(format, decode, probe, frames[..n]);
    }
  }

  // ---- passthrough is verbatim ----

  /** The name of a frame: its event line's, or else the one its payload gives. */
  function NameOf(probe: Probe, f: S.Frame): string {
    if f.eventType == "" && f.data != "" then probe.typeOf(f.data) else f.eventType
  }

  predicate Ends(probe: Probe, f: S.Frame) {
    NameOf(probe, f) == "message_stop" || NameOf(probe, f) == "error"
  }

  predicate NoneEnds(probe: Probe, frames: seq<S.Frame>) {
    forall i :: 0 <= i < |frames| ==> !Ends(probe, frames[i])
  }

  function RawBytes(es: seq<Event>): string
    decreases |es|
  {
    if es == [] then "" else RawBytes(es[..|es| - 1]) + if es[|es| - 1].Raw? then es[|es| - 1].bytes else ""
  }

  lemma RawBytesNext(es: seq<Event>, raw: string)
    ensures RawBytes(es + if raw != "" then [Raw(raw)] else []) == RawBytes(es) + raw
  {
    if raw == "" {
      assert es + [] == es && RawBytes(es) + "" == RawBytes(es);
    } else {
      assert (es + [Raw(raw)])[..|es|] == es;
    }
  }

  lemma {:induction false} PassEchoes(decode: Decoder, probe: Probe, frames: seq<S.Frame>)
    requires NoneEnds(probe, frames)
    ensures var o := HandleFrames("claude", decode, probe, Fresh, frames); o.status.Open? && RawBytes(o.events) == S.Raws(frames)
    decreases |frames|
  {
    if frames != [] {
      var n := |frames| - 1;
      assert NoneEnds(probe, frames[..n]);
      PassEchoes(decode, probe, frames[..n]);
      var o := HandleFrames("claude", decode, probe, Fresh, frames[..n]);
      RawBytesNext(o.events, frames[n].raw);
      assert !Ends(probe, frames[n]);
    }
  }

  /** Once ended, later frames change nothing. */
  lemma {:induction false} EndStays(decode: Decoder, probe: Probe, frames: seq<S.Frame>, n: nat)
    requires n <= |frames| && !HandleFrames("claude", decode, probe, Fresh, frames[..n]).status.Open?
    ensures HandleFrames("claude", decode, probe, Fresh, frames) == HandleFrames("claude", decode, probe, Fresh, frames[..n])
    decreases |frames|
  {
    if n < |frames| {
      assert frames[..|frames| - 1][..n] == frames[..n];
      EndStays(decode, probe, frames[..|frames| - 1], n);
    } else {
      assert frames[..n] == frames;
    }
  }

  lemma {:induction false} EndsAt(decode: Decoder, probe: Probe, before: seq<S.Frame>, f: S.Frame, frames: seq<S.Frame>)
    requires HandleFrames("claude", decode, probe, Fresh, before).status.Open? && frames == before + [f] && Ends(probe, f)
    ensures var b, o := HandleFrames("claude", decode, probe, Fresh, before), HandleFrames("claude", decode, probe, Fresh, frames);
            if NameOf(probe, f) == "error" then o.status == LF.Failed(probe.failureOf(f.data)) && RawBytes(o.events) == RawBytes(b.events)
            else o.status.Done? && RawBytes(o.events) == RawBytes(b.events) + f.raw
  {
    var b := HandleFrames("claude", decode, probe, Fresh, before);
    assert frames[..|frames| - 1] == before;
    assert b.events + [] == b.events;
    RawBytesNext(b.events, f.raw);
    assert "error"[0] != "message_stop"[0];
  }

  /**
   * Passthrough, every byte stream: frames are echoed verbatim up to the first message_stop, itself
   * included, or up to the first error, which becomes the failure instead.
   */
  lemma {:induction false} PassthroughOutcome(decode: Decoder, probe: Probe, parts: seq<string>, n: nat)
    requires var frames := FramesOf("claude", parts); n <= |frames| && NoneEnds(probe, frames[..n]) && (n < |frames| ==> Ends(probe, frames[n]))
    ensures var frames, o := FramesOf("claude", parts), FeedParts("claude", decode, probe, parts).outcome;
            if n == |frames| then o.status.Open? && RawBytes(o.events) == S.Raws(frames)
            else if NameOf(probe, frames[n]) == "error" then o.status == LF.Failed(probe.failureOf(frames[n].data)) && RawBytes(o.events) == S.Raws(frames[..n])
            else o.status.Done? && RawBytes(o.events) == S.Raws(frames[..n]) + frames[n].raw
  {
    var frames := FramesOf("claude", parts);
    FeedIsConversion("claude", decode, probe, parts);
    PassEchoes(decode, probe, frames[..n]);
    if n < |frames| {
      EndsAt(decode, probe, frames[..n], frames[n], frames[..n + 1]);
      EndStays(decode, probe, frames, n + 1);
    } else {
      assert frames[..n] == frames;
    }
  }
}
