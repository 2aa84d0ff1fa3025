/**
 * The stream pump: read, convert and emit until the stream ends, then close both streams. The host's
 * answers are a script: one read result per turn, and for each emit whether it succeeds. A watchdog
 * may close the upstream stream as well, at any moment.
 */
module Pump {
  import opened Wire
  import opened Folds

  /** One read result; `aborted` is the watchdog flag as it is seen after the read. */
  datatype Read = Read(payload: string, errMsg: string, closed: bool, failed: bool, aborted: bool)

  datatype Fed<S> = Fed(state: S, events: seq<Event>, done: bool, failed: bool)

  /** A converter: what Feed does with a chunk, and what Flush holds back, if it has a Flush. */
  datatype Converter<!S(==)> = Converter(start: S, feed: (S, string) -> Fed<S>, flushes: bool, flush: S -> seq<Event>)

  /** Why the streams were closed; only a clean end closes the downstream without an error. */
  datatype Reason = Clean | TimedOut | ReadFailed | UpstreamError | TooLarge | ConversionFailed | EmitFailed

  datatype Phase = Pumping | Ended(reason: Reason)

  /** Where the pump stands: `sent` are the events that reached the host, `fed` the chunks converted. */
  datatype Progress<S> = Progress(conv: S, total: int, sent: seq<Event>, attempts: nat, fed: seq<string>, flushed: bool, phase: Phase)

  // ---- one turn ----

  /** Emits in order; the first failure stops it. */
  function EmitAll(ok: nat -> bool, attempts: nat, events: seq<Event>): (r: (seq<Event>, nat, bool))
    ensures r.0 <= events && (r.2 ==> r.0 == events)
    decreases |events|
  {
    if events == [] then ([], attempts, true)
    else if !ok(attempts) then ([], attempts + 1, false)
    else
      var r := EmitAll(ok, attempts + 1, events[1..]);
      ([events[0]] + r.0, r.1, r.2)
  }

  function Emit<S>(ok: nat -> bool, p: Progress<S>, events: seq<Event>): Progress<S> {
    var r := EmitAll(ok, p.attempts, events);
    p.(sent := p.sent + r.0, attempts := r.1, phase := if r.2 then p.phase else Ended(EmitFailed))
  }

  /** After the loop: an upstream that closed without a converter terminal is flushed. */
  function Finish<S>(c: Converter<S>, ok: nat -> bool, p: Progress<S>, convDone: bool): Progress<S> {
    if convDone || !c.flushes then p.(phase := Ended(Clean))
    else
      var q := Emit(ok, p.(flushed := true), c.flush(p.conv));
      if q.phase.Ended? then q else q.(phase := Ended(Clean))
  }

  function Turn<S>(c: Converter<S>, ok: nat -> bool, max: int, p: Progress<S>, r: Read): Progress<S> {
    if r.aborted then p.(phase := Ended(TimedOut))
    else if r.failed then p.(phase := Ended(ReadFailed))
    else if r.errMsg != "" then p.(phase := Ended(UpstreamError))
    else if p.total + |r.payload| > max then p.(total := p.total + |r.payload|, phase := Ended(TooLarge))
    else
      var f := c.feed(p.conv, r.payload);
      var q := p.(total := p.total + |r.payload|, conv := f.state, fed := p.fed + [r.payload]);
      if f.failed then q.(phase := Ended(ConversionFailed))
      else
        var e := Emit(ok, q, f.events);
        if e.phase.Ended? || !(f.done || r.closed) then e else Finish(c, ok, e, f.done)
  }

  /** The pump over a script of reads; what comes after the end is never read. */
  function Run<S>(c: Converter<S>, ok: nat -> bool, max: int, script: seq<Read>): Progress<S>
    decreases |script|
  {
    if script == [] then Progress(c.start, 0, [], 0, [], false, Pumping)
    else
      var p := Run(c, ok, max, script[..|script| - 1]);
      if p.phase.Pumping? then Turn(c, ok, max, p, script[|script| - 1]) else p
  }

  // ---- the reference: the converter on its own ----

  /** The converter's state and all its output for a list of chunks. */
  function Output<S>(c: Converter<S>, fed: seq<string>): (S, seq<Event>)
    decreases |fed|
  {
    if fed == [] then (c.start, [])
    else
      var a := Output(c, fed[..|fed| - 1]);
      var f := c.feed(a.0, fed[|fed| - 1]);
      (f.state, a.1 + f.events)
  }

  function Bytes(fed: seq<string>): nat
    decreases |fed|
  {
    if fed == [] then 0 else Bytes(fed[..|fed| - 1]) + |fed[|fed| - 1]|
  }

  /** Whether the converter had reached its terminal with the last chunk. */
  predicate DoneAfter<S>(c: Converter<S>, fed: seq<string>) {
    fed != [] && c.feed(Output(c, fed[..|fed| - 1]).0, fed[|fed| - 1]).done
  }

  predicate Sound<S>(c: Converter<S>, max: int, p: Progress<S>) {
    var out := Output(c, p.fed);
    && p.conv == out.0
    && (p.flushed ==> p.phase.Ended? && c.flushes && !DoneAfter(c, p.fed))
    && (p.phase == Ended(Clean) && c.flushes && !DoneAfter(c, p.fed) ==> p.flushed)
    && p.sent <= out.1 + (if p.flushed then c.flush(p.conv) else [])
    && (p.phase.Pumping? || p.phase == Ended(Clean) ==> p.sent == out.1 + if p.flushed then c.flush(p.conv) else [])
    && Bytes(p.fed) <= p.total && (p.fed != [] ==> Bytes(p.fed) <= max)
    && (p.phase.Pumping? ==> p.total == Bytes(p.fed))
  }

  lemma {:induction false} OutputNext<S>(c: Converter<S>, fed: seq<string>, chunk: string)
    ensures var a := Output(c, fed);
            var f := c.feed(a.0, chunk);
            && Output(c, fed + [chunk]) == (f.state, a.1 + f.events)
            && Bytes(fed + [chunk]) == Bytes(fed) + |chunk|
            && DoneAfter(c, fed + [chunk]) == f.done
  {
    assert (fed + [chunk])[..|fed|] == fed;
  }

  lemma EmitSound<S>(c: Converter<S>, max: int, ok: nat -> bool, p: Progress<S>, events: seq<Event>, all: seq<Event>)
    requires p.sent + events == all && p.phase.Pumping?
    ensures var q := Emit(ok, p, events);
            && q.sent <= all && (q.phase.Pumping? ==> q.sent == all)
            && q == p.(sent := q.sent, attempts := q.attempts, phase := q.phase)
            && (q.phase.Ended? ==> q.phase == Ended(EmitFailed))
  {
  }

  lemma FinishSound<S>(c: Converter<S>, ok: nat -> bool, max: int, p: Progress<S>)
    requires Sound(c, max, p) && p.phase.Pumping? && !p.flushed
    ensures Sound(c, max, Finish(c, ok, p, DoneAfter(c, p.fed))) && Finish(c, ok, p, DoneAfter(c, p.fed)).phase.Ended?
  {
    var out := Output(c, p.fed).1;
    assert out + [] == out;
    if !DoneAfter(c, p.fed) && c.flushes {
      EmitSound(c, max, ok, p.(flushed := true), c.flush(p.conv), out + c.flush(p.conv));
    }
  }

  lemma FeedSound<S>(c: Converter<S>, ok: nat -> bool, max: int, p: Progress<S>, r: Read)
    requires Sound(c, max, p) && p.phase.Pumping? && p.total + |r.payload| <= max
    ensures var f := c.feed(p.conv, r.payload);
            var q := p.(total := p.total + |r.payload|, conv := f.state, fed := p.fed + [r.payload]);
            && Sound(c, max, q.(phase := Ended(ConversionFailed)))
            && Sound(c, max, Emit(ok, q, f.events)) && DoneAfter(c, q.fed) == f.done
  {
    var f := c.feed(p.conv, r.payload);
    var q := p.(total := p.total + |r.payload|, conv := f.state, fed := p.fed + [r.payload]);
    var out := Output(c, p.fed).1;
    OutputNext(c, p.fed, r.payload);
    assert out + [] == out && (out + f.events) + [] == out + f.events;
    EmitSound(c, max, ok, q, f.events, out + f.events);
  }

  /** A turn whose chunk was converted. */
  lemma ConvertedTurnSound<S>(c: Converter<S>, ok: nat -> bool, max: int, e: Progress<S>, closed: bool)
    requires Sound(c, max, e) && !e.flushed
    ensures Sound(c, max, if e.phase.Ended? || !(DoneAfter(c, e.fed) || closed) then e else Finish(c, ok, e, DoneAfter(c, e.fed)))
  {
    if e.phase.Pumping? {
      FinishSound(c, ok, max, e);
    }
  }

  lemma ChunkTurnSound<S>(c: Converter<S>, ok: nat -> bool, max: int, p: Progress<S>, r: Read)
    requires Sound(c, max, p) && p.phase.Pumping? && p.total + |r.payload| <= max
    requires !r.aborted && !r.failed && r.errMsg == ""
    ensures Sound(c, max, Turn(c, ok, max, p, r))
  {
    FeedSound(c, ok, max, p, r);
    var f := c.feed(p.conv, r.payload);
    var e := Emit(ok, p.(total := p.total + |r.payload|, conv := f.state, fed := p.fed + [r.payload]), f.events);
    if !f.failed {
      ConvertedTurnSound(c, ok, max, e, r.closed);
    }
  }

  lemma TurnSound<S>(c: Converter<S>, ok: nat -> bool, max: int, p: Progress<S>, r: Read)
    requires Sound(c, max, p) && p.phase.Pumping?
    ensures Sound(c, max, Turn(c, ok, max, p, r))
  {
    if !r.aborted && !r.failed && r.errMsg == "" && p.total + |r.payload| <= max {
      ChunkTurnSound(c, ok, max, p, r);
    }
  }

  lemma {:induction false} RunSound<S>(c: Converter<S>, ok: nat -> bool, max: int, script: seq<Read>)
    ensures Sound(c, max, Run(c, ok, max, script))
    decreases |script|
  {
    if script == [] {
      assert Output(c, []).1 + [] == [];
    } else {
      RunSound(c, ok, max, script[..|script| - 1]);
      var p := Run(c, ok, max, script[..|script| - 1]);
      if p.phase.Pumping? {
        TurnSound(c, ok, max, p, script[|script| - 1]);
      }
    }
  }

  // ---- main results ----

  /**
   * Every script of reads and emits: what reaches the client is an in-order prefix of the converter's
   * output for the chunks it was fed, and all of it, with what Flush held back, on a clean end.
   */
  lemma {:induction false} SentIsPrefixOfOutput<S>(c: Converter<S>, ok: nat -> bool, max: int, script: seq<Read>)
    ensures var p := Run(c, ok, max, script);
            var out := Output(c, p.fed).1 + if p.flushed then c.flush(Output(c, p.fed).0) else [];
            p.sent <= out && (p.phase == Ended(Clean) ==> p.sent == out)
  {
    RunSound(c, ok, max, script);
  }

  /** The converter never receives more than the cap in total. */
  lemma {:induction false} FedWithinCap<S>(c: Converter<S>, ok: nat -> bool, max: int, script: seq<Read>)
    ensures var p := Run(c, ok, max, script); p.fed != [] ==> Bytes(p.fed) <= max
  {
    RunSound(c, ok, max, script);
  }

  /** The chunks fed are the payloads read, in order. */
  predicate FedInOrder<S>(p: Progress<S>, script: seq<Read>) {
    |p.fed| <= |script| && forall i :: 0 <= i < |p.fed| ==> p.fed[i] == script[i].payload
  }

  /** Flush runs only after the last chunk was fed, with the upstream closed and no converter terminal. */
  predicate FlushedRightly<S>(c: Converter<S>, p: Progress<S>, script: seq<Read>) {
    p.flushed ==> 0 < |p.fed| <= |script| && script[|p.fed| - 1].closed && !DoneAfter(c, p.fed)
  }

  lemma TurnFeeds<S>(c: Converter<S>, ok: nat -> bool, max: int, p: Progress<S>, r: Read)
    requires p.phase.Pumping? && !p.flushed
    ensures var q := Turn(c, ok, max, p, r);
            && (q.fed == p.fed || q.fed == p.fed + [r.payload])
            && (q.phase.Pumping? ==> q.fed == p.fed + [r.payload] && !q.flushed)
            && (q.flushed ==> q.fed == p.fed + [r.payload] && r.closed)
  {
  }

  predicate Feeds<S>(c: Converter<S>, p: Progress<S>, script: seq<Read>) {
    FedInOrder(p, script) && FlushedRightly(c, p, script) && (p.phase.Pumping? ==> |p.fed| == |script| && !p.flushed)
  }

  lemma FeedsNext<S>(c: Converter<S>, ok: nat -> bool, max: int, p: Progress<S>, script: seq<Read>, r: Read)
    requires Feeds(c, p, script) && p.phase.Pumping? && Sound(c, max, p)
    ensures Feeds(c, Turn(c, ok, max, p, r), script + [r])
  {
    TurnFeeds(c, ok, max, p, r);
    TurnSound(c, ok, max, p, r);
  }

  lemma FeedsLonger<S>(c: Converter<S>, p: Progress<S>, script: seq<Read>, r: Read)
    requires Feeds(c, p, script) && p.phase.Ended?
    ensures Feeds(c, p, script + [r])
  {
  }

  lemma {:induction false} RunFeeds<S>(c: Converter<S>, ok: nat -> bool, max: int, script: seq<Read>)
    ensures Feeds(c, Run(c, ok, max, script), script)
    decreases |script|
  {
    if script != [] {
      var before, r := script[..|script| - 1], script[|script| - 1];
      RunFeeds(c, ok, max, before);
      RunSound(c, ok, max, before);
      var p := Run(c, ok, max, before);
      if p.phase.Pumping? {
        FeedsNext(c, ok, max, p, before, r);
      } else {
        FeedsLonger(c, p, before, r);
      }
      assert before + [r] == script;
    }
  }

  lemma {:induction false} FlushOnlyWithoutTerminal<S>(c: Converter<S>, ok: nat -> bool, max: int, script: seq<Read>)
    requires Run(c, ok, max, script).flushed
    ensures var p := Run(c, ok, max, script);
            p.fed != [] && |p.fed| <= |script| && script[|p.fed| - 1].closed && !DoneAfter(c, p.fed)
  {
    RunFeeds(c, ok, max, script);
  }

  // ---- when and how it ends ----

  function Payloads(script: seq<Read>): seq<string> {
    seq(|script|, i requires 0 <= i < |script| => script[i].payload)
  }

  predicate Fine(r: Read) {
    !r.aborted && !r.failed && r.errMsg == ""
  }

  /** The first `n` emits are accepted. */
  predicate Accepts(ok: nat -> bool, n: nat) {
    forall a :: 0 <= a < n ==> ok(a)
  }

  /** The converter failed on the last chunk. */
  predicate FailedAfter<S>(c: Converter<S>, fed: seq<string>) {
    fed != [] && c.feed(Output(c, fed[..|fed| - 1]).0, fed[|fed| - 1]).failed
  }

  /** What Flush holds back when the upstream closes after the chunks without a converter terminal. */
  function HeldBack<S>(c: Converter<S>, fed: seq<string>): seq<Event> {
    if c.flushes && !DoneAfter(c, fed) then c.flush(Output(c, fed).0) else []
  }

  /** The last read is converted within the cap. */
  predicate Converts<S>(c: Converter<S>, max: int, script: seq<Read>) {
    script != [] && Fine(script[|script| - 1]) && Bytes(Payloads(script)) <= max && !FailedAfter(c, Payloads(script))
  }

  /** After its last read the stream is over: the upstream closed or the converter reached its terminal. */
  predicate Over<S>(c: Converter<S>, script: seq<Read>) {
    script != [] && (script[|script| - 1].closed || DoneAfter(c, Payloads(script)))
  }

  /** Every read was converted, everything was emitted, and nothing ended the stream. */
  predicate GoesOn<S>(c: Converter<S>, ok: nat -> bool, max: int, script: seq<Read>) {
    && (forall n :: 0 < n <= |script| ==> Converts(c, max, script[..n]) && !Over(c, script[..n]))
    && Accepts(ok, |Output(c, Payloads(script)).1|)
  }

  /** Where a pump stands that goes on. */
  predicate Steady<S>(c: Converter<S>, ok: nat -> bool, script: seq<Read>, p: Progress<S>) {
    var out := Output(c, Payloads(script));
    && p.conv == out.0 && p.total == Bytes(Payloads(script)) && p.sent == out.1 && p.attempts == |out.1|
    && p.fed == Payloads(script) && !p.flushed && Accepts(ok, |out.1|)
  }

  lemma {:induction false} EmitTold(ok: nat -> bool, attempts: nat, events: seq<Event>)
    ensures var r := EmitAll(ok, attempts, events);
            && r.0 <= events && (r.2 <==> forall a :: attempts <= a < attempts + |events| ==> ok(a))
            && (r.2 ==> r.1 == attempts + |events| && r.0 == events)
            && (!r.2 ==> |r.0| < |events| && !ok(attempts + |r.0|))
    decreases |events|
  {
    if events != [] && ok(attempts) {
      EmitTold(ok, attempts + 1, events[1..]);
    }
  }

  /** Emitting more after everything so far was accepted. */
  lemma EmitMore<S>(ok: nat -> bool, p: Progress<S>, events: seq<Event>)
    requires p.attempts == |p.sent| && Accepts(ok, |p.sent|) && p.phase.Pumping?
    ensures var q, all := Emit(ok, p, events), p.sent + events;
            && q.sent <= all && q.phase == (if Accepts(ok, |all|) then Pumping else Ended(EmitFailed))
            && (Accepts(ok, |all|) ==> q.sent == all && q.attempts == |all|)
            && (!Accepts(ok, |all|) ==> |q.sent| < |all| && !ok(|q.sent|))
            && q == p.(sent := q.sent, attempts := q.attempts, phase := q.phase)
  {
    EmitTold(ok, p.attempts, events);
    var all := p.sent + events;
    assert Accepts(ok, |all|) <==> forall a :: |p.sent| <= a < |p.sent| + |events| ==> ok(a);
  }

  /** How a run that went on so far takes its last read. */
  ghost predicate Takes<S>(c: Converter<S>, ok: nat -> bool, max: int, script: seq<Read>, p: Progress<S>)
    requires script != []
  {
    var r, fed := script[|script| - 1], Payloads(script);
    var before, out := Output(c, Payloads(script[..|script| - 1])).1, Output(c, fed).1;
    var held := if Over(c, script) then HeldBack(c, fed) else [];
    && (p.phase == Ended(TimedOut) <==> r.aborted)
    && (p.phase == Ended(ReadFailed) <==> !r.aborted && r.failed)
    && (p.phase == Ended(UpstreamError) <==> !r.aborted && !r.failed && r.errMsg != "")
    && (p.phase == Ended(TooLarge) <==> Fine(r) && Bytes(fed) > max)
    && (p.phase == Ended(ConversionFailed) <==> Fine(r) && Bytes(fed) <= max && FailedAfter(c, fed))
    && (p.phase == Ended(EmitFailed) <==> Converts(c, max, script) && !Accepts(ok, |out + held|))
    && (p.phase == Ended(Clean) <==> Converts(c, max, script) && Accepts(ok, |out + held|) && Over(c, script))
    && (!Converts(c, max, script) ==> p.sent == before)
    && (p.phase == Ended(EmitFailed) ==> p.sent < out + held && !ok(|p.sent|))
    && (p.phase == Ended(Clean) ==> p.sent == out + held)
  }

  lemma {:induction false} PayloadsNext(script: seq<Read>, r: Read)
    ensures Payloads(script + [r]) == Payloads(script) + [r.payload]
  {
  }

  /** A read that is not converted ends the run; nothing of it is sent. */
  lemma BadReadTold<S>(c: Converter<S>, ok: nat -> bool, max: int, script: seq<Read>, p: Progress<S>)
    requires script != [] && Steady(c, ok, script[..|script| - 1], p) && p.phase.Pumping? && !Converts(c, max, script)
    ensures Takes(c, ok, max, script, Turn(c, ok, max, p, script[|script| - 1])) && Turn(c, ok, max, p, script[|script| - 1]).phase.Ended?
  {
    var before, r := script[..|script| - 1], script[|script| - 1];
    Last(script);
    PayloadsNext(before, r);
    OutputNext(c, Payloads(before), r.payload);
    assert Payloads(script)[..|before|] == Payloads(before);
  }

  /** A converted read: its events are emitted, and what Flush holds back if the stream is over. */
  lemma GoodReadTold<S>(c: Converter<S>, ok: nat -> bool, max: int, script: seq<Read>, p: Progress<S>)
    requires script != [] && Steady(c, ok, script[..|script| - 1], p) && p.phase.Pumping? && Converts(c, max, script)
    ensures var q := Turn(c, ok, max, p, script[|script| - 1]);
            && Takes(c, ok, max, script, q)
            && (q.phase.Pumping? <==> Accepts(ok, |Output(c, Payloads(script)).1|) && !Over(c, script))
            && (q.phase.Pumping? ==> Steady(c, ok, script, q))
  {
    var before, r := script[..|script| - 1], script[|script| - 1];
    Last(script);
    PayloadsNext(before, r);
    OutputNext(c, Payloads(before), r.payload);
    assert Payloads(script)[..|before|] == Payloads(before);
    var f := c.feed(p.conv, r.payload);
    var q := p.(total := p.total + |r.payload|, conv := f.state, fed := p.fed + [r.payload]);
    var e := Emit(ok, q, f.events);
    EmitMore(ok, q, f.events);
    var out := Output(c, Payloads(script)).1;
    assert out + [] == out;
    if e.phase.Pumping? && Over(c, script) {
      FinishTold(c, ok, e, script);
    }
    assert !Accepts(ok, |out|) ==> forall more: seq<Event> :: !Accepts(ok, |out + more|);
  }

  lemma FinishTold<S>(c: Converter<S>, ok: nat -> bool, p: Progress<S>, script: seq<Read>)
    requires Steady(c, ok, script, p) && p.phase.Pumping?
    ensures var q, all := Finish(c, ok, p, DoneAfter(c, Payloads(script))), p.sent + HeldBack(c, Payloads(script));
            && q.phase == (if Accepts(ok, |all|) then Ended(Clean) else Ended(EmitFailed))
            && (Accepts(ok, |all|) ==> q.sent == all)
            && (!Accepts(ok, |all|) ==> q.sent < all && !ok(|q.sent|))
  {
    var held := HeldBack(c, Payloads(script));
    assert p.sent + [] == p.sent;
    EmitMore(ok, p.(flushed := true), held);
  }

  lemma {:induction false} GoesOnNext<S>(c: Converter<S>, ok: nat -> bool, max: int, script: seq<Read>)
    requires script != []
    ensures var before := script[..|script| - 1];
            GoesOn(c, ok, max, script) <==>
              GoesOn(c, ok, max, before) && Converts(c, max, script) && !Over(c, script) && Accepts(ok, |Output(c, Payloads(script)).1|)
  {
    var n := |script| - 1;
    var before := script[..n];
    Last(script);
    PayloadsNext(before, script[n]);
    OutputNext(c, Payloads(before), script[n].payload);
    assert script[..|script|] == script;
    assert forall k :: 0 < k <= n ==> before[..k] == script[..k];
  }

  lemma {:induction false} RunSteady<S>(c: Converter<S>, ok: nat -> bool, max: int, script: seq<Read>)
    ensures Run(c, ok, max, script).phase.Pumping? <==> GoesOn(c, ok, max, script)
    ensures GoesOn(c, ok, max, script) ==> Steady(c, ok, script, Run(c, ok, max, script))
    decreases |script|
  {
    if script != [] {
      var before := script[..|script| - 1];
      RunSteady(c, ok, max, before);
      GoesOnNext(c, ok, max, script);
      if GoesOn(c, ok, max, before) {
        if Converts(c, max, script) {
          GoodReadTold(c, ok, max, script, Run(c, ok, max, before));
        } else {
          BadReadTold(c, ok, max, script, Run(c, ok, max, before));
        }
      }
    }
  }

  /**
   * Every script: the pump goes on exactly while every read is converted within the cap, every event
   * is accepted, the upstream is open and the converter has not reached its terminal. The first read
   * after which that fails, the `n`-th, decides: the phase tells why, in the order of the checks; a
   * read that is not converted sends nothing; and when the stream is over, what was converted is sent,
   * followed by what Flush holds back if there was no converter terminal, up to the first refusal.
   */
  lemma {:induction false} EndIsTold<S>(c: Converter<S>, ok: nat -> bool, max: int, script: seq<Read>, n: nat)
    requires 0 < n <= |script| && GoesOn(c, ok, max, script[..n - 1])
    ensures Takes(c, ok, max, script[..n], Run(c, ok, max, script[..n]))
    ensures Run(c, ok, max, script[..n]).phase.Pumping? <==> GoesOn(c, ok, max, script[..n])
    ensures !GoesOn(c, ok, max, script[..n]) ==> Run(c, ok, max, script) == Run(c, ok, max, script[..n])
  {
    var prefix := script[..n];
    assert prefix[..n - 1] == script[..n - 1];
    RunSteady(c, ok, max, script[..n - 1]);
    RunSteady(c, ok, max, prefix);
    if Converts(c, max, prefix) {
      GoodReadTold(c, ok, max, prefix, Run(c, ok, max, script[..n - 1]));
    } else {
      BadReadTold(c, ok, max, prefix, Run(c, ok, max, script[..n - 1]));
    }
    if !GoesOn(c, ok, max, prefix) {
      RunStops(c, ok, max, script, n);
    }
  }

  /** A clean end has sent the converter's whole output for the chunks, and what Flush holds back without a terminal. */
  lemma {:induction false} CleanEndIsFlushed<S>(c: Converter<S>, ok: nat -> bool, max: int, script: seq<Read>)
    requires Run(c, ok, max, script).phase == Ended(Clean)
    ensures var p := Run(c, ok, max, script); p.sent == Output(c, p.fed).1 + HeldBack(c, p.fed)
  {
    RunSound(c, ok, max, script);
  }

  // ---- the pump as it runs ----

  /** What the host sees of one execution, the watchdog's own close included. */
  datatype Action = Emitted(event: Event) | EmitRefused(event: Event) | ClosedUpstream | ClosedDownstream(reason: Reason) | WatchdogClosed

  function SentIn(log: seq<Action>): seq<Event>
    decreases |log|
  {
    if log == [] then []
    else
      var a := log[|log| - 1];
      SentIn(log[..|log| - 1]) + if a.Emitted? then [a.event] else []
  }

  /** Closes of the upstream stream, by the pump or by the watchdog. */
  function UpstreamCloses(log: seq<Action>): nat
    decreases |log|
  {
    if log == [] then 0
    else UpstreamCloses(log[..|log| - 1]) + if log[|log| - 1].ClosedUpstream? || log[|log| - 1].WatchdogClosed? then 1 else 0
  }

  function DownstreamCloses(log: seq<Action>): nat
    decreases |log|
  {
    if log == [] then 0 else DownstreamCloses(log[..|log| - 1]) + if log[|log| - 1].ClosedDownstream? then 1 else 0
  }

  /** What the downstream was told when it was closed last. */
  function ClosedWith(log: seq<Action>): Option<Reason>
    decreases |log|
  {
    if log == [] then None
    else if log[|log| - 1].ClosedDownstream? then Some(log[|log| - 1].reason)
    else ClosedWith(log[..|log| - 1])
  }

  /** No emit after the downstream was closed. */
  predicate EmitsBeforeClose(log: seq<Action>) {
    forall i, k :: 0 <= i < k < |log| && log[i].ClosedDownstream? ==> !log[k].Emitted? && !log[k].EmitRefused?
  }

  /** What the log amounts to. */
  datatype Account = Account(sent: seq<Event>, upstream: nat, downstream: nat, reason: Option<Reason>)

  function AccountOf(log: seq<Action>): Account {
    Account(SentIn(log), UpstreamCloses(log), DownstreamCloses(log), ClosedWith(log))
  }

  lemma {:induction false} LogOne(log: seq<Action>, a: Action)
    requires EmitsBeforeClose(log) && (DownstreamCloses(log) == 0 || (!a.Emitted? && !a.EmitRefused?))
    ensures EmitsBeforeClose(log + [a])
    ensures AccountOf(log + [a]) == Account(
              SentIn(log) + (if a.Emitted? then [a.event] else []),
              UpstreamCloses(log) + (if a.ClosedUpstream? || a.WatchdogClosed? then 1 else 0),
              DownstreamCloses(log) + (if a.ClosedDownstream? then 1 else 0),
              if a.ClosedDownstream? then Some(a.reason) else ClosedWith(log))
  {
    assert (log + [a])[..|log|] == log;
    if DownstreamCloses(log) == 0 {
      NoneClosed(log);
    }
  }

  lemma {:induction false} NoneClosed(log: seq<Action>)
    requires DownstreamCloses(log) == 0
    ensures forall i :: 0 <= i < |log| ==> !log[i].ClosedDownstream?
    decreases |log|
  {
    if log != [] {
      NoneClosed(log[..|log| - 1]);
    }
  }

  lemma UpToNext<T>(was: seq<T>, events: seq<T>, n: nat)
    requires n < |events|
    ensures was + events[..n] + [] == was + events[..n]
    ensures was + events[..n] + [events[n]] == was + events[..n + 1]
  {
  }

  lemma EmittedAll<T>(was: seq<T>, events: seq<T>)
    ensures was + events[..|events|] == was + events
  {
  }

  class StreamPump<!S(==)> {
    const conv: Converter<S>
    const ok: nat -> bool
    const max: int
    // how much of the log comes before the watchdog's close; none when the watchdog never fires
    const rings: Option<nat>
    var state: S
    var attempts: nat
    var log: seq<Action>
    var rung: bool
    var closedOnce: bool
    var total: int
    ghost var fed: seq<string>
    ghost var flushed: bool

    /** Where the pump stands, read off the fields and the log. */
    ghost function Standing(phase: Phase): Progress<S>
      reads this
    {
      Progress(state, total, SentIn(log), attempts, fed, flushed, phase)
    }

    /** Nothing is closed yet, but by the watchdog. */
    ghost predicate Live()
      reads this
    {
      && !closedOnce && DownstreamCloses(log) == 0 && UpstreamCloses(log) == (if rung then 1 else 0)
      && EmitsBeforeClose(log) && (rung ==> rings.Some?)
    }

    constructor (conv: Converter<S>, ok: nat -> bool, max: int, rings: Option<nat>)
      ensures this.conv == conv && this.ok == ok && this.max == max && this.rings == rings
      ensures Standing(Pumping) == Run(conv, ok, max, []) && log == [] && !rung && Live()
    {
      this.conv, this.ok, this.max, this.rings := conv, ok, max, rings;
      state, attempts, log, rung, closedOnce, total, fed, flushed := conv.start, 0, [], false, false, 0, [], false;
    }

    /** The watchdog's close, if it is due by now, or at last. */
    method Watchdog(last: bool)
      requires EmitsBeforeClose(log)
      modifies this`log, this`rung
      ensures EmitsBeforeClose(log) && rung == (old(rung) || (rings.Some? && (last || rings.value <= |old(log)|)))
      ensures AccountOf(log) == old(AccountOf(log)).(upstream := old(UpstreamCloses(log)) + if rung && !old(rung) then 1 else 0)
    {
      if rings.Some? && !rung && (last || rings.value <= |log|) {
        rung := true;
        LogOne(log, WatchdogClosed);
        assert SentIn(log) + [] == SentIn(log);
        log := log + [WatchdogClosed];
      }
    }

    /** One action of the pump itself. */
    method Act(a: Action)
      requires EmitsBeforeClose(log) && !a.WatchdogClosed? && (DownstreamCloses(log) == 0 || (!a.Emitted? && !a.EmitRefused?))
      modifies this`log, this`rung
      ensures EmitsBeforeClose(log) && (rung ==> old(rung) || rings.Some?) && (old(rung) ==> rung)
      ensures AccountOf(log) == Account(
                old(SentIn(log)) + (if a.Emitted? then [a.event] else []),
                old(UpstreamCloses(log)) + (if rung && !old(rung) then 1 else 0) + (if a.ClosedUpstream? then 1 else 0),
                old(DownstreamCloses(log)) + (if a.ClosedDownstream? then 1 else 0),
                if a.ClosedDownstream? then Some(a.reason) else old(ClosedWith(log)))
    {
      Watchdog(false);
      LogOne(log, a);
      log := log + [a];
    }

    /** One emit; the host's answer says whether it succeeded. */
    method EmitOne(e: Event) returns (accepted: bool)
      requires Live()
      modifies this`log, this`rung, this`attempts
      ensures Live() && attempts == old(attempts) + 1 && accepted == ok(old(attempts))
      ensures SentIn(log) == old(SentIn(log)) + if accepted then [e] else []
    {
      accepted := ok(attempts);
      attempts := attempts + 1;
      Act(if accepted then Emitted(e) else EmitRefused(e));
    }

    /** Emits in order; an error stops it. */
    method EmitEvents(events: seq<Event>) returns (sent: bool)
      requires Live()
      modifies this`log, this`rung, this`attempts
      ensures Live()
      ensures var r := EmitAll(ok, old(attempts), events);
              sent == r.2 && attempts == r.1 && SentIn(log) == old(SentIn(log)) + r.0
    {
      ghost var start, was := attempts, SentIn(log);
      var n := 0;
      EmitsStart(ok, start, events);
      assert was + [] == was;
      while n < |events|
        invariant 0 <= n <= |events| && Live()
        invariant EmitsFrom(ok, start, events, n, attempts)
        invariant SentIn(log) == was + events[..n]
      {
        var accepted := EmitAt(events, n, start, was);
        if !accepted {
          return false;
        }
        n := n + 1;
      }
      EmitsEnd(ok, start, events, attempts);
      EmittedAll(was, events);
      sent := true;
    }

    /** The body of the loop. */
    method EmitAt(events: seq<Event>, n: nat, ghost start: nat, ghost was: seq<Event>) returns (accepted: bool)
      requires Live() && n < |events| && EmitsFrom(ok, start, events, n, attempts) && SentIn(log) == was + events[..n]
      modifies this`log, this`rung, this`attempts
      ensures Live()
      ensures accepted ==> EmitsFrom(ok, start, events, n + 1, attempts) && SentIn(log) == was + events[..n + 1]
      ensures !accepted ==> EmitAll(ok, start, events) == (events[..n], attempts, false) && SentIn(log) == was + events[..n]
    {
      EmitsNext(ok, start, events, n, attempts);
      UpToNext(was, events, n);
      accepted := EmitOne(events[n]);
    }

    /** Closes both streams, the first time only. */
    method CloseStreams(reason: Reason)
      requires closedOnce || Live()
      modifies this`log, this`rung, this`closedOnce
      ensures closedOnce && (old(closedOnce) ==> log == old(log) && rung == old(rung))
      ensures !old(closedOnce) ==> EmitsBeforeClose(log) && (rung ==> rings.Some?)
      ensures !old(closedOnce) ==> AccountOf(log) == Account(old(SentIn(log)), 1 + (if rung then 1 else 0), 1, Some(reason))
    {
      if !closedOnce {
        closedOnce := true;
        assert SentIn(log) + [] == SentIn(log);
        Act(ClosedUpstream);
        assert SentIn(log) + [] == SentIn(log);
        Act(ClosedDownstream(reason));
      }
    }

  // ---- turns ----

    method EndOfLoop(convDone: bool) returns (reason: Reason)
      requires Live()
      modifies this`log, this`rung, this`attempts, this`flushed
      ensures Live() && Standing(Ended(reason)) == Finish(conv, ok, old(Standing(Pumping)), convDone)
    {
      reason := Clean;
      if !convDone && conv.flushes {
        flushed := true;
        var sent := EmitEvents(conv.flush(state));
        if !sent {
          reason := EmitFailed;
        }
      }
    }

    /** What happens to a payload that passed the checks. */
    method ConvertAndEmit(payload: string, closed: bool) returns (phase: Phase)
      requires Live()
      modifies this`log, this`rung, this`attempts, this`flushed, this`state, this`fed
      ensures Live()
      ensures var f := conv.feed(old(state), payload);
              var q := old(Standing(Pumping)).(conv := f.state, fed := old(fed) + [payload]);
              Standing(phase) ==
                if f.failed then q.(phase := Ended(ConversionFailed))
                else
                  var e := Emit(ok, q, f.events);
                  if e.phase.Ended? || !(f.done || closed) then e else Finish(conv, ok, e, f.done)
    {
      var f := conv.feed(state, payload);
      state := f.state;
      fed := fed + [payload];
      if f.failed {
        return Ended(ConversionFailed);
      }
      var sent := EmitEvents(f.events);
      if !sent {
        return Ended(EmitFailed);
      }
      if f.done || closed {
        var reason := EndOfLoop(f.done);
        return Ended(reason);
      }
      phase := Pumping;
    }

    method OneTurn(r: Read) returns (phase: Phase)
      requires Live()
      modifies this`log, this`rung, this`attempts, this`flushed, this`state, this`fed, this`total
      ensures Live() && Standing(phase) == Turn(conv, ok, max, old(Standing(Pumping)), r)
    {
      if r.aborted {
        return Ended(TimedOut);
      }
      if r.failed {
        return Ended(ReadFailed);
      }
      if r.errMsg != "" {
        return Ended(UpstreamError);
      }
      total := total + |r.payload|;
      if total > max {
        return Ended(TooLarge);
      }
      phase := ConvertAndEmit(r.payload, r.closed);
    }

    /**
     * Reads until the stream ends. Then the downstream has been closed exactly once, after the last
     * emit, and the upstream once by the pump and once more by the watchdog if that ever fires.
     */
    method PumpStream(script: seq<Read>) returns (phase: Phase)
      requires Live() && Standing(Pumping) == Run(conv, ok, max, []) && SetByWatchdog(script, rings)
      modifies this
      ensures phase == Run(conv, ok, max, script).phase && SentIn(log) == Run(conv, ok, max, script).sent
      ensures EmitsBeforeClose(log) && DownstreamCloses(log) == if phase.Ended? then 1 else 0
      ensures phase.Ended? ==> ClosedWith(log) == Some(phase.reason)
      ensures phase.Ended? ==> UpstreamCloses(log) >= 1 && (UpstreamCloses(log) == 1 <==> rings.None?)
      ensures UpstreamCloses(log) <= 2 && (phase == Ended(TimedOut) ==> rings.Some?)
    {
      phase := Pumping;
      var n := 0;
      while n < |script| && phase.Pumping?
        invariant 0 <= n <= |script| && Live()
        invariant Standing(phase) == Run(conv, ok, max, script[..n])
      {
        assert script[..n + 1][..n] == script[..n];
        phase := OneTurn(script[n]);
        n := n + 1;
      }
      RunStops(conv, ok, max, script, n);
      TimedOutIsSeen(conv, ok, max, script);
      if phase.Ended? {
        CloseStreams(phase.reason);
        // a watchdog that fired before it was stopped still closes
        Watchdog(true);
      }
    }
  }

  /** The flag that reads observe is set by the watchdog and by nothing else. */
  predicate SetByWatchdog(script: seq<Read>, rings: Option<nat>) {
    forall i :: 0 <= i < |script| && script[i].aborted ==> rings.Some?
  }

  lemma TurnTimesOut<S>(c: Converter<S>, ok: nat -> bool, max: int, p: Progress<S>, r: Read)
    requires p.phase.Pumping?
    ensures Turn(c, ok, max, p, r).phase == Ended(TimedOut) ==> r.aborted
  {
  }

  lemma {:induction false} TimedOutIsSeen<S>(c: Converter<S>, ok: nat -> bool, max: int, script: seq<Read>)
    ensures Run(c, ok, max, script).phase == Ended(TimedOut) ==> exists i :: 0 <= i < |script| && script[i].aborted
    decreases |script|
  {
    if script != [] {
      var n := |script| - 1;
      var p := Run(c, ok, max, script[..n]);
      TimedOutIsSeen(c, ok, max, script[..n]);
      if p.phase.Pumping? {
        TurnTimesOut(c, ok, max, p, script[n]);
      } else if p.phase == Ended(TimedOut) {
        var i :| 0 <= i < n && script[..n][i].aborted;
        assert script[i].aborted;
      }
    }
  }

  // ---- executing a stream request ----

  /** How the stream start ended: an error, or a status and the upstream stream's id. */
  datatype Started = StartFailed | StartedWith(status: int)

  /**
   * Starting a stream hands the pump an upstream stream, or closes it at once when the status says so.
   * On every exit a started upstream stream has been closed, and exactly once if and only if no
   * watchdog fired.
   */
  method ExecuteStream<S>(start: Started, pump: StreamPump<S>, script: seq<Read>) returns (phase: Option<Phase>)
    requires pump.log == [] && pump.Live() && !pump.rung && pump.Standing(Pumping) == Run(pump.conv, pump.ok, pump.max, [])
    requires SetByWatchdog(script, pump.rings)
    modifies pump
    ensures start.StartFailed? ==> phase.None? && pump.log == []
    ensures start.StartedWith? && start.status >= 400 ==> phase.None? && pump.log == [ClosedUpstream] && UpstreamCloses(pump.log) == 1
    ensures start.StartedWith? && start.status < 400 ==> phase == Some(Run(pump.conv, pump.ok, pump.max, script).phase)
    ensures SentIn(pump.log) == if phase.Some? then Run(pump.conv, pump.ok, pump.max, script).sent else []
    ensures phase.Some? && phase.value.Ended? ==> UpstreamCloses(pump.log) >= 1 && (UpstreamCloses(pump.log) == 1 <==> pump.rings.None?)
    ensures DownstreamCloses(pump.log) == if phase.Some? && phase.value.Ended? then 1 else 0
    ensures EmitsBeforeClose(pump.log) && (phase.Some? && phase.value.Ended? ==> ClosedWith(pump.log) == Some(phase.value.reason))
  {
    phase := None;
    if start.StartFailed? {
      return;
    }
    if start.status >= 400 {
      LogOne(pump.log, ClosedUpstream);
      pump.log := pump.log + [ClosedUpstream];
      return;
    }
    var p := pump.PumpStream(script);
    phase := Some(p);
  }

  // ---- emitting in a loop ----

  /** After `n` events were accepted the rest decides. */
  predicate EmitsFrom(ok: nat -> bool, start: nat, events: seq<Event>, n: nat, now: nat)
    requires n <= |events|
  {
    var r := EmitAll(ok, now, events[n..]);
    EmitAll(ok, start, events) == (events[..n] + r.0, r.1, r.2)
  }

  lemma EmitsStart(ok: nat -> bool, start: nat, events: seq<Event>)
    ensures EmitsFrom(ok, start, events, 0, start)
  {
    assert events[0..] == events && [] + EmitAll(ok, start, events).0 == EmitAll(ok, start, events).0;
  }

  lemma {:induction false} EmitsNext(ok: nat -> bool, start: nat, events: seq<Event>, n: nat, now: nat)
    requires n < |events| && EmitsFrom(ok, start, events, n, now)
    ensures if ok(now) then EmitsFrom(ok, start, events, n + 1, now + 1)
            else EmitAll(ok, start, events) == (events[..n], now + 1, false)
  {
    assert events[n..][0] == events[n] && events[n..][1..] == events[n + 1..];
    if ok(now) {
      Assoc(events[..n], [events[n]], EmitAll(ok, now + 1, events[n + 1..]).0);
      assert events[..n] + [events[n]] == events[..n + 1];
    } else {
      assert events[..n] + [] == events[..n];
    }
  }

  lemma {:induction false} EmitsEnd(ok: nat -> bool, start: nat, events: seq<Event>, now: nat)
    requires EmitsFrom(ok, start, events, |events|, now)
    ensures EmitAll(ok, start, events) == (events, now, true)
  {
    assert events[|events|..] == [] && events[..|events|] == events && events + [] == events;
  }

  /** Once ended, later reads change nothing. */
  lemma {:induction false} RunStops<S>(c: Converter<S>, ok: nat -> bool, max: int, script: seq<Read>, n: nat)
    requires n <= |script| && (n < |script| ==> Run(c, ok, max, script[..n]).phase.Ended?)
    ensures Run(c, ok, max, script) == Run(c, ok, max, script[..n])
    decreases |script|
  {
    if n < |script| {
      assert script[..|script| - 1][..n] == script[..n];
      RunStops(c, ok, max, script[..|script| - 1], n);
    } else {
      assert script[..n] == script;
    }
  }
}
