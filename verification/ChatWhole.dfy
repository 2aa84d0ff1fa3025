/**
 * Chat Completions to Responses: exactly when response.completed carries the whole answer, and agrees
 * with the non-streaming conversion, for upstreams that go on after their finish reason too.
 */
module ChatWhole {
  import opened Wire
  import opened Folds
  import opened Clients
  import A = Assembler
  import opened ChatUpstream
  import opened ChatStream
  import opened ChatClaude
  import opened ChatResponses
  import opened ChatParity
  import V = ChatConvert

  /** The calls as a terminal payload shows them. */
  function Complete(calls: seq<UpCall>): seq<Call> {
    seq(|calls|, i requires 0 <= i < |calls| => Call(calls[i].id, calls[i].name, DefaultArgs(calls[i].args)))
  }

  /** The answer so far: the message after the calls that had started before its text, arguments defaulted. */
  function Answer(chunks: seq<Chunk>): seq<Item>
    requires TextPlace(chunks) <= |Calls(chunks)|
  {
    var at := TextPlace(chunks);
    A.Placed(MessageItem(GatherAll(chunks).id, Text(chunks)), V.CallItems(ToolCalls(Calls(chunks))), at >= 0, if at >= 0 then at else 0)
  }

  lemma {:induction false} RunIdentity(chunks: seq<Chunk>)
    ensures var b, g := BriefOf(RunResponses(Fresh, chunks).0), GatherAll(chunks); b.id == g.id && b.started == g.started
    decreases |chunks|
  {
    if chunks != [] {
      RunIdentity(chunks[..|chunks| - 1]);
      ChunkIsBrief(RunResponses(Fresh, chunks[..|chunks| - 1]).0, chunks[|chunks| - 1]);
    }
  }

  /** What a client has been streamed, finished, is the answer so far. */
  lemma RunAnswers(chunks: seq<Chunk>)
    ensures TextPlace(chunks) <= |Calls(chunks)|
    ensures FinishItems(Receive(NoItems, RunResponses(Fresh, chunks).1).items) == Answer(chunks)
  {
    var a := RunResponses(Fresh, chunks);
    RunDelivers(chunks);
    RunPlace(chunks);
    RunIdentity(chunks);
    CollectedItems(a.0.tools, Calls(chunks));
    MirroredPlaced(a.0.tools, a.0.msgIndex, a.0.id, a.0.respText, Receive(NoItems, a.1).items);
  }

  /** A run of more chunks emits more. */
  lemma {:induction false} RunExtends(chunks: seq<Chunk>, n: nat)
    requires n <= |chunks|
    ensures RunResponses(Fresh, chunks[..n]).1 <= RunResponses(Fresh, chunks).1
    decreases |chunks|
  {
    if n < |chunks| {
      assert chunks[..|chunks| - 1][..n] == chunks[..n];
      RunExtends(chunks[..|chunks| - 1], n);
    } else {
      assert chunks[..n] == chunks;
    }
  }

  // ---- the terminal event ----

  /** The `n`-th chunk is the first that finishes. */
  predicate FinishesAt(chunks: seq<Chunk>, n: nat) {
    0 < n <= |chunks| && Finishes(chunks[n - 1]) && !HasFinish(chunks[..n - 1])
  }

  /** The terminal event is pending, and will carry the answer so far. */
  lemma PendingAnswer(chunks: seq<Chunk>, n: nat)
    requires FinishesAt(chunks, n)
    ensures var a := RunResponses(Fresh, chunks[..n]);
            a.0.heldFinish != "" && !a.0.flushed && TextPlace(chunks[..n]) <= |Calls(chunks[..n])| && TerminalOutput(a.0) == Answer(chunks[..n])
  {
    var before, prefix := chunks[..n - 1], chunks[..n];
    var a := RunResponses(Fresh, prefix);
    assert prefix[..n - 1] == before;
    RunStage(before);
    RunStage(prefix);
    RunDelivers(before);
    RunDelivers(prefix);
    HasFinishLast(prefix);
    NewlyFinished(RunResponses(Fresh, before).0, chunks[n - 1]);
    RunAnswers(prefix);
    TerminalOutputMirrors(a.0, Receive(NoItems, a.1).items);
  }

  /** The output array depends on these fields only. */
  predicate SameOutput(a: State, b: State) {
    a.id == b.id && a.tools == b.tools && a.msgIndex == b.msgIndex && a.respText == b.respText
  }

  lemma {:induction false} SameAssembly(a: State, b: State, n: nat)
    requires SameOutput(a, b) && n <= |a.tools|
    ensures Assemble(a, n) == Assemble(b, n)
    decreases n
  {
    if n > 0 {
      SameAssembly(a, b, n - 1);
    }
  }

  /** The terminal event held in `st`, when `usage` is what was heard. */
  function Pending(st: State, usage: Option<Tokens>): Event {
    Completed(st.id, st.model, StatusFromFinish(st.heldFinish), TerminalTokens(usage), TerminalOutput(st))
  }

  /** What the held terminal sends, seen from a state that differs only in bookkeeping. */
  lemma TerminalSends(st: State, b: State)
    requires SameOutput(st, b) && b.heldFinish == st.heldFinish != "" && b.model == st.model
    ensures RespTerminal(b).1 == [Pending(st, b.usage)]
  {
    SameAssembly(st, b, |st.tools|);
    OutputByAssembly(st, b);
  }

  lemma OutputByAssembly(a: State, b: State)
    requires SameOutput(a, b) && Assemble(a, |a.tools|) == Assemble(b, |b.tools|)
    ensures TerminalOutput(a) == TerminalOutput(b)
  {
  }

  lemma FirstOfChunk(st: State, c: Chunk)
    requires st.heldFinish != ""
    ensures RespChunk(st, c).1 != [] && RespChunk(st, c).1[0] == Pending(st, if c.usage.Some? then c.usage else st.usage)
  {
    var st0 := Capture(st, c);
    assert SameOutput(st, st0) && st0.heldFinish == st.heldFinish;
    TerminalSends(st, st0);
    TerminalComesFirst(st, c, RespTerminal(st0).1);
  }

  lemma TerminalComesFirst(st: State, c: Chunk, es: seq<Event>)
    requires es == RespTerminal(Capture(st, c)).1
    ensures es <= RespChunk(st, c).1
  {
  }

  lemma FirstOfEnd(st: State, ending: Ending)
    requires st.heldFinish != "" && !st.flushed
    ensures EndResponses(st, ending).1 == [Pending(st, st.usage)]
  {
    TerminalSends(st, if ending.ByDone? then st.(done := true) else st.(flushed := true));
  }

  lemma FirstAfter(a: seq<Event>, more: seq<Event>, all: seq<Event>)
    requires more != [] && a + more <= all
    ensures |a| < |all| && all[|a|] == more[0]
  {
    assert (a + more)[|a|] == more[0];
  }

  /** What was heard in time for the terminal event of a stream whose `n`-th chunk finishes. */
  function HeardBy(chunks: seq<Chunk>, n: nat): Option<Tokens>
    requires n <= |chunks|
  {
    GatherAll(if n < |chunks| then chunks[..n + 1] else chunks).heard
  }

  /** The chunk after it, or the end of the stream, sends the terminal event first. */
  lemma TerminalAt(chunks: seq<Chunk>, n: nat, ending: Ending)
    requires FinishesAt(chunks, n)
    ensures var es, a := Streamed(chunks, ending), RunResponses(Fresh, chunks[..n]);
            |a.1| < |es| && es[|a.1|] == Pending(a.0, HeardBy(chunks, n))
  {
    var a := RunResponses(Fresh, chunks[..n]);
    PendingAnswer(chunks, n);
    PendingBrief(chunks, n);
    if n == |chunks| {
      assert chunks[..n] == chunks;
      FirstOfEnd(a.0, ending);
      FirstAfter(a.1, EndResponses(a.0, ending).1, Streamed(chunks, ending));
    } else {
      assert chunks[..n + 1][..n] == chunks[..n];
      FirstOfChunk(a.0, chunks[n]);
      ChunkFollows(chunks, n, ending);
      FirstAfter(a.1, RespChunk(a.0, chunks[n]).1, Streamed(chunks, ending));
    }
  }

  /** At the finishing chunk the state holds what was gathered. */
  lemma PendingBrief(chunks: seq<Chunk>, n: nat)
    requires FinishesAt(chunks, n)
    ensures var b, g := BriefOf(RunResponses(Fresh, chunks[..n]).0), GatherAll(chunks[..n]);
            && b == Brief(true, g.id, g.model, g.heard, true, g.finish)
            && g.started && g.finish != "" && !g.ended
  {
    var prefix := chunks[..n];
    assert prefix[..n - 1] == chunks[..n - 1];
    RunAgrees(prefix);
    HasFinishLast(prefix);
    GatheredFinish(prefix);
  }

  /** What the finishing chunk and the one after it settle is settled in what was gathered. */
  predicate Settled(g: Gathered, h: Gathered, heard: Option<Tokens>, more: bool) {
    && g.started && g.id == h.id && g.model == h.model && g.finish == h.finish != ""
    && g.heard == heard && (g.ended <==> more)
  }

  lemma SettledNext(g: Gathered, h: Gathered, heard: Option<Tokens>, more: bool, c: Chunk, now: Option<Tokens>)
    requires Settled(g, h, heard, more) && now == if more then heard else Gather(g, c).heard
    ensures Settled(Gather(g, c), h, now, true)
  {
  }

  lemma {:induction false} SealStays(chunks: seq<Chunk>, n: nat)
    requires FinishesAt(chunks, n)
    ensures Settled(GatherAll(chunks), GatherAll(chunks[..n]), HeardBy(chunks, n), n < |chunks|)
    decreases |chunks|
  {
    if n < |chunks| {
      var before := chunks[..|chunks| - 1];
      assert before[..n] == chunks[..n] && before[..n - 1] == chunks[..n - 1];
      SealStays(before, n);
      HeardStays(chunks, before, n);
      SettledNext(GatherAll(before), GatherAll(chunks[..n]), HeardBy(before, n), n < |before|, chunks[|chunks| - 1], HeardBy(chunks, n));
    } else {
      assert chunks[..n] == chunks;
      PendingBrief(chunks, n);
    }
  }

  lemma HeardStays(chunks: seq<Chunk>, before: seq<Chunk>, n: nat)
    requires n < |chunks| && before == chunks[..|chunks| - 1]
    ensures HeardBy(chunks, n) == if n < |before| then HeardBy(before, n) else GatherAll(chunks).heard
  {
    if n < |before| {
      assert before[..n + 1] == chunks[..n + 1];
    } else {
      assert chunks[..n + 1] == chunks;
    }
  }

  lemma ChunkFollows(chunks: seq<Chunk>, n: nat, ending: Ending)
    requires n < |chunks|
    ensures var a := RunResponses(Fresh, chunks[..n]); a.1 + RespChunk(a.0, chunks[n]).1 <= Streamed(chunks, ending)
  {
    assert chunks[..n + 1][..n] == chunks[..n];
    RunExtends(chunks, n + 1);
  }

  // ---- what an answer says ----

  lemma {:induction false} FinishedSays(items: seq<Item>)
    ensures ItemsText(FinishItems(items)) == ItemsText(items)
    ensures |ItemsCalls(FinishItems(items))| == |ItemsCalls(items)|
    ensures forall k :: 0 <= k < |ItemsCalls(items)| ==>
              var c := ItemsCalls(items)[k]; ItemsCalls(FinishItems(items))[k] == Call(c.id, c.name, DefaultArgs(c.args))
    decreases |items|
  {
    if items != [] {
      assert FinishItems(items)[1..] == FinishItems(items[1..]);
      FinishedSays(items[1..]);
    }
  }

  lemma AnswerSays(chunks: seq<Chunk>)
    ensures TextPlace(chunks) <= |Calls(chunks)|
    ensures ItemsText(Answer(chunks)) == Text(chunks) && ItemsCalls(Answer(chunks)) == Complete(Calls(chunks))
  {
    var a := RunResponses(Fresh, chunks);
    var items := Receive(NoItems, a.1).items;
    RunAnswers(chunks);
    RunDelivers(chunks);
    MirroredContents(a.0.tools, a.0.msgIndex, a.0.id, a.0.respText, items, Calls(chunks));
    FinishedSays(items);
  }

  lemma {:induction false} PlaceStays(chunks: seq<Chunk>, n: nat)
    requires n <= |chunks| && TextPlace(chunks[..n]) >= 0
    ensures TextPlace(chunks) == TextPlace(chunks[..n])
    decreases |chunks|
  {
    if n < |chunks| {
      assert chunks[..|chunks| - 1][..n] == chunks[..n];
      PlaceStays(chunks[..|chunks| - 1], n);
    } else {
      assert chunks[..n] == chunks;
    }
  }

  lemma CompleteItems(a: seq<UpCall>, b: seq<UpCall>)
    requires Complete(a) == Complete(b)
    ensures V.CallItems(ToolCalls(a)) == V.CallItems(ToolCalls(b))
  {
    assert |a| == |Complete(a)| && |b| == |Complete(b)|;
    forall i | 0 <= i < |a| ensures V.CallItems(ToolCalls(a))[i] == V.CallItems(ToolCalls(b))[i] {
      assert Complete(a)[i] == Complete(b)[i];
    }
  }

  /** Nothing was said after the finishing chunk that a terminal payload would show. */
  predicate SaidByThen(chunks: seq<Chunk>, n: nat)
    requires n <= |chunks|
  {
    Text(chunks) == Text(chunks[..n]) && Complete(Calls(chunks)) == Complete(Calls(chunks[..n]))
  }

  lemma AnswersEqualIff(chunks: seq<Chunk>, n: nat)
    requires FinishesAt(chunks, n)
    ensures TextPlace(chunks) <= |Calls(chunks)| && TextPlace(chunks[..n]) <= |Calls(chunks[..n])|
    ensures Answer(chunks[..n]) == Answer(chunks) <==> SaidByThen(chunks, n)
  {
    AnswerSays(chunks);
    AnswerSays(chunks[..n]);
    if SaidByThen(chunks, n) {
      SealStays(chunks, n);
      TextPlaceIff(chunks);
      TextPlaceIff(chunks[..n]);
      if TextPlace(chunks[..n]) >= 0 {
        PlaceStays(chunks, n);
      }
      CompleteItems(Calls(chunks), Calls(chunks[..n]));
    }
  }

  lemma EndSendsTerminal(st: State, ending: Ending)
    ensures var es := EndResponses(st, ending).1; es == [] || (|es| == 1 && es[0].Completed?)
  {
  }

  lemma EndAddsNoItems(chunks: seq<Chunk>, ending: Ending)
    ensures Receive(NoItems, Streamed(chunks, ending)).items == Receive(NoItems, RunResponses(Fresh, chunks).1).items
  {
    var a := RunResponses(Fresh, chunks);
    EndSendsTerminal(a.0, ending);
    TerminalAddsNoItems(a.1, EndResponses(a.0, ending).1);
  }

  lemma TerminalAddsNoItems(es: seq<Event>, more: seq<Event>)
    requires more == [] || (|more| == 1 && more[0].Completed?)
    ensures Receive(NoItems, es + more).items == Receive(NoItems, es).items
  {
    FoldAppend(ItemsStep, NoItems, es, more);
    if more != [] {
      FoldOne(ItemsStep, Receive(NoItems, es), more[0]);
      assert more == [more[0]];
    }
  }

  /** Every stream: what the client ends up with, finished, is the answer, the message at its announced place among the calls. */
  lemma StreamedPlaced(chunks: seq<Chunk>, ending: Ending)
    ensures TextPlace(chunks) <= |Calls(chunks)|
    ensures FinishItems(Receive(NoItems, Streamed(chunks, ending)).items) == Answer(chunks)
  {
    RunAnswers(chunks);
    EndAddsNoItems(chunks, ending);
  }

  /**
   * Every stream that finishes, quiet afterwards or not: response.completed comes right after the
   * events of the finishing chunk, and its output is the whole answer the client ends up with if and
   * only if no text, and no call or argument that a payload would show, came in any later chunk.
   */
  lemma {:induction false} PayloadIsWholeIff(chunks: seq<Chunk>, n: nat, ending: Ending)
    requires FinishesAt(chunks, n)
    ensures var es, p := Streamed(chunks, ending), |RunResponses(Fresh, chunks[..n]).1|;
            && p < |es| && es[p].Completed?
            && (es[p].output == FinishItems(Receive(NoItems, es).items) <==> SaidByThen(chunks, n))
  {
    TerminalAt(chunks, n, ending);
    PendingAnswer(chunks, n);
    StreamedPlaced(chunks, ending);
    AnswersEqualIff(chunks, n);
  }

  // ---- against the non-streaming conversion ----

  lemma {:induction false} CallsSay(calls: seq<Item>)
    requires forall i :: 0 <= i < |calls| ==> calls[i].CallItem?
    ensures ItemsText(calls) == "" && |ItemsCalls(calls)| == |calls|
    ensures forall i :: 0 <= i < |calls| ==> ItemsCalls(calls)[i] == Call(calls[i].callId, calls[i].name, calls[i].args)
    decreases |calls|
  {
    if calls != [] {
      CallsSay(calls[1..]);
    }
  }

  /** The non-streaming output says the whole text and all calls. */
  lemma ConvertedSays(msg: Item, calls: seq<UpCall>)
    requires msg.MessageItem?
    ensures var items := A.Placed(msg, V.CallItems(ToolCalls(calls)), false, 0);
            ItemsText(items) == msg.text && ItemsCalls(items) == Complete(calls)
  {
    var items := V.CallItems(ToolCalls(calls));
    CallsSay(items);
    assert ItemsCalls(items) == Complete(calls);
    if msg.text != "" {
      assert ([msg] + items)[1..] == items;
      assert msg.text + "" == msg.text && [] + Complete(calls) == Complete(calls);
    }
  }

  /** The answer by the finishing chunk is the non-streaming output when nothing more was said and no call came before the text. */
  lemma AnswerIsConvertedIff(chunks: seq<Chunk>, n: nat)
    requires FinishesAt(chunks, n)
    ensures TextPlace(chunks[..n]) <= |Calls(chunks[..n])|
    ensures Answer(chunks[..n]) == A.Placed(MessageItem(GatherAll(chunks).id, Text(chunks)), V.CallItems(ToolCalls(Calls(chunks))), false, 0)
            <==> SaidByThen(chunks, n) && TextPlace(chunks) <= 0
  {
    AnswerSays(chunks[..n]);
    AnswerSays(chunks);
    ConvertedSays(MessageItem(GatherAll(chunks).id, Text(chunks)), Calls(chunks));
    AnswersEqualIff(chunks, n);
    TextPlaceIff(chunks);
    PlacedFirstIff(MessageItem(GatherAll(chunks).id, Text(chunks)), V.CallItems(ToolCalls(Calls(chunks))), TextPlace(chunks));
  }

  /** The one terminal event is sealed with what was gathered. */
  lemma TerminalIsSealed(chunks: seq<Chunk>, n: nat, ending: Ending)
    requires FinishesAt(chunks, n)
    ensures var es, p := Streamed(chunks, ending), |RunResponses(Fresh, chunks[..n]).1|;
            p < |es| && Seals(es[p], GatherAll(chunks))
  {
    TerminalAt(chunks, n, ending);
    PendingBrief(chunks, n);
    SealStays(chunks, n);
  }

  /**
   * Every stream that finishes, its terminal event against the non-streaming conversion of the whole
   * response: the same identity and status; the reported tokens if and only if no differing usage came
   * later than the chunk after the finishing one; and the same output if and only if nothing a payload
   * would show came in a later chunk than the finishing one, and the first text came before any tool
   * call, or there was none.
   */
  lemma {:induction false} ModesAgreeIff(chunks: seq<Chunk>, n: nat, ending: Ending)
    requires FinishesAt(chunks, n)
    ensures V.Convertible(Message(chunks))
    ensures var es, p, r := Streamed(chunks, ending), |RunResponses(Fresh, chunks[..n]).1|, V.Converted(Message(chunks));
            && p < |es| && es[p].Completed?
            && r.id == es[p].id && r.model == es[p].model && r.status == es[p].status
            && ((r.usage.Some? ==> r.usage.value == es[p].tokens) <==> UsageInTime(chunks))
            && (r.output == es[p].output <==> SaidByThen(chunks, n) && TextPlace(chunks) <= 0)
  {
    TerminalIsSealed(chunks, n, ending);
    TerminalAt(chunks, n, ending);
    PendingAnswer(chunks, n);
    ConvertedIs(chunks);
    SealedAgreesIff(chunks, Streamed(chunks, ending)[|RunResponses(Fresh, chunks[..n]).1|]);
    AnswerIsConvertedIff(chunks, n);
  }
}
