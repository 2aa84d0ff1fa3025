/**
 * Messages streams: what opens the client's response, what the finish chunks report, and how a stream
 * ends, read off the upstream.
 */
module MessagesTold {
  import opened Wire
  import opened Folds
  import LF = LineFeed
  import opened MessagesConvert
  import opened MessagesStream
  import C = MessagesChat
  import O = MessagesOrder

  function Opens(): Event -> bool {
    (e: Event) => e.Created? || e.RoleChunk?
  }

  function Finishes(): Event -> bool {
    (e: Event) => e.FinishChunk?
  }

  // ---- the Responses target ----

  /** One response.created for each message_start, with its id. */
  function Createds(ups: seq<Up>): seq<Event>
    decreases |ups|
  {
    if ups == [] then []
    else
      var up := ups[|ups| - 1];
      Createds(ups[..|ups| - 1]) + if up.UpStart? then [Created(up.id)] else []
  }

  lemma DispatchOpens(st: State, up: Up)
    ensures Only(Opens(), Dispatch(st, up).events) == if up.UpStart? then [Created(up.id)] else []
  {
    DispatchEmits(st, up);
    if up.UpStart? {
      OnlyOne(Opens(), Created(up.id));
    } else {
      OnlyNone(Opens(), Dispatch(st, up).events);
    }
  }

  lemma DispatchEmits(st: State, up: Up)
    ensures var es := Dispatch(st, up).events;
            if up.UpStart? then es == [Created(up.id)] else forall i :: 0 <= i < |es| ==> !Opens()(es[i])
  {
  }

  /** Exactly one response.created for each message_start before the stream ended, with its id. */
  lemma {:induction false} ResponseOpens(ups: seq<Up>)
    requires Run(ups).status.Open?
    ensures Only(Opens(), Run(ups).events) == Createds(ups)
    decreases |ups|
  {
    if ups != [] {
      var before, up := ups[..|ups| - 1], ups[|ups| - 1];
      ResponseOpens(before);
      DispatchOpens(Run(before).state, up);
      OnlyAppend(Opens(), Run(before).events, Dispatch(Run(before).state, up).events);
    }
  }

  // ---- the Chat Completions target ----

  /** Something a client sees as an answer, or its start, came. */
  predicate Spoke(ups: seq<Up>) {
    exists i :: 0 <= i < |ups| && (ups[i].UpStart? || ups[i].UpText? || ups[i].UpJson?)
  }

  lemma SpokeNext(ups: seq<Up>, up: Up)
    ensures Spoke(ups + [up]) <==> Spoke(ups) || up.UpStart? || up.UpText? || up.UpJson?
  {
    var all := ups + [up];
    assert all[|ups|] == up && forall i :: 0 <= i < |ups| ==> all[i] == ups[i];
  }

  /** The id and model of the last message_start. */
  function LastStart(ups: seq<Up>): (string, string)
    decreases |ups|
  {
    if ups == [] then ("", "")
    else if ups[|ups| - 1].UpStart? then (ups[|ups| - 1].id, ups[|ups| - 1].model)
    else LastStart(ups[..|ups| - 1])
  }

  lemma ChunkEmits(st: State, e: Event)
    requires !Opens()(e) && !Finishes()(e)
    ensures var out := C.Chunk(st, e);
            && out.0 == st.(roleSent := true)
            && Only(Opens(), out.1) == (if st.roleSent then [] else [RoleChunk]) && Only(Finishes(), out.1) == []
  {
    OnlyOne(Opens(), e);
    OnlyOne(Opens(), RoleChunk);
    OnlyAppend(Opens(), [RoleChunk], [e]);
    assert [RoleChunk] + [e] == [RoleChunk, e] && [RoleChunk] + [] == [RoleChunk];
    OnlyNone(Finishes(), C.Chunk(st, e).1);
  }

  /** One event: whether the role is told now, and what a finish chunk says. */
  lemma ChatEmits(st: State, up: Up)
    requires C.DispatchChat(st, up).status.Open?
    ensures var o := C.DispatchChat(st, up);
            && o.state.roleSent == (st.roleSent || up.UpStart? || up.UpText? || up.UpJson?)
            && Only(Opens(), o.events) == (if o.state.roleSent && !st.roleSent then [RoleChunk] else [])
            && Only(Finishes(), o.events) == (if up.UpMessage? then [C.ChatFinish(C.Counted(st, up.usage), up.stopReason)] else [])
  {
    match up
    case UpStart(_, _, _) =>
      OnlyOne(Opens(), RoleChunk);
      OnlyOne(Finishes(), RoleChunk);
    case UpText(_, text) => ChunkEmits(st, ContentChunk(text));
    case UpJson(index, json) => ChunkEmits(C.Told(st, index), C.Fragment(Found(st.blocks, index).value, json));
    case UpMessage(stop, u) =>
      OnlyOne(Opens(), C.ChatFinish(C.Counted(st, u), stop));
      OnlyOne(Finishes(), C.ChatFinish(C.Counted(st, u), stop));
    case _ =>
  }

  // ---- the counts, read off the upstream ----

  /** The last non-zero input count since the last message_start, or that start's own. */
  function LastInput(ups: seq<Up>): int
    decreases |ups|
  {
    if ups == [] then 0
    else
      var up := ups[|ups| - 1];
      if up.UpStart? || (up.UpMessage? && up.usage.input != 0) then up.usage.input else LastInput(ups[..|ups| - 1])
  }

  predicate Counts(up: Up) {
    up.UpStart? || up.UpMessage?
  }

  function LastRead(ups: seq<Up>): Option<int>
    decreases |ups|
  {
    if ups == [] then None
    else
      var up := ups[|ups| - 1];
      if Counts(up) && up.usage.cacheRead.Some? then up.usage.cacheRead else LastRead(ups[..|ups| - 1])
  }

  function LastCreation(ups: seq<Up>): Option<int>
    decreases |ups|
  {
    if ups == [] then None
    else
      var up := ups[|ups| - 1];
      if Counts(up) && up.usage.cacheCreation.Some? then up.usage.cacheCreation else LastCreation(ups[..|ups| - 1])
  }

  /** The input counts added up, the output count of the message_delta itself, and the cached part. */
  function Reported(ups: seq<Up>, u: ClaudeUsage): ResponsesTokens {
    var input := Wrap64(Wrap64(LastInput(ups) + OrZero(LastRead(ups))) + OrZero(LastCreation(ups)));
    ResponsesTokens(input, u.output, Wrap64(input + u.output), LastRead(ups), None, None)
  }

  /** One finish chunk for each message_delta, as the upstream dictates. */
  function FinishChunks(ups: seq<Up>): seq<Event>
    decreases |ups|
  {
    if ups == [] then []
    else
      var up := ups[|ups| - 1];
      FinishChunks(ups[..|ups| - 1]) +
      if up.UpMessage? then
        [FinishChunk(if C.Starts(ups) != [] then "tool_calls" else ClaudeStopToFinish(up.stopReason), Reported(ups, up.usage))]
      else []
  }

  predicate Counted(ups: seq<Up>, st: State) {
    && st.prompt == LastInput(ups) && st.cacheRead == LastRead(ups) && st.cacheCreation == LastCreation(ups)
    && (st.msgId, st.model) == LastStart(ups) && (st.roleSent <==> Spoke(ups))
  }

  lemma CountedNext(ups: seq<Up>, st: State, up: Up)
    requires Counted(ups, st) && C.DispatchChat(st, up).status.Open?
    ensures Counted(ups + [up], C.DispatchChat(st, up).state)
  {
    assert (ups + [up])[..|ups|] == ups;
    SpokeNext(ups, up);
    ChatEmits(st, up);
    if !Counts(up) {
      ContentCountsNothing(st, up);
    }
  }

  lemma ContentCountsNothing(st: State, up: Up)
    requires !Counts(up)
    ensures var st' := C.DispatchChat(st, up).state;
            && st'.prompt == st.prompt && st'.cacheRead == st.cacheRead && st'.cacheCreation == st.cacheCreation
            && st'.msgId == st.msgId && st'.model == st.model
  {
  }

  /** The finish chunk of a message_delta. */
  lemma FinishIsReported(ups: seq<Up>, st: State, up: Up)
    requires Counted(ups, st) && up.UpMessage? && (st.toolsSeen <==> C.Starts(ups) != [])
    ensures C.ChatFinish(C.Counted(st, up.usage), up.stopReason) ==
            FinishChunk(if C.Starts(ups + [up]) != [] then "tool_calls" else ClaudeStopToFinish(up.stopReason), Reported(ups + [up], up.usage))
  {
    assert (ups + [up])[..|ups|] == ups;
    C.UpNext(ups, up);
    assert C.Starts(ups) + [] == C.Starts(ups);
    CountedNext(ups, st, up);
  }

  /**
   * Chat Completions target, every stream that has not ended: the role chunk comes exactly once if
   * anything opened or spoke, chunks carry the identity of the last message_start, and there is exactly
   * one finish chunk for each message_delta, with the reason and the counts the upstream dictates.
   */
  lemma {:induction false} ChatTells(ups: seq<Up>)
    requires C.RunChat(ups).status.Open?
    ensures var f := C.RunChat(ups);
            && Only(Opens(), f.events) == (if Spoke(ups) then [RoleChunk] else [])
            && Only(Finishes(), f.events) == FinishChunks(ups)
            && Counted(ups, f.state)
    decreases |ups|
  {
    if ups != [] {
      var before, up := ups[..|ups| - 1], ups[|ups| - 1];
      var f := C.RunChat(before);
      Last(ups);
      ChatTells(before);
      SpokeNext(before, up);
      C.RunKept(before);
      ChatEmits(f.state, up);
      CountedNext(before, f.state, up);
      if up.UpMessage? {
        FinishIsReported(before, f.state, up);
      }
      OnlyAppend(Opens(), f.events, C.DispatchChat(f.state, up).events);
      OnlyAppend(Finishes(), f.events, C.DispatchChat(f.state, up).events);
    }
  }

  // ---- endings ----

  /** What an event does to a stream that has not ended; `call`: the newest block at its index is a call. */
  function EndOf(up: Up, call: bool): LF.Status<Failure> {
    match up
    case UpStop => LF.Done
    case UpError(failure) => LF.Failed(failure)
    case UpJson(_, _) => if call then LF.Open else LF.Failed(Translation)
    case _ => LF.Open
  }

  /**
   * Both targets: a stream ends with the first message_stop, with the first error event and its
   * failure, or with the first argument fragment whose newest block is not a call; what comes after
   * the end changes nothing, and an ending event other than message_stop emits nothing.
   */
  lemma {:induction false} EndsAsTold(ups: seq<Up>, up: Up)
    ensures Run(ups).status.Open? ==>
              var f := Run(ups + [up]);
              f.status == EndOf(up, up.UpJson? && O.LiveCall(ups, up.index)) && (f.status.Failed? ==> f.events == Run(ups).events)
    ensures C.RunChat(ups).status.Open? ==>
              var f := C.RunChat(ups + [up]);
              f.status == EndOf(up, up.UpJson? && C.Owner(ups, up.index).Some?) && (!f.status.Open? ==> f.events == C.RunChat(ups).events)
    ensures !Run(ups).status.Open? ==> Run(ups + [up]) == Run(ups)
    ensures !C.RunChat(ups).status.Open? ==> C.RunChat(ups + [up]) == C.RunChat(ups)
  {
    RunNext(ups, up);
    C.RunChatNext(ups, up);
    assert Run(ups).events + [] == Run(ups).events && C.RunChat(ups).events + [] == C.RunChat(ups).events;
    if Run(ups).status.Open? && up.UpJson? {
      O.RunTabled(ups);
      assert O.Matches(Found(Run(ups).state.blocks, up.index), O.Latest(ups, up.index));
      JsonNeedsCall(Run(ups).state, up.index, up.json);
    }
    if C.RunChat(ups).status.Open? && up.UpJson? {
      C.ArgumentsNeedACall(ups, up.index, up.json);
    }
  }

  lemma JsonNeedsCall(st: State, index: int, json: string)
    ensures var b := Found(st.blocks, index);
            AddJson(st, index, json).status == if b.Some? && b.value.kind == "tool_use" then LF.Open else LF.Failed(Translation)
    ensures AddJson(st, index, json).status.Failed? ==> AddJson(st, index, json).events == []
  {
  }
}
