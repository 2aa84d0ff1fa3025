/**
 * Responses streams: the stop reason and token counts of the terminal events, against what the
 * upstream mentioned and against the non-streaming conversion of the response.
 */
module ResponsesParity {
  import opened Wire
  import opened ResponsesStream
  import M = MessagesConvert
  import V = ResponsesConvert

  // ---- what the upstream mentioned ----

  /** A function_call item was announced or completed. */
  predicate ItemMentioned(ups: seq<Up>)
    decreases |ups|
  {
    ups != [] && (ItemMentioned(ups[..|ups| - 1]) || (ups[|ups| - 1].UpItem? && ups[|ups| - 1].isCall))
  }

  /** A call was mentioned at all, if only by a fragment of its arguments. */
  predicate CallMentioned(ups: seq<Up>)
    decreases |ups|
  {
    ups != [] && (CallMentioned(ups[..|ups| - 1]) || TracksCall(ups[|ups| - 1]))
  }

  lemma HealthyBefore(ups: seq<Up>)
    requires Healthy(ups) && ups != []
    ensures Healthy(ups[..|ups| - 1]) && !ups[|ups| - 1].UpFailed?
  {
  }

  lemma ClaudeKeepsSeen(st: State, up: Up)
    requires st.tracker.Valid() && !up.UpFailed?
    ensures ClaudeUp(st, up).0.toolCallsSeen == (st.toolCallsSeen || (up.UpItem? && up.isCall))
  {
  }

  lemma ChatKeepsSeen(st: State, up: Up)
    requires st.tracker.Valid() && !up.UpFailed?
    ensures ChatUp(st, up).0.toolCallsSeen == (st.toolCallsSeen || TracksCall(up))
  {
  }

  lemma {:induction false} ClaudeSees(ups: seq<Up>)
    requires Healthy(ups)
    ensures RunClaude(ups).0.toolCallsSeen == ItemMentioned(ups)
    decreases |ups|
  {
    if ups != [] {
      HealthyBefore(ups);
      ClaudeSees(ups[..|ups| - 1]);
      ClaudeKeepsSeen(RunClaude(ups[..|ups| - 1]).0, ups[|ups| - 1]);
    }
  }

  lemma {:induction false} ChatSees(ups: seq<Up>)
    requires Healthy(ups)
    ensures RunChat(ups).0.toolCallsSeen == CallMentioned(ups)
    decreases |ups|
  {
    if ups != [] {
      HealthyBefore(ups);
      ChatSees(ups[..|ups| - 1]);
      ChatKeepsSeen(RunChat(ups[..|ups| - 1]).0, ups[|ups| - 1]);
    }
  }

  // ---- the terminal events ----

  /** The status a terminal event stands for. */
  function StatusOf(up: Up): string
    requires up.UpTerminal?
  {
    if up.incomplete then "incomplete" else "completed"
  }

  /** A response body whose status and usage the terminal event reports. */
  predicate Reports(up: Up, body: V.ResponsesBody) {
    && up.UpTerminal? && body.status == StatusOf(up)
    && body.usage == V.UsageIn(up.input, up.output, up.details.cached, up.details.cacheWrite)
  }

  lemma ClaudeEnds(ups: seq<Up>, up: Up)
    requires Healthy(ups) && up.UpTerminal?
    ensures Healthy(ups + [up])
    ensures var es := RunClaude(ups + [up]).1;
            && |es| >= 2 && es[|es| - 1] == MessageStop
            && es[|es| - 2] == MessageDelta(
                 TerminalReason(ItemMentioned(ups), "tool_use", ClaudeStopFromStatus(StatusOf(up))),
                 ClaudeTokens(ClampSubtract(up.input, [up.details.cached, up.details.cacheWrite]), up.output, up.details.cached, up.details.cacheWrite))
  {
    assert (ups + [up])[..|ups|] == ups;
    ClaudeSees(ups);
  }

  /**
   * The last message_delta carries the tokens of the non-streaming conversion of the response, and its
   * stop reason if and only if a function_call item was streamed exactly when the response holds one.
   */
  lemma {:induction false} ClaudeModesAgreeIff<J(!new)>(j: M.Json<J>, ups: seq<Up>, up: Up, body: V.ResponsesBody)
    requires Healthy(ups) && Reports(up, body) && body.output.Some?
    ensures Healthy(ups + [up])
    ensures var es, r := RunClaude(ups + [up]).1, V.Translated(j, body, body.output.value);
            && |es| >= 2 && es[|es| - 2].MessageDelta?
            && es[|es| - 2].claudeTokens == ClaudeTokens(r.input, r.output, r.cacheRead, r.cacheCreation)
            && (es[|es| - 2].stopReason == r.stopReason <==> (V.HasCall(body.output.value) <==> ItemMentioned(ups)))
  {
    ClaudeEnds(ups, up);
  }

  /** The finish reason towards Chat Completions counts fragments too. */
  lemma {:induction false} ChatFinishTells(ups: seq<Up>, up: Up)
    requires Healthy(ups) && up.UpTerminal?
    ensures Healthy(ups + [up])
    ensures var es := RunChat(ups + [up]).1;
            && es != [] && es[|es| - 1].FinishChunk?
            && es[|es| - 1].reason == (if CallMentioned(ups) then "tool_calls" else if up.incomplete then "length" else "stop")
            && es[|es| - 1].tokens == ResponsesTokensFrom(up.input, up.output, up.details.cached, None, up.details.reasoning)
  {
    assert (ups + [up])[..|ups|] == ups;
    ChatSees(ups);
  }

  /** So when only fragments mention a call, the two targets disagree on why the response ended. */
  lemma {:induction false} TargetsDisagreeIff(ups: seq<Up>, up: Up)
    requires Healthy(ups) && up.UpTerminal?
    ensures Healthy(ups + [up])
    ensures var claude, chat := RunClaude(ups + [up]).1, RunChat(ups + [up]).1;
            && |claude| >= 2 && claude[|claude| - 2].MessageDelta? && chat != [] && chat[|chat| - 1].FinishChunk?
            && (claude[|claude| - 2].stopReason != FinishToClaudeStop(chat[|chat| - 1].reason) <==>
                CallMentioned(ups) && !ItemMentioned(ups))
  {
    ClaudeEnds(ups, up);
    ChatFinishTells(ups, up);
    ItemIsMention(ups);
  }

  lemma {:induction false} ItemIsMention(ups: seq<Up>)
    ensures ItemMentioned(ups) ==> CallMentioned(ups)
    decreases |ups|
  {
    if ups != [] {
      ItemIsMention(ups[..|ups| - 1]);
    }
  }
}
