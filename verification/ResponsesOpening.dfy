/**
 * Responses streams: what opens the client's response, and the identity it carries, for both targets.
 */
module ResponsesOpening {
  import opened Wire
  import opened Folds
  import T = ToolTracker
  import opened ResponsesStream

  function Opens(): Event -> bool {
    (e: Event) => e.MessageStart? || e.RoleChunk?
  }

  /** The last identifier a response.created has carried; a fixed one before any has. */
  function LastId(ups: seq<Up>): string
    decreases |ups|
  {
    if ups == [] then "opencode-go"
    else
      var up := ups[|ups| - 1];
      if up.UpCreated? && up.id != "" then up.id else LastId(ups[..|ups| - 1])
  }

  function LastModel(ups: seq<Up>): string
    decreases |ups|
  {
    if ups == [] then ""
    else
      var up := ups[|ups| - 1];
      if up.UpCreated? && up.model != "" then up.model else LastModel(ups[..|ups| - 1])
  }

  /** One message_start for each response.created, with the identity known by then; tokens are told at the end. */
  function Starts(ups: seq<Up>): seq<Event>
    decreases |ups|
  {
    if ups == [] then []
    else
      Starts(ups[..|ups| - 1]) + if ups[|ups| - 1].UpCreated? then [MessageStart(LastId(ups), LastModel(ups), 0)] else []
  }

  function Roles(ups: seq<Up>): seq<Event>
    decreases |ups|
  {
    if ups == [] then [] else Roles(ups[..|ups| - 1]) + if ups[|ups| - 1].UpCreated? then [RoleChunk] else []
  }

  lemma CallOpensNothing(st: State, d: T.Decision, id: string, name: string, part: Option<string>)
    ensures var out := ClaudeCall(st, d, id, name, part);
            out.0.id == st.id && out.0.model == st.model && forall i :: 0 <= i < |out.1| ==> !Opens()(out.1[i])
  {
  }


  lemma UpOpens(st: State, up: Up)
    requires st.tracker.Valid() && !up.UpFailed?
    ensures var out := ClaudeUp(st, up);
            && out.0.id == (if up.UpCreated? && up.id != "" then up.id else st.id)
            && out.0.model == (if up.UpCreated? && up.model != "" then up.model else st.model)
            && Only(Opens(), out.1) == if up.UpCreated? then [MessageStart(out.0.id, out.0.model, 0)] else []
  {
    if up.UpCreated? {
      CreatedStarts(st, up);
      OnlyOne(Opens(), ClaudeUp(st, up).1[0]);
    } else {
      OthersOpenNothing(st, up);
      OnlyNone(Opens(), ClaudeUp(st, up).1);
    }
  }

  lemma CreatedStarts(st: State, up: Up)
    requires st.tracker.Valid() && up.UpCreated?
    ensures var out := ClaudeUp(st, up);
            && out.0.id == (if up.id != "" then up.id else st.id) && out.0.model == (if up.model != "" then up.model else st.model)
            && out.1 == [MessageStart(out.0.id, out.0.model, 0)]
  {
  }

  lemma OthersOpenNothing(st: State, up: Up)
    requires st.tracker.Valid() && !up.UpFailed? && !up.UpCreated?
    ensures var out := ClaudeUp(st, up);
            out.0.id == st.id && out.0.model == st.model && forall i :: 0 <= i < |out.1| ==> !Opens()(out.1[i])
  {
    if TracksCall(up) {
      var st0 := if up.UpItem? then st.(toolCallsSeen := true) else st;
      var (st1, d) := Track(st0, OpOf(up, st.nextIndex));
      if up.UpItem? {
        CallOpensNothing(st1, d, up.callId, up.name, if d.deliver then Some(up.args) else None);
      } else {
        CallOpensNothing(st1, d, up.itemId, "", Some(up.delta));
      }
    }
  }

  /**
   * Messages target: exactly one message_start for each response.created, in order, with the last
   * identifier and model the upstream has reported; and no other event starts a message.
   */
  lemma {:induction false} MessageOpens(ups: seq<Up>)
    requires Healthy(ups)
    ensures Only(Opens(), RunClaude(ups).1) == Starts(ups)
    ensures RunClaude(ups).0.id == LastId(ups) && RunClaude(ups).0.model == LastModel(ups)
    decreases |ups|
  {
    if ups != [] {
      var before, up := ups[..|ups| - 1], ups[|ups| - 1];
      MessageOpens(before);
      UpOpens(RunClaude(before).0, up);
      OnlyAppend(Opens(), RunClaude(before).1, ClaudeUp(RunClaude(before).0, up).1);
    }
  }

  lemma ChatUpOpens(st: State, up: Up)
    requires st.tracker.Valid() && !up.UpFailed?
    ensures var out := ChatUp(st, up);
            && out.0.id == (if up.UpCreated? && up.id != "" then up.id else st.id)
            && out.0.model == (if up.UpCreated? && up.model != "" then up.model else st.model)
            && Only(Opens(), out.1) == if up.UpCreated? then [RoleChunk] else []
  {
    ChatUpEmits(st, up);
    var out := ChatUp(st, up);
    if up.UpCreated? {
      OnlyOne(Opens(), RoleChunk);
    } else {
      OnlyNone(Opens(), out.1);
    }
  }

  lemma ChatUpEmits(st: State, up: Up)
    requires st.tracker.Valid() && !up.UpFailed?
    ensures var out := ChatUp(st, up);
            && out.0.id == (if up.UpCreated? && up.id != "" then up.id else st.id)
            && out.0.model == (if up.UpCreated? && up.model != "" then up.model else st.model)
            && (if up.UpCreated? then out.1 == [RoleChunk] else forall i :: 0 <= i < |out.1| ==> !Opens()(out.1[i]))
  {
  }

  /** Chat Completions target: exactly one role chunk for each response.created; the identity that chunks carry is the last reported. */
  lemma {:induction false} RoleOpens(ups: seq<Up>)
    requires Healthy(ups)
    ensures Only(Opens(), RunChat(ups).1) == Roles(ups)
    ensures RunChat(ups).0.id == LastId(ups) && RunChat(ups).0.model == LastModel(ups)
    decreases |ups|
  {
    if ups != [] {
      var before, up := ups[..|ups| - 1], ups[|ups| - 1];
      RoleOpens(before);
      ChatUpOpens(RunChat(before).0, up);
      OnlyAppend(Opens(), RunChat(before).1, ChatUp(RunChat(before).0, up).1);
    }
  }
}
