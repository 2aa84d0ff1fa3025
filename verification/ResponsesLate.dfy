/**
 * Responses to Messages after the terminal event: which later events end up misplaced, read off the
 * upstream alone.
 */
module ResponsesLate {
  import opened Wire
  import opened Clients
  import T = ToolTracker
  import opened ResponsesStream
  import opened ResponsesClaude
  import opened ResponsesContents

  /** A call item delivers its arguments if and only if it has any and no earlier event of the call had. */
  lemma {:induction false} DeliversIff(p: T.Pairing, ups: seq<Up>, up: Up)
    requires Healthy(ups) && up.UpItem? && up.isCall && PairedUps(p, ups + [up])
    ensures var st := RunClaude(ups).0;
            T.Step(st.tracker, OpOf(up, st.nextIndex)).1.deliver <==> up.args != "" && !ArgsHeard(p, ups, p.owner(up.itemId))
  {
    var log, op := LogClaude(ups), OpOf(up, RunClaude(ups).0.nextIndex);
    PairedUpsNext(p, ups, up, ups + [up]);
    PairedIff(p, ups);
    PairedNext(p, log, op);
    TrackerIsRun(ups);
    T.RunNext(log, op);
    T.DecisionsAreExpected(p, log + [op], |log|);
    assert (log + [op])[..|log|] == log;
    LogTells(p, ups, p.owner(up.itemId));
  }

  lemma TrackerNext(st: State, up: Up)
    requires st.tracker.Valid() && !up.UpFailed?
    ensures ClaudeUp(st, up).0.tracker == if TracksCall(up) then T.Step(st.tracker, OpOf(up, st.nextIndex)).0 else st.tracker
  {
  }

  /** The converter's tracker is the log's. */
  lemma {:induction false} TrackerIsRun(ups: seq<Up>)
    requires Healthy(ups)
    ensures RunClaude(ups).0.tracker == T.Run(LogClaude(ups)).0
    decreases |ups|
  {
    if ups != [] {
      var before, up := ups[..|ups| - 1], ups[|ups| - 1];
      TrackerIsRun(before);
      TrackerNext(RunClaude(before).0, up);
      if TracksCall(up) {
        T.RunNext(LogClaude(before), OpOf(up, RunClaude(before).0.nextIndex));
      } else {
        assert LogClaude(before) + [] == LogClaude(before);
      }
    }
  }

  lemma LateItemRejectedIff(ups: seq<Up>, up: Up)
    requires UpToTerminal(ups) && StageOf(ups).Ended? && up.UpItem? && up.isCall
    ensures Healthy(ups + [up])
    ensures var st := RunClaude(ups).0;
            Watch(FreshMonitor, RunClaude(ups + [up]).1).ok <==>
              !NewCall(ups, up) && !T.Step(st.tracker, OpOf(up, st.nextIndex)).1.deliver
  {
    FirstIffNew(ups, up);
    LateIsQuietIff(ups, up);
  }

  /** A late event is accepted exactly when it emits nothing. */
  lemma LateIsQuietIff(ups: seq<Up>, up: Up)
    requires UpToTerminal(ups) && StageOf(ups).Ended? && !up.UpFailed?
    ensures Healthy(ups + [up])
    ensures Watch(FreshMonitor, RunClaude(ups + [up]).1).ok <==> ClaudeUp(RunClaude(ups).0, up).1 == []
  {
    LateOutputIsRejected(ups, [up]);
    RunSplit(ups, up);
    var es, more := RunClaude(ups).1, ClaudeUp(RunClaude(ups).0, up).1;
    assert es + more == es <==> more == [] by {
      assert |es + more| == |es| + |more|;
    }
  }

  /**
   * After the terminal event, misplaced are every text delta, argument fragment, second terminal event
   * and second response.created; and of the call items those whose identifiers are all new, and those
   * with complete arguments when nothing before carried arguments of that call, which is stated for
   * one-to-one pairings.
   */
  lemma {:induction false} LateEventRejectedIff(p: T.Pairing, ups: seq<Up>, up: Up)
    requires UpToTerminal(ups) && StageOf(ups).Ended? && !up.UpFailed?
    ensures Healthy(ups + [up])
    ensures var accepted := Watch(FreshMonitor, RunClaude(ups + [up]).1).ok;
            && (!(up.UpItem? && up.isCall) ==> (accepted <==> up.UpOther? || up.UpItem?))
            && (up.UpItem? && up.isCall && (NewCall(ups, up) || up.args == "") ==> (accepted <==> !NewCall(ups, up)))
            && (up.UpItem? && up.isCall && PairedUps(p, ups + [up]) ==>
                  (accepted <==> !NewCall(ups, up) && (up.args == "" || ArgsHeard(p, ups, p.owner(up.itemId)))))
  {
    if up.UpItem? && up.isCall {
      LateItemRejectedIff(ups, up);
      if PairedUps(p, ups + [up]) {
        DeliversIff(p, ups, up);
      }
    } else {
      LateIsQuietIff(ups, up);
    }
  }
}
