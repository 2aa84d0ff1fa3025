/**
 * When the tracker gives one call two indices: events may name a call by either identifier or by both,
 * and the table cannot tell that two identifiers belong together before some event has named both.
 */
module ToolForks {
  import opened Wire
  import opened Folds
  import opened ToolTracker

  // ---- logs whose events may lack identifiers ----

  /** The call an event is about; events without any identifier are about one call of their own. */
  function About(p: Pairing, op: Op): int {
    p.owner(if op.Seen? && op.callId != "" then op.callId else op.itemId)
  }

  /** The identifiers an event carries. */
  predicate Carrying(op: Op, id: string) {
    id != "" && ((op.Seen? && op.callId == id) || op.itemId == id)
  }

  /** Every identifier an event carries belongs to its call. */
  predicate Plausible(p: Pairing, op: Op) {
    var k := About(p, op);
    && (op.Seen? && op.callId != "" ==> op.callId == p.callId(k))
    && (op.itemId != "" ==> p.owner(op.itemId) == k && op.itemId == p.itemId(k))
  }

  predicate AllPlausible(p: Pairing, ops: seq<Op>) {
    forall m :: 0 <= m < |ops| ==> Plausible(p, ops[m])
  }

  /** An event of call `k` carried the identifier. */
  predicate Mentioned(p: Pairing, ops: seq<Op>, k: int, id: string)
    decreases |ops|
  {
    ops != [] && (Mentioned(p, ops[..|ops| - 1], k, id) || (About(p, ops[|ops| - 1]) == k && Carrying(ops[|ops| - 1], id)))
  }

  predicate Known(p: Pairing, ops: seq<Op>, k: int)
    decreases |ops|
  {
    ops != [] && (Known(p, ops[..|ops| - 1], k) || About(p, ops[|ops| - 1]) == k)
  }

  /** The event's call is known, but by none of the event's identifiers. */
  predicate Strays(p: Pairing, before: seq<Op>, op: Op) {
    && Known(p, before, About(p, op))
    && !Mentioned(p, before, About(p, op), op.itemId)
    && (op.Seen? ==> !Mentioned(p, before, About(p, op), op.callId))
  }

  predicate Forked(p: Pairing, ops: seq<Op>, k: int)
    decreases |ops|
  {
    ops != [] && (Forked(p, ops[..|ops| - 1], k) || (About(p, ops[|ops| - 1]) == k && Strays(p, ops[..|ops| - 1], ops[|ops| - 1])))
  }

  /** The allocator never offers again what the tracker has taken. */
  predicate Fresh(ops: seq<Op>) {
    forall i, j :: 0 <= i < j < |ops| && Run(ops).1[i].first ==> ops[i].next < ops[j].next
  }

  // ---- the table, read through the indices identifiers resolve to ----

  function Idx(t: Tracker, id: string): Option<int>
    requires t.Valid()
  {
    if id in t.calls then Some(t.states[t.calls[id]].index) else None
  }

  /** The index an event gets: that of an identifier it carries, or a new one. */
  function Given(t: Tracker, op: Op): Option<int>
    requires t.Valid()
  {
    if op.Seen? && Idx(t, op.callId).Some? then Idx(t, op.callId) else Idx(t, op.itemId)
  }

  predicate Proper(t: Tracker) {
    t.Valid() && "" !in t.calls
  }

  lemma StepIdx(t: Tracker, op: Op, id: string)
    requires Proper(t)
    ensures var (t', d) := Step(t, op);
            && Proper(t')
            && d.first == Given(t, op).None? && d.index == (if Given(t, op).Some? then Given(t, op).value else op.next)
            && Idx(t', id) == if Carrying(op, id) then Some(d.index) else Idx(t, id)
  {
    StepValid(t, op);
    match op
    case Seen(callId, itemId, _, next) => ResolveIdx(t, callId, itemId, next, id);
    case Fragment(itemId, _, next) => ResolveIdx(t, itemId, "", next, id);
  }

  lemma ResolveIdx(t: Tracker, key: string, alias: string, next: int, id: string)
    requires Proper(t)
    ensures var (t', first, pos) := Resolve(t, key, alias, next);
            var given := if Idx(t, key).Some? then Idx(t, key) else Idx(t, alias);
            && t'.Valid() && pos < |t'.states| && "" !in t'.calls && first == given.None?
            && t'.states[pos].index == (if given.Some? then given.value else next)
            && Idx(t', id) == if id != "" && (id == key || id == alias) then Some(t'.states[pos].index) else Idx(t, id)
  {
    ResolveValid(t, key, alias, next);
  }

  // ---- runs ----

  lemma LogNext(p: Pairing, ops: seq<Op>, op: Op, k: int, id: string)
    ensures Mentioned(p, ops + [op], k, id) <==> Mentioned(p, ops, k, id) || (About(p, op) == k && Carrying(op, id))
    ensures Known(p, ops + [op], k) <==> Known(p, ops, k) || About(p, op) == k
    ensures Forked(p, ops + [op], k) <==> Forked(p, ops, k) || (About(p, op) == k && Strays(p, ops, op))
  {
    assert (ops + [op])[..|ops|] == ops;
  }

  lemma PlausibleBefore(p: Pairing, ops: seq<Op>)
    requires AllPlausible(p, ops) && ops != []
    ensures AllPlausible(p, ops[..|ops| - 1]) && Plausible(p, ops[|ops| - 1])
  {
  }

  lemma {:induction false} RunIsProper(p: Pairing, ops: seq<Op>)
    requires AllPlausible(p, ops)
    ensures Proper(Run(ops).0)
    decreases |ops|
  {
    if ops != [] {
      var n := |ops| - 1;
      PlausibleBefore(p, ops);
      RunIsProper(p, ops[..n]);
      Last(ops);
      RunNext(ops[..n], ops[n]);
      StepIdx(Run(ops[..n]).0, ops[n], "");
    }
  }

  /** An identifier resolves exactly when its call's events mentioned it. */
  lemma {:induction false} ResolvesIff(p: Pairing, ops: seq<Op>, id: string)
    requires AllPlausible(p, ops) && Proper(Run(ops).0)
    ensures Idx(Run(ops).0, id).Some? <==> Mentioned(p, ops, p.owner(id), id)
    decreases |ops|
  {
    if ops != [] {
      var n := |ops| - 1;
      PlausibleBefore(p, ops);
      RunIsProper(p, ops[..n]);
      ResolvesIff(p, ops[..n], id);
      Last(ops);
      RunNext(ops[..n], ops[n]);
      StepIdx(Run(ops[..n]).0, ops[n], id);
      LogNext(p, ops[..n], ops[n], p.owner(id), id);
    }
  }

  /** An identifier the event carries, or may lack, resolves exactly when its call's events mentioned it. */
  lemma CarriedResolvesIff(p: Pairing, ops: seq<Op>, k: int, id: string)
    requires AllPlausible(p, ops) && Proper(Run(ops).0) && (id != "" ==> p.owner(id) == k)
    ensures Idx(Run(ops).0, id).Some? <==> Mentioned(p, ops, k, id)
  {
    if id == "" {
      NeverEmpty(p, ops, k);
    } else {
      ResolvesIff(p, ops, id);
    }
  }

  /** The decision for the next event, in terms of the log: a known identifier decides, or a new index is taken. */
  lemma NewIffUnmentioned(p: Pairing, ops: seq<Op>, op: Op)
    requires AllPlausible(p, ops) && Plausible(p, op) && Proper(Run(ops).0)
    ensures Step(Run(ops).0, op).1.first <==> !Known(p, ops, About(p, op)) || Strays(p, ops, op)
  {
    var k := About(p, op);
    StepIdx(Run(ops).0, op, "");
    CarriedResolvesIff(p, ops, k, op.itemId);
    MentionedIsKnown(p, ops, k, op.itemId);
    if op.Seen? {
      CarriedResolvesIff(p, ops, k, op.callId);
      MentionedIsKnown(p, ops, k, op.callId);
    }
  }

  lemma {:induction false} NeverEmpty(p: Pairing, ops: seq<Op>, k: int)
    ensures !Mentioned(p, ops, k, "")
    decreases |ops|
  {
    if ops != [] {
      NeverEmpty(p, ops[..|ops| - 1], k);
    }
  }

  lemma {:induction false} MentionedIsKnown(p: Pairing, ops: seq<Op>, k: int, id: string)
    ensures Mentioned(p, ops, k, id) ==> Known(p, ops, k)
    decreases |ops|
  {
    if ops != [] {
      MentionedIsKnown(p, ops[..|ops| - 1], k, id);
    }
  }

  // ---- one index ----

  /** All events of the call got index `x`, and so resolve its identifiers. */
  ghost predicate AllAt(p: Pairing, ops: seq<Op>, k: int, x: int) {
    && (forall m :: 0 <= m < |ops| && About(p, ops[m]) == k ==> Run(ops).1[m].index == x)
    && (forall id :: p.owner(id) == k && id in Run(ops).0.calls ==> Idx(Run(ops).0, id) == Some(x))
  }

  lemma AllAtNext(p: Pairing, ops: seq<Op>, op: Op, k: int, x: int)
    requires AllPlausible(p, ops) && Plausible(p, op) && Proper(Run(ops).0) && AllAt(p, ops, k, x)
    requires About(p, op) == k ==> Step(Run(ops).0, op).1.index == x
    ensures AllAt(p, ops + [op], k, x)
  {
    RunNext(ops, op);
    var all := ops + [op];
    forall m | 0 <= m < |all| && About(p, all[m]) == k ensures Run(all).1[m].index == x {
      if m < |ops| {
        assert all[m] == ops[m];
      }
    }
    forall id | p.owner(id) == k && id in Run(all).0.calls ensures Idx(Run(all).0, id) == Some(x) {
      StepIdx(Run(ops).0, op, id);
    }
  }

  /** Before the call is known nothing is at any index. */
  lemma {:induction false} UnknownAnywhere(p: Pairing, ops: seq<Op>, k: int, x: int)
    requires AllPlausible(p, ops) && !Known(p, ops, k)
    ensures AllAt(p, ops, k, x)
    decreases |ops|
  {
    if ops != [] {
      var n := |ops| - 1;
      PlausibleBefore(p, ops);
      UnknownAnywhere(p, ops[..n], k, x);
      RunIsProper(p, ops[..n]);
      Last(ops);
      AllAtNext(p, ops[..n], ops[n], k, x);
    }
  }

  /** The index of a call's first event. */
  function FirstIndex(p: Pairing, ops: seq<Op>, k: int): int
    decreases |ops|
  {
    if ops == [] then 0
    else if Known(p, ops[..|ops| - 1], k) then FirstIndex(p, ops[..|ops| - 1], k)
    else ops[|ops| - 1].next
  }

  lemma KnownStep(p: Pairing, ops: seq<Op>, op: Op, k: int)
    requires AllPlausible(p, ops) && Plausible(p, op) && Proper(Run(ops).0)
    requires About(p, op) == k && Known(p, ops, k) && !Strays(p, ops, op) && AllAt(p, ops, k, FirstIndex(p, ops, k))
    ensures Step(Run(ops).0, op).1.index == FirstIndex(p, ops, k)
  {
    StepIdx(Run(ops).0, op, "");
    NewIffUnmentioned(p, ops, op);
    assert Given(Run(ops).0, op).Some?;
  }

  lemma UnknownStep(p: Pairing, ops: seq<Op>, op: Op)
    requires AllPlausible(p, ops) && Plausible(p, op) && Proper(Run(ops).0)
    requires !Known(p, ops, About(p, op)) || Strays(p, ops, op)
    ensures Step(Run(ops).0, op).1.first && Step(Run(ops).0, op).1.index == op.next
  {
    StepIdx(Run(ops).0, op, "");
    NewIffUnmentioned(p, ops, op);
  }

  lemma {:induction false} UnforkedStays(p: Pairing, ops: seq<Op>, k: int)
    requires AllPlausible(p, ops) && !Forked(p, ops, k) && Known(p, ops, k)
    ensures AllAt(p, ops, k, FirstIndex(p, ops, k))
    decreases |ops|
  {
    var n := |ops| - 1;
    var before, op := ops[..n], ops[n];
    PlausibleBefore(p, ops);
    RunIsProper(p, before);
    Last(ops);
    if Known(p, before, k) {
      UnforkedStays(p, before, k);
      if About(p, op) == k {
        KnownStep(p, before, op, k);
      }
    } else {
      UnknownAnywhere(p, before, k, op.next);
      UnknownStep(p, before, op);
    }
    AllAtNext(p, before, op, k, FirstIndex(p, ops, k));
  }

  /** Two events of the call with different indices. */
  ghost predicate Split(p: Pairing, ops: seq<Op>, k: int) {
    exists i, j :: 0 <= i < j < |ops| && About(p, ops[i]) == k && About(p, ops[j]) == k && Run(ops).1[i].index != Run(ops).1[j].index
  }

  lemma {:induction false} FirstEvent(p: Pairing, ops: seq<Op>, k: int) returns (m: nat)
    requires AllPlausible(p, ops) && Known(p, ops, k)
    ensures m < |ops| && About(p, ops[m]) == k && Run(ops).1[m].first && Run(ops).1[m].index == ops[m].next
    decreases |ops|
  {
    var n := |ops| - 1;
    PlausibleBefore(p, ops);
    RunIsProper(p, ops[..n]);
    Last(ops);
    RunNext(ops[..n], ops[n]);
    if Known(p, ops[..n], k) {
      m := FirstEvent(p, ops[..n], k);
    } else {
      UnknownStep(p, ops[..n], ops[n]);
      m := n;
    }
  }

  lemma FreshBefore(ops: seq<Op>)
    requires Fresh(ops) && ops != []
    ensures Fresh(ops[..|ops| - 1])
  {
    var n := |ops| - 1;
    Last(ops);
    RunNext(ops[..n], ops[n]);
    forall i, j | 0 <= i < j < n && Run(ops[..n]).1[i].first ensures ops[..n][i].next < ops[..n][j].next {
      assert Run(ops).1[i].first;
    }
  }

  lemma {:induction false} ForkedSplits(p: Pairing, ops: seq<Op>, k: int)
    requires AllPlausible(p, ops) && Fresh(ops) && Forked(p, ops, k)
    ensures Split(p, ops, k)
    decreases |ops|
  {
    var n := |ops| - 1;
    var before, op := ops[..n], ops[n];
    PlausibleBefore(p, ops);
    RunIsProper(p, before);
    Last(ops);
    RunNext(before, op);
    if Forked(p, before, k) {
      FreshBefore(ops);
      ForkedSplits(p, before, k);
      var i, j :| 0 <= i < j < n && About(p, before[i]) == k && About(p, before[j]) == k && Run(before).1[i].index != Run(before).1[j].index;
      assert About(p, ops[i]) == k && About(p, ops[j]) == k && Run(ops).1[i].index != Run(ops).1[j].index;
    } else {
      var m := FirstEvent(p, before, k);
      UnknownStep(p, before, op);
      assert Run(ops).1[m].first && About(p, ops[m]) == k;
      assert Run(ops).1[m].index != Run(ops).1[n].index;
    }
  }

  /**
   * Every log whose identifiers belong to the calls, whichever of them events carry: the events of a
   * call share one index if and only if none of them strays, that is, comes with identifiers that are
   * all new, or with none, after the call was already known.
   */
  lemma {:induction false} OneIndexIffNoneStrays(p: Pairing, ops: seq<Op>, k: int)
    requires AllPlausible(p, ops) && Fresh(ops)
    ensures Split(p, ops, k) <==> Forked(p, ops, k)
  {
    if Forked(p, ops, k) {
      ForkedSplits(p, ops, k);
    } else if Known(p, ops, k) {
      UnforkedStays(p, ops, k);
    } else {
      UnknownAnywhere(p, ops, k, 0);
    }
  }

  // ---- calls that are announced before their fragments ----

  /** The call's first event is a sighting. */
  predicate Announced(p: Pairing, ops: seq<Op>, k: int)
    decreases |ops|
  {
    Known(p, ops, k) && if Known(p, ops[..|ops| - 1], k) then Announced(p, ops[..|ops| - 1], k) else ops[|ops| - 1].Seen?
  }

  /** Some fragment comes before any sighting or fragment has carried the item's identifier. */
  predicate EarlyFragment(p: Pairing, ops: seq<Op>, k: int)
    decreases |ops|
  {
    ops != [] &&
    var before, op := ops[..|ops| - 1], ops[|ops| - 1];
    EarlyFragment(p, before, k) || (op.Fragment? && About(p, op) == k && !Mentioned(p, before, k, op.itemId))
  }

  /** Every sighting of the call carries the call's own identifier. */
  predicate CallIdsGiven(p: Pairing, ops: seq<Op>, k: int) {
    forall m :: 0 <= m < |ops| && ops[m].Seen? && About(p, ops[m]) == k ==> ops[m].callId != ""
  }

  lemma {:induction false} AnnouncedMentions(p: Pairing, ops: seq<Op>, k: int)
    requires AllPlausible(p, ops) && Announced(p, ops, k) && CallIdsGiven(p, ops, k)
    ensures Mentioned(p, ops, k, p.callId(k))
    decreases |ops|
  {
    PlausibleBefore(p, ops);
    if Known(p, ops[..|ops| - 1], k) {
      AnnouncedMentions(p, ops[..|ops| - 1], k);
    }
  }

  lemma {:induction false} UnknownIsCalm(p: Pairing, ops: seq<Op>, k: int)
    requires !Known(p, ops, k)
    ensures !Forked(p, ops, k) && !EarlyFragment(p, ops, k)
    decreases |ops|
  {
    if ops != [] {
      UnknownIsCalm(p, ops[..|ops| - 1], k);
    }
  }

  lemma {:induction false} AnnouncedForksIff(p: Pairing, ops: seq<Op>, k: int)
    requires AllPlausible(p, ops) && Announced(p, ops, k) && CallIdsGiven(p, ops, k)
    ensures Forked(p, ops, k) <==> EarlyFragment(p, ops, k)
    decreases |ops|
  {
    var n := |ops| - 1;
    var before, op := ops[..n], ops[n];
    PlausibleBefore(p, ops);
    if Known(p, before, k) {
      AnnouncedForksIff(p, before, k);
      AnnouncedMentions(p, before, k);
    } else {
      UnknownIsCalm(p, before, k);
    }
  }

  /**
   * A call announced before its fragments, by sightings that carry its call_id, gets one index if and only if its item's identifier was
   * carried at or before its first fragment, by a sighting; otherwise its fragments fork a second call.
   */
  lemma {:induction false} AnnouncedOneIndexIff(p: Pairing, ops: seq<Op>, k: int)
    requires AllPlausible(p, ops) && Fresh(ops) && Announced(p, ops, k) && CallIdsGiven(p, ops, k)
    ensures Split(p, ops, k) <==> EarlyFragment(p, ops, k)
  {
    OneIndexIffNoneStrays(p, ops, k);
    AnnouncedForksIff(p, ops, k);
  }
}
