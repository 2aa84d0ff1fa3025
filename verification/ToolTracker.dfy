/**
 * The announce-or-replay decision table for upstream function calls, whose item events and argument
 * fragments name one call in two namespaces.
 */
module ToolTracker {
  import opened Wire
  import opened Folds

  datatype CallState = CallState(index: int, delivered: bool)

  /** Identifiers resolve to positions in the list of call states, in order of creation. */
  datatype Tracker = Tracker(calls: map<string, nat>, states: seq<CallState>) {
    predicate Valid() {
      forall id :: id in calls ==> calls[id] < |states|
    }
  }

  const NoCalls := Tracker(map[], [])

  /** First sight of the call, its index, and whether complete arguments go out with this event. */
  datatype Decision = Decision(first: bool, index: int, deliver: bool)

  /** A sighting in an item event, or a fragment; `next` is the index the allocator would hand out. */
  datatype Op = Seen(callId: string, itemId: string, args: string, next: int) | Fragment(itemId: string, delta: string, next: int)

  // ---- the table ----

  function Bound(t: Tracker, id: string, pos: nat): Tracker {
    if id != "" then t.(calls := t.calls[id := pos]) else t
  }

  /** Resolve the key, then the alias, binding whichever identifiers are present. */
  function Resolve(t: Tracker, key: string, alias: string, next: int): (Tracker, bool, nat) {
    if key in t.calls then (Bound(t, alias, t.calls[key]), false, t.calls[key])
    else if alias in t.calls then (Bound(t, key, t.calls[alias]), false, t.calls[alias])
    else
      var pos := |t.states|;
      (Bound(Bound(t.(states := t.states + [CallState(next, false)]), key, pos), alias, pos), true, pos)
  }

  lemma ResolveValid(t: Tracker, key: string, alias: string, next: int)
    requires t.Valid()
    ensures var (t', _, pos) := Resolve(t, key, alias, next); t'.Valid() && pos < |t'.states|
  {
  }

  function Step(t: Tracker, op: Op): (Tracker, Decision)
    requires t.Valid()
  {
    var (t', first, pos) := match op
      case Seen(callId, itemId, _, next) => Resolve(t, callId, itemId, next)
      case Fragment(itemId, _, next) => Resolve(t, itemId, "", next);
    match op
    case Seen(callId, itemId, args, next) =>
      ResolveValid(t, callId, itemId, next);
      var st := t'.states[pos];
      if args != "" && !st.delivered
      then (t'.(states := t'.states[pos := st.(delivered := true)]), Decision(first, st.index, true))
      else (t', Decision(first, st.index, false))
    case Fragment(itemId, _, next) =>
      ResolveValid(t, itemId, "", next);
      var st := t'.states[pos];
      (t'.(states := t'.states[pos := st.(delivered := true)]), Decision(first, st.index, false))
  }

  lemma StepValid(t: Tracker, op: Op)
    requires t.Valid()
    ensures Step(t, op).0.Valid()
  {
    match op
    case Seen(callId, itemId, _, next) => ResolveValid(t, callId, itemId, next);
    case Fragment(itemId, _, next) => ResolveValid(t, itemId, "", next);
  }

  // ---- the object ----

  class ToolCallState {
    const index: int
    var delivered: bool

    constructor (index: int)
      ensures this.index == index && !delivered
    {
      this.index, delivered := index, false;
    }

    function View(): CallState
      reads this
    {
      CallState(index, delivered)
    }
  }

  class ToolCallTracker {
    var calls: map<string, ToolCallState>
    ghost var states: seq<ToolCallState>
    ghost var view: Tracker
    ghost var owned: set<ToolCallState>

    /** `states` lists the distinct states in order of creation; `view` is the table they make up. */
    ghost predicate Valid()
      reads this, owned
    {
      && view.Valid() && |view.states| == |states| && (forall i :: 0 <= i < |states| ==> states[i] in owned)
      && (forall i :: 0 <= i < |states| ==> view.states[i] == states[i].View())
      && (forall i, j :: 0 <= i < j < |states| ==> states[i] != states[j])
      && calls.Keys == view.calls.Keys
      && (forall id :: id in calls ==> calls[id] == states[view.calls[id]])
    }

    constructor ()
      ensures Valid() && view == NoCalls && owned == {}
    {
      calls, states, view, owned := map[], [], NoCalls, {};
    }

    method Bind(key: string, st: ToolCallState, ghost pos: nat)
      requires Valid() && pos < |states| && states[pos] == st
      modifies this`calls, this`view
      ensures Valid() && view == Bound(old(view), key, pos)
    {
      if key != "" {
        calls := calls[key := st];
        view := view.(calls := view.calls[key := pos]);
      }
    }

    method NewState(next: int) returns (st: ToolCallState)
      requires Valid()
      modifies this`states, this`view, this`owned
      ensures Valid() && fresh(st) && states == old(states) + [st] && owned == old(owned) + {st}
      ensures view == old(view).(states := old(view).states + [CallState(next, false)])
    {
      st := new ToolCallState(next);
      states, owned := states + [st], owned + {st};
      view := view.(states := view.states + [CallState(next, false)]);
    }

    /** The allocator hands out `next` when the call is new. */
    method State(key: string, alias: string, next: int) returns (first: bool, st: ToolCallState, ghost pos: nat)
      requires Valid()
      modifies this
      ensures Valid() && (view, first, pos) == Resolve(old(view), key, alias, next)
      ensures fresh(owned - old(owned)) && pos < |states| && st == states[pos]
    {
      if key in calls {
        st, pos := calls[key], view.calls[key];
        Bind(alias, st, pos);
        return false, st, pos;
      }
      if alias in calls {
        st, pos := calls[alias], view.calls[alias];
        Bind(key, st, pos);
        return false, st, pos;
      }
      st, pos := NewCall(key, alias, next);
      first := true;
    }

    method NewCall(key: string, alias: string, next: int) returns (st: ToolCallState, ghost pos: nat)
      requires Valid()
      modifies this
      ensures Valid() && fresh(owned - old(owned)) && pos == |old(states)| < |states| && st == states[pos]
      ensures view == Bound(Bound(old(view).(states := old(view).states + [CallState(next, false)]), key, pos), alias, pos)
    {
      st := NewState(next);
      pos := |states| - 1;
      Bind(key, st, pos);
      Bind(alias, st, pos);
    }

    method Deliver(st: ToolCallState, ghost pos: nat)
      requires Valid() && pos < |states| && states[pos] == st
      modifies st`delivered, this`view
      ensures Valid() && view == old(view).(states := old(view).states[pos := old(view).states[pos].(delivered := true)])
    {
      st.delivered := true;
      view := view.(states := view.states[pos := st.View()]);
    }

    method Observe(callId: string, itemId: string, args: string, next: int) returns (d: Decision)
      requires Valid()
      modifies this, owned
      ensures Valid() && fresh(owned - old(owned))
      ensures (view, d) == Step(old(view), Seen(callId, itemId, args, next))
    {
      var first, st, pos := State(callId, itemId, next);
      var deliver := args != "" && !st.delivered;
      if deliver {
        Deliver(st, pos);
      }
      d := Decision(first, st.index, deliver);
    }

    method StreamArgs(itemId: string, delta: string, next: int) returns (d: Decision)
      requires Valid()
      modifies this, owned
      ensures Valid() && fresh(owned - old(owned))
      ensures (view, d) == Step(old(view), Fragment(itemId, delta, next))
    {
      var first, st, pos := State(itemId, "", next);
      Deliver(st, pos);
      d := Decision(first, st.index, false);
    }
  }

  // ---- one-to-one pairings ----

  /** Which call an identifier names, and the two identifiers of a call. */
  datatype Pairing = Pairing(owner: string -> int, callId: int -> string, itemId: int -> string)

  function Key(p: Pairing, op: Op): int {
    p.owner(op.itemId)
  }

  /** Sightings carry both identifiers of their call; fragments carry the item's. */
  predicate Fits(p: Pairing, op: Op) {
    var k := Key(p, op);
    && op.itemId != "" && op.itemId == p.itemId(k)
    && (op.Seen? ==> op.callId != "" && op.callId == p.callId(k) && p.owner(op.callId) == k)
  }

  predicate Carries(op: Op) {
    op.Fragment? || op.args != ""
  }

  /** The index of a call: what the allocator offered at its first event. */
  function IndexOf(p: Pairing, ops: seq<Op>, k: int): Option<int>
    decreases |ops|
  {
    if ops == [] then None
    else
      var n := |ops| - 1;
      var before := IndexOf(p, ops[..n], k);
      if before.None? && Key(p, ops[n]) == k then Some(ops[n].next) else before
  }

  /** Some event of the call carried arguments. */
  predicate Carried(p: Pairing, ops: seq<Op>, k: int)
    decreases |ops|
  {
    ops != [] && (Carried(p, ops[..|ops| - 1], k) || (Key(p, ops[|ops| - 1]) == k && Carries(ops[|ops| - 1])))
  }

  /** What the log alone says about its m-th event. */
  function Expected(p: Pairing, ops: seq<Op>, m: nat): Decision
    requires m < |ops|
  {
    var k, seen := Key(p, ops[m]), IndexOf(p, ops[..m], Key(p, ops[m]));
    Decision(seen.None?, if seen.Some? then seen.value else ops[m].next,
             ops[m].Seen? && ops[m].args != "" && !Carried(p, ops[..m], k))
  }

  /** The table holds, under either identifier, one state per known call: its index and whether it was delivered. */
  ghost predicate Holds(p: Pairing, index: int -> Option<int>, carried: int -> bool, t: Tracker) {
    && t.Valid()
    && (forall id :: id in t.calls ==> Entry(p, index, carried, t, id))
    && (forall a, b :: a in t.calls && b in t.calls && t.calls[a] == t.calls[b] ==> p.owner(a) == p.owner(b))
    && (forall k :: index(k).Some? ==> p.itemId(k) in t.calls && p.owner(p.itemId(k)) == k)
    && (forall k :: carried(k) ==> index(k).Some?)
  }

  ghost predicate Entry(p: Pairing, index: int -> Option<int>, carried: int -> bool, t: Tracker, id: string)
    requires t.Valid() && id in t.calls
  {
    var k, st := p.owner(id), t.states[t.calls[id]];
    && id != "" && (id == p.itemId(k) || id == p.callId(k))
    && p.itemId(k) in t.calls && t.calls[p.itemId(k)] == t.calls[id] && p.owner(p.itemId(k)) == k
    && index(k) == Some(st.index) && carried(k) == st.delivered
  }

  function Upd<T>(f: int -> T, k: int, v: T): int -> T {
    x => if x == k then v else f(x)
  }

  lemma ResolveKnown(p: Pairing, index: int -> Option<int>, carried: int -> bool, t: Tracker, key: string, alias: string, k: int, next: int)
    requires Holds(p, index, carried, t) && p.itemId(k) != "" && p.owner(p.itemId(k)) == k && index(k).Some?
    requires (key == p.itemId(k) && alias == "") || (alias == p.itemId(k) && key == p.callId(k) && key != "" && p.owner(key) == k)
    ensures var (t', first, pos) := Resolve(t, key, alias, next);
            && Holds(p, index, carried, t') && !first && p.itemId(k) in t'.calls && pos == t'.calls[p.itemId(k)]
  {
    var pos := t.calls[p.itemId(k)];
    assert Entry(p, index, carried, t, p.itemId(k));
    if alias == "" {
      assert Resolve(t, key, alias, next) == (t, false, pos);
    } else {
      KnownByEither(p, index, carried, t, key, k);
      BindKnown(p, index, carried, t, key, k);
      BindKnown(p, index, carried, t, alias, k);
    }
  }

  /** If the call's own identifier is bound at all, it is bound to the same state. */
  lemma KnownByEither(p: Pairing, index: int -> Option<int>, carried: int -> bool, t: Tracker, key: string, k: int)
    requires Holds(p, index, carried, t) && p.owner(key) == k && p.itemId(k) in t.calls
    ensures key in t.calls ==> t.calls[key] == t.calls[p.itemId(k)]
  {
    if key in t.calls {
      assert Entry(p, index, carried, t, key);
    }
  }

  /** Binding an identifier of a known call to its state. */
  lemma BindKnown(p: Pairing, index: int -> Option<int>, carried: int -> bool, t: Tracker, id: string, k: int)
    requires Holds(p, index, carried, t) && p.itemId(k) in t.calls && p.owner(p.itemId(k)) == k
    requires id != "" && p.owner(id) == k && (id == p.itemId(k) || id == p.callId(k))
    ensures Holds(p, index, carried, Bound(t, id, t.calls[p.itemId(k)]))
  {
    var t', pos := Bound(t, id, t.calls[p.itemId(k)]), t.calls[p.itemId(k)];
    assert Entry(p, index, carried, t, p.itemId(k));
    KnownByEither(p, index, carried, t, id, k);
    forall other | other in t'.calls ensures Entry(p, index, carried, t', other) {
      if other != id {
        assert Entry(p, index, carried, t, other);
      }
    }
  }

  lemma NewEntry(p: Pairing, index: int -> Option<int>, carried: int -> bool, t: Tracker, k: int, next: int, calls: map<string, nat>)
    requires Holds(p, index, carried, t) && index(k).None? && p.owner(p.itemId(k)) == k && p.itemId(k) != ""
    requires p.itemId(k) in calls
    requires forall id :: id in calls ==>
               if id in t.calls then calls[id] == t.calls[id]
               else calls[id] == |t.states| && id != "" && p.owner(id) == k && (id == p.itemId(k) || id == p.callId(k))
    requires forall id :: id in t.calls ==> id in calls
    ensures Holds(p, Upd(index, k, Some(next)), carried, Tracker(calls, t.states + [CallState(next, false)]))
  {
    var t' := Tracker(calls, t.states + [CallState(next, false)]);
    var index' := Upd(index, k, Some(next));
    assert !carried(k);
    assert forall id :: id in t.calls ==> Entry(p, index, carried, t, id) && p.owner(id) != k;
    forall id | id in calls ensures Entry(p, index', carried, t', id) {
      if id in t.calls {
        OldEntryStays(p, index, carried, t, k, next, calls, id);
      }
    }
    OneCallPerState(p, index, carried, t, k, calls);
  }

  /** States are still shared only by identifiers of one call. */
  lemma OneCallPerState(p: Pairing, index: int -> Option<int>, carried: int -> bool, t: Tracker, k: int, calls: map<string, nat>)
    requires Holds(p, index, carried, t)
    requires forall id :: id in calls ==> if id in t.calls then calls[id] == t.calls[id] else calls[id] == |t.states| && p.owner(id) == k
    ensures forall a, b :: a in calls && b in calls && calls[a] == calls[b] ==> p.owner(a) == p.owner(b)
  {
    forall a, b | a in calls && b in calls && calls[a] == calls[b] ensures p.owner(a) == p.owner(b) {
      assert a in t.calls <==> b in t.calls;
    }
  }

  /** Adding a state changes no entry of the calls known before. */
  lemma OldEntryStays(p: Pairing, index: int -> Option<int>, carried: int -> bool, t: Tracker, k: int, next: int, calls: map<string, nat>, id: string)
    requires Holds(p, index, carried, t) && id in t.calls && p.owner(id) != k
    requires forall id :: id in calls ==> calls[id] <= |t.states|
    requires forall id :: id in t.calls ==> id in calls && calls[id] == t.calls[id]
    ensures Entry(p, Upd(index, k, Some(next)), carried, Tracker(calls, t.states + [CallState(next, false)]), id)
  {
    assert Entry(p, index, carried, t, id);
  }

  lemma ResolveNew(p: Pairing, index: int -> Option<int>, carried: int -> bool, t: Tracker, key: string, alias: string, k: int, next: int)
    requires Holds(p, index, carried, t) && p.itemId(k) != "" && p.owner(p.itemId(k)) == k && index(k).None?
    requires (key == p.itemId(k) && alias == "") || (alias == p.itemId(k) && key == p.callId(k) && key != "" && p.owner(key) == k)
    ensures var (t', first, pos) := Resolve(t, key, alias, next);
            && Holds(p, Upd(index, k, Some(next)), carried, t') && first && p.itemId(k) in t'.calls && pos == t'.calls[p.itemId(k)]
  {
    assert forall id :: id in t.calls ==> Entry(p, index, carried, t, id) && p.owner(id) != k && id != "";
    assert key !in t.calls && alias !in t.calls;
    NewEntry(p, index, carried, t, k, next, Resolve(t, key, alias, next).0.calls);
  }

  lemma DeliverHolds(p: Pairing, index: int -> Option<int>, carried: int -> bool, t: Tracker, k: int)
    requires Holds(p, index, carried, t) && p.itemId(k) in t.calls && p.owner(p.itemId(k)) == k
    ensures var pos := t.calls[p.itemId(k)];
            Holds(p, index, Upd(carried, k, true), t.(states := t.states[pos := t.states[pos].(delivered := true)]))
  {
  }

  lemma {:induction false} LogNext(p: Pairing, ops: seq<Op>, op: Op, k: int)
    ensures IndexOf(p, ops + [op], k) ==
            if IndexOf(p, ops, k).None? && Key(p, op) == k then Some(op.next) else IndexOf(p, ops, k)
    ensures Carried(p, ops + [op], k) <==> Carried(p, ops, k) || (Key(p, op) == k && Carries(op))
  {
    assert (ops + [op])[..|ops|] == ops;
  }

  lemma {:induction false} CarriedIsKnown(p: Pairing, ops: seq<Op>, k: int)
    requires Carried(p, ops, k)
    ensures IndexOf(p, ops, k).Some?
    decreases |ops|
  {
    var n := |ops| - 1;
    if Carried(p, ops[..n], k) {
      CarriedIsKnown(p, ops[..n], k);
    }
  }

  lemma HoldsCong(p: Pairing, i1: int -> Option<int>, c1: int -> bool, i2: int -> Option<int>, c2: int -> bool, t: Tracker)
    requires Holds(p, i1, c1, t) && forall k :: i1(k) == i2(k) && c1(k) == c2(k)
    ensures Holds(p, i2, c2, t)
  {
    forall id | id in t.calls ensures Entry(p, i2, c2, t, id) {
      assert Entry(p, i1, c1, t, id);
    }
  }

  function First(op: Op): string {
    if op.Seen? then op.callId else op.itemId
  }

  function Second(op: Op): string {
    if op.Seen? then op.itemId else ""
  }

  /** Arguments mark the call delivered; complete ones go out only if it was not. */
  lemma StepIs(t: Tracker, op: Op)
    requires t.Valid()
    ensures var (t', first, pos) := Resolve(t, First(op), Second(op), op.next);
            && pos < |t'.states|
            && Step(t, op) == (
                 if Carries(op) then t'.(states := t'.states[pos := t'.states[pos].(delivered := true)]) else t',
                 Decision(first, t'.states[pos].index, op.Seen? && op.args != "" && !t'.states[pos].delivered))
  {
    ResolveValid(t, First(op), Second(op), op.next);
    var (t', first, pos) := Resolve(t, First(op), Second(op), op.next);
    assert t'.states[pos].delivered ==> t'.states[pos := t'.states[pos].(delivered := true)] == t'.states;
  }

  function IndexAfter(index: int -> Option<int>, k: int, next: int): int -> Option<int> {
    if index(k).None? then Upd(index, k, Some(next)) else index
  }

  function CarriedAfter(carried: int -> bool, k: int, carries: bool): int -> bool {
    if carries then Upd(carried, k, true) else carried
  }

  lemma ResolveHolds(p: Pairing, index: int -> Option<int>, carried: int -> bool, t: Tracker, op: Op)
    requires Holds(p, index, carried, t) && Fits(p, op)
    ensures var k := Key(p, op);
            var (t', first, pos) := Resolve(t, First(op), Second(op), op.next);
            && Holds(p, IndexAfter(index, k, op.next), carried, t') && first == index(k).None?
            && p.itemId(k) in t'.calls && pos == t'.calls[p.itemId(k)] && p.owner(p.itemId(k)) == k
  {
    var k := Key(p, op);
    if index(k).None? {
      ResolveNew(p, index, carried, t, First(op), Second(op), k, op.next);
    } else {
      ResolveKnown(p, index, carried, t, First(op), Second(op), k, op.next);
    }
  }

  lemma EntryAt(p: Pairing, index: int -> Option<int>, carried: int -> bool, t: Tracker, k: int)
    requires Holds(p, index, carried, t) && p.itemId(k) in t.calls && p.owner(p.itemId(k)) == k
    ensures var st := t.states[t.calls[p.itemId(k)]]; index(k) == Some(st.index) && carried(k) == st.delivered
  {
    assert Entry(p, index, carried, t, p.itemId(k));
  }

  /** One event: the table before and after, and the decision. */
  lemma StepHolds(p: Pairing, index: int -> Option<int>, carried: int -> bool, t: Tracker, op: Op)
    requires Holds(p, index, carried, t) && Fits(p, op)
    ensures var k := Key(p, op);
            && Holds(p, IndexAfter(index, k, op.next), CarriedAfter(carried, k, Carries(op)), Step(t, op).0)
            && Step(t, op).1 == Decision(index(k).None?, if index(k).Some? then index(k).value else op.next,
                                         op.Seen? && op.args != "" && !carried(k))
  {
    var k, index' := Key(p, op), IndexAfter(index, Key(p, op), op.next);
    ResolveHolds(p, index, carried, t, op);
    StepIs(t, op);
    var (t', first, pos) := Resolve(t, First(op), Second(op), op.next);
    EntryAt(p, index', carried, t', k);
    assert t'.states[pos].delivered == carried(k) && index'(k) == Some(t'.states[pos].index);
    if Carries(op) {
      DeliverHolds(p, index', carried, t', k);
    }
  }

  /** The log determines the table. */
  ghost predicate Tracks(p: Pairing, ops: seq<Op>, t: Tracker) {
    Holds(p, k => IndexOf(p, ops, k), k => Carried(p, ops, k), t)
  }

  lemma {:induction false} LogIsUpdate(p: Pairing, ops: seq<Op>, op: Op, t: Tracker)
    requires Holds(p, IndexAfter(k => IndexOf(p, ops, k), Key(p, op), op.next),
                   CarriedAfter(k => Carried(p, ops, k), Key(p, op), Carries(op)), t)
    ensures Tracks(p, ops + [op], t)
  {
    var index := IndexAfter(k => IndexOf(p, ops, k), Key(p, op), op.next);
    var carried := CarriedAfter(k => Carried(p, ops, k), Key(p, op), Carries(op));
    forall k ensures index(k) == IndexOf(p, ops + [op], k) && carried(k) == Carried(p, ops + [op], k) {
      LogNext(p, ops, op, k);
    }
    HoldsCong(p, index, carried, k => IndexOf(p, ops + [op], k), k => Carried(p, ops + [op], k), t);
  }

  lemma TracksNext(p: Pairing, ops: seq<Op>, t: Tracker, op: Op)
    requires Tracks(p, ops, t) && Fits(p, op)
    ensures Tracks(p, ops + [op], Step(t, op).0)
    ensures Step(t, op).1 == Expected(p, ops + [op], |ops|)
  {
    StepHolds(p, k => IndexOf(p, ops, k), k => Carried(p, ops, k), t, op);
    LogIsUpdate(p, ops, op, Step(t, op).0);
    assert (ops + [op])[..|ops|] == ops;
  }

  // ---- whole logs ----

  function Run(ops: seq<Op>): (r: (Tracker, seq<Decision>))
    ensures r.0.Valid() && |r.1| == |ops|
    decreases |ops|
  {
    if ops == [] then (NoCalls, [])
    else
      var n := |ops| - 1;
      var (t, ds) := Run(ops[..n]);
      StepValid(t, ops[n]);
      (Step(t, ops[n]).0, ds + [Step(t, ops[n]).1])
  }

  lemma {:induction false} RunNext(ops: seq<Op>, op: Op)
    ensures Run(ops + [op]).0 == Step(Run(ops).0, op).0 && Run(ops + [op]).1 == Run(ops).1 + [Step(Run(ops).0, op).1]
  {
    assert (ops + [op])[..|ops|] == ops;
  }

  predicate Paired(p: Pairing, ops: seq<Op>) {
    forall m :: 0 <= m < |ops| ==> Fits(p, ops[m])
  }

  lemma EmptyTracks(p: Pairing)
    ensures Tracks(p, [], NoCalls)
  {
  }

  lemma {:induction false} RunTracks(p: Pairing, ops: seq<Op>)
    requires Paired(p, ops)
    ensures Tracks(p, ops, Run(ops).0)
    ensures forall m :: 0 <= m < |ops| ==> Run(ops).1[m] == Expected(p, ops, m)
    decreases |ops|
  {
    if ops == [] {
      EmptyTracks(p);
    } else {
      var n := |ops| - 1;
      var before := ops[..n];
      RunTracks(p, before);
      Last(ops);
      TracksNext(p, before, Run(before).0, ops[n]);
      ExpectedBefore(p, ops);
    }
  }

  /** What is expected of an event depends on the events before it only. */
  lemma ExpectedBefore(p: Pairing, ops: seq<Op>)
    requires ops != []
    ensures forall m :: 0 <= m < |ops| - 1 ==> Expected(p, ops, m) == Expected(p, ops[..|ops| - 1], m)
  {
    forall m | 0 <= m < |ops| - 1 ensures Expected(p, ops, m) == Expected(p, ops[..|ops| - 1], m) {
      assert ops[..|ops| - 1][..m] == ops[..m];
    }
  }

  /**
   * For one-to-one pairings every decision is the one the log dictates: a call is announced at its
   * first event and only there, all its events resolve to the index handed out then, and complete
   * arguments go out only when no earlier event of the call carried any.
   */
  lemma {:induction false} DecisionsAreExpected(p: Pairing, ops: seq<Op>, m: nat)
    requires Paired(p, ops) && m < |ops|
    ensures Run(ops).1[m] == Expected(p, ops, m)
  {
    RunTracks(p, ops);
  }

  /** The allocator never offers again what it has handed out. */
  predicate Supplied(p: Pairing, ops: seq<Op>) {
    forall i, j :: 0 <= i < j < |ops| && Expected(p, ops, i).first ==> ops[i].next < ops[j].next
  }

  lemma {:induction false} IndexStays(p: Pairing, ops: seq<Op>, m: nat, k: int)
    requires m <= |ops| && IndexOf(p, ops[..m], k).Some?
    ensures IndexOf(p, ops, k) == IndexOf(p, ops[..m], k)
    decreases |ops|
  {
    if m < |ops| {
      var n := |ops| - 1;
      assert ops[..n][..m] == ops[..m];
      IndexStays(p, ops[..n], m, k);
    } else {
      assert ops[..m] == ops;
    }
  }

  /** Where a known call was first seen. */
  lemma {:induction false} FirstEvent(p: Pairing, ops: seq<Op>, k: int) returns (m: nat)
    requires IndexOf(p, ops, k).Some?
    ensures m < |ops| && Key(p, ops[m]) == k && Expected(p, ops, m).first && IndexOf(p, ops, k) == Some(ops[m].next)
    decreases |ops|
  {
    var n := |ops| - 1;
    if IndexOf(p, ops[..n], k).Some? {
      m := FirstEvent(p, ops[..n], k);
      assert ops[..n][..m] == ops[..m];
    } else {
      m := n;
    }
  }

  /** All events of a call share one index; different calls have different indices. */
  lemma {:induction false} OneIndexPerCall(p: Pairing, ops: seq<Op>, i: nat, j: nat)
    requires Paired(p, ops) && Supplied(p, ops) && i < |ops| && j < |ops|
    ensures Run(ops).1[i].index == Run(ops).1[j].index <==> Key(p, ops[i]) == Key(p, ops[j])
  {
    RunTracks(p, ops);
    IndexAtEvent(p, ops, i);
    IndexAtEvent(p, ops, j);
    var a := FirstEvent(p, ops, Key(p, ops[i]));
    var b := FirstEvent(p, ops, Key(p, ops[j]));
  }

  lemma {:induction false} IndexAtEvent(p: Pairing, ops: seq<Op>, m: nat)
    requires m < |ops|
    ensures IndexOf(p, ops, Key(p, ops[m])) == Some(Expected(p, ops, m).index)
  {
    assert ops[..m + 1][..m] == ops[..m];
    IndexStays(p, ops, m + 1, Key(p, ops[m]));
  }

  // ---- arguments ----

  /** What goes out for call `k`: every fragment, and complete arguments when the decision says so. */
  function Sent(p: Pairing, ops: seq<Op>, ds: seq<Decision>, k: int): string
    requires |ds| == |ops|
    decreases |ops|
  {
    if ops == [] then ""
    else
      var n := |ops| - 1;
      Sent(p, ops[..n], ds[..n], k) +
      if Key(p, ops[n]) != k then "" else if ops[n].Fragment? then ops[n].delta else if ds[n].deliver then ops[n].args else ""
  }

  /** The fragments of a call, in order. */
  function Fragments(p: Pairing, ops: seq<Op>, k: int): string
    decreases |ops|
  {
    if ops == [] then ""
    else
      var n := |ops| - 1;
      Fragments(p, ops[..n], k) + if Key(p, ops[n]) == k && ops[n].Fragment? then ops[n].delta else ""
  }

  /** The complete arguments of a call whose first arguments came complete. */
  function Lead(p: Pairing, ops: seq<Op>, k: int): string
    decreases |ops|
  {
    if ops == [] then ""
    else
      var n := |ops| - 1;
      if !Carried(p, ops[..n], k) && Key(p, ops[n]) == k && ops[n].Seen? then ops[n].args else Lead(p, ops[..n], k)
  }

  lemma {:induction false} NothingCarriedNothingSent(p: Pairing, ops: seq<Op>, k: int)
    requires !Carried(p, ops, k)
    ensures Lead(p, ops, k) == "" && Fragments(p, ops, k) == ""
    decreases |ops|
  {
    if ops != [] {
      NothingCarriedNothingSent(p, ops[..|ops| - 1], k);
    }
  }

  /** One more event of the log. */
  lemma {:induction false} SentNext(p: Pairing, ops: seq<Op>, k: int, sent: string, op: Op, deliver: bool)
    requires sent == Lead(p, ops, k) + Fragments(p, ops, k)
    requires Key(p, op) == k ==> deliver == (op.Seen? && op.args != "" && !Carried(p, ops, k))
    ensures sent + (if Key(p, op) != k then "" else if op.Fragment? then op.delta else if deliver then op.args else "")
         == Lead(p, ops + [op], k) + Fragments(p, ops + [op], k)
  {
    assert (ops + [op])[..|ops|] == ops;
    var lead, frags := Lead(p, ops, k), Fragments(p, ops, k);
    if !Carried(p, ops, k) {
      NothingCarriedNothingSent(p, ops, k);
    }
    assert frags + "" == frags && sent + "" == sent;
    if Key(p, op) == k && op.Fragment? {
      Assoc(lead, frags, op.delta);
    }
  }

  /** Complete arguments are sent at most once and never after a fragment; every fragment is sent. */
  lemma {:induction false} SentIs(p: Pairing, ops: seq<Op>, k: int)
    requires Paired(p, ops)
    ensures Sent(p, ops, Run(ops).1, k) == Lead(p, ops, k) + Fragments(p, ops, k)
    decreases |ops|
  {
    if ops != [] {
      var n := |ops| - 1;
      var before := ops[..n];
      SentIs(p, before, k);
      DecisionsAreExpected(p, ops, n);
      assert Run(ops).1[..n] == Run(before).1 && before + [ops[n]] == ops;
      SentNext(p, before, k, Sent(p, before, Run(before).1, k), ops[n], Run(ops).1[n].deliver);
    }
  }

  lemma {:induction false} LeadIsComplete(p: Pairing, ops: seq<Op>, k: int, args: string)
    requires forall m :: 0 <= m < |ops| && Key(p, ops[m]) == k && ops[m].Seen? && ops[m].args != "" ==> ops[m].args == args
    ensures Lead(p, ops, k) == "" || Lead(p, ops, k) == args
    decreases |ops|
  {
    if ops != [] {
      LeadIsComplete(p, ops[..|ops| - 1], k, args);
    }
  }

  /**
   * For an upstream whose complete sightings of a call, and whose fragments if it sends any text in
   * them, all spell `args`: the client reassembles exactly `args` if and only if the first arguments
   * came complete or fragments carried text, but not both. In particular complete arguments followed
   * by fragments are duplicated, and an empty fragment suppresses a later replay.
   */
  lemma {:induction false} ReassembledIff(p: Pairing, ops: seq<Op>, k: int, args: string)
    requires Paired(p, ops) && args != ""
    requires forall m :: 0 <= m < |ops| && Key(p, ops[m]) == k && ops[m].Seen? && ops[m].args != "" ==> ops[m].args == args
    requires Fragments(p, ops, k) == "" || Fragments(p, ops, k) == args
    ensures Sent(p, ops, Run(ops).1, k) == args <==> (Lead(p, ops, k) == "") != (Fragments(p, ops, k) == "")
  {
    SentIs(p, ops, k);
    LeadIsComplete(p, ops, k, args);
    assert |args + args| > |args|;
  }

  /** Without the item's own identifier at the announcement, its fragments fork a second call. */
  lemma MissingItemIdForksCall()
    ensures var ops := [Seen("call", "", "", 0), Fragment("item", "{}", 1)];
            Run(ops).1 == [Decision(true, 0, false), Decision(true, 1, false)]
  {
    var a, b := Seen("call", "", "", 0), Fragment("item", "{}", 1);
    assert [a, b][..1] == [a] && [a][..0] == [];
    assert Run([a]) == (Step(NoCalls, a).0, [] + [Step(NoCalls, a).1]);
    var t := Run([a]).0;
    assert "call" != "item" by {
      assert "call"[0] != "item"[0];
    }
    assert t.calls.Keys == {"call"};
    assert Run([a, b]) == (Step(t, b).0, Run([a]).1 + [Step(t, b).1]);
  }
}
