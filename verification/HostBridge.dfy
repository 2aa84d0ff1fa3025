/**
 * Host callbacks under a deadline, as interleaved steps: the callback goroutine, the caller with its
 * deadline and grace window, the clean-up goroutine of abandoned calls, and the in-flight count that
 * shutdown waits on.
 */
module HostBridge {
  import opened Wire

  /** A callback's result: whether the call itself failed, whether its envelope is OK, and the upstream stream that names, if any. */
  datatype Res = Res(failed: bool, ok: bool, stream: Option<nat>)

  datatype Caller = Waiting | InGrace | GotInTime(res: Res) | GotLate(res: Res) | TimedOut

  /** The goroutine that waits for an abandoned result and closes what it names. */
  datatype Cleanup = NoCleanup | Awaiting | Owing(res: Res) | Calling(res: Res, child: nat) | Settled(res: Res)

  /** What a caller does after a result came within the grace window. */
  datatype Salvage = Idle | SalvageOwed(stream: nat) | SalvageCalling(child: nat) | SalvageDone

  /** One invocation: its options, the callback, the one-place channel, the two observers, the three flags. */
  datatype Invocation = Invocation(
    deadline: bool, grace: bool, abandon: bool,
    running: bool, channel: Option<Res>, caller: Caller, cleanup: Cleanup, salvage: Salvage,
    exited: bool, drained: bool, letGo: bool, dones: nat)

  /** `registered`, `returned`, `closed` and `dropped` account for upstream stream ids. */
  datatype System = System(
    invs: seq<Invocation>, inFlight: int,
    registered: multiset<nat>, returned: multiset<nat>, closed: multiset<nat>, dropped: multiset<nat>)

  const Start := System([], 0, multiset{}, multiset{}, multiset{}, multiset{})

  datatype Step =
    | Begin(deadline: bool, grace: bool, abandon: bool)
    | HostReturns(i: nat, res: Res)
    | Exits(i: nat)
    | Gets(i: nat)
    | Expires(i: nat)
    | GetsLate(i: nat)
    | Lapses(i: nat)
    | CleanupGets(i: nat)
    | CleanupCalls(i: nat)
    | CleanupSettles(i: nat)
    | SalvageCalls(i: nat)
    | SalvageEnds(i: nat)

  // ---- one invocation ----

  function NewInvocation(deadline: bool, grace: bool, abandon: bool): Invocation {
    Invocation(deadline, grace, abandon, true, None, Waiting, NoCleanup, Idle, false, false, false, 0)
  }

  /** A close has no deadline, no grace window and nothing to abandon. */
  const CloseCall := NewInvocation(false, false, false)

  function MaybeRelease(v: Invocation): Invocation {
    if v.exited && v.drained && !v.letGo then v.(letGo := true, dones := v.dones + 1) else v
  }

  function Settle(v: Invocation): Invocation {
    MaybeRelease(v.(drained := true))
  }

  /** The caller gives up: the clean-up takes over, or nothing remains but the callback's exit. */
  function TimeOut(v: Invocation): Invocation {
    if v.abandon then v.(caller := TimedOut, cleanup := Awaiting) else Settle(v.(caller := TimedOut))
  }

  /** A late result is closed when its envelope is OK and names a stream, whatever the call itself said. */
  function LateStream(res: Res): Option<nat> {
    if res.ok then res.stream else None
  }

  function AfterLate(res: Res): Salvage {
    if LateStream(res).Some? then SalvageOwed(LateStream(res).value) else Idle
  }

  /** A close, begun by another invocation, has returned to it. */
  predicate ChildReturned(s: System, child: nat) {
    child < |s.invs| && s.invs[child].caller.GotInTime?
  }

  predicate Enabled(s: System, step: Step) {
    if step.Begin? then step.grace ==> step.deadline
    else
      step.i < |s.invs| &&
      var v := s.invs[step.i];
      match step
      case HostReturns(_, res) => v.running && (res.stream.Some? ==> v.abandon) // only stream starts name a stream
      case Exits(_) => !v.running && !v.exited
      case Gets(_) => v.caller.Waiting? && v.channel.Some?
      case Expires(_) => v.caller.Waiting? && v.deadline
      case GetsLate(_) => v.caller.InGrace? && v.channel.Some?
      case Lapses(_) => v.caller.InGrace?
      case CleanupGets(_) => v.cleanup.Awaiting? && v.channel.Some?
      case CleanupCalls(_) => v.cleanup.Owing? && LateStream(v.cleanup.res).Some?
      case CleanupSettles(_) => (v.cleanup.Owing? && LateStream(v.cleanup.res).None?) || (v.cleanup.Calling? && ChildReturned(s, v.cleanup.child))
      case SalvageCalls(_) => v.salvage.SalvageOwed?
      case SalvageEnds(_) => v.salvage.SalvageCalling? && ChildReturned(s, v.salvage.child)
      case Begin(_, _, _) => false
  }

  /** Replacing an invocation; every release takes one from the count. */
  function Put(s: System, i: nat, v: Invocation): System
    requires i < |s.invs|
  {
    s.(invs := s.invs[i := v], inFlight := s.inFlight - (v.dones - s.invs[i].dones))
  }

  function Add(s: System, v: Invocation): System {
    s.(invs := s.invs + [v], inFlight := s.inFlight + 1)
  }

  function IdOf(r: Option<nat>): multiset<nat> {
    if r.Some? then multiset{r.value} else multiset{}
  }

  /** The stream of a late result that is not closed. */
  function LateDropped(res: Res): multiset<nat> {
    if res.ok then multiset{} else IdOf(res.stream)
  }

  function Take(s: System, step: Step): System
    requires Enabled(s, step)
  {
    match step
    case Begin(deadline, grace, abandon) => Add(s, NewInvocation(deadline, grace, abandon))
    case HostReturns(i, res) =>
      Put(s, i, s.invs[i].(running := false, channel := Some(res))).(registered := s.registered + IdOf(res.stream))
    case Exits(i) => Put(s, i, MaybeRelease(s.invs[i].(exited := true)))
    case Gets(i) =>
      var v := s.invs[i];
      var res := v.channel.value;
      var s1 := Put(s, i, Settle(v.(channel := None, caller := GotInTime(res))));
      if !res.failed && res.ok then s1.(returned := s.returned + IdOf(res.stream)) else s1.(dropped := s.dropped + IdOf(res.stream))
    case Expires(i) => Put(s, i, if s.invs[i].grace then s.invs[i].(caller := InGrace) else TimeOut(s.invs[i]))
    case GetsLate(i) =>
      var v := s.invs[i];
      var res := v.channel.value;
      Put(s, i, Settle(v.(channel := None, caller := GotLate(res), salvage := AfterLate(res)))).(dropped := s.dropped + LateDropped(res))
    case Lapses(i) => Put(s, i, TimeOut(s.invs[i]))
    case CleanupGets(i) =>
      var v := s.invs[i];
      var res := v.channel.value;
      Put(s, i, v.(channel := None, cleanup := Owing(res))).(dropped := s.dropped + LateDropped(res))
    case CleanupCalls(i) =>
      var v := s.invs[i];
      Add(Put(s, i, v.(cleanup := Calling(v.cleanup.res, |s.invs|))), CloseCall).(closed := s.closed + multiset{LateStream(v.cleanup.res).value})
    case CleanupSettles(i) => Put(s, i, Settle(s.invs[i].(cleanup := Settled(s.invs[i].cleanup.res))))
    case SalvageCalls(i) =>
      var v := s.invs[i];
      Add(Put(s, i, v.(salvage := SalvageCalling(|s.invs|))), CloseCall).(closed := s.closed + multiset{v.salvage.stream})
    case SalvageEnds(i) => Put(s, i, s.invs[i].(salvage := SalvageDone))
  }

  /** The state after the steps, if each was possible when it was taken. */
  function Run(steps: seq<Step>): Option<System>
    decreases |steps|
  {
    if steps == [] then Some(Start)
    else
      match Run(steps[..|steps| - 1])
      case Some(s) => if Enabled(s, steps[|steps| - 1]) then Some(Take(s, steps[|steps| - 1])) else None
      case None => None
  }

  // ---- the invariant of one invocation ----

  predicate Consumed(v: Invocation) {
    v.caller.GotInTime? || v.caller.GotLate? || v.cleanup.Owing? || v.cleanup.Calling? || v.cleanup.Settled?
  }

  predicate Sound(v: Invocation) {
    && (v.exited ==> !v.running)
    && (v.channel.Some? <==> !v.running && !Consumed(v))
    && (Consumed(v) ==> !v.running)
    && (v.cleanup.NoCleanup? <==> !(v.caller.TimedOut? && v.abandon))
    && (v.drained <==> v.caller.GotInTime? || v.caller.GotLate? || (v.caller.TimedOut? && (!v.abandon || v.cleanup.Settled?)))
    && (v.letGo <==> v.exited && v.drained)
    && v.dones == (if v.letGo then 1 else 0)
    && (!v.salvage.Idle? ==> v.caller.GotLate?)
    && (v.caller.InGrace? || v.caller.GotLate? ==> v.grace) && (v.grace ==> v.deadline)
    && (v.channel.Some? && v.channel.value.stream.Some? ==> v.abandon)
    && (v.caller.TimedOut? ==> v.deadline)
  }

  /** Closes a parent waits for are earlier-begun invocations that end with an answer. */
  predicate Linked(s: System, i: nat)
    requires i < |s.invs|
  {
    var v := s.invs[i];
    && (v.cleanup.Calling? ==> v.cleanup.child < |s.invs| && IsClose(s.invs[v.cleanup.child]))
    && (v.salvage.SalvageCalling? ==> v.salvage.child < |s.invs| && IsClose(s.invs[v.salvage.child]))
  }

  predicate IsClose(v: Invocation) {
    !v.deadline && !v.grace && !v.abandon
  }

  function Sum(f: Invocation -> nat, invs: seq<Invocation>): nat
    decreases |invs|
  {
    if invs == [] then 0 else Sum(f, invs[..|invs| - 1]) + f(invs[|invs| - 1])
  }

  function UnreleasedOf(): Invocation -> nat {
    (v: Invocation) => if v.letGo then 0 else 1
  }

  function Unreleased(invs: seq<Invocation>): nat {
    Sum(UnreleasedOf(), invs)
  }

  function Names(r: Option<nat>, id: nat): nat {
    if r == Some(id) then 1 else 0
  }

  /** Whether a result in the channel, the clean-up, or the caller still has to deal with stream `id`. */
  function Deals(v: Invocation, id: nat): nat {
    (if v.channel.Some? then Names(v.channel.value.stream, id) else 0)
    + (if v.cleanup.Owing? then Names(LateStream(v.cleanup.res), id) else 0)
    + (if v.salvage == SalvageOwed(id) then 1 else 0)
  }

  function PendingOf(id: nat): Invocation -> nat {
    (v: Invocation) => Deals(v, id)
  }

  function Pending(invs: seq<Invocation>, id: nat): nat {
    Sum(PendingOf(id), invs)
  }

  /** Whether the result an invocation received named stream `id` and was not accepted as naming one. */
  function Refuses(v: Invocation, id: nat): nat {
    match v.caller
    case GotInTime(res) => if res.failed || !res.ok then Names(res.stream, id) else 0
    case GotLate(res) => if !res.ok then Names(res.stream, id) else 0
    case _ =>
      match v.cleanup
      case Owing(res) => if !res.ok then Names(res.stream, id) else 0
      case Calling(res, _) => if !res.ok then Names(res.stream, id) else 0
      case Settled(res) => if !res.ok then Names(res.stream, id) else 0
      case _ => 0
  }

  function RefusedOf(id: nat): Invocation -> nat {
    (v: Invocation) => Refuses(v, id)
  }

  function Refused(invs: seq<Invocation>, id: nat): nat {
    Sum(RefusedOf(id), invs)
  }

  /** Every registered id is returned, closed, dropped or still to be dealt with; the dropped ones are the refused ones. */
  predicate Accounted(s: System, id: nat) {
    && s.registered[id] == s.returned[id] + s.closed[id] + s.dropped[id] + Pending(s.invs, id)
    && s.dropped[id] == Refused(s.invs, id)
  }

  ghost predicate Inv(s: System) {
    && (forall i :: 0 <= i < |s.invs| ==> Sound(s.invs[i]) && Linked(s, i))
    && s.inFlight == Unreleased(s.invs)
    && (forall id: nat :: Accounted(s, id))
  }

  // ---- counting ----

  lemma {:induction false} SumSet(f: Invocation -> nat, invs: seq<Invocation>, i: nat, v: Invocation)
    requires i < |invs|
    ensures Sum(f, invs[i := v]) == Sum(f, invs) - f(invs[i]) + f(v)
    decreases |invs|
  {
    var n := |invs| - 1;
    if i < n {
      assert invs[i := v][..n] == invs[..n][i := v];
      SumSet(f, invs[..n], i, v);
    } else {
      assert invs[i := v][..n] == invs[..n];
    }
  }

  lemma {:induction false} SumAdd(f: Invocation -> nat, invs: seq<Invocation>, v: Invocation)
    ensures Sum(f, invs + [v]) == Sum(f, invs) + f(v)
  {
    assert (invs + [v])[..|invs|] == invs;
  }

  lemma {:induction false} SumOne(f: Invocation -> nat, invs: seq<Invocation>, i: nat)
    requires i < |invs| && f(invs[i]) > 0
    ensures Sum(f, invs) > 0
    decreases |invs|
  {
    if i < |invs| - 1 {
      SumOne(f, invs[..|invs| - 1], i);
    }
  }

  lemma {:induction false} SumNone(f: Invocation -> nat, invs: seq<Invocation>)
    ensures Sum(f, invs) == 0 <==> forall i :: 0 <= i < |invs| ==> f(invs[i]) == 0
    decreases |invs|
  {
    if invs != [] {
      var n := |invs| - 1;
      SumNone(f, invs[..n]);
      assert forall i :: 0 <= i < n ==> invs[..n][i] == invs[i];
    }
  }

  /** A count of zero means every invocation is released. */
  lemma UnreleasedNone(invs: seq<Invocation>)
    ensures Unreleased(invs) == 0 <==> forall i :: 0 <= i < |invs| ==> invs[i].letGo
  {
    SumNone(UnreleasedOf(), invs);
    assert forall i :: 0 <= i < |invs| ==> (UnreleasedOf()(invs[i]) == 0 <==> invs[i].letGo);
  }

  // ---- every step keeps it ----

  predicate SameOptions(v: Invocation, w: Invocation) {
    v.deadline == w.deadline && v.grace == w.grace && v.abandon == w.abandon
  }

  lemma PutKeepsLinks(s: System, i: nat, v: Invocation, s': System)
    requires (forall k :: 0 <= k < |s.invs| ==> Sound(s.invs[k]) && Linked(s, k)) && i < |s.invs|
    requires Sound(v) && SameOptions(v, s.invs[i]) && s'.invs == s.invs[i := v] && Linked(s', i)
    ensures forall k :: 0 <= k < |s'.invs| ==> Sound(s'.invs[k]) && Linked(s', k)
  {
    forall k | 0 <= k < |s'.invs| ensures Sound(s'.invs[k]) && Linked(s', k) {
      if k != i {
        assert Sound(s.invs[k]) && Linked(s, k);
      }
    }
  }

  /** What a step does to the accounts of one id when one invocation changes from `v` to `w`. */
  predicate Balanced(s: System, s': System, v: Invocation, w: Invocation, id: nat) {
    && s'.registered[id] - s'.returned[id] - s'.closed[id] - s'.dropped[id] - Deals(w, id)
       == s.registered[id] - s.returned[id] - s.closed[id] - s.dropped[id] - Deals(v, id)
    && s'.dropped[id] - Refuses(w, id) == s.dropped[id] - Refuses(v, id)
  }

  /** Steps that replace one invocation. */
  lemma PutInv(s: System, i: nat, v: Invocation, s': System)
    requires Inv(s) && i < |s.invs| && Sound(v) && SameOptions(v, s.invs[i])
    requires s'.invs == s.invs[i := v] && s'.inFlight == s.inFlight - (v.dones - s.invs[i].dones) && Linked(s', i)
    requires forall id: nat :: Balanced(s, s', s.invs[i], v, id)
    ensures Inv(s')
  {
    SumSet(UnreleasedOf(), s.invs, i, v);
    assert Sound(s.invs[i]);
    PutKeepsLinks(s, i, v, s');
    forall id: nat ensures Accounted(s', id) {
      SumSet(PendingOf(id), s.invs, i, v);
      SumSet(RefusedOf(id), s.invs, i, v);
      assert Balanced(s, s', s.invs[i], v, id) && Accounted(s, id);
    }
  }

  lemma AddInv(s: System, v: Invocation)
    requires Inv(s) && v == NewInvocation(v.deadline, v.grace, v.abandon) && (v.grace ==> v.deadline)
    ensures Inv(Add(s, v))
  {
    var s' := Add(s, v);
    SumAdd(UnreleasedOf(), s.invs, v);
    forall k | 0 <= k < |s'.invs| ensures Sound(s'.invs[k]) && Linked(s', k) {
      if k < |s.invs| {
        assert Sound(s.invs[k]) && Linked(s, k);
      }
    }
    forall id: nat ensures Accounted(s', id) {
      SumAdd(PendingOf(id), s.invs, v);
      SumAdd(RefusedOf(id), s.invs, v);
      assert Accounted(s, id);
    }
  }

  lemma HostReturnsInv(s: System, i: nat, res: Res)
    requires Inv(s) && Enabled(s, HostReturns(i, res))
    ensures Inv(Take(s, HostReturns(i, res)))
  {
    assert Sound(s.invs[i]) && Linked(s, i);
    var v := s.invs[i].(running := false, channel := Some(res));
    PutInv(s, i, v, Take(s, HostReturns(i, res)));
  }

  lemma ExitsInv(s: System, i: nat)
    requires Inv(s) && Enabled(s, Exits(i))
    ensures Inv(Take(s, Exits(i)))
  {
    assert Sound(s.invs[i]) && Linked(s, i);
    PutInv(s, i, MaybeRelease(s.invs[i].(exited := true)), Take(s, Exits(i)));
  }

  /** In time, the result leaves the channel for its caller or for nobody. */
  lemma GetsBalances(s: System, i: nat, id: nat)
    requires i < |s.invs| && Sound(s.invs[i]) && Enabled(s, Gets(i))
    ensures var v := s.invs[i];
            Balanced(s, Take(s, Gets(i)), v, Settle(v.(channel := None, caller := GotInTime(v.channel.value))), id)
  {
    var v := s.invs[i];
    assert v.cleanup.NoCleanup? && v.salvage.Idle?;
    assert Refuses(v, id) == 0;
  }

  lemma GetsInv(s: System, i: nat)
    requires Inv(s) && Enabled(s, Gets(i))
    ensures Inv(Take(s, Gets(i)))
  {
    assert Sound(s.invs[i]) && Linked(s, i);
    var v := s.invs[i];
    forall id: nat ensures Balanced(s, Take(s, Gets(i)), v, Settle(v.(channel := None, caller := GotInTime(v.channel.value))), id) {
      GetsBalances(s, i, id);
    }
    PutInv(s, i, Settle(v.(channel := None, caller := GotInTime(v.channel.value))), Take(s, Gets(i)));
  }

  /** What becomes of the invocation when its result arrives within the grace window. */
  function Salvaging(v: Invocation): Invocation
    requires v.channel.Some?
  {
    Settle(v.(channel := None, caller := GotLate(v.channel.value), salvage := AfterLate(v.channel.value)))
  }

  lemma GetsLateBalances(s: System, i: nat, id: nat)
    requires i < |s.invs| && Sound(s.invs[i]) && Enabled(s, GetsLate(i))
    ensures Balanced(s, Take(s, GetsLate(i)), s.invs[i], Salvaging(s.invs[i]), id)
  {
    var v := s.invs[i];
    assert v.cleanup.NoCleanup? && v.salvage.Idle?;
    assert Refuses(v, id) == 0;
  }

  lemma GetsLateInv(s: System, i: nat)
    requires Inv(s) && Enabled(s, GetsLate(i))
    ensures Inv(Take(s, GetsLate(i)))
  {
    assert Sound(s.invs[i]) && Linked(s, i);
    forall id: nat ensures Balanced(s, Take(s, GetsLate(i)), s.invs[i], Salvaging(s.invs[i]), id) {
      GetsLateBalances(s, i, id);
    }
    PutInv(s, i, Salvaging(s.invs[i]), Take(s, GetsLate(i)));
  }

  lemma GivesUpInv(s: System, i: nat)
    requires Inv(s) && i < |s.invs| && ((s.invs[i].caller.Waiting? && s.invs[i].deadline) || s.invs[i].caller.InGrace?)
    ensures Inv(Put(s, i, TimeOut(s.invs[i])))
  {
    assert Sound(s.invs[i]) && Linked(s, i);
    PutInv(s, i, TimeOut(s.invs[i]), Put(s, i, TimeOut(s.invs[i])));
  }

  lemma ExpiresInv(s: System, i: nat)
    requires Inv(s) && Enabled(s, Expires(i))
    ensures Inv(Take(s, Expires(i)))
  {
    assert Sound(s.invs[i]) && Linked(s, i);
    if s.invs[i].grace {
      PutInv(s, i, s.invs[i].(caller := InGrace), Take(s, Expires(i)));
    } else {
      GivesUpInv(s, i);
    }
  }

  lemma CleanupGetsInv(s: System, i: nat)
    requires Inv(s) && Enabled(s, CleanupGets(i))
    ensures Inv(Take(s, CleanupGets(i)))
  {
    assert Sound(s.invs[i]) && Linked(s, i);
    var v := s.invs[i];
    PutInv(s, i, v.(channel := None, cleanup := Owing(v.channel.value)), Take(s, CleanupGets(i)));
  }

  lemma CleanupSettlesInv(s: System, i: nat)
    requires Inv(s) && Enabled(s, CleanupSettles(i))
    ensures Inv(Take(s, CleanupSettles(i)))
  {
    assert Sound(s.invs[i]) && Linked(s, i);
    PutInv(s, i, Settle(s.invs[i].(cleanup := Settled(s.invs[i].cleanup.res))), Take(s, CleanupSettles(i)));
  }

  lemma SalvageEndsInv(s: System, i: nat)
    requires Inv(s) && Enabled(s, SalvageEnds(i))
    ensures Inv(Take(s, SalvageEnds(i)))
  {
    assert Sound(s.invs[i]) && Linked(s, i);
    PutInv(s, i, s.invs[i].(salvage := SalvageDone), Take(s, SalvageEnds(i)));
  }

  /** Beginning a close: the close joins first, then its parent starts waiting for it. */
  lemma CallsInv(s: System, i: nat, v: Invocation, stream: nat)
    requires Inv(s) && i < |s.invs| && Sound(v) && SameOptions(v, s.invs[i]) && v.dones == s.invs[i].dones
    requires v.cleanup.Calling? ==> v.cleanup == s.invs[i].cleanup || v.cleanup.child == |s.invs|
    requires v.salvage.SalvageCalling? ==> v.salvage == s.invs[i].salvage || v.salvage.child == |s.invs|
    requires forall id: nat :: Deals(v, id) + (if id == stream then 1 else 0) == Deals(s.invs[i], id) && Refuses(v, id) == Refuses(s.invs[i], id)
    ensures Inv(Add(Put(s, i, v), CloseCall).(closed := s.closed + multiset{stream}))
  {
    var s1, s' := Add(s, CloseCall), Add(Put(s, i, v), CloseCall).(closed := s.closed + multiset{stream});
    assert Linked(s, i);
    AddInv(s, CloseCall);
    assert s.invs[i := v] + [CloseCall] == (s.invs + [CloseCall])[i := v];
    PutInv(s1, i, v, s');
  }

  lemma StepInv(s: System, step: Step)
    requires Inv(s) && Enabled(s, step)
    ensures Inv(Take(s, step))
  {
    match step
    case Begin(d, g, a) => AddInv(s, NewInvocation(d, g, a));
    case HostReturns(i, res) => HostReturnsInv(s, i, res);
    case Exits(i) => ExitsInv(s, i);
    case Gets(i) => GetsInv(s, i);
    case Expires(i) => ExpiresInv(s, i);
    case GetsLate(i) => GetsLateInv(s, i);
    case Lapses(i) => GivesUpInv(s, i);
    case CleanupGets(i) => CleanupGetsInv(s, i);
    case CleanupCalls(i) =>
      assert Sound(s.invs[i]) && Linked(s, i);
      CallsInv(s, i, s.invs[i].(cleanup := Calling(s.invs[i].cleanup.res, |s.invs|)), LateStream(s.invs[i].cleanup.res).value);
    case CleanupSettles(i) => CleanupSettlesInv(s, i);
    case SalvageCalls(i) =>
      assert Sound(s.invs[i]) && Linked(s, i);
      CallsInv(s, i, s.invs[i].(salvage := SalvageCalling(|s.invs|)), s.invs[i].salvage.stream);
    case SalvageEnds(i) => SalvageEndsInv(s, i);
  }

  lemma {:induction false} RunInv(steps: seq<Step>)
    requires Run(steps).Some?
    ensures Inv(Run(steps).value)
    decreases |steps|
  {
    if steps != [] {
      RunInv(steps[..|steps| - 1]);
      StepInv(Run(steps[..|steps| - 1]).value, steps[|steps| - 1]);
    }
  }

  // ---- main results ----

  /** The result was received, or nobody waits for it any more, or the clean-up that took it over has finished. */
  predicate Observed(v: Invocation) {
    match v.caller
    case GotInTime(_) => true
    case GotLate(_) => true
    case TimedOut => v.abandon ==> v.cleanup.Settled?
    case _ => false
  }

  /**
   * Every interleaving: each invocation takes itself off the count at most once, exactly when its
   * callback goroutine has exited and its result was observed, or nobody waits for it any more, or
   * the clean-up that took it over has finished; and the count is the number of those that have not.
   */
  lemma {:induction false} ReleasedOnceAndOnlyThen(steps: seq<Step>, i: nat)
    requires Run(steps).Some? && i < |Run(steps).value.invs|
    ensures var s := Run(steps).value;
            var v := s.invs[i];
            && s.inFlight == Unreleased(s.invs) && (s.inFlight > 0 <==> exists k :: 0 <= k < |s.invs| && s.invs[k].dones == 0)
            && v.dones <= 1 && (v.dones == 1 <==> v.exited && Observed(v))
            && (v.exited ==> !v.running)
  {
    RunInv(steps);
    var s := Run(steps).value;
    assert forall k :: 0 <= k < |s.invs| ==> Sound(s.invs[k]);
    UnreleasedNone(s.invs);
  }

  /** A count of zero, which is what shutdown waits for: no callback runs and no clean-up is unfinished. */
  lemma {:induction false} ZeroMeansSettled(steps: seq<Step>, i: nat)
    requires Run(steps).Some? && Run(steps).value.inFlight == 0 && i < |Run(steps).value.invs|
    ensures var v := Run(steps).value.invs[i]; v.exited && !v.running && (v.cleanup.NoCleanup? || v.cleanup.Settled?)
  {
    RunInv(steps);
    var s := Run(steps).value;
    UnreleasedNone(s.invs);
    assert Sound(s.invs[i]);
  }

  /** While an abandoned call still owes a close, or its close has not returned, the count is positive. */
  lemma {:induction false} PositiveWhileCleanupOwes(steps: seq<Step>, i: nat)
    requires Run(steps).Some? && i < |Run(steps).value.invs|
    requires var c := Run(steps).value.invs[i].cleanup; c.Awaiting? || c.Owing? || c.Calling?
    ensures Run(steps).value.inFlight > 0
  {
    RunInv(steps);
    var s := Run(steps).value;
    assert Sound(s.invs[i]);
    SumOne(UnreleasedOf(), s.invs, i);
  }

  /** Steps the plugin itself can take, without the host, a new call or a timer. */
  predicate Internal(step: Step) {
    !step.Begin? && !step.HostReturns? && !step.Expires? && !step.Lapses?
  }

  /** Nothing is left to do: no callback is inside the host and no internal step is possible. */
  ghost predicate Quiescent(s: System) {
    && (forall i :: 0 <= i < |s.invs| ==> !s.invs[i].running)
    && (forall step :: Internal(step) ==> !Enabled(s, step))
  }

  lemma QuietOne(s: System, i: nat)
    requires Inv(s) && Quiescent(s) && i < |s.invs|
    ensures var v := s.invs[i]; v.exited && !v.caller.Waiting? && !v.caller.InGrace? && (v.channel.Some? ==> !v.abandon)
  {
    assert Sound(s.invs[i]);
    assert !Enabled(s, Exits(i)) && !Enabled(s, Gets(i)) && !Enabled(s, GetsLate(i)) && !Enabled(s, CleanupGets(i));
  }

  /** A close has no deadline, so in a quiet state it has returned. */
  lemma QuietClose(s: System, i: nat)
    requires Inv(s) && Quiescent(s) && i < |s.invs| && IsClose(s.invs[i])
    ensures s.invs[i].caller.GotInTime?
  {
    QuietOne(s, i);
    assert Sound(s.invs[i]);
  }

  lemma QuietSettled(s: System, i: nat)
    requires Inv(s) && Quiescent(s) && i < |s.invs|
    ensures var v := s.invs[i]; v.letGo && !v.salvage.SalvageOwed? && !v.salvage.SalvageCalling?
  {
    QuietOne(s, i);
    var v := s.invs[i];
    assert Sound(v) && Linked(s, i);
    if v.cleanup.Calling? {
      QuietClose(s, v.cleanup.child);
    }
    if v.salvage.SalvageCalling? {
      QuietClose(s, v.salvage.child);
    }
    assert !Enabled(s, CleanupGets(i)) && !Enabled(s, CleanupCalls(i)) && !Enabled(s, CleanupSettles(i));
    assert !Enabled(s, SalvageCalls(i)) && !Enabled(s, SalvageEnds(i));
  }

  /** No reachable quiet state leaves an invocation on the count. */
  lemma {:induction false} QuiescentIsReleased(steps: seq<Step>)
    requires Run(steps).Some? && Quiescent(Run(steps).value)
    ensures Run(steps).value.inFlight == 0
  {
    RunInv(steps);
    var s := Run(steps).value;
    forall i | 0 <= i < |s.invs| ensures s.invs[i].letGo {
      QuietSettled(s, i);
    }
    UnreleasedNone(s.invs);
  }

  /**
   * No upstream stream leaks: at any time every stream id the host has registered is with exactly one
   * of: the caller it was returned to, a close that was begun for it, a result or clean-up still
   * pending, or a result that was refused; in a quiet state nothing is pending.
   */
  lemma {:induction false} EveryStreamHasOneOwner(steps: seq<Step>, id: nat)
    requires Run(steps).Some?
    ensures var s := Run(steps).value;
            && s.registered[id] == s.returned[id] + s.closed[id] + s.dropped[id] + Pending(s.invs, id)
            && (Quiescent(s) ==> s.registered[id] == s.returned[id] + s.closed[id] + s.dropped[id])
  {
    RunInv(steps);
    var s := Run(steps).value;
    assert Accounted(s, id);
    if Quiescent(s) {
      forall i | 0 <= i < |s.invs| ensures PendingOf(id)(s.invs[i]) == 0 {
        QuietOne(s, i);
        QuietSettled(s, i);
        assert Sound(s.invs[i]);
      }
      SumNone(PendingOf(id), s.invs);
    }
  }

  /**
   * Every run: a stream id is dropped as often as results naming it were refused. A result in time is
   * refused when the call failed or its envelope is not OK; a late one, within the grace window or
   * after it, only when its envelope is not OK. In particular nothing is dropped exactly when no
   * invocation received such a result.
   */
  lemma {:induction false} DroppedIffRefused(steps: seq<Step>, id: nat)
    requires Run(steps).Some?
    ensures var s := Run(steps).value;
            && s.dropped[id] == Refused(s.invs, id)
            && (s.dropped[id] == 0 <==> forall i :: 0 <= i < |s.invs| ==> Refuses(s.invs[i], id) == 0)
  {
    RunInv(steps);
    var s := Run(steps).value;
    assert Accounted(s, id);
    SumNone(RefusedOf(id), s.invs);
    assert forall i :: 0 <= i < |s.invs| ==> RefusedOf(id)(s.invs[i]) == Refuses(s.invs[i], id);
  }

  /** The plugin still owes, or is inside, the close of a stream that arrived late. */
  predicate OwesClose(v: Invocation) {
    || v.cleanup.Calling? || (v.cleanup.Owing? && LateStream(v.cleanup.res).Some?)
    || v.salvage.SalvageOwed? || v.salvage.SalvageCalling?
  }

  /**
   * Every run: an invocation that owes a close is still on the count if and only if the close is its
   * clean-up's, or its callback goroutine has not exited yet. So a close within the grace window is
   * off the count exactly once that goroutine has gone.
   */
  lemma {:induction false} OwedCloseCountedIff(steps: seq<Step>, i: nat)
    requires Run(steps).Some? && i < |Run(steps).value.invs| && OwesClose(Run(steps).value.invs[i])
    ensures var v := Run(steps).value.invs[i];
            v.dones == 0 <==> v.cleanup.Owing? || v.cleanup.Calling? || !v.exited
  {
    RunInv(steps);
    assert Sound(Run(steps).value.invs[i]);
  }

  lemma {:induction false} RunNext(steps: seq<Step>, step: Step)
    requires Run(steps).Some? && Enabled(Run(steps).value, step)
    ensures Run(steps + [step]) == Some(Take(Run(steps).value, step))
  {
    assert (steps + [step])[..|steps|] == steps;
  }

  /** A stream start whose deadline expires before the host answers within the grace window. */
  function LateStart(): seq<Step> {
    [Begin(true, true, true), Expires(0), HostReturns(0, Res(false, true, Some(7))), Exits(0), GetsLate(0)]
  }

  lemma Prefixes(steps: seq<Step>, n: nat)
    requires 0 < n <= |steps|
    ensures steps[..n] == steps[..n - 1] + [steps[n - 1]]
  {
  }

  /** A system of one invocation. */
  predicate Only(r: Option<System>, v: Invocation, inFlight: int) {
    r.Some? && r.value.invs == [v] && r.value.inFlight == inFlight
  }

  lemma TakeOnly(s: System, v: Invocation, inFlight: int, step: Step, w: Invocation)
    requires Only(Some(s), v, inFlight) && Enabled(s, step)
    requires !step.Begin? && !step.CleanupCalls? && !step.SalvageCalls? && Take(s, step).invs[0] == w
    ensures Only(Some(Take(s, step)), w, inFlight - (w.dones - v.dones))
  {
    assert step.i == 0;
  }

  /** One step of a run of a single invocation. */
  lemma SingleStep(steps: seq<Step>, n: nat, v: Invocation, w: Invocation, inFlight: int)
    requires 1 < n <= |steps| && Only(Run(steps[..n - 1]), v, inFlight)
    requires var s, step := Run(steps[..n - 1]).value, steps[n - 1];
             Enabled(s, step) && !step.Begin? && !step.CleanupCalls? && !step.SalvageCalls? && Take(s, step).invs[0] == w
    ensures Only(Run(steps[..n]), w, inFlight - (w.dones - v.dones))
  {
    Prefixes(steps, n);
    RunNext(steps[..n - 1], steps[n - 1]);
    TakeOnly(Run(steps[..n - 1]).value, v, inFlight, steps[n - 1], w);
  }

  /**
   * The close of a stream that came within the grace window is different: it is owed by the caller
   * after the invocation was settled, so the count can be zero while it is still owed.
   */
  lemma GraceCloseOwedAtZero()
    ensures Run(LateStart()).Some? && Run(LateStart()).value.inFlight == 0
    ensures |Run(LateStart()).value.invs| == 1 && Run(LateStart()).value.invs[0].salvage == SalvageOwed(7)
  {
    var v := NewInvocation(true, true, true);
    LateStartBegins(v);
    SingleStep(LateStart(), 2, v, v.(caller := InGrace), 1);
    LateStartReturns(v.(caller := InGrace));
    LateStartEnds(v.(caller := InGrace, running := false, channel := Some(Res(false, true, Some(7))), exited := true));
  }

  lemma LateStartReturns(v: Invocation)
    requires v == NewInvocation(true, true, true).(caller := InGrace) && Only(Run(LateStart()[..2]), v, 1)
    ensures Only(Run(LateStart()[..4]), v.(running := false, channel := Some(Res(false, true, Some(7))), exited := true), 1)
  {
    var w := v.(running := false, channel := Some(Res(false, true, Some(7))));
    SingleStep(LateStart(), 3, v, w, 1);
    SingleStep(LateStart(), 4, w, w.(exited := true), 1);
  }

  lemma LateStartBegins(v: Invocation)
    requires v == NewInvocation(true, true, true)
    ensures Only(Run(LateStart()[..1]), v, 1)
  {
    var steps := LateStart();
    assert steps[..1][..0] == [] && steps[..1][0] == Begin(true, true, true);
    assert Run(steps[..1]) == Some(Add(Start, v));
  }

  lemma LateStartEnds(v: Invocation)
    requires Only(Run(LateStart()[..4]), v, 1) && v.exited && !v.drained && !v.letGo && v.dones == 0
    requires v.caller.InGrace? && v.channel == Some(Res(false, true, Some(7)))
    ensures Run(LateStart()).Some? && Run(LateStart()).value.inFlight == 0
    ensures |Run(LateStart()).value.invs| == 1 && Run(LateStart()).value.invs[0].salvage == SalvageOwed(7)
  {
    var w := v.(channel := None, caller := GotLate(v.channel.value), salvage := SalvageOwed(7), drained := true, letGo := true, dones := 1);
    SingleStep(LateStart(), 5, v, w, 1);
    assert LateStart()[..5] == LateStart();
  }
}
