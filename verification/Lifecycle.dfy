/**
 * Registration, reconfiguration, shutdown and the background refresh loop, as interleaved steps. One
 * lifecycle operation runs at a time; ticks of a loop interleave with all of its steps.
 */
module Lifecycle {
  import opened Wire
  import opened Catalog

  /** A catalog manager: its own configuration, the raw entries it retains, and the snapshot it serves. */
  datatype Mgr = Mgr(cfg: Config, raw: seq<RawModel>, extra: seq<Warning>,
                     models: seq<Record>, index: map<string, Record>, unsup: seq<Rejected>, warns: seq<Warning>)

  /** How a refresh went; without a credential it is not even attempted. */
  datatype Outcome = Fetched(entries: seq<RawModel>, extra: seq<Warning>) | Failed | NoCredential

  function Publish(cfg: Config, entries: seq<RawModel>, extra: seq<Warning>): Mgr {
    var s := Build(cfg, entries, extra);
    Mgr(cfg, entries, extra, s.models, s.index, s.unsup, s.warns)
  }

  function NewMgr(cfg: Config): Mgr {
    Mgr(cfg, [], [], [], map[], [], [])
  }

  /** A refresh swaps the snapshot; a failed one applies the stale policy. */
  function Refresh(m: Mgr, o: Outcome): Mgr {
    match o
    case Fetched(entries, extra) => Publish(m.cfg, entries, extra)
    case Failed => if m.cfg.staleWhileUnavailable then m else NewMgr(m.cfg)
    case NoCredential => m
  }

  /** A manager is rebuilt from another's raw entries under its own configuration. */
  function Seed(m: Mgr, prev: Mgr): Mgr {
    Publish(m.cfg, prev.raw, [])
  }

  // ---- the manager as the object it is ----

  /** The object shows the value. */
  ghost predicate Shows(mgr: Manager, m: Mgr)
    reads mgr
  {
    && mgr.cfg == m.cfg && mgr.raw == m.raw
    && mgr.models == m.models && mgr.index == m.index && mgr.unsup == m.unsup && mgr.warns == m.warns
  }

  method Create(cfg: Config) returns (mgr: Manager)
    ensures fresh(mgr) && Shows(mgr, NewMgr(cfg))
  {
    mgr := new Manager(cfg);
  }

  /** One bounded refresh: skipped without a credential, else swapped in or failed. An answer only part of which decodes has failed. */
  method RefreshOnce(mgr: Manager, o: Outcome, ghost m: Mgr)
    requires Shows(mgr, m)
    modifies mgr
    ensures Shows(mgr, Refresh(m, o))
  {
    match o
    case Fetched(entries, extra) => mgr.Swap(entries, extra);
    case Failed => mgr.Fail();
    case NoCredential =>
  }

  method SeedManager(mgr: Manager, prev: Manager, ghost m: Mgr, ghost p: Mgr)
    requires Shows(mgr, m) && Shows(prev, p)
    modifies mgr
    ensures Shows(mgr, Seed(m, p))
  {
    mgr.SeedFrom(prev);
  }

  // ---- the system ----

  datatype LoopPhase = Waiting | Refreshing | Exited

  /** A refresh loop: the manager it refreshes and whether its stop channel is closed. */
  datatype Loop = Loop(mgr: nat, stopped: bool, phase: LoopPhase)

  datatype Stage = Stopping | Awaiting(loop: Option<nat>)

  /** The lifecycle operation under way. */
  datatype Op = Idle | Configuring(incoming: nat, refreshed: bool, stage: Stage) | ShuttingDown(stage: Stage)

  /** `current` is the loop the stored stop and done channels belong to. */
  datatype System = System(mgrs: seq<Mgr>, served: Option<nat>, loops: seq<Loop>, current: Option<nat>, op: Op)

  const Unregistered := System([], None, [], None, Idle)

  datatype Step =
    | Configure(cfg: Config, outcome: Outcome)
    | Shutdown
    | CloseStop
    | Install
    | Clear
    | TickBegins(l: nat)
    | TickEnds(l: nat, outcome: Outcome)
    | LoopExits(l: nat)

  /** The old loop, if there was one, has exited. */
  predicate OldGone(s: System, stage: Stage) {
    stage.Awaiting? && (stage.loop.Some? ==> stage.loop.value < |s.loops| && s.loops[stage.loop.value].phase.Exited?)
  }

  predicate Enabled(s: System, step: Step) {
    match step
    case Configure(_, _) => s.op.Idle?
    case Shutdown => s.op.Idle?
    case CloseStop => !s.op.Idle? && s.op.stage.Stopping?
    case Install => s.op.Configuring? && OldGone(s, s.op.stage) && s.op.incoming < |s.mgrs|
    case Clear => s.op.ShuttingDown? && OldGone(s, s.op.stage)
    case TickBegins(l) => l < |s.loops| && s.loops[l].phase.Waiting?
    case TickEnds(l, _) => l < |s.loops| && s.loops[l].phase.Refreshing? && s.loops[l].mgr < |s.mgrs|
    case LoopExits(l) => l < |s.loops| && s.loops[l].phase.Waiting? && s.loops[l].stopped
  }

  function SetStage(op: Op, stage: Stage): Op
    requires !op.Idle?
  {
    if op.Configuring? then op.(stage := stage) else ShuttingDown(stage)
  }

  /** The manager a reconfiguration installs: seeded when its refresh failed and the old snapshot may be kept. */
  function Adopted(s: System): Mgr
    requires s.op.Configuring? && s.op.incoming < |s.mgrs|
  {
    var m := s.mgrs[s.op.incoming];
    if !s.op.refreshed && m.cfg.staleWhileUnavailable && s.served.Some? && s.served.value < |s.mgrs| && s.mgrs[s.served.value].models != []
    then Seed(m, s.mgrs[s.served.value])
    else m
  }

  function Take(s: System, step: Step): System
    requires Enabled(s, step)
  {
    match step
    case Configure(cfg, outcome) =>
      s.(mgrs := s.mgrs + [Refresh(NewMgr(cfg), outcome)], op := Configuring(|s.mgrs|, outcome.Fetched?, Stopping))
    case Shutdown => s.(op := ShuttingDown(Stopping))
    case CloseStop =>
      if s.current.Some? && s.current.value < |s.loops| then
        var l := s.current.value;
        s.(loops := s.loops[l := s.loops[l].(stopped := true)], current := None, op := SetStage(s.op, Awaiting(Some(l))))
      else s.(current := None, op := SetStage(s.op, Awaiting(None)))
    case Install =>
      var incoming := s.op.incoming;
      s.(mgrs := s.mgrs[incoming := Adopted(s)], served := Some(incoming),
         loops := s.loops + [Loop(incoming, false, Waiting)], current := Some(|s.loops|), op := Idle)
    case Clear => s.(served := None, op := Idle)
    case TickBegins(l) => s.(loops := s.loops[l := s.loops[l].(phase := Refreshing)])
    case TickEnds(l, outcome) =>
      var i := s.loops[l].mgr;
      s.(mgrs := s.mgrs[i := Refresh(s.mgrs[i], outcome)], loops := s.loops[l := s.loops[l].(phase := Waiting)])
    case LoopExits(l) => s.(loops := s.loops[l := s.loops[l].(phase := Exited)])
  }

  function Run(steps: seq<Step>): Option<System>
    decreases |steps|
  {
    if steps == [] then Some(Unregistered)
    else
      match Run(steps[..|steps| - 1])
      case Some(s) => if Enabled(s, steps[|steps| - 1]) then Some(Take(s, steps[|steps| - 1])) else None
      case None => None
  }

  // ---- the invariant ----

  /** The snapshot is the rebuild of the retained entries under the manager's own configuration. */
  ghost predicate Rebuilt(m: Mgr) {
    m == Publish(m.cfg, m.raw, m.extra)
  }

  ghost predicate AllRebuilt(mgrs: seq<Mgr>) {
    forall i :: 0 <= i < |mgrs| ==> Rebuilt(mgrs[i])
  }

  /** The loop that has been told to stop and is being waited for. */
  function Outgoing(op: Op): Option<nat> {
    if !op.Idle? && op.stage.Awaiting? then op.stage.loop else None
  }

  predicate Indexed(s: System) {
    && (s.served.Some? ==> s.served.value < |s.mgrs|)
    && (s.current.Some? ==> s.current.value < |s.loops|)
    && (forall l :: 0 <= l < |s.loops| ==> s.loops[l].mgr < |s.mgrs|)
    && (s.op.Configuring? ==> s.op.incoming < |s.mgrs|)
  }

  /** Only the current loop or the one being waited for is alive; the current one serves the served manager. */
  predicate OneLoop(s: System) {
    && (forall l :: 0 <= l < |s.loops| && !s.loops[l].phase.Exited? ==> s.current == Some(l) || Outgoing(s.op) == Some(l))
    && (s.current.Some? ==> s.current.value < |s.loops| && s.served == Some(s.loops[s.current.value].mgr) && !s.loops[s.current.value].stopped)
    && (Outgoing(s.op).Some? ==> Outgoing(s.op).value < |s.loops| && s.loops[Outgoing(s.op).value].stopped && s.current.None?)
    && (!s.op.Idle? && s.op.stage.Awaiting? ==> s.current.None?)
    && (s.op.Idle? ==> (s.served.Some? <==> s.current.Some?))
    && (forall l :: 0 <= l < |s.loops| && s.loops[l].phase.Exited? ==> s.loops[l].stopped)
  }

  /** The manager being configured is not yet refreshed by any loop. */
  ghost predicate FreshUnshared(s: System) {
    s.op.Configuring? ==>
      && (forall l :: 0 <= l < |s.loops| ==> s.loops[l].mgr != s.op.incoming)
      && s.served != Some(s.op.incoming)
      && s.op.incoming < |s.mgrs|
      && (!s.op.refreshed ==> s.mgrs[s.op.incoming] == NewMgr(s.mgrs[s.op.incoming].cfg))
  }

  ghost predicate Inv(s: System) {
    && AllRebuilt(s.mgrs) && Indexed(s) && OneLoop(s) && FreshUnshared(s)
  }

  lemma EmptyIsRebuilt(cfg: Config)
    ensures Rebuilt(NewMgr(cfg))
  {
    assert Build(cfg, [], []) == Snapshot([], map[], [], [], {});
  }

  lemma RefreshRebuilds(m: Mgr, o: Outcome)
    requires Rebuilt(m)
    ensures Rebuilt(Refresh(m, o)) && Refresh(m, o).cfg == m.cfg
  {
    EmptyIsRebuilt(m.cfg);
  }

  lemma RebuiltSet(mgrs: seq<Mgr>, i: nat, m: Mgr)
    requires AllRebuilt(mgrs) && i < |mgrs| && Rebuilt(m)
    ensures AllRebuilt(mgrs[i := m])
  {
  }

  lemma ConfigureInv(s: System, cfg: Config, outcome: Outcome)
    requires Inv(s) && s.op.Idle?
    ensures Inv(Take(s, Configure(cfg, outcome)))
  {
    EmptyIsRebuilt(cfg);
    RefreshRebuilds(NewMgr(cfg), outcome);
    var t := Take(s, Configure(cfg, outcome));
    forall i | 0 <= i < |t.mgrs| ensures Rebuilt(t.mgrs[i]) {
      if i < |s.mgrs| {
        assert t.mgrs[i] == s.mgrs[i];
      }
    }
  }

  lemma InstallInv(s: System)
    requires Inv(s) && Enabled(s, Install)
    ensures Inv(Take(s, Install))
  {
    RebuiltSet(s.mgrs, s.op.incoming, Adopted(s));
  }

  lemma CloseStopInv(s: System)
    requires Inv(s) && Enabled(s, CloseStop)
    ensures Inv(Take(s, CloseStop))
  {
  }

  lemma TickEndsInv(s: System, l: nat, outcome: Outcome)
    requires Inv(s) && Enabled(s, TickEnds(l, outcome))
    ensures Inv(Take(s, TickEnds(l, outcome)))
  {
    var i := s.loops[l].mgr;
    RefreshRebuilds(s.mgrs[i], outcome);
    RebuiltSet(s.mgrs, i, Refresh(s.mgrs[i], outcome));
  }

  lemma StepInv(s: System, step: Step)
    requires Inv(s) && Enabled(s, step)
    ensures Inv(Take(s, step))
  {
    match step
    case Configure(cfg, outcome) => ConfigureInv(s, cfg, outcome);
    case CloseStop => CloseStopInv(s);
    case Install => InstallInv(s);
    case TickEnds(l, outcome) => TickEndsInv(s, l, outcome);
    case Shutdown =>
    case Clear =>
    case TickBegins(_) =>
    case LoopExits(_) =>
  }

  lemma {:induction false} RunInv(steps: seq<Step>)
    requires Run(steps).Some?
    ensures Inv(Run(steps).value)
    decreases |steps|
  {
    if steps != [] {
      RunInv(steps[..|steps| - 1]);
      StepInv(Run(steps[..|steps| - 1]).value, steps[|steps| - 1]);
    }
  }

  // ---- main results ----

  /**
   * In every reachable state every manager, and so the served one, holds exactly the rebuild of the
   * entries it retains under its own configuration; cleared is the rebuild of none.
   */
  lemma {:induction false} SnapshotsAreRebuilds(steps: seq<Step>, i: nat)
    requires Run(steps).Some? && i < |Run(steps).value.mgrs|
    ensures var m := Run(steps).value.mgrs[i];
            var b := Build(m.cfg, m.raw, m.extra);
            m.models == b.models && m.index == b.index && m.unsup == b.unsup && m.warns == b.warns
  {
    RunInv(steps);
    assert Rebuilt(Run(steps).value.mgrs[i]);
  }

  /** So in every reachable state lookups agree with the served list. */
  lemma {:induction false} ServedLookupIffListed(steps: seq<Step>, key: string)
    requires Run(steps).Some? && Run(steps).value.served.Some?
    ensures Run(steps).value.served.value < |Run(steps).value.mgrs|
    ensures var m := Run(steps).value.mgrs[Run(steps).value.served.value];
            key in m.index <==> Listed(m.models, key)
  {
    RunInv(steps);
    var s := Run(steps).value;
    SnapshotsAreRebuilds(steps, s.served.value);
    var m := s.mgrs[s.served.value];
    LookupIffListed(m.cfg, m.raw, m.extra, key);
  }

  /**
   * At most one loop is alive; when no operation is under way it refreshes the served manager, and there
   * is one exactly when one is served. A loop exits only after it has been told to stop.
   */
  lemma {:induction false} OneLoopServesTheServed(steps: seq<Step>, k: nat, l: nat)
    requires Run(steps).Some? && k < |Run(steps).value.loops| && l < |Run(steps).value.loops|
    ensures var s := Run(steps).value;
            && (!s.loops[k].phase.Exited? && !s.loops[l].phase.Exited? ==> k == l)
            && (s.op.Idle? && !s.loops[l].phase.Exited? ==> s.current == Some(l) && s.served == Some(s.loops[l].mgr))
            && (s.op.Idle? ==> (s.served.Some? <==> s.current.Some?))
            && (s.current.Some? ==> s.current.value < |s.loops| && !s.loops[s.current.value].phase.Exited? && !s.loops[s.current.value].stopped)
            && (s.loops[l].phase.Exited? ==> s.loops[l].stopped)
  {
    RunInv(steps);
  }

  /** After a shutdown nothing is served and no loop is alive. */
  lemma {:induction false} NothingAfterShutdown(steps: seq<Step>, l: nat)
    requires Run(steps).Some? && Enabled(Run(steps).value, Clear) && l < |Run(steps).value.loops|
    ensures var s := Take(Run(steps).value, Clear); s.served.None? && s.current.None? && s.loops[l].phase.Exited?
  {
    RunInv(steps);
    StepInv(Run(steps).value, Clear);
  }

  /**
   * What a reconfiguration serves: its own fetched catalog; or, when its refresh failed, the rebuild
   * of the old entries under the new configuration if that keeps stale data and there was some to
   * keep; or nothing.
   */
  lemma {:induction false} ReconfigurationServes(steps: seq<Step>)
    requires Run(steps).Some? && Enabled(Run(steps).value, Install)
    ensures var s := Run(steps).value;
            var t := Take(s, Install);
            var m := t.mgrs[s.op.incoming];
            && t.served == Some(s.op.incoming) && m.cfg == s.mgrs[s.op.incoming].cfg
            && (s.op.refreshed ==> m == s.mgrs[s.op.incoming])
            && (!s.op.refreshed ==>
                  if m.cfg.staleWhileUnavailable && s.served.Some? && s.served.value < |s.mgrs| && s.mgrs[s.served.value].models != []
                  then m.models == Build(m.cfg, s.mgrs[s.served.value].raw, []).models && m.raw == s.mgrs[s.served.value].raw
                  else m.models == [] && m.index == map[])
  {
    RunInv(steps);
  }

  /** What a key resolves to in a manager's snapshot. */
  function Resolve(m: Mgr, key: string): Option<Record> {
    if key in m.index then Some(m.index[key]) else None
  }

  /**
   * In every reachable state, a tick that ends changes no manager but its loop's. There, a fetched
   * catalog replaces the snapshot by its rebuild; without a credential, or on failure under the stale
   * policy, everything stays; and a failure without that policy leaves nothing listed, retained or
   * resolvable, also when some of the answer could have been decoded.
   */
  lemma {:induction false} TickRefreshesOnlyItsManager(steps: seq<Step>, l: nat, outcome: Outcome, i: nat, key: string)
    requires Run(steps).Some? && Enabled(Run(steps).value, TickEnds(l, outcome)) && i < |Run(steps).value.mgrs|
    ensures var s, t := Run(steps).value, Take(Run(steps).value, TickEnds(l, outcome));
            var m, m' := s.mgrs[i], t.mgrs[i];
            && (i != s.loops[l].mgr || outcome.NoCredential? || (outcome.Failed? && m.cfg.staleWhileUnavailable) ==> m' == m)
            && (i == s.loops[l].mgr && outcome.Failed? && !m.cfg.staleWhileUnavailable ==>
                  m'.raw == [] && m'.models == [] && Resolve(m', key).None? && m'.cfg == m.cfg)
            && (i == s.loops[l].mgr && outcome.Fetched? ==>
                  m'.raw == outcome.entries && m'.cfg == m.cfg
                  && m'.models == Build(m.cfg, outcome.entries, outcome.extra).models
                  && (Resolve(m', key).Some? <==> Listed(m'.models, key)))
  {
    RunInv(steps);
    var m := Run(steps).value.mgrs[i];
    if outcome.Fetched? {
      LookupIffListed(m.cfg, outcome.entries, outcome.extra, key);
    }
  }
}
