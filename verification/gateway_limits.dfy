/** Runs that show the assumptions of the safety results are needed: each result holds
    exactly when its assumption does. */
module GatewayLimits {
  import opened Options
  import opened Gateway
  import opened GatewaySafety

  // ---- Building runs -----------------------------------------------------------------

  lemma {:induction false} RunThen(setting: Setting, s: State, events: seq<Event>, e: Event)
    ensures RunFrom(setting, s, events + [e]) == Step(setting, RunFrom(setting, s, events), e)
    decreases |events|
  {
    if events == [] {
      assert events + [e] == [e];
      assert [e][1..] == [];
    } else {
      assert (events + [e])[0] == events[0] && (events + [e])[1..] == events[1..] + [e];
      RunThen(setting, Step(setting, s, events[0]), events[1..], e);
    }
  }

  lemma Reach(setting: Setting, s: State, e: Event, t: State)
    requires Reachable(setting, s) && t == Step(setting, s, e)
    ensures Reachable(setting, t)
  {
    var events :| Run(setting, events) == s;
    RunThen(setting, INITIAL, events, e);
    assert Run(setting, events + [e]) == t;
  }

  lemma StartReached(setting: Setting)
    ensures Reachable(setting, INITIAL)
  {
    assert Run(setting, []) == INITIAL;
  }

  /** The state with a process at another place. */
  function At(s: State, p: Pid, pc: Pc): State
    requires p in s.processes
  {
    s.(processes := s.processes[p := s.processes[p].(pc := pc)])
  }

  /** A process's step, with all that it changes. */
  lemma ReachTake(setting: Setting, s: State, p: Pid, luck: bool, pick: Moment, turn: Turn)
    requires Reachable(setting, s) && p in s.processes && turn == Next(setting, s, s.processes[p], luck, pick)
    requires !Deferred(setting, s, turn.effect)
    ensures Reachable(setting, Take(setting, s, p, turn))
  {
    Reach(setting, s, Move(p, luck, pick), Take(setting, s, p, turn));
  }

  /** A process's step from one place to another, given by its effect. */
  lemma Goes(setting: Setting, s: State, p: Pid, from: Pc, luck: bool, pick: Moment, to: Pc, effect: Effect)
    requires p in s.processes && Reachable(setting, At(s, p, from))
    requires Next(setting, At(s, p, from), s.processes[p].(pc := from), luck, pick) ==
      Doing(s.processes[p].(pc := from), effect, to)
    requires effect.RemoveMarker? ==> !Deferred(setting, At(s, p, from), effect)
    ensures Reachable(setting, Apply(setting, At(s, p, to), p, effect))
  {
    var here := At(s, p, from);
    var turn := Doing(here.processes[p], effect, to);
    ReachTake(setting, here, p, luck, pick, turn);
    TakenAt(setting, s, p, from, turn);
  }

  lemma TakenAt(setting: Setting, s: State, p: Pid, from: Pc, turn: Turn)
    requires p in s.processes && turn.next == s.processes[p].(pc := turn.next.pc)
    ensures Take(setting, At(s, p, from), p, turn) == Apply(setting, At(s, p, turn.next.pc), p, turn.effect)
  {
    assert At(s, p, from).processes[p := turn.next] == At(s, p, turn.next.pc).processes;
    ApplyElsewhere(setting, At(s, p, from), At(s, p, turn.next.pc), p, turn.effect);
  }

  /** An effect leaves the processes alone and does not depend on them. */
  lemma ApplyElsewhere(setting: Setting, s: State, t: State, p: Pid, effect: Effect)
    requires t == s.(processes := t.processes)
    ensures Apply(setting, s, p, effect).(processes := t.processes) == Apply(setting, t, p, effect)
  {
  }

  predicate MayStart(s: State, p: Pid) {
    p in s.processes && !s.quiesced.present && !s.disabled.present && s.gatewayLock.None?
  }

  /** An undisturbed starter passes its first look at the markers. */
  lemma PassesMarkers(setting: Setting, s: State, p: Pid)
    requires MayStart(s, p) && Reachable(setting, At(s, p, StartCheckQuiesced))
    ensures Reachable(setting, At(s, p, StartLock))
  {
    Goes(setting, s, p, StartCheckQuiesced, true, 0, StartCheckDisabled, Nothing);
    Goes(setting, s, p, StartCheckDisabled, true, 0, StartLock, Nothing);
  }

  /** It gets the lock. */
  lemma ComesToLock(setting: Setting, s: State, p: Pid)
    requires MayStart(s, p) && Reachable(setting, At(s, p, StartCheckQuiesced))
    ensures Reachable(setting, At(s, p, RecheckQuiesced).(gatewayLock := Some(p)))
  {
    PassesMarkers(setting, s, p);
    Goes(setting, s, p, StartLock, true, 0, RecheckQuiesced, LockGateway);
  }

  /** It passes its second look, under the lock. */
  lemma Rechecks(setting: Setting, s: State, p: Pid)
    requires p in s.processes && !s.quiesced.present && !s.disabled.present
    requires Reachable(setting, At(s, p, RecheckQuiesced))
    ensures Reachable(setting, At(s, p, ScanGateways))
  {
    Goes(setting, s, p, RecheckQuiesced, true, 0, RecheckDisabled, Nothing);
    Goes(setting, s, p, RecheckDisabled, true, 0, ScanGateways, Nothing);
  }

  /** With the lock it gets to look at the running gateways. */
  lemma ComesToScan(setting: Setting, s: State, p: Pid, locked: State)
    requires MayStart(s, p) && Reachable(setting, At(s, p, StartCheckQuiesced)) && locked == s.(gatewayLock := Some(p))
    ensures Reachable(setting, At(locked, p, ScanGateways))
  {
    ComesToLock(setting, s, p);
    Rechecks(setting, locked, p);
  }

  lemma SeesNoSupervisor(setting: Setting, s: State, p: Pid)
    requires p in s.processes && Reachable(setting, At(s, p, ScanCaptures)) && s.supervisors == {}
    ensures Reachable(setting, At(s, p, SpawnCapture))
  {
    Goes(setting, s, p, ScanCaptures, true, 0, SpawnCapture, Nothing);
  }

  /** A starter that has seen no gateway, and sees no supervisor, starts one. */
  lemma Spawned(setting: Setting, s: State, p: Pid)
    requires p in s.processes && Reachable(setting, At(s, p, ScanCaptures)) && s.supervisors == {}
    ensures Reachable(setting, At(s, p, Await(s.clock, false)).(supervisors := {s.clock}, clock := s.clock + 1))
  {
    SeesNoSupervisor(setting, s, p);
    Goes(setting, s, p, SpawnCapture, true, 0, Await(s.clock, false), StartCapture);
  }

  /** A starter leaves its supervisor to come up. */
  lemma Leaves(setting: Setting, s: State, p: Pid, c: Moment)
    requires p in s.processes && Reachable(setting, At(s, p, Await(c, false))) && c in s.supervisors
    requires |s.gateways| == 0
    ensures Reachable(setting, At(s, p, StartRelease(0)))
  {
    Goes(setting, s, p, Await(c, false), true, 0, AwaitAlive(c, false), Nothing);
    LeavesAlive(setting, s, p, c);
  }

  lemma LeavesAlive(setting: Setting, s: State, p: Pid, c: Moment)
    requires p in s.processes && Reachable(setting, At(s, p, AwaitAlive(c, false))) && c in s.supervisors
    ensures Reachable(setting, At(s, p, StartRelease(0)))
  {
    Goes(setting, s, p, AwaitAlive(c, false), false, 0, StartRelease(0), Nothing);
  }

  /** The reconciler returns. */
  lemma Returns(setting: Setting, s: State, p: Pid, unlocked: State)
    requires p in s.processes && s.processes[p].command == Reconcile && unlocked == s.(gatewayLock := None)
    requires Reachable(setting, At(s, p, StartRelease(0)))
    ensures Reachable(setting, At(unlocked, p, Done(0)))
  {
    Goes(setting, s, p, StartRelease(0), true, 0, Started(0), UnlockGateway);
    Goes(setting, unlocked, p, Started(0), true, 0, Done(0), Nothing);
  }

  /** A state with one more reconciler. */
  function With(s: State, p: Pid, pc: Pc): State {
    s.(processes := s.processes[p := Process(Reconcile, pc, 0, {}, 0, None)])
  }

  predicate Idle(s: State) {
    !s.quiesced.present && !s.disabled.present && s.gatewayLock.None? && s.gateways == map[]
  }

  lemma ReconcilerStarts(setting: Setting, s: State, p: Pid, base: State)
    requires Reachable(setting, s) && p !in s.processes && Idle(s) && base == With(s, p, Begin)
    ensures Reachable(setting, At(base, p, StartCheckQuiesced))
  {
    Reach(setting, s, Launch(p, Reconcile), base);
    assert At(base, p, Begin) == base;
    Goes(setting, base, p, Begin, true, 0, Prepare, Nothing);
    Goes(setting, base, p, Prepare, true, 0, StartCheckQuiesced, Nothing);
  }

  /** A new reconciler sees no gateway, with the lock in its hands. */
  lemma SeesNoGateway(setting: Setting, s: State, p: Pid)
    requires Reachable(setting, s) && p !in s.processes && Idle(s)
    ensures Reachable(setting, With(s, p, ScanCaptures).(gatewayLock := Some(p)))
  {
    var base := With(s, p, Begin);
    var locked := base.(gatewayLock := Some(p));
    ReconcilerStarts(setting, s, p, base);
    ComesToScan(setting, base, p, locked);
    Goes(setting, locked, p, ScanGateways, true, 0, ScanCaptures, Nothing);
    assert At(locked, p, ScanCaptures) == With(s, p, ScanCaptures).(gatewayLock := Some(p));
  }

  /** An undisturbed reconciler that finds nothing running starts a supervisor. */
  lemma StartsSupervisor(setting: Setting, s: State, p: Pid)
    requires Reachable(setting, s) && p !in s.processes && Idle(s) && s.supervisors == {}
    ensures Reachable(setting, With(s, p, Done(0)).(supervisors := {s.clock}, clock := s.clock + 1))
  {
    SeesNoGateway(setting, s, p);
    var locked := With(s, p, ScanCaptures).(gatewayLock := Some(p));
    assert At(locked, p, ScanCaptures) == locked;
    Spawned(setting, locked, p);
    var started := locked.(supervisors := {s.clock}, clock := s.clock + 1);
    assert At(started, p, Await(s.clock, false))
      == At(locked, p, Await(s.clock, false)).(supervisors := {s.clock}, clock := s.clock + 1);
    Leaves(setting, started, p, s.clock);
    Returns(setting, started, p, started.(gatewayLock := None));
    assert At(started.(gatewayLock := None), p, Done(0))
      == With(s, p, Done(0)).(supervisors := {s.clock}, clock := s.clock + 1);
  }

  // ---- A supervisor that leaves its child behind ----------------------------------------

  /** Between the two scans of a starter the only supervisor starts its child and dies. */
  lemma TwoGatewaysReached(setting: Setting) returns (s: State)
    requires !setting.parentDeath
    ensures Reachable(setting, s) && |s.gateways| == 2
  {
    StartReached(setting);
    StartsSupervisor(setting, INITIAL, 1);
    var one := With(INITIAL, 1, Done(0)).(supervisors := {0}, clock := 1);
    SeesNoGateway(setting, one, 2);
    var seen := With(one, 2, ScanCaptures).(gatewayLock := Some(2));
    s := TwoChildren(setting, seen);
  }

  lemma TwoChildren(setting: Setting, seen: State) returns (s: State)
    requires !setting.parentDeath && Reachable(setting, seen)
    requires 2 in seen.processes && seen.processes[2].pc == ScanCaptures
    requires seen.supervisors == {0} && seen.gateways == map[] && seen.clock == 1
    ensures Reachable(setting, s) && |s.gateways| == 2
  {
    var child := seen.(gateways := map[1 := Daemon(0, seen.config)], clock := 2);
    Reach(setting, seen, ChildStarts(0), child);
    var orphan := child.(supervisors := {});
    Reach(setting, child, SupervisorExits(0), orphan);
    assert At(orphan, 2, ScanCaptures) == orphan;
    Spawned(setting, orphan, 2);
    var again := At(orphan, 2, Await(2, false)).(supervisors := {2}, clock := 3);
    s := again.(gateways := orphan.gateways[3 := Daemon(2, seen.config)], clock := 4);
    Reach(setting, again, ChildStarts(2), s);
    assert s.gateways.Keys == {1, 3};
    assert |s.gateways| == |s.gateways.Keys|;
  }

  /** There is never more than one gateway exactly when a supervisor's death takes its child
      with it. */
  lemma OneGatewayExactly(setting: Setting)
    ensures (forall s :: Reachable(setting, s) ==> |s.gateways| <= 1) <==> setting.parentDeath
  {
    if setting.parentDeath {
      forall s | Reachable(setting, s) ensures |s.gateways| <= 1 {
        OneGateway(setting, s);
      }
    } else {
      var s := TwoGatewaysReached(setting);
    }
  }

  // ---- A registration that dies before it asks for a reload ------------------------------

  /** The state with one more process. */
  function Joined(s: State, p: Pid, command: Command): State {
    s.(processes := s.processes[p := Process(command, Entry(command), 0, {}, 0, None)])
  }

  predicate NoneUnderWay(s: State) {
    forall q :: q in s.processes ==> !UnderWay(s.processes[q])
  }

  lemma WireStarts(setting: Setting, s: State, p: Pid, base: State)
    requires Reachable(setting, s) && p !in s.processes && base == Joined(s, p, Wire) && !s.quiesced.present
    requires NoneUnderWay(s)
    ensures Reachable(setting, At(base, p, StartCheckQuiesced))
  {
    Reach(setting, s, Launch(p, Wire), base);
    assert At(base, p, Begin) == base;
    Goes(setting, base, p, Begin, true, 0, RemoveQuiesced, Nothing);
    Goes(setting, base, p, RemoveQuiesced, true, 0, Prepare, RemoveMarker(true));
    Goes(setting, base, p, Prepare, true, 0, StartCheckQuiesced, Nothing);
  }

  /** With one gateway running, the start inside a registration changes nothing. */
  lemma FindsGateway(setting: Setting, s: State, p: Pid)
    requires MayStart(s, p) && Reachable(setting, At(s, p, StartCheckQuiesced)) && |s.gateways| == 1
    requires s.processes[p].command == Wire
    ensures Reachable(setting, At(s, p, WireLock))
  {
    var locked := s.(gatewayLock := Some(p));
    ComesToScan(setting, s, p, locked);
    Goes(setting, locked, p, ScanGateways, true, 0, StartRelease(0), Nothing);
    ReleasesAndRegisters(setting, s, p, locked);
  }

  lemma ReleasesAndRegisters(setting: Setting, s: State, p: Pid, locked: State)
    requires p in s.processes && s.processes[p].command == Wire && s.gatewayLock.None?
    requires locked == s.(gatewayLock := Some(p))
    requires Reachable(setting, At(locked, p, StartRelease(0)))
    ensures Reachable(setting, At(s, p, WireLock))
  {
    Goes(setting, locked, p, StartRelease(0), true, 0, Started(0), UnlockGateway);
    assert At(locked, p, Started(0)).(gatewayLock := None) == At(s, p, Started(0));
    Goes(setting, s, p, Started(0), true, 0, WireLock, Nothing);
  }

  lemma ComesToChange(setting: Setting, s: State, p: Pid, locked: State)
    requires p in s.processes && s.reloadLock.None?
    requires Reachable(setting, At(s, p, WireLock)) && locked == s.(reloadLock := Some(p))
    ensures Reachable(setting, At(locked, p, WireChange))
  {
    Goes(setting, s, p, WireLock, true, 0, WireChange, LockReload);
    assert At(locked, p, WireChange) == At(s, p, WireChange).(reloadLock := Some(p));
  }

  /** A registration changes the config. */
  lemma Changes(setting: Setting, s: State, p: Pid, locked: State)
    requires p in s.processes && s.processes[p].command == Wire && s.reloadLock.None?
    requires Reachable(setting, At(s, p, WireLock)) && locked == s.(reloadLock := Some(p))
    ensures Reachable(setting, At(locked, p, WireChange).(config := s.config + 1))
  {
    ComesToChange(setting, s, p, locked);
    Goes(setting, locked, p, WireChange, true, 0, WireChange, ChangeConfig);
  }

  /** And dies. */
  lemma ChangesAndDies(setting: Setting, s: State, p: Pid, t: State)
    requires !setting.wireSafe && p in s.processes && s.processes[p].command == Wire && s.reloadLock.None?
    requires s.gatewayLock.None?
    requires Reachable(setting, At(s, p, WireLock))
    requires t == s.(processes := s.processes - {p}, config := s.config + 1)
    ensures Reachable(setting, t)
  {
    var changed := At(s.(reloadLock := Some(p)), p, WireChange).(config := s.config + 1);
    Changes(setting, s, p, s.(reloadLock := Some(p)));
    assert Death(changed, p) == t;
    Reach(setting, changed, Die(p), t);
  }

  lemma ForgottenReached(setting: Setting) returns (s: State)
    requires !setting.wireSafe
    ensures Reachable(setting, s) && !NoneForgotten(s)
  {
    StartReached(setting);
    StartsSupervisor(setting, INITIAL, 1);
    var one := With(INITIAL, 1, Done(0)).(supervisors := {0}, clock := 1);
    var child := one.(gateways := map[1 := Daemon(0, 0)], clock := 2);
    Reach(setting, one, ChildStarts(0), child);
    var base := Joined(child, 2, Wire);
    WireStarts(setting, child, 2, base);
    FindsGateway(setting, base, 2);
    s := base.(processes := base.processes - {2}, config := 1);
    ChangesAndDies(setting, base, 2, s);
    assert s.gateways[1].config != s.config && !Asked(s, 1) && !Registering(s);
  }

  /** No gateway with an older config is ever forgotten exactly when no registration fails or
      dies between its first change and the end. */
  lemma NoneForgottenExactly(setting: Setting)
    requires setting.parentDeath
    ensures (forall s :: Reachable(setting, s) ==> NoneForgotten(s)) <==> setting.wireSafe
  {
    if setting.wireSafe {
      forall s | Reachable(setting, s) ensures NoneForgotten(s) {
        ReachableSafe(setting, s);
      }
    } else {
      var s := ForgottenReached(setting);
    }
  }
}
