/** What a successful pause or gateway-disable promises, and exactly when it keeps the promise. */
module GatewayStops {
  import opened Options
  import opened Gateway
  import opened GatewaySafety
  import opened GatewayLimits

  predicate Stops(command: Command) {
    command == Pause || command == Disable
  }

  /** The stop succeeded while its marker was there, and the marker has not been removed
      since. */
  predicate Promises(s: State, r: Process) {
    Stops(r.command) && r.ended == Some(MarkerOf(s, r.command).removals)
  }

  /** The promise of every successful stop: from then until its marker is next removed, no
      supervisor runs, nor, when a supervisor takes its child with it, any gateway. */
  predicate PromisesKept(setting: Setting, s: State) {
    forall p :: p in s.processes && Promises(s, s.processes[p]) ==> NoneRunning(setting, s)
  }

  // ---- With steady markers -----------------------------------------------------------------

  /** A stop under way still stands under the marker it saw, and ended under it. */
  predicate SteadyProcess(s: State, r: Process) {
    && (UnderWay(r) ==> r.epoch == MarkerOf(s, r.command).removals)
    && (r.ended.Some? ==> Stops(r.command) && r.pc == Done(0) && r.ended.value == r.epoch)
  }

  predicate Steady(s: State) {
    forall p :: p in s.processes ==> SteadyProcess(s, s.processes[p])
  }

  /** Only the end of a stop is remembered, and what is done stays. */
  lemma OnlyEnds(setting: Setting, s: State, r: Process, luck: bool, pick: Moment)
    ensures var next := Next(setting, s, r, luck, pick).next;
      && (next.ended == r.ended || (r.pc.Stopped? && Stops(r.command) && next == Ends(s, r).next))
      && (r.pc.Done? ==> next == r)
  {
  }

  lemma MoverSteady(setting: Setting, s: State, p: Pid, turn: Turn, t: State)
    requires p in s.processes && t == Take(setting, s, p, turn) && SteadyProcess(s, s.processes[p])
    requires Marks(s, s.processes[p], turn) && turn.next.command == s.processes[p].command
    requires turn.next.ended == s.processes[p].ended
      || (s.processes[p].pc.Stopped? && Stops(s.processes[p].command) && turn.next == Ends(s, s.processes[p]).next)
    requires s.processes[p].pc.Done? ==> turn.next == s.processes[p]
    requires setting.steadyMarkers && !Deferred(setting, s, turn.effect)
    ensures SteadyProcess(t, turn.next)
  {
    var r := s.processes[p];
    TakeFrame(setting, s, p, turn, t);
    if UnderWay(turn.next) {
      assert Marked(turn.next);
      if UnderWay(r) {
        assert StopsUnder(r, r.command == Pause);
        SameRemovals(setting, s, p, turn, t, r);
      }
    }
  }

  /** A step that is not deferred leaves the markers of stops under way. */
  lemma SameRemovals(setting: Setting, s: State, p: Pid, turn: Turn, t: State, r: Process)
    requires p in s.processes && t == Take(setting, s, p, turn) && UnderWay(r)
    requires turn.effect != RemoveMarker(r.command == Pause)
    ensures MarkerOf(t, r.command).removals == MarkerOf(s, r.command).removals
  {
  }

  lemma BystanderSteady(setting: Setting, s: State, p: Pid, turn: Turn, t: State, q: Pid)
    requires p in s.processes && t == Take(setting, s, p, turn) && q in s.processes && p != q
    requires SteadyProcess(s, s.processes[q]) && setting.steadyMarkers && !Deferred(setting, s, turn.effect)
    ensures q in t.processes && SteadyProcess(t, t.processes[q])
  {
    var r := s.processes[q];
    TakeFrame(setting, s, p, turn, t);
    if UnderWay(r) {
      assert StopsUnder(r, r.command == Pause);
      SameRemovals(setting, s, p, turn, t, r);
    }
  }

  lemma MoveSteady(setting: Setting, s: State, p: Pid, luck: bool, pick: Moment, t: State)
    requires setting.steadyMarkers && Safe(setting, s) && Steady(s) && p in s.processes
    requires t == Step(setting, s, Move(p, luck, pick))
    ensures Steady(t)
  {
    var r := s.processes[p];
    var turn := Next(setting, s, r, luck, pick);
    if !Deferred(setting, s, turn.effect) {
      EveryTurnLawful(setting, s, r, luck, pick);
      OnlyEnds(setting, s, r, luck, pick);
      MoverSteady(setting, s, p, turn, t);
      TakeFrame(setting, s, p, turn, t);
      forall q | q in t.processes && q != p ensures SteadyProcess(t, t.processes[q]) {
        BystanderSteady(setting, s, p, turn, t, q);
      }
    }
  }

  lemma OtherSteady(setting: Setting, s: State, e: Event, t: State)
    requires setting.steadyMarkers && Steady(s) && t == Step(setting, s, e) && !e.MarkerChanges?
    requires e.Move? ==> e.pid !in s.processes
    ensures Steady(t)
  {
  }

  lemma MarkersSteady(setting: Setting, s: State, quiesce: bool, touch: bool, t: State)
    requires setting.steadyMarkers && Steady(s) && t == Step(setting, s, MarkerChanges(quiesce, touch))
    ensures Steady(t)
  {
    forall q | q in t.processes ensures SteadyProcess(t, t.processes[q]) {
      var r := s.processes[q];
      if UnderWay(r) {
        assert StopsUnder(r, r.command == Pause);
      }
    }
  }

  lemma {:induction false} RunSteady(setting: Setting, s: State, events: seq<Event>)
    requires setting.steadyMarkers && Safe(setting, s) && Steady(s)
    ensures Steady(RunFrom(setting, s, events))
    decreases |events|
  {
    if events != [] {
      var e, t := events[0], Step(setting, s, events[0]);
      StepSafe(setting, s, e);
      if e.Move? && e.pid in s.processes {
        MoveSteady(setting, s, e.pid, e.luck, e.pick, t);
      } else if e.MarkerChanges? {
        MarkersSteady(setting, s, e.quiesce, e.touch, t);
      } else {
        OtherSteady(setting, s, e, t);
      }
      RunSteady(setting, t, events[1..]);
    }
  }

  /** With steady markers every promise is kept. */
  lemma SteadyKeepsPromises(setting: Setting, s: State)
    requires setting.steadyMarkers && Reachable(setting, s)
    ensures PromisesKept(setting, s)
  {
    ReachableSafe(setting, s);
    var events :| Run(setting, events) == s;
    RunSteady(setting, INITIAL, events);
    forall p | p in s.processes && Promises(s, s.processes[p]) ensures NoneRunning(setting, s) {
      assert SteadyProcess(s, s.processes[p]);
      assert InForce(s, s.processes[p]);
    }
  }

  // ---- A marker removed and set again while its pause is under way -------------------------

  lemma PauseMarks(setting: Setting, base: State)
    requires base == Joined(INITIAL, 1, Pause).(quiesced := Marker(true, 0))
    ensures Reachable(setting, At(base, 1, StopLock))
  {
    StartReached(setting);
    var joined := Joined(INITIAL, 1, Pause);
    Reach(setting, INITIAL, Launch(1, Pause), joined);
    assert At(joined, 1, Begin) == joined;
    Goes(setting, joined, 1, Begin, true, 0, CheckMarker, TouchMarker(true));
    assert At(joined, 1, CheckMarker).(quiesced := Marker(true, 0)) == At(base, 1, CheckMarker);
    Goes(setting, base, 1, CheckMarker, true, 0, StopLock, Nothing);
  }

  /** A stop that finds nothing running succeeds. */
  lemma StopsNothing(setting: Setting, s: State, p: Pid)
    requires p in s.processes && Reachable(setting, At(s, p, StopLock))
    requires s.gatewayLock.None? && s.supervisors == {} && s.gateways == map[]
    ensures Reachable(setting, At(s, p, Stopped(true)))
  {
    var locked := s.(gatewayLock := Some(p));
    Goes(setting, s, p, StopLock, true, 0, StopScan, LockGateway);
    assert At(locked, p, StopScan) == At(s, p, StopScan).(gatewayLock := Some(p));
    KillsNothing(setting, locked, p);
    FindsNothing(setting, locked, p);
    Unlocks(setting, s, p, locked);
  }

  lemma KillsNothing(setting: Setting, s: State, p: Pid)
    requires p in s.processes && Reachable(setting, At(s, p, StopScan)) && s.supervisors == {} && s.gateways == map[]
    ensures Reachable(setting, At(s, p, CheckGateways))
  {
    assert s.gateways.Keys == {};
    Goes(setting, s, p, StopScan, true, 0, Killing({}, {}), Nothing);
    Goes(setting, s, p, Killing({}, {}), true, 0, CheckGateways, Nothing);
  }

  lemma FindsNothing(setting: Setting, s: State, p: Pid)
    requires p in s.processes && Reachable(setting, At(s, p, CheckGateways)) && s.supervisors == {}
    requires s.gateways == map[]
    ensures Reachable(setting, At(s, p, StopRelease(true)))
  {
    Goes(setting, s, p, CheckGateways, true, 0, CheckCaptures, Nothing);
    Goes(setting, s, p, CheckCaptures, true, 0, StopRelease(true), Nothing);
  }

  lemma Unlocks(setting: Setting, s: State, p: Pid, locked: State)
    requires p in s.processes && locked == s.(gatewayLock := Some(p)) && s.gatewayLock.None?
    requires Reachable(setting, At(locked, p, StopRelease(true)))
    ensures Reachable(setting, At(s, p, Stopped(true)))
  {
    Goes(setting, locked, p, StopRelease(true), true, 0, Stopped(true), UnlockGateway);
    assert At(locked, p, Stopped(true)).(gatewayLock := None) == At(s, p, Stopped(true));
  }

  /** hb up comes to start the gateway, and removes the quiesce marker on its way. */
  lemma UpRemoves(setting: Setting, s: State, p: Pid, base: State, resumed: State)
    requires !setting.steadyMarkers && Reachable(setting, s) && p !in s.processes && base == Joined(s, p, Up)
    requires resumed == base.(quiesced := s.quiesced.Removed())
    ensures Reachable(setting, At(resumed, p, StartCheckQuiesced))
  {
    Reach(setting, s, Launch(p, Up), base);
    assert At(base, p, RemoveQuiesced) == base;
    Goes(setting, base, p, RemoveQuiesced, true, 0, Prepare, RemoveMarker(true));
    assert At(base, p, Prepare).(quiesced := s.quiesced.Removed()) == At(resumed, p, Prepare);
    Goes(setting, resumed, p, Prepare, true, 0, StartCheckQuiesced, Nothing);
  }

  /** It finds nothing running and starts a supervisor. */
  lemma UpStarts(setting: Setting, s: State, p: Pid, locked: State)
    requires MayStart(s, p) && Reachable(setting, At(s, p, StartCheckQuiesced)) && locked == s.(gatewayLock := Some(p))
    requires s.supervisors == {} && s.gateways == map[]
    ensures Reachable(setting, At(locked, p, Await(s.clock, false)).(supervisors := {s.clock}, clock := s.clock + 1))
  {
    ComesToScan(setting, s, p, locked);
    Goes(setting, locked, p, ScanGateways, true, 0, ScanCaptures, Nothing);
    Spawned(setting, locked, p);
  }

  /** Another pause sets the marker again. */
  lemma PauseTouches(setting: Setting, s: State, p: Pid, base: State)
    requires Reachable(setting, s) && p !in s.processes && base == Joined(s, p, Pause)
    ensures Reachable(setting, At(base, p, CheckMarker).(quiesced := s.quiesced.Touched()))
  {
    Reach(setting, s, Launch(p, Pause), base);
    assert At(base, p, Begin) == base;
    Goes(setting, base, p, Begin, true, 0, CheckMarker, TouchMarker(true));
  }

  /** A stop that found nothing running ends well under a marker that was set again. */
  lemma PauseEnds(setting: Setting, s: State, p: Pid, t: State)
    requires Reachable(setting, s) && p in s.processes && s.processes[p].command == Pause
    requires s.processes[p].pc == Stopped(true) && s.quiesced.present
    requires t == s.(processes := s.processes[p := s.processes[p].(pc := Done(0), ended := Some(s.quiesced.removals))])
    ensures Reachable(setting, t)
  {
    Reach(setting, s, Move(p, true, 0), t);
  }

  /** The run, with hb's own commands only: a pause sees its marker; up removes it; the pause
      finds nothing running; up starts a supervisor; another pause sets the marker; the first
      one succeeds. */
  lemma PauseOvertaken(setting: Setting) returns (s: State)
    requires !setting.steadyMarkers
    ensures Reachable(setting, s) && !PromisesKept(setting, s)
  {
    var base := Joined(INITIAL, 1, Pause).(quiesced := Marker(true, 0));
    PauseMarks(setting, base);
    var waiting := At(base, 1, StopLock);
    var joined := Joined(waiting, 2, Up);
    var resumed := joined.(quiesced := Marker(false, 1));
    UpRemoves(setting, waiting, 2, joined, resumed);
    var up := At(resumed, 2, StartCheckQuiesced);
    s := OvertakenAt(setting, up);
  }

  lemma OvertakenAt(setting: Setting, up: State) returns (s: State)
    requires Reachable(setting, up) && up.processes.Keys == {1, 2} && up.quiesced == Marker(false, 1)
    requires up.processes[1].command == Pause && up.processes[1].pc == StopLock
    requires up.processes[2].pc == StartCheckQuiesced && !up.disabled.present && up.gatewayLock.None?
    requires up.supervisors == {} && up.gateways == map[]
    ensures Reachable(setting, s) && !PromisesKept(setting, s)
  {
    assert At(up, 1, StopLock) == up;
    StopsNothing(setting, up, 1);
    var stopped := At(up, 1, Stopped(true));
    assert At(stopped, 2, StartCheckQuiesced) == stopped;
    UpStarts(setting, stopped, 2, stopped.(gatewayLock := Some(2)));
    var waits := At(stopped.(gatewayLock := Some(2)), 2, Await(up.clock, false));
    var running := waits.(supervisors := {up.clock}, clock := up.clock + 1);
    PauseTouches(setting, running, 3, Joined(running, 3, Pause));
    var paused := At(Joined(running, 3, Pause), 3, CheckMarker).(quiesced := Marker(true, 1));
    s := paused.(processes := paused.processes[1 := paused.processes[1].(pc := Done(0), ended := Some(1))]);
    PauseEnds(setting, paused, 1, s);
    assert Promises(s, s.processes[1]) && up.clock in s.supervisors;
  }

  /** Every successful stop keeps its promise, in every run, exactly when no marker is removed
      while a stop that has seen it is under way. */
  lemma PromisesKeptExactly(setting: Setting)
    ensures (forall s :: Reachable(setting, s) ==> PromisesKept(setting, s)) <==> setting.steadyMarkers
  {
    if setting.steadyMarkers {
      forall s | Reachable(setting, s) ensures PromisesKept(setting, s) {
        SteadyKeepsPromises(setting, s);
      }
    } else {
      var s := PauseOvertaken(setting);
    }
  }
}
