/** What each hb command does when nothing comes in between, and what its success means
    whatever comes in between. */
module GatewayRuns {
  import opened Options
  import opened Gateway
  import opened GatewaySafety
  import opened GatewayLimits
  import opened GatewayStops

  // ---- What success means in every run -----------------------------------------------------

  /** A starting command that has not yet been shown what it is after; a reload counts from its
      stop of the gateway it found. */
  predicate Unshown(r: Process) {
    && !Stops(r.command) && !InWire(r.pc)
    && (InReload(r.pc) ==> r.pc.ReloadProbe? || r.pc == ReloadRelease(1))
    && r.pc != Started(0) && r.pc != StartRelease(0) && r.pc != Done(0)
  }

  /** The process looks, and sees a marker, a gateway or a supervisor. */
  predicate Sees(s: State, r: Process) {
    && (r.pc.Begin? || r.pc.StartCheckQuiesced? || r.pc.StartCheckDisabled? || r.pc.RecheckQuiesced?
      || r.pc.RecheckDisabled? || r.pc.ScanGateways? || r.pc.Await? || r.pc.AwaitAlive? || r.pc.ReloadProbe?)
    && (s.quiesced.present || s.disabled.present || |s.gateways| > 0 || |s.supervisors| > 0)
  }

  lemma OnlySeeing(setting: Setting, s: State, r: Process, luck: bool, pick: Moment, next: Process)
    requires Fits(r) && Unshown(r) && next == Next(setting, s, r, luck, pick).next
    ensures Unshown(next) || Sees(s, r)
  {
    if r.pc.AwaitAlive? && r.pc.wrapper in s.supervisors {
      assert |s.supervisors| > 0;
    }
  }

  /** The process lives through these events. */
  predicate Lives(setting: Setting, s: State, p: Pid, events: seq<Event>)
    decreases |events|
  {
    p in s.processes && (events != [] ==> Lives(setting, Step(setting, s, events[0]), p, events[1..]))
  }

  lemma OneStep(setting: Setting, s: State, p: Pid, e: Event)
    requires Safe(setting, s) && p in s.processes && p in Step(setting, s, e).processes && Unshown(s.processes[p])
    ensures Unshown(Step(setting, s, e).processes[p]) || Sees(s, s.processes[p])
    ensures Step(setting, s, e).processes[p].command == s.processes[p].command
  {
    if e.Move? && e.pid in s.processes {
      var turn := Next(setting, s, s.processes[e.pid], e.luck, e.pick);
      TakeFrame(setting, s, e.pid, turn, Take(setting, s, e.pid, turn));
      EveryTurnLawful(setting, s, s.processes[e.pid], e.luck, e.pick);
      if e.pid == p {
        OnlySeeing(setting, s, s.processes[p], e.luck, e.pick, turn.next);
      }
    }
  }

  /** Somewhere in between, the process saw what it is after. */
  lemma {:induction false} SeenBetween(setting: Setting, s: State, p: Pid, events: seq<Event>) returns (k: nat)
    requires Safe(setting, s) && Lives(setting, s, p, events) && Unshown(s.processes[p])
    requires p in RunFrom(setting, s, events).processes && !Unshown(RunFrom(setting, s, events).processes[p])
    ensures k < |events|
    ensures var m := RunFrom(setting, s, events[..k]);
      p in m.processes && Unshown(m.processes[p]) && Sees(m, m.processes[p])
    decreases |events|
  {
    var t := Step(setting, s, events[0]);
    OneStep(setting, s, p, events[0]);
    if Unshown(t.processes[p]) {
      StepSafe(setting, s, events[0]);
      var j := SeenBetween(setting, t, p, events[1..]);
      k := j + 1;
      assert events[..k][1..] == events[1..][..j] && events[..k][0] == events[0];
    } else {
      k := 0;
      assert events[..0] == [];
    }
  }

  /** Any command but a stop that has just begun, or a reload that has found a gateway running,
      succeeds only after having seen a marker, a gateway or a supervisor: a start under way is
      never taken for done, whatever the other processes do. */
  lemma SuccessWasSeen(setting: Setting, s: State, p: Pid, events: seq<Event>, t: State) returns (k: nat)
    requires Reachable(setting, s) && Lives(setting, s, p, events) && t == RunFrom(setting, s, events)
    requires !Stops(s.processes[p].command)
    requires s.processes[p].pc == if s.processes[p].command == Reload then StopLock else Entry(s.processes[p].command)
    requires p in t.processes
    requires t.processes[p].pc == Done(0) || t.processes[p].pc.ReloadDelete? || InWire(t.processes[p].pc)
    ensures k < |events|
    ensures var m := RunFrom(setting, s, events[..k]); p in m.processes && Sees(m, m.processes[p])
  {
    ReachableSafe(setting, s);
    k := SeenBetween(setting, s, p, events);
  }

  // ---- A lost race for the lock stops nothing -----------------------------------------------

  /** An enabling that did not get the lock, on its way out. */
  predicate GivesUp(r: Process) {
    r.command == Enable && (r.pc == Started(2) || r.pc.TouchDisabled? || r.pc == Done(1))
  }

  lemma GivingUpMoves(setting: Setting, s: State, r: Process, luck: bool, pick: Moment)
    requires GivesUp(r)
    ensures GivesUp(Next(setting, s, r, luck, pick).next)
  {
  }

  lemma GivingUp(setting: Setting, s: State, p: Pid, e: Event)
    requires p in s.processes && p in Step(setting, s, e).processes && GivesUp(s.processes[p])
    ensures GivesUp(Step(setting, s, e).processes[p])
  {
    if e.Move? && e.pid in s.processes {
      var turn := Next(setting, s, s.processes[e.pid], e.luck, e.pick);
      TakeFrame(setting, s, e.pid, turn, Take(setting, s, e.pid, turn));
      if e.pid == p {
        GivingUpMoves(setting, s, s.processes[p], e.luck, e.pick);
      }
    }
  }

  lemma GivenUp(r: Process)
    requires GivesUp(r)
    ensures !HoldsGateway(r) && !r.pc.StopLock? && r.pc != Done(0)
  {
  }

  lemma {:induction false} KeepsGivingUp(setting: Setting, s: State, p: Pid, events: seq<Event>)
    requires Safe(setting, s) && Lives(setting, s, p, events) && GivesUp(s.processes[p])
    ensures p in RunFrom(setting, s, events).processes && GivesUp(RunFrom(setting, s, events).processes[p])
    decreases |events|
  {
    if events != [] {
      GivingUp(setting, s, p, events[0]);
      StepSafe(setting, s, events[0]);
      KeepsGivingUp(setting, Step(setting, s, events[0]), p, events[1..]);
    }
  }

  lemma LosesRace(setting: Setting, s: State, p: Pid, luck: bool, pick: Moment)
    requires p in s.processes && s.processes[p].command == Enable
    requires s.processes[p].pc == StartLock && s.gatewayLock.Some?
    ensures var t := Step(setting, s, Move(p, luck, pick)); p in t.processes && GivesUp(t.processes[p])
  {
  }

  /** gateway_enable that finds the gateway's lock taken never comes to stop the gateway, and
      never succeeds: another process may just have started it. */
  lemma LostRaceStopsNothing(setting: Setting, s: State, p: Pid, luck: bool, pick: Moment, events: seq<Event>,
      lost: State, t: State)
    requires Reachable(setting, s) && p in s.processes && s.processes[p].command == Enable
    requires s.processes[p].pc == StartLock && s.gatewayLock.Some? && lost == Step(setting, s, Move(p, luck, pick))
    requires Lives(setting, lost, p, events) && t == RunFrom(setting, lost, events)
    ensures p in t.processes && !HoldsGateway(t.processes[p]) && !t.processes[p].pc.StopLock?
    ensures t.processes[p].pc != Done(0)
  {
    ReachableSafe(setting, s);
    StepSafe(setting, s, Move(p, luck, pick));
    LosesRace(setting, s, p, luck, pick);
    KeepsGivingUp(setting, lost, p, events);
    GivenUp(t.processes[p]);
  }

  // ---- Undisturbed starts --------------------------------------------------------------------

  // ---- What the statuses mean ----------------------------------------------------------------

  /** A start says 2 only without having had the lock, only the commands that pass a start's
      status on exit with 2, and a reload retries five times at most. */
  predicate Coded(r: Process) {
    && r.retries <= 5
    && match r.pc
      case ReloadProbe => r.retries < 5
      case StartRelease(status) => status <= 1
      case Started(status) => status <= 2
      case ReloadRelease(status) => status <= 1
      case WireRelease(status) => status <= 1
      case Done(status) => status <= 1 || (status == 2 && r.command in {Up, Resume, Reconcile})
      case _ => true
  }

  /** A step keeps this, and comes to a start's status 2 only from its attempt to get the lock. */
  predicate Codes(r: Process, next: Process) {
    Coded(next) && (next.pc == Started(2) ==> r.pc == Started(2) || r.pc.StartLock?)
  }

  lemma BeginCodes(setting: Setting, s: State, r: Process, luck: bool, pick: Moment, next: Process)
    requires Coded(r) && Fits(r)
    requires r.pc.Begin? || r.pc.CheckMarker?
    requires next == Next(setting, s, r, luck, pick).next
    ensures Codes(r, next)
  {
  }

  lemma RemoveCodes(setting: Setting, s: State, r: Process, luck: bool, pick: Moment, next: Process)
    requires Coded(r) && Fits(r)
    requires r.pc.RemoveQuiesced? || r.pc.RemoveDisabled? || r.pc.Prepare? || r.pc.TouchDisabled?
    requires next == Next(setting, s, r, luck, pick).next
    ensures Codes(r, next)
  {
  }

  lemma StartedCodes(setting: Setting, s: State, r: Process, luck: bool, pick: Moment, next: Process)
    requires Coded(r) && Fits(r)
    requires r.pc.Started?
    requires next == MoveStarted(r, r.pc.status, luck).next
    ensures Codes(r, next)
  {
  }

  lemma StopCodes(setting: Setting, s: State, r: Process, luck: bool, pick: Moment, next: Process)
    requires Coded(r) && Fits(r)
    requires r.pc.StopLock? || Stopping(r.pc)
    requires next == MoveStop(s, r, luck, pick).next
    ensures Codes(r, next)
  {
  }

  lemma StoppedCodes(setting: Setting, s: State, r: Process, luck: bool, pick: Moment, next: Process)
    requires Coded(r) && Fits(r)
    requires r.pc.Stopped?
    requires next == MoveStopped(s, r, r.pc.ok, luck).next
    ensures Codes(r, next)
  {
  }

  lemma WireCodes(setting: Setting, s: State, r: Process, luck: bool, pick: Moment, next: Process)
    requires Coded(r) && Fits(r) && (InWire(r.pc))
    requires next == MoveWire(setting, s, r, luck, pick == 0).next
    ensures Codes(r, next)
  {
  }

  lemma ReloadCodes(setting: Setting, s: State, r: Process, luck: bool, pick: Moment, next: Process)
    requires Coded(r) && Fits(r) && (InReload(r.pc))
    requires next == MoveReload(s, r, luck, pick).next
    ensures Codes(r, next)
  {
  }

  lemma LockCodes(setting: Setting, s: State, r: Process, luck: bool, pick: Moment, next: Process)
    requires Coded(r) && Fits(r)
    requires r.pc.StartCheckQuiesced? || r.pc.StartCheckDisabled? || r.pc.StartLock? || r.pc.Done?
    requires next == MoveStart(s, r, luck, pick).next
    ensures Codes(r, next)
  {
  }

  lemma StartCodes(setting: Setting, s: State, r: Process, luck: bool, pick: Moment, next: Process)
    requires Coded(r) && Fits(r) && (Starting(r.pc))
    requires next == MoveStart(s, r, luck, pick).next
    ensures Codes(r, next)
  {
  }

  lemma NextCoded(setting: Setting, s: State, r: Process, luck: bool, pick: Moment, next: Process)
    requires Fits(r) && Coded(r) && next == Next(setting, s, r, luck, pick).next
    ensures Codes(r, next)
  {
    if r.pc.Begin? || r.pc.CheckMarker? {
      BeginCodes(setting, s, r, luck, pick, next);
    } else if r.pc.RemoveQuiesced? || r.pc.RemoveDisabled? || r.pc.Prepare? || r.pc.TouchDisabled? {
      RemoveCodes(setting, s, r, luck, pick, next);
    } else if r.pc.Started? {
      StartedCodes(setting, s, r, luck, pick, next);
    } else if r.pc.Stopped? {
      StoppedCodes(setting, s, r, luck, pick, next);
    } else if r.pc.StopLock? || Stopping(r.pc) {
      StopCodes(setting, s, r, luck, pick, next);
    } else if InWire(r.pc) {
      WireCodes(setting, s, r, luck, pick, next);
    } else if InReload(r.pc) {
      ReloadCodes(setting, s, r, luck, pick, next);
    } else if Starting(r.pc) {
      StartCodes(setting, s, r, luck, pick, next);
    } else {
      LockCodes(setting, s, r, luck, pick, next);
    }
  }

  predicate AllCoded(s: State) {
    forall p :: p in s.processes ==> Coded(s.processes[p])
  }

  lemma StepCoded(setting: Setting, s: State, e: Event)
    requires Safe(setting, s) && AllCoded(s)
    ensures AllCoded(Step(setting, s, e))
  {
    if e.Move? && e.pid in s.processes {
      var turn := Next(setting, s, s.processes[e.pid], e.luck, e.pick);
      TakeFrame(setting, s, e.pid, turn, Take(setting, s, e.pid, turn));
      NextCoded(setting, s, s.processes[e.pid], e.luck, e.pick, turn.next);
    }
  }

  lemma {:induction false} RunCoded(setting: Setting, s: State, events: seq<Event>)
    requires Safe(setting, s) && AllCoded(s)
    ensures AllCoded(RunFrom(setting, s, events))
    decreases |events|
  {
    if events != [] {
      StepCoded(setting, s, events[0]);
      StepSafe(setting, s, events[0]);
      RunCoded(setting, Step(setting, s, events[0]), events[1..]);
    }
  }

  /** So it is in every run. */
  lemma StatusesMean(setting: Setting, s: State, p: Pid)
    requires Reachable(setting, s) && p in s.processes
    ensures Coded(s.processes[p])
  {
    var events :| Run(setting, events) == s;
    RunCoded(setting, INITIAL, events);
  }

  // ---- A failed restart keeps the requests ---------------------------------------------------

  /** A reload whose start failed, on its way out. */
  predicate Fails(r: Process) {
    r.command == Reload && (r.pc == Started(1) || r.pc == Stopped(false) || r.pc == ReloadRelease(1) || r.pc == Done(1))
  }

  lemma FailingMoves(setting: Setting, s: State, r: Process, luck: bool, pick: Moment)
    requires Fails(r)
    ensures Fails(Next(setting, s, r, luck, pick).next) && !Next(setting, s, r, luck, pick).effect.DropRequest?
  {
  }

  lemma Failing(setting: Setting, s: State, p: Pid, e: Event)
    requires p in s.processes && p in Step(setting, s, e).processes && Fails(s.processes[p])
    ensures Fails(Step(setting, s, e).processes[p])
  {
    if e.Move? && e.pid in s.processes {
      var turn := Next(setting, s, s.processes[e.pid], e.luck, e.pick);
      TakeFrame(setting, s, e.pid, turn, Take(setting, s, e.pid, turn));
      if e.pid == p {
        FailingMoves(setting, s, s.processes[p], e.luck, e.pick);
      }
    }
  }

  /** Once a reload's stop or its start has failed, it never deletes a request, and fails. */
  lemma {:induction false} FailedReloadKeeps(setting: Setting, s: State, p: Pid, events: seq<Event>)
    requires Safe(setting, s) && Lives(setting, s, p, events) && Fails(s.processes[p])
    ensures p in RunFrom(setting, s, events).processes && Fails(RunFrom(setting, s, events).processes[p])
    decreases |events|
  {
    if events != [] {
      Failing(setting, s, p, events[0]);
      StepSafe(setting, s, events[0]);
      FailedReloadKeeps(setting, Step(setting, s, events[0]), p, events[1..]);
    }
  }

  // ---- A failed launch leaves no supervisor behind -------------------------------------------

  /** A starter that waits for the supervisor it launched, or has left it running. */
  predicate Launched(r: Process, c: Moment) {
    r.pc == Await(c, false) || r.pc == AwaitAlive(c, false) || r.pc == TermWrapper(c) || r.pc == StartRelease(0)
  }

  /** The process lives through these events without giving up the lock of its start. */
  predicate KeepsStarting(setting: Setting, s: State, p: Pid, events: seq<Event>)
    decreases |events|
  {
    p in s.processes && Starting(s.processes[p].pc)
    && (events != [] ==> KeepsStarting(setting, Step(setting, s, events[0]), p, events[1..]))
  }

  lemma LaunchMoves(setting: Setting, s: State, r: Process, c: Moment, luck: bool, pick: Moment, next: Process)
    requires Launched(r, c) && next == Next(setting, s, r, luck, pick).next && Starting(next.pc)
    ensures Launched(next, c) || c !in s.supervisors
  {
  }

  lemma GoneStays(setting: Setting, s: State, e: Event, c: Moment)
    requires c < s.clock
    ensures c < Step(setting, s, e).clock
    ensures c !in s.supervisors ==> c !in Step(setting, s, e).supervisors
  {
  }

  lemma LaunchStep(setting: Setting, s: State, p: Pid, e: Event, c: Moment, t: State)
    requires p in s.processes && t == Step(setting, s, e) && p in t.processes && Starting(t.processes[p].pc)
    requires c < s.clock && (Launched(s.processes[p], c) || c !in s.supervisors)
    ensures Launched(t.processes[p], c) || c !in t.supervisors
  {
    GoneStays(setting, s, e, c);
    if e.Move? && e.pid in s.processes {
      var turn := Next(setting, s, s.processes[e.pid], e.luck, e.pick);
      TakeFrame(setting, s, e.pid, turn, Take(setting, s, e.pid, turn));
      if e.pid == p && Launched(s.processes[p], c) && t.processes[p] == turn.next {
        LaunchMoves(setting, s, s.processes[p], c, e.luck, e.pick, turn.next);
      }
    }
  }

  /** In every run, a start that launched a supervisor and then fails leaves it behind only dead. */
  lemma {:induction false} FailedLaunchGone(setting: Setting, s: State, p: Pid, events: seq<Event>, c: Moment)
    requires KeepsStarting(setting, s, p, events) && c < s.clock
    requires Launched(s.processes[p], c) || c !in s.supervisors
    ensures var t := RunFrom(setting, s, events);
      p in t.processes && (t.processes[p].pc == StartRelease(1) ==> c !in t.supervisors)
    decreases |events|
  {
    if events != [] {
      var t := Step(setting, s, events[0]);
      assert KeepsStarting(setting, t, p, events[1..]);
      LaunchStep(setting, s, p, events[0], c, t);
      GoneStays(setting, s, events[0], c);
      FailedLaunchGone(setting, t, p, events[1..], c);
    }
  }

  /** A process's step from one place to another, and what it makes of the state. */
  lemma Turns(setting: Setting, s: State, p: Pid, from: Pc, luck: bool, pick: Moment, to: Pc, effect: Effect, t: State)
    requires p in s.processes && Reachable(setting, At(s, p, from)) && t == Apply(setting, s, p, effect)
    requires Next(setting, At(s, p, from), s.processes[p].(pc := from), luck, pick) ==
      Doing(s.processes[p].(pc := from), effect, to)
    requires effect.RemoveMarker? ==> !Deferred(setting, At(s, p, from), effect)
    ensures Reachable(setting, At(t, p, to))
  {
    Goes(setting, s, p, from, luck, pick, to, effect);
    AppliedAt(setting, s, p, to, effect);
  }

  lemma AppliedAt(setting: Setting, s: State, p: Pid, to: Pc, effect: Effect)
    requires p in s.processes
    ensures Apply(setting, At(s, p, to), p, effect) == At(Apply(setting, s, p, effect), p, to)
  {
  }

  /** Nothing runs, no lock is taken, and no stop is under way. */
  predicate Still(s: State) {
    s.gatewayLock.None? && s.supervisors == {} && s.gateways == map[] && NoneUnderWay(s)
  }

  /** The state with one more supervisor. */
  function Started1(s: State): State {
    s.(supervisors := {s.clock}, clock := s.clock + 1)
  }

  /** A starter that is left alone and finds nothing running starts one supervisor. */
  lemma StartsAlone(setting: Setting, s: State, p: Pid)
    requires MayStart(s, p) && Reachable(setting, At(s, p, StartCheckQuiesced))
    requires s.supervisors == {} && s.gateways == map[]
    ensures Reachable(setting, At(Started1(s), p, Started(0)))
  {
    var locked := s.(gatewayLock := Some(p));
    UpStarts(setting, s, p, locked);
    LeavesStarted(setting, s, p, locked, Started1(locked));
    Turns(setting, Started1(locked), p, StartRelease(0), true, 0, Started(0), UnlockGateway, Started1(s));
  }

  lemma LeavesStarted(setting: Setting, s: State, p: Pid, locked: State, running: State)
    requires p in s.processes && locked == s.(gatewayLock := Some(p)) && running == Started1(locked)
    requires s.supervisors == {} && s.gateways == map[]
    requires Reachable(setting, At(locked, p, Await(s.clock, false)).(supervisors := {s.clock}, clock := s.clock + 1))
    ensures Reachable(setting, At(running, p, StartRelease(0)))
  {
    assert At(running, p, Await(s.clock, false))
      == At(locked, p, Await(s.clock, false)).(supervisors := {s.clock}, clock := s.clock + 1);
    Leaves(setting, running, p, s.clock);
  }

  /** A starter that finds a supervisor without its gateway waits for that one and starts none. */
  lemma WaitsForPending(setting: Setting, s: State, p: Pid, c: Moment)
    requires MayStart(s, p) && Reachable(setting, At(s, p, StartCheckQuiesced))
    requires s.supervisors == {c} && s.gateways == map[]
    ensures Reachable(setting, At(s, p, Started(0)))
  {
    var locked := s.(gatewayLock := Some(p));
    ComesToScan(setting, s, p, locked);
    SeesPending(setting, locked, p, c);
    FindsAlive(setting, locked, p, c);
    Turns(setting, locked, p, StartRelease(0), true, 0, Started(0), UnlockGateway, s);
  }

  lemma SeesPending(setting: Setting, s: State, p: Pid, c: Moment)
    requires p in s.processes && Reachable(setting, At(s, p, ScanGateways)) && s.supervisors == {c}
    requires s.gateways == map[]
    ensures Reachable(setting, At(s, p, Await(c, true)))
  {
    Goes(setting, s, p, ScanGateways, true, 0, ScanCaptures, Nothing);
    PicksPending(setting, s, p, c);
  }

  lemma PicksPending(setting: Setting, s: State, p: Pid, c: Moment)
    requires p in s.processes && Reachable(setting, At(s, p, ScanCaptures)) && s.supervisors == {c}
    ensures Reachable(setting, At(s, p, Await(c, true)))
  {
    Goes(setting, s, p, ScanCaptures, true, c, Await(c, true), Nothing);
  }

  lemma FindsAlive(setting: Setting, s: State, p: Pid, c: Moment)
    requires p in s.processes && Reachable(setting, At(s, p, Await(c, true))) && s.supervisors == {c}
    requires s.gateways == map[]
    ensures Reachable(setting, At(s, p, StartRelease(0)))
  {
    Goes(setting, s, p, Await(c, true), true, 0, AwaitAlive(c, true), Nothing);
    LeavesPending(setting, s, p, c);
  }

  lemma LeavesPending(setting: Setting, s: State, p: Pid, c: Moment)
    requires p in s.processes && Reachable(setting, At(s, p, AwaitAlive(c, true))) && s.supervisors == {c}
    ensures Reachable(setting, At(s, p, StartRelease(0)))
  {
    Goes(setting, s, p, AwaitAlive(c, true), true, 0, StartRelease(0), Nothing);
  }

  /** When custom services failed, up and resume exit with 1 although the gateway was started. */
  lemma ServicesFailed(setting: Setting, s: State, p: Pid)
    requires p in s.processes && s.processes[p].command in {Up, Resume}
    requires Reachable(setting, At(s, p, Started(0)))
    ensures Reachable(setting, At(s, p, Done(1)))
  {
    Goes(setting, s, p, Started(0), false, 0, Done(1), Nothing);
  }

  lemma Ending(setting: Setting, s: State, p: Pid)
    requires p in s.processes && s.processes[p].command in {Up, Resume, Reconcile, Enable}
    requires Reachable(setting, At(s, p, Started(0)))
    ensures Reachable(setting, At(s, p, Done(0)))
  {
    Goes(setting, s, p, Started(0), true, 0, Done(0), Nothing);
  }

  /** From its removal of the quiesce marker on. */
  lemma Resumes(setting: Setting, s: State, p: Pid, resumed: State)
    requires p in s.processes && s.processes[p].command in {Up, Resume} && NoneUnderWay(s)
    requires Reachable(setting, At(s, p, RemoveQuiesced)) && resumed == s.(quiesced := s.quiesced.Removed())
    ensures Reachable(setting, At(resumed, p, StartCheckQuiesced))
  {
    Turns(setting, s, p, RemoveQuiesced, true, 0, Prepare, RemoveMarker(true), resumed);
    Goes(setting, resumed, p, Prepare, true, 0, StartCheckQuiesced, Nothing);
  }

  /** hb up, left alone, removes the quiesce marker and starts one supervisor. */
  lemma UpAlone(setting: Setting, s: State, p: Pid, base: State)
    requires Reachable(setting, s) && p !in s.processes && Still(s) && !s.disabled.present
    requires base == Joined(s, p, Up).(quiesced := s.quiesced.Removed())
    ensures Reachable(setting, At(Started1(base), p, Done(0)))
  {
    var joined := Joined(s, p, Up);
    Reach(setting, s, Launch(p, Up), joined);
    assert At(joined, p, RemoveQuiesced) == joined;
    Resumes(setting, joined, p, base);
    StartsAlone(setting, base, p);
    Ending(setting, Started1(base), p);
  }

  /** So does hb resume. */
  lemma ResumeAlone(setting: Setting, s: State, p: Pid, base: State)
    requires Reachable(setting, s) && p !in s.processes && Still(s) && !s.disabled.present
    requires base == Joined(s, p, Resume).(quiesced := s.quiesced.Removed())
    ensures Reachable(setting, At(Started1(base), p, Done(0)))
  {
    var joined := Joined(s, p, Resume);
    Reach(setting, s, Launch(p, Resume), joined);
    assert At(joined, p, Begin) == joined;
    Turns(setting, joined, p, Begin, true, 0, RemoveQuiesced, RemoveMarker(true), base);
    Resumes(setting, base, p, base.(quiesced := base.quiesced.Removed()));
    assert base.(quiesced := base.quiesced.Removed()) == base;
    StartsAlone(setting, base, p);
    Ending(setting, Started1(base), p);
  }

  /** gateway-enable, left alone and not quiesced, removes the other marker and starts one. */
  lemma EnableAlone(setting: Setting, s: State, p: Pid, base: State)
    requires Reachable(setting, s) && p !in s.processes && Still(s) && !s.quiesced.present
    requires base == Joined(s, p, Enable).(disabled := s.disabled.Removed())
    ensures Reachable(setting, At(Started1(base), p, Done(0)))
  {
    var joined := Joined(s, p, Enable);
    Reach(setting, s, Launch(p, Enable), joined);
    assert At(joined, p, Begin) == joined;
    Goes(setting, joined, p, Begin, true, 0, RemoveDisabled, Nothing);
    Turns(setting, joined, p, RemoveDisabled, true, 0, StartCheckQuiesced, RemoveMarker(false), base);
    StartsAlone(setting, base, p);
    Ending(setting, Started1(base), p);
  }

  /** Quiesced, unconfirmed or not ready for cutover, it does nothing. */
  lemma EnableRefused(setting: Setting, s: State, p: Pid, confirmed: bool)
    requires Reachable(setting, s) && p !in s.processes && (s.quiesced.present || !confirmed)
    ensures Reachable(setting, At(Joined(s, p, Enable), p, Done(1)))
  {
    var joined := Joined(s, p, Enable);
    Reach(setting, s, Launch(p, Enable), joined);
    assert At(joined, p, Begin) == joined;
    Goes(setting, joined, p, Begin, confirmed, 0, Done(1), Nothing);
  }

  /** The reconciler of a quiesced box starts nothing, and succeeds if the services stop. */
  lemma ReconcileQuiesced(setting: Setting, s: State, p: Pid, stopped: bool)
    requires Reachable(setting, s) && p !in s.processes && s.quiesced.present
    ensures Reachable(setting, At(Joined(s, p, Reconcile), p, Done(if stopped then 0 else 1)))
  {
    var joined := Joined(s, p, Reconcile);
    Reach(setting, s, Launch(p, Reconcile), joined);
    assert At(joined, p, Begin) == joined;
    Goes(setting, joined, p, Begin, stopped, 0, Done(if stopped then 0 else 1), Nothing);
  }

  /** With the gateway disabled, a start succeeds without starting anything. */
  lemma StartDisabled(setting: Setting, s: State, p: Pid)
    requires p in s.processes && !s.quiesced.present && s.disabled.present
    requires Reachable(setting, At(s, p, StartCheckQuiesced))
    ensures Reachable(setting, At(s, p, Started(0)))
  {
    Goes(setting, s, p, StartCheckQuiesced, true, 0, StartCheckDisabled, Nothing);
    Goes(setting, s, p, StartCheckDisabled, true, 0, Started(0), Nothing);
  }

  // ---- Undisturbed stops ---------------------------------------------------------------------

  /** One supervisor and its gateway run. */
  predicate Running(s: State, c: Moment, g: Moment, config: nat) {
    s.gatewayLock.None? && s.supervisors == {c} && s.gateways == map[g := Daemon(c, config)]
  }

  function Stopped1(s: State): State {
    s.(supervisors := {}, gateways := map[])
  }

  /** It kills the supervisor, and what is left of the gateway. */
  lemma KillsCapture(setting: Setting, s: State, p: Pid, c: Moment, g: Moment, orphaned: State)
    requires p in s.processes && s.supervisors == {c} && s.gateways.Keys == {g}
    requires orphaned == s.(supervisors := {}, gateways := Orphaned(setting, s.gateways, c))
    requires Reachable(setting, At(s, p, StopScan))
    ensures Reachable(setting, At(orphaned, p, Killing({}, {g})))
  {
    assert {c} - {c} == {};
    Goes(setting, s, p, StopScan, true, 0, Killing({c}, {g}), Nothing);
    Turns(setting, s, p, Killing({c}, {g}), true, c, Killing({}, {g}), KillCapture(c), orphaned);
  }

  lemma KillsGateway(setting: Setting, s: State, p: Pid, g: Moment, stopped: State)
    requires p in s.processes && s.gateways.Keys <= {g} && stopped == s.(gateways := map[])
    requires Reachable(setting, At(s, p, Killing({}, {g})))
    ensures Reachable(setting, At(stopped, p, CheckGateways))
  {
    assert {g} - {g} == {} && s.gateways - {g} == map[];
    Turns(setting, s, p, Killing({}, {g}), true, g, Killing({}, {}), KillGateway(g), stopped);
    Goes(setting, stopped, p, Killing({}, {}), true, 0, CheckGateways, Nothing);
  }

  lemma Kills(setting: Setting, s: State, p: Pid, c: Moment, g: Moment, config: nat)
    requires p in s.processes && s.supervisors == {c} && s.gateways == map[g := Daemon(c, config)]
    requires Reachable(setting, At(s, p, StopScan))
    ensures Reachable(setting, At(Stopped1(s), p, CheckGateways))
  {
    var orphaned := s.(supervisors := {}, gateways := Orphaned(setting, s.gateways, c));
    KillsCapture(setting, s, p, c, g, orphaned);
    KillsGateway(setting, orphaned, p, g, Stopped1(s));
  }

  /** A stopper that is left alone kills the supervisor and its gateway. */
  lemma StopsAlone(setting: Setting, s: State, p: Pid, c: Moment, g: Moment, config: nat)
    requires p in s.processes && Running(s, c, g, config) && Reachable(setting, At(s, p, StopLock))
    ensures Reachable(setting, At(Stopped1(s), p, Stopped(true)))
  {
    var locked := s.(gatewayLock := Some(p));
    Turns(setting, s, p, StopLock, true, 0, StopScan, LockGateway, locked);
    Kills(setting, locked, p, c, g, config);
    FindsNothing(setting, Stopped1(locked), p);
    Unlocks(setting, Stopped1(s), p, Stopped1(locked));
  }

  /** The state in which a stop has set and seen its marker. */
  function Marking(s: State, p: Pid, command: Command): State {
    var marked := Touching(s, command);
    marked.(processes := marked.processes[p :=
      Process(command, StopLock, MarkerOf(marked, command).removals, {}, 0, None)])
  }

  lemma MarksAlone(setting: Setting, s: State, p: Pid, command: Command, joined: State)
    requires Reachable(setting, s) && p !in s.processes && Stops(command) && joined == Joined(s, p, command)
    ensures Reachable(setting, Marking(s, p, command))
  {
    Reach(setting, s, Launch(p, command), joined);
    assert At(joined, p, Begin) == joined;
    TouchesAlone(setting, joined, p, command);
    SeesMarker(setting, s, p, command, joined);
  }

  function Touching(s: State, command: Command): State {
    if command == Pause then s.(quiesced := s.quiesced.Touched()) else s.(disabled := s.disabled.Touched())
  }

  lemma TouchesAlone(setting: Setting, s: State, p: Pid, command: Command)
    requires p in s.processes && Stops(command) && s.processes[p].command == command
    requires Reachable(setting, At(s, p, Begin))
    ensures Reachable(setting, At(Touching(s, command), p, CheckMarker))
  {
    Turns(setting, s, p, Begin, true, 0, CheckMarker, TouchMarker(command == Pause), Touching(s, command));
  }

  lemma SeesMarker(setting: Setting, s: State, p: Pid, command: Command, joined: State)
    requires Stops(command) && joined == Joined(s, p, command)
    requires Reachable(setting, At(Touching(joined, command), p, CheckMarker))
    ensures Reachable(setting, Marking(s, p, command))
  {
    Reach(setting, At(Touching(joined, command), p, CheckMarker), Move(p, true, 0), Marking(s, p, command));
  }

  /** hb pause and gateway-disable, left alone over a running gateway, end with nothing running
      and their marker set. */
  lemma StopAlone(setting: Setting, s: State, p: Pid, command: Command, c: Moment, g: Moment, config: nat, base: State)
    requires Reachable(setting, s) && p !in s.processes && Stops(command) && Running(s, c, g, config)
    requires base == Stopped1(Marking(s, p, command))
    ensures MarkerOf(base, command).present
    ensures var r := base.processes[p].(pc := Done(0), ended := Some(MarkerOf(base, command).removals));
      Reachable(setting, base.(processes := base.processes[p := r]))
  {
    var marking := Marking(s, p, command);
    MarksAlone(setting, s, p, command, Joined(s, p, command));
    assert At(marking, p, StopLock) == marking;
    StopsAlone(setting, marking, p, c, g, config);
    StopEnds(setting, base, p, command);
  }

  lemma StopEnds(setting: Setting, base: State, p: Pid, command: Command)
    requires p in base.processes && base.processes[p].command == command && Stops(command)
    requires MarkerOf(base, command).present && Reachable(setting, At(base, p, Stopped(true)))
    ensures var r := base.processes[p].(pc := Done(0), ended := Some(MarkerOf(base, command).removals));
      Reachable(setting, base.(processes := base.processes[p := r]))
  {
    var r := base.processes[p].(pc := Done(0), ended := Some(MarkerOf(base, command).removals));
    Reach(setting, At(base, p, Stopped(true)), Move(p, true, 0), base.(processes := base.processes[p := r]));
  }

  /** When the other daemons do not stop, a pause fails although the gateway is stopped. */
  lemma PauseFails(setting: Setting, s: State, p: Pid)
    requires p in s.processes && s.processes[p].command == Pause && Reachable(setting, At(s, p, Stopped(true)))
    ensures Reachable(setting, At(s, p, Done(1)))
  {
    Goes(setting, s, p, Stopped(true), false, 0, Done(1), Nothing);
  }

  // ---- An undisturbed reload -----------------------------------------------------------------

  /** The state in which a reload holds its lock and has found the requests there are. */
  function Finding(s: State, p: Pid, pc: Pc): State {
    s.(processes := s.processes[p := Process(Reload, pc, 0, s.requests, 0, None)], reloadLock := Some(p))
  }

  lemma FindsRequests(setting: Setting, s: State, p: Pid, joined: State)
    requires Reachable(setting, s) && p !in s.processes && s.reloadLock.None? && s.requests != {}
    requires |s.gateways| > 0 && joined == Joined(s, p, Reload)
    ensures Reachable(setting, Finding(s, p, StopLock))
  {
    LocksReload(setting, s, p, joined);
    Notes(setting, s, p, At(joined.(reloadLock := Some(p)), p, ReloadFind));
    var finding := Finding(s, p, StopLock);
    Goes(setting, finding, p, ReloadScanGateways, true, 0, StopLock, Nothing);
    assert At(finding, p, StopLock) == finding;
  }

  lemma LocksReload(setting: Setting, s: State, p: Pid, joined: State)
    requires Reachable(setting, s) && p !in s.processes && s.reloadLock.None? && joined == Joined(s, p, Reload)
    ensures Reachable(setting, At(joined.(reloadLock := Some(p)), p, ReloadFind))
  {
    Reach(setting, s, Launch(p, Reload), joined);
    assert At(joined, p, ReloadLock) == joined;
    Turns(setting, joined, p, ReloadLock, true, 0, ReloadFind, LockReload, joined.(reloadLock := Some(p)));
  }

  lemma Notes(setting: Setting, s: State, p: Pid, locked: State)
    requires Reachable(setting, locked) && s.requests != {}
    requires locked == At(Joined(s, p, Reload).(reloadLock := Some(p)), p, ReloadFind)
    ensures Reachable(setting, At(Finding(s, p, StopLock), p, ReloadScanGateways))
  {
    Reach(setting, locked, Move(p, true, 0), At(Finding(s, p, StopLock), p, ReloadScanGateways));
  }

  /** Deleting requests, one after the other. */
  lemma {:induction false} Deletes(setting: Setting, s: State, p: Pid, left: set<Moment>)
    requires p in s.processes && s.processes[p].command == Reload && Reachable(setting, At(s, p, ReloadDelete(left)))
    ensures Reachable(setting, At(s.(requests := s.requests - left), p, ReloadDelete({})))
    decreases left
  {
    if left == {} {
      assert s.requests - left == s.requests;
    } else {
      var q :| q in left;
      var t := s.(requests := s.requests - {q});
      Turns(setting, s, p, ReloadDelete(left), true, q, ReloadDelete(left - {q}), DropRequest(q), t);
      Deletes(setting, t, p, left - {q});
      assert t.requests - (left - {q}) == s.requests - left;
    }
  }

  lemma Unlocking(setting: Setting, s: State, p: Pid)
    requires p in s.processes && s.processes[p].command == Reload && Reachable(setting, At(s, p, ReloadDelete({})))
    ensures Reachable(setting, At(s.(reloadLock := None), p, Done(0)))
  {
    Goes(setting, s, p, ReloadDelete({}), true, 0, ReloadRelease(0), Nothing);
    UnlocksReload(setting, s, p, s.(reloadLock := None));
  }

  lemma UnlocksReload(setting: Setting, s: State, p: Pid, unlocked: State)
    requires p in s.processes && s.processes[p].command == Reload && unlocked == s.(reloadLock := None)
    requires Reachable(setting, At(s, p, ReloadRelease(0)))
    ensures Reachable(setting, At(unlocked, p, Done(0)))
  {
    Turns(setting, s, p, ReloadRelease(0), true, 0, Done(0), UnlockReload, unlocked);
  }

  /** A reload that is left alone with a running gateway and requests replaces the supervisor by
      one that is newer than every request, and removes exactly the requests it found. */
  lemma ReloadAlone(setting: Setting, s: State, p: Pid, c: Moment, g: Moment, config: nat, base: State)
    requires Reachable(setting, s) && p !in s.processes && Running(s, c, g, config) && s.reloadLock.None?
    requires s.requests != {} && !s.quiesced.present && !s.disabled.present
    requires base == Started1(Stopped1(Finding(s, p, ReloadDelete({})))).(reloadLock := None, requests := {})
    ensures Reachable(setting, At(base, p, Done(0)))
    ensures base.supervisors == {s.clock} && base.gateways == map[] && forall q :: q in s.requests ==> q < s.clock
  {
    ReachableSafe(setting, s);
    assert s.gateways.Keys == {g};
    FindsRequests(setting, s, p, Joined(s, p, Reload));
    var finding := Finding(s, p, StopLock);
    assert At(finding, p, StopLock) == finding;
    Restarts(setting, finding, p, c, g, config);
    RemovesFound(setting, Started1(Stopped1(finding)), p);
    Reloaded(s, p, base);
  }

  lemma Reloaded(s: State, p: Pid, base: State)
    requires base == Started1(Stopped1(Finding(s, p, ReloadDelete({})))).(reloadLock := None, requests := {})
    ensures At(base, p, Done(0))
      == At(Started1(Stopped1(Finding(s, p, StopLock))).(requests := {}, reloadLock := None), p, Done(0))
  {
  }

  /** The gateway is stopped and started again. */
  lemma Restarts(setting: Setting, s: State, p: Pid, c: Moment, g: Moment, config: nat)
    requires p in s.processes && Running(s, c, g, config) && Reachable(setting, At(s, p, StopLock))
    requires s.processes[p].command == Reload && !s.quiesced.present && !s.disabled.present
    ensures Reachable(setting, At(Started1(Stopped1(s)), p, ReloadDelete(s.processes[p].found)))
  {
    StopsAlone(setting, s, p, c, g, config);
    var stopped := Stopped1(s);
    Goes(setting, stopped, p, Stopped(true), true, 0, StartCheckQuiesced, Nothing);
    StartsAlone(setting, stopped, p);
    Goes(setting, Started1(stopped), p, Started(0), true, 0, ReloadDelete(s.processes[p].found), Nothing);
  }

  lemma RemovesFound(setting: Setting, s: State, p: Pid)
    requires p in s.processes && s.processes[p].command == Reload && s.processes[p].found == s.requests
    requires Reachable(setting, At(s, p, ReloadDelete(s.requests)))
    ensures Reachable(setting, At(s.(requests := {}, reloadLock := None), p, Done(0)))
  {
    var deleted := s.(requests := {});
    Deletes(setting, s, p, s.requests);
    assert s.requests - s.requests == {};
    Unlocking(setting, deleted, p);
  }

  /** A reload that lost the race for the lock, and then sees that the winner started the gateway,
      ends well and removes the requests it found. */
  lemma ReloadAcceptsWinner(setting: Setting, s: State, p: Pid)
    requires p in s.processes && s.processes[p].command == Reload && s.processes[p].found == s.requests
    requires s.processes[p].retries < 5 && |s.gateways| > 0 && Reachable(setting, At(s, p, Started(2)))
    ensures Reachable(setting, At(s.(requests := {}, reloadLock := None), p, Done(0)))
  {
    Goes(setting, s, p, Started(2), true, 0, ReloadProbe, Nothing);
    SeesWinner(setting, s, p);
    RemovesFound(setting, s, p);
  }

  lemma SeesWinner(setting: Setting, s: State, p: Pid)
    requires p in s.processes && |s.gateways| > 0 && Reachable(setting, At(s, p, ReloadProbe))
    ensures Reachable(setting, At(s, p, ReloadDelete(s.processes[p].found)))
  {
    Goes(setting, s, p, ReloadProbe, true, 0, ReloadDelete(s.processes[p].found), Nothing);
  }

  // ---- An undisturbed registration -----------------------------------------------------------

  /** A registration that is left alone with one running gateway changes the config and asks for
      a reload of it. */
  lemma WireAlone(setting: Setting, s: State, p: Pid, base: State, wired: State)
    requires Reachable(setting, s) && p !in s.processes && s.gatewayLock.None? && s.reloadLock.None?
    requires !s.quiesced.present && !s.disabled.present && |s.gateways| == 1 && NoneUnderWay(s)
    requires base == Joined(s, p, Wire)
    requires wired == base.(config := s.config + 1, requests := s.requests + {s.clock}, clock := s.clock + 1)
    ensures Reachable(setting, At(wired, p, Done(0)))
  {
    WireStarts(setting, s, p, base);
    FindsGateway(setting, base, p);
    var locked := base.(reloadLock := Some(p));
    Changes(setting, base, p, locked);
    var changed := locked.(config := s.config + 1);
    assert At(locked, p, WireChange).(config := s.config + 1) == At(changed, p, WireChange);
    Asks(setting, changed, p);
    assert At(wired, p, Done(0))
      == At(changed.(requests := s.requests + {s.clock}, clock := s.clock + 1, reloadLock := None), p, Done(0));
  }

  /** With a gateway in sight a registration ends with a request. */
  lemma Asks(setting: Setting, s: State, p: Pid)
    requires p in s.processes && s.processes[p].command == Wire && |s.gateways| == 1
    requires Reachable(setting, At(s, p, WireChange))
    ensures Reachable(setting,
      At(s.(requests := s.requests + {s.clock}, clock := s.clock + 1, reloadLock := None), p, Done(0)))
  {
    var asked := s.(requests := s.requests + {s.clock}, clock := s.clock + 1);
    SeesToAsk(setting, s, p);
    AsksOnce(setting, s, p, asked);
    EndsWiring(setting, asked, p, asked.(reloadLock := None));
  }

  lemma AsksOnce(setting: Setting, s: State, p: Pid, asked: State)
    requires p in s.processes && Reachable(setting, At(s, p, WireRequest))
    requires asked == s.(requests := s.requests + {s.clock}, clock := s.clock + 1)
    ensures Reachable(setting, At(asked, p, WireRelease(0)))
  {
    Turns(setting, s, p, WireRequest, true, 1, WireRelease(0), AskReload, asked);
  }

  lemma EndsWiring(setting: Setting, s: State, p: Pid, unlocked: State)
    requires p in s.processes && Reachable(setting, At(s, p, WireRelease(0))) && unlocked == s.(reloadLock := None)
    ensures Reachable(setting, At(unlocked, p, Done(0)))
  {
    Turns(setting, s, p, WireRelease(0), true, 1, Done(0), UnlockReload, unlocked);
  }

  lemma SeesToAsk(setting: Setting, s: State, p: Pid)
    requires p in s.processes && |s.gateways| == 1 && Reachable(setting, At(s, p, WireChange))
    ensures Reachable(setting, At(s, p, WireRequest))
  {
    Goes(setting, s, p, WireChange, false, 1, WireScan, Nothing);
    SeesGateway(setting, s, p);
  }

  lemma SeesGateway(setting: Setting, s: State, p: Pid)
    requires p in s.processes && |s.gateways| == 1 && Reachable(setting, At(s, p, WireScan))
    ensures Reachable(setting, At(s, p, WireRequest))
  {
    Goes(setting, s, p, WireScan, true, 1, WireRequest, Nothing);
  }
}
