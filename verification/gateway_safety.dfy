/** What every step of every hb process keeps, and what follows for whole runs. */
module GatewaySafety {
  import opened Options
  import opened Gateway

  // ---- One step of one process -----------------------------------------------------

  /** A command only stands where its code can take it. */
  predicate Fits(r: Process) {
    match r.command
    case Pause => StopsOnly(r.pc)
    case Disable => StopsOnly(r.pc)
    case Reload =>
      !r.pc.Begin? && !r.pc.CheckMarker? && !r.pc.RemoveQuiesced? && !r.pc.RemoveDisabled? && !r.pc.Prepare?
      && !r.pc.TouchDisabled? && !InWire(r.pc)
    case Wire => !InReload(r.pc) && !r.pc.CheckMarker? && !Stopping(r.pc) && !r.pc.StopLock? && !r.pc.Stopped?
    case Enable => !r.pc.CheckMarker? && !InWire(r.pc) && !InReload(r.pc)
    case _ =>
      !r.pc.CheckMarker? && !InWire(r.pc) && !InReload(r.pc) && !Stopping(r.pc) && !r.pc.StopLock? && !r.pc.Stopped?
      && !r.pc.TouchDisabled? && !r.pc.RemoveDisabled?
  }

  predicate StopsOnly(pc: Pc) {
    pc.Begin? || pc.CheckMarker? || pc.StopLock? || Stopping(pc) || pc.Stopped? || pc.Done?
  }

  /** A lock is taken only when free, on the way into its section, and given back on the
      way out. */
  predicate Locking(s: State, r: Process, turn: Turn) {
    && (turn.effect.LockGateway? <==> !HoldsGateway(r) && HoldsGateway(turn.next))
    && (turn.effect.LockGateway? ==> s.gatewayLock.None?)
    && (turn.effect.UnlockGateway? <==> HoldsGateway(r) && !HoldsGateway(turn.next))
    && (turn.effect.LockReload? <==> !HoldsReload(r) && HoldsReload(turn.next))
    && (turn.effect.LockReload? ==> s.reloadLock.None?)
    && (turn.effect.UnlockReload? <==> HoldsReload(r) && !HoldsReload(turn.next))
  }

  predicate Controlled(s: State, r: Process, turn: Turn) {
    turn.next.command == r.command && Fits(turn.next) && Locking(s, r, turn)
  }

  /** A supervisor is started only by a starter that has just seen none, and a starter comes
      to see none only past both markers. */
  predicate Spawns(s: State, r: Process, turn: Turn) {
    && (turn.effect.StartCapture? ==> r.pc.SpawnCapture? && !turn.next.pc.SpawnCapture?)
    && (turn.next.pc.SpawnCapture? ==> r.pc.ScanCaptures? && |s.supervisors| == 0 && turn.effect.Nothing?)
    && (turn.next.pc.ScanCaptures? ==> r.pc.ScanGateways? || r.pc.ScanCaptures?)
    && (turn.next.pc.ScanGateways? ==> r.pc.RecheckDisabled? && !s.disabled.present && turn.effect.Nothing?)
    && (turn.next.pc.RecheckDisabled? ==> !s.quiesced.present && turn.effect.Nothing?)
  }

  /** A stopping command that has seen its marker. */
  predicate Marked(r: Process) {
    && (r.command == Pause || r.command == Disable)
    && (r.pc.StopLock? || Stopping(r.pc) || r.pc.Stopped? || r.pc == Done(0))
  }

  /** A stopping command that has seen all daemons gone. */
  predicate Settled(r: Process) {
    && (r.command == Pause || r.command == Disable)
    && (r.pc == StopRelease(true) || r.pc == Stopped(true) || r.pc == Done(0))
  }

  predicate Marks(s: State, r: Process, turn: Turn) {
    && (Marked(turn.next) ==>
      if Marked(r) then turn.next.epoch == r.epoch
      else MarkerOf(s, r.command).present && turn.next.epoch == MarkerOf(s, r.command).removals && turn.effect.Nothing?)
    && (Settled(turn.next) ==>
      && (turn.effect.Nothing? || turn.effect.UnlockGateway?)
      && (Settled(r) || (Marked(r) && r.pc.CheckCaptures? && |s.supervisors| == 0 && turn.effect.Nothing?)))
  }

  /** A reload that has seen the daemons it found running gone. */
  predicate Replaced(r: Process) {
    && r.command == Reload
    && (r.pc == StopRelease(true) || r.pc == Stopped(true) || r.pc.ReloadProbe? || r.pc.ReloadDelete?
      || r.pc.StartCheckQuiesced? || r.pc.StartCheckDisabled? || r.pc.StartLock? || Starting(r.pc) || r.pc.Started?)
  }

  /** The requests a reload is about to delete. */
  function Left(r: Process): set<Moment> {
    if r.pc.ReloadDelete? then r.pc.left else r.found
  }

  predicate Replaces(s: State, r: Process, turn: Turn) {
    && (Replaced(turn.next) ==>
      && turn.next.found == r.found && Left(turn.next) <= Left(r)
      && (Replaced(r)
        || ((r.pc.CheckCaptures? || r.pc.ReloadScanCaptures?) && |s.supervisors| == 0 && turn.effect.Nothing?)))
    && (turn.effect.DropRequest? ==> Replaced(r) && turn.effect.request in Left(r) && HoldsReload(r))
    && (turn.next.found == r.found || turn.next.found == s.requests)
  }

  /** The config changes only while registering, and registering ends with a request or with
      no gateway in sight. */
  predicate Registers(setting: Setting, s: State, r: Process, turn: Turn) {
    && (turn.effect.ChangeConfig? ==> Changing(r) && Changing(turn.next))
    && (setting.wireSafe && Changing(r) && !Changing(turn.next) ==>
      turn.effect.AskReload? || (turn.effect.Nothing? && |s.gateways| == 0))
    && (turn.effect.UnlockReload? ==> !Changing(r))
  }

  predicate Lawful(setting: Setting, s: State, r: Process, turn: Turn) {
    && Controlled(s, r, turn) && Spawns(s, r, turn) && Marks(s, r, turn) && Replaces(s, r, turn)
    && Registers(setting, s, r, turn)
  }

  lemma BeginLawful(setting: Setting, s: State, r: Process, luck: bool, pick: Moment, turn: Turn)
    requires Fits(r) && r.pc.Begin? && turn == MoveBegin(s, r, luck)
    ensures Lawful(setting, s, r, turn)
  {
  }

  lemma CheckLawful(setting: Setting, s: State, r: Process, luck: bool, pick: Moment, turn: Turn)
    requires Fits(r) && r.pc.CheckMarker? && turn == MoveCheck(s, r)
    ensures Lawful(setting, s, r, turn)
  {
  }

  lemma RemoveLawful(setting: Setting, s: State, r: Process, luck: bool, pick: Moment, turn: Turn)
    requires Fits(r) && (r.pc.RemoveQuiesced? || r.pc.RemoveDisabled? || r.pc.Prepare?) && turn == MoveRemove(r, luck)
    ensures Lawful(setting, s, r, turn)
  {
  }

  lemma StartedLawful(setting: Setting, s: State, r: Process, luck: bool, pick: Moment, turn: Turn)
    requires Fits(r) && r.pc.Started? && turn == MoveStarted(r, r.pc.status, luck)
    ensures Lawful(setting, s, r, turn)
  {
  }

  lemma StoppedLawful(setting: Setting, s: State, r: Process, luck: bool, pick: Moment, turn: Turn)
    requires Fits(r) && r.pc.Stopped? && turn == MoveStopped(s, r, r.pc.ok, luck)
    ensures Lawful(setting, s, r, turn)
  {
  }

  lemma TouchLawful(setting: Setting, s: State, r: Process, luck: bool, pick: Moment, turn: Turn)
    requires Fits(r) && r.pc.TouchDisabled? && turn == Doing(r, if luck then TouchMarker(false) else Nothing, Done(1))
    ensures Lawful(setting, s, r, turn)
  {
  }

  lemma StopLockLawful(setting: Setting, s: State, r: Process, luck: bool, pick: Moment, turn: Turn)
    requires Fits(r) && (r.pc.StopLock? || r.pc.StopScan?) && turn == MoveStop(s, r, luck, pick)
    ensures Lawful(setting, s, r, turn)
  {
  }

  lemma KillingLawful(setting: Setting, s: State, r: Process, luck: bool, pick: Moment, turn: Turn)
    requires Fits(r) && (r.pc.Killing?) && turn == MoveStop(s, r, luck, pick)
    ensures Lawful(setting, s, r, turn)
  {
  }

  lemma StopCheckLawful(setting: Setting, s: State, r: Process, luck: bool, pick: Moment, turn: Turn)
    requires Fits(r) && (r.pc.CheckGateways? || r.pc.CheckCaptures? || r.pc.StopRelease?)
    requires turn == MoveStop(s, r, luck, pick)
    ensures Lawful(setting, s, r, turn)
  {
  }

  lemma WireEntryLawful(setting: Setting, s: State, r: Process, luck: bool, pick: Moment, turn: Turn)
    requires Fits(r) && (r.pc.WireLock? || r.pc.WireChange?) && turn == MoveWire(setting, s, r, luck, pick == 0)
    ensures Lawful(setting, s, r, turn)
  {
  }

  lemma WireEndLawful(setting: Setting, s: State, r: Process, luck: bool, pick: Moment, turn: Turn)
    requires Fits(r) && (r.pc.WireScan? || r.pc.WireRequest? || r.pc.WireRelease?)
    requires turn == MoveWire(setting, s, r, luck, pick == 0)
    ensures Lawful(setting, s, r, turn)
  {
  }

  lemma ReloadEntryLawful(setting: Setting, s: State, r: Process, luck: bool, pick: Moment, turn: Turn)
    requires Fits(r) && (r.pc.ReloadLock? || r.pc.ReloadFind?) && turn == MoveReload(s, r, luck, pick)
    ensures Lawful(setting, s, r, turn)
  {
  }

  lemma ReloadScanLawful(setting: Setting, s: State, r: Process, luck: bool, pick: Moment, turn: Turn)
    requires Fits(r) && (r.pc.ReloadScanGateways? || r.pc.ReloadScanCaptures? || r.pc.ReloadProbe?)
    requires turn == MoveReload(s, r, luck, pick)
    ensures Lawful(setting, s, r, turn)
  {
  }

  lemma ReloadEndLawful(setting: Setting, s: State, r: Process, luck: bool, pick: Moment, turn: Turn)
    requires Fits(r) && (r.pc.ReloadDelete? || r.pc.ReloadRelease?) && turn == MoveReload(s, r, luck, pick)
    ensures Lawful(setting, s, r, turn)
  {
  }

  lemma StartCheckLawful(setting: Setting, s: State, r: Process, luck: bool, pick: Moment, turn: Turn)
    requires Fits(r) && (r.pc.StartCheckQuiesced? || r.pc.StartCheckDisabled? || r.pc.StartLock?)
    requires turn == MoveStart(s, r, luck, pick)
    ensures Lawful(setting, s, r, turn)
  {
  }

  lemma RecheckLawful(setting: Setting, s: State, r: Process, luck: bool, pick: Moment, turn: Turn)
    requires Fits(r) && (r.pc.RecheckQuiesced? || r.pc.RecheckDisabled?) && turn == MoveStart(s, r, luck, pick)
    ensures Lawful(setting, s, r, turn)
  {
  }

  lemma ScanLawful(setting: Setting, s: State, r: Process, luck: bool, pick: Moment, turn: Turn)
    requires Fits(r) && (r.pc.ScanGateways? || r.pc.ScanCaptures?) && turn == MoveStart(s, r, luck, pick)
    ensures Lawful(setting, s, r, turn)
  {
  }

  lemma AwaitLawful(setting: Setting, s: State, r: Process, luck: bool, pick: Moment, turn: Turn)
    requires Fits(r) && (r.pc.Await? || r.pc.AwaitAlive?) && turn == MoveStart(s, r, luck, pick)
    ensures Lawful(setting, s, r, turn)
  {
  }

  lemma SpawnLawful(setting: Setting, s: State, r: Process, luck: bool, pick: Moment, turn: Turn)
    requires Fits(r) && (r.pc.SpawnCapture? || r.pc.TermWrapper? || r.pc.StartRelease? || r.pc.Done?)
    requires turn == MoveStart(s, r, luck, pick)
    ensures Lawful(setting, s, r, turn)
  {
  }

  /** Every step of every process keeps to these rules. */
  lemma EveryTurnLawful(setting: Setting, s: State, r: Process, luck: bool, pick: Moment)
    requires Fits(r)
    ensures Lawful(setting, s, r, Next(setting, s, r, luck, pick))
  {
    var turn := Next(setting, s, r, luck, pick);
    if r.pc.Begin? {
      BeginLawful(setting, s, r, luck, pick, turn);
    } else if r.pc.CheckMarker? {
      CheckLawful(setting, s, r, luck, pick, turn);
    } else if r.pc.RemoveQuiesced? || r.pc.RemoveDisabled? || r.pc.Prepare? {
      RemoveLawful(setting, s, r, luck, pick, turn);
    } else if r.pc.Started? {
      StartedLawful(setting, s, r, luck, pick, turn);
    } else if r.pc.Stopped? {
      StoppedLawful(setting, s, r, luck, pick, turn);
    } else if r.pc.TouchDisabled? {
      TouchLawful(setting, s, r, luck, pick, turn);
    } else if r.pc.StopLock? || r.pc.StopScan? {
      StopLockLawful(setting, s, r, luck, pick, turn);
    } else if r.pc.Killing? {
      KillingLawful(setting, s, r, luck, pick, turn);
    } else if r.pc.CheckGateways? || r.pc.CheckCaptures? || r.pc.StopRelease? {
      StopCheckLawful(setting, s, r, luck, pick, turn);
    } else if r.pc.WireLock? || r.pc.WireChange? {
      WireEntryLawful(setting, s, r, luck, pick, turn);
    } else if r.pc.WireScan? || r.pc.WireRequest? || r.pc.WireRelease? {
      WireEndLawful(setting, s, r, luck, pick, turn);
    } else if r.pc.ReloadLock? || r.pc.ReloadFind? {
      ReloadEntryLawful(setting, s, r, luck, pick, turn);
    } else if r.pc.ReloadScanGateways? || r.pc.ReloadScanCaptures? || r.pc.ReloadProbe? {
      ReloadScanLawful(setting, s, r, luck, pick, turn);
    } else if r.pc.ReloadDelete? || r.pc.ReloadRelease? {
      ReloadEndLawful(setting, s, r, luck, pick, turn);
    } else if r.pc.StartCheckQuiesced? || r.pc.StartCheckDisabled? || r.pc.StartLock? {
      StartCheckLawful(setting, s, r, luck, pick, turn);
    } else if r.pc.RecheckQuiesced? || r.pc.RecheckDisabled? {
      RecheckLawful(setting, s, r, luck, pick, turn);
    } else if r.pc.ScanGateways? || r.pc.ScanCaptures? {
      ScanLawful(setting, s, r, luck, pick, turn);
    } else if r.pc.Await? || r.pc.AwaitAlive? {
      AwaitLawful(setting, s, r, luck, pick, turn);
    } else {
      SpawnLawful(setting, s, r, luck, pick, turn);
    }
  }

  // ---- The invariants --------------------------------------------------------------

  predicate AllFit(s: State) {
    forall p :: p in s.processes ==> Fits(s.processes[p])
  }

  /** A lock is held by a process exactly while that process is in the lock's section. */
  predicate Locks(s: State) {
    && (forall p :: p in s.processes && HoldsGateway(s.processes[p]) ==> s.gatewayLock == Some(p))
    && (forall p :: p in s.processes && HoldsReload(s.processes[p]) ==> s.reloadLock == Some(p))
    && (s.gatewayLock.Some? ==> s.gatewayLock.value in s.processes && HoldsGateway(s.processes[s.gatewayLock.value]))
    && (s.reloadLock.Some? ==> s.reloadLock.value in s.processes && HoldsReload(s.processes[s.reloadLock.value]))
  }

  /** Everything was created in the past. */
  predicate Dated(s: State) {
    && (forall c :: c in s.supervisors ==> c < s.clock)
    && (forall g :: g in s.gateways ==> g < s.clock && s.gateways[g].parent < s.clock)
    && (forall q :: q in s.requests ==> q < s.clock)
    && (forall p, q :: p in s.processes && q in s.processes[p].found ==> q < s.clock)
  }

  predicate OneSupervisor(s: State) {
    && (forall a, b :: a in s.supervisors && b in s.supervisors ==> a == b)
    && (forall p :: p in s.processes && s.processes[p].pc.SpawnCapture? ==> s.supervisors == {})
  }

  predicate Siblings(s: State, g: Moment, h: Moment)
    requires g in s.gateways && h in s.gateways
  {
    s.gateways[g].parent == s.gateways[h].parent && s.gateways[g].parent in s.supervisors
  }

  /** Each supervisor has one child, and with parent death every gateway is such a child. */
  predicate Children(setting: Setting, s: State) {
    && (forall g, h :: g in s.gateways && h in s.gateways && Siblings(s, g, h) ==> g == h)
    && (setting.parentDeath ==> forall g :: g in s.gateways ==> s.gateways[g].parent in s.supervisors)
  }

  predicate Epochs(s: State) {
    forall p :: p in s.processes && Marked(s.processes[p]) ==> Witnessed(s, s.processes[p])
  }

  /** While its marker has not been removed since it saw it, the marker is there. */
  predicate Witnessed(s: State, r: Process) {
    var marker := MarkerOf(s, r.command);
    r.epoch <= marker.removals && (r.epoch == marker.removals ==> marker.present)
  }

  /** The process has seen all daemons gone, and its marker was never removed since it saw
      the marker. */
  predicate InForce(s: State, r: Process) {
    Settled(r) && r.epoch == MarkerOf(s, r.command).removals
  }

  /** A starter past the check of this marker that may yet start a supervisor. */
  predicate Past(command: Command, pc: Pc) {
    (command == Pause && pc.RecheckDisabled?) || pc.ScanGateways? || pc.ScanCaptures? || pc.SpawnCapture?
  }

  predicate NoneRunning(setting: Setting, s: State) {
    s.supervisors == {} && (setting.parentDeath ==> s.gateways == map[])
  }

  predicate Quiet(setting: Setting, s: State) {
    forall p :: p in s.processes && InForce(s, s.processes[p]) ==>
      NoneRunning(setting, s) && forall q :: q in s.processes ==> !Past(s.processes[p].command, s.processes[q].pc)
  }

  /** A request that may be deleted was made before every gateway now running was started. */
  predicate Reloads(setting: Setting, s: State) {
    forall p :: p in s.processes && Replaced(s.processes[p]) ==>
      && Left(s.processes[p]) <= s.processes[p].found
      && (setting.parentDeath ==> forall g, q :: g in s.gateways && q in s.processes[p].found ==> q < g)
  }

  predicate Asked(s: State, g: Moment) {
    exists q :: q in s.requests && g < q
  }

  predicate Registering(s: State) {
    s.reloadLock.Some? && s.reloadLock.value in s.processes && Changing(s.processes[s.reloadLock.value])
  }

  /** Every gateway with an older config will be reloaded: a request newer than it is
      pending, or a registration holds the reload lock. */
  predicate NoneForgotten(s: State) {
    forall g :: g in s.gateways ==> s.gateways[g].config == s.config || Asked(s, g) || Registering(s)
  }

  predicate Safe(setting: Setting, s: State) {
    && AllFit(s) && Locks(s) && Dated(s) && OneSupervisor(s) && Children(setting, s)
    && Epochs(s) && Quiet(setting, s) && Reloads(setting, s)
    && (setting.parentDeath && setting.wireSafe ==> NoneForgotten(s))
  }

  // ---- Kept by a process's own step --------------------------------------------------

  /** A process's step changes its own record and what its effect says, nothing else. */
  lemma TakeFrame(setting: Setting, s: State, p: Pid, turn: Turn, t: State)
    requires p in s.processes && t == Take(setting, s, p, turn)
    ensures t.processes == s.processes[p := turn.next]
    ensures t.gatewayLock == if turn.effect.LockGateway? then Some(p) else if turn.effect.UnlockGateway? then None
      else s.gatewayLock
    ensures t.reloadLock == if turn.effect.LockReload? then Some(p) else if turn.effect.UnlockReload? then None
      else s.reloadLock
    ensures t.clock >= s.clock
    ensures s.quiesced.removals <= t.quiesced.removals && s.disabled.removals <= t.disabled.removals
    ensures t.quiesced.removals == s.quiesced.removals ==> s.quiesced.present ==> t.quiesced.present
    ensures t.disabled.removals == s.disabled.removals ==> s.disabled.present ==> t.disabled.present
    ensures forall c :: c in t.supervisors && c !in s.supervisors ==> turn.effect.StartCapture?
    ensures forall g :: g in t.gateways ==> g in s.gateways && t.gateways[g] == s.gateways[g]
  {
  }

  lemma MoveFits(setting: Setting, s: State, p: Pid, turn: Turn, t: State)
    requires p in s.processes && t == Take(setting, s, p, turn)
    requires AllFit(s) && Controlled(s, s.processes[p], turn)
    ensures AllFit(t)
  {
    TakeFrame(setting, s, p, turn, t);
  }

  lemma MoveLocks(setting: Setting, s: State, p: Pid, turn: Turn, t: State)
    requires p in s.processes && t == Take(setting, s, p, turn)
    requires Locks(s) && Locking(s, s.processes[p], turn)
    ensures Locks(t)
  {
    TakeFrame(setting, s, p, turn, t);
    OwnLocks(s, p, turn, t);
  }

  lemma OwnLocks(s: State, p: Pid, turn: Turn, t: State)
    requires p in s.processes && Locks(s) && Locking(s, s.processes[p], turn)
    requires t.processes == s.processes[p := turn.next]
    requires t.gatewayLock == if turn.effect.LockGateway? then Some(p) else if turn.effect.UnlockGateway? then None
      else s.gatewayLock
    requires t.reloadLock == if turn.effect.LockReload? then Some(p) else if turn.effect.UnlockReload? then None
      else s.reloadLock
    ensures Locks(t)
  {
  }

  lemma MoveDated(setting: Setting, s: State, p: Pid, turn: Turn, t: State)
    requires p in s.processes && t == Take(setting, s, p, turn)
    requires Dated(s) && Replaces(s, s.processes[p], turn)
    ensures Dated(t)
  {
  }

  lemma MoveOneSupervisor(setting: Setting, s: State, p: Pid, turn: Turn, t: State)
    requires p in s.processes && t == Take(setting, s, p, turn)
    requires Locks(s) && OneSupervisor(s) && Spawns(s, s.processes[p], turn)
    ensures OneSupervisor(t)
  {
    TakeFrame(setting, s, p, turn, t);
    forall q | q in t.processes && t.processes[q].pc.SpawnCapture? ensures t.supervisors == {} {
      if q != p {
        OnlySpawner(s, p, q, turn);
      }
    }
  }

  /** Who is about to start a supervisor holds the lock, so nobody else starts one. */
  lemma OnlySpawner(s: State, p: Pid, q: Pid, turn: Turn)
    requires Locks(s) && OneSupervisor(s) && p in s.processes && q in s.processes && p != q
    requires s.processes[q].pc.SpawnCapture? && Spawns(s, s.processes[p], turn)
    ensures !turn.effect.StartCapture? && s.supervisors == {}
  {
    assert HoldsGateway(s.processes[q]);
  }

  lemma MoveChildren(setting: Setting, s: State, p: Pid, turn: Turn, t: State)
    requires p in s.processes && t == Take(setting, s, p, turn)
    requires Dated(s) && Children(setting, s)
    ensures Children(setting, t)
  {
  }

  lemma MoveEpochs(setting: Setting, s: State, p: Pid, turn: Turn, t: State)
    requires p in s.processes && t == Take(setting, s, p, turn)
    requires Epochs(s) && Marks(s, s.processes[p], turn) && turn.next.command == s.processes[p].command
    ensures Epochs(t)
  {
    TakeFrame(setting, s, p, turn, t);
    forall q | q in t.processes && Marked(t.processes[q]) ensures Witnessed(t, t.processes[q]) {
      if q != p || Marked(s.processes[p]) {
        assert Witnessed(s, s.processes[q]);
      }
    }
  }

  /** A process whose word still holds after a step had it before, or gives it now. */
  lemma StillInForce(setting: Setting, s: State, p: Pid, turn: Turn, t: State, q: Pid)
    requires p in s.processes && t == Take(setting, s, p, turn)
    requires Epochs(s) && Marks(s, s.processes[p], turn) && turn.next.command == s.processes[p].command
    requires q in t.processes && InForce(t, t.processes[q])
    ensures q in s.processes
    ensures InForce(s, s.processes[q])
      || (q == p && s.processes[p].pc.CheckCaptures? && |s.supervisors| == 0 && turn.effect.Nothing?)
    ensures InForce(s, s.processes[q]) ==> MarkerOf(s, s.processes[q].command).present
  {
    TakeFrame(setting, s, p, turn, t);
    assert Marked(t.processes[q]);
    if q != p || Settled(s.processes[p]) {
      assert Marked(s.processes[q]) && Witnessed(s, s.processes[q]);
    }
  }

  lemma MoveQuiet(setting: Setting, s: State, p: Pid, turn: Turn, t: State)
    requires p in s.processes && t == Take(setting, s, p, turn)
    requires Locks(s) && Children(setting, s) && Epochs(s) && Quiet(setting, s)
    requires Lawful(setting, s, s.processes[p], turn)
    ensures Quiet(setting, t)
  {
    TakeFrame(setting, s, p, turn, t);
    forall q | q in t.processes && InForce(t, t.processes[q])
      ensures NoneRunning(setting, t)
      ensures forall o :: o in t.processes ==> !Past(t.processes[q].command, t.processes[o].pc)
    {
      StillInForce(setting, s, p, turn, t, q);
      if InForce(s, s.processes[q]) {
        StaysQuiet(setting, s, p, turn, t, s.processes[q]);
      } else {
        GoesQuiet(setting, s, p, turn, t);
      }
    }
  }

  lemma StaysQuiet(setting: Setting, s: State, p: Pid, turn: Turn, t: State, r: Process)
    requires p in s.processes && t == Take(setting, s, p, turn)
    requires Spawns(s, s.processes[p], turn) && MarkerOf(s, r.command).present
    requires r.command == Pause || r.command == Disable
    requires NoneRunning(setting, s) && forall o :: o in s.processes ==> !Past(r.command, s.processes[o].pc)
    ensures NoneRunning(setting, t) && forall o :: o in t.processes ==> !Past(r.command, t.processes[o].pc)
  {
    TakeFrame(setting, s, p, turn, t);
    assert !Past(r.command, s.processes[p].pc);
  }

  lemma GoesQuiet(setting: Setting, s: State, p: Pid, turn: Turn, t: State)
    requires p in s.processes && t == Take(setting, s, p, turn)
    requires Locks(s) && Children(setting, s)
    requires s.processes[p].pc.CheckCaptures? && |s.supervisors| == 0 && turn.effect.Nothing?
    requires turn.next.pc == StopRelease(true)
    ensures NoneRunning(setting, t) && forall o :: o in t.processes ==> !Past(t.processes[p].command, t.processes[o].pc)
  {
    assert HoldsGateway(s.processes[p]);
    forall o | o in t.processes ensures !Past(t.processes[p].command, t.processes[o].pc) {
      if o != p {
        assert HoldsGateway(s.processes[o]) ==> s.gatewayLock == Some(o);
      }
    }
  }

  lemma MoveReloads(setting: Setting, s: State, p: Pid, turn: Turn, t: State)
    requires p in s.processes && t == Take(setting, s, p, turn)
    requires Children(setting, s) && Reloads(setting, s) && Replaces(s, s.processes[p], turn)
    ensures Reloads(setting, t)
  {
    TakeFrame(setting, s, p, turn, t);
  }

  lemma MoveNoneForgotten(setting: Setting, s: State, p: Pid, turn: Turn, t: State)
    requires p in s.processes && t == Take(setting, s, p, turn)
    requires Locks(s) && Dated(s) && Reloads(setting, s) && NoneForgotten(s)
    requires Lawful(setting, s, s.processes[p], turn) && setting.parentDeath && setting.wireSafe
    ensures NoneForgotten(t)
  {
    TakeFrame(setting, s, p, turn, t);
    forall g | g in t.gateways ensures t.gateways[g].config == t.config || Asked(t, g) || Registering(t) {
      if turn.effect.AskReload? {
        assert s.clock in t.requests && g < s.clock;
      } else if turn.effect.ChangeConfig? || Registering(s) {
        if !Registering(t) {
          StopsRegistering(setting, s, p, turn, t);
        }
      } else if Asked(s, g) {
        var q :| q in s.requests && g < q;
        StaysAsked(setting, s, p, turn, t, g, q);
      }
    }
  }

  /** A registration ends without a request only when no gateway runs. */
  lemma StopsRegistering(setting: Setting, s: State, p: Pid, turn: Turn, t: State)
    requires p in s.processes && t == Take(setting, s, p, turn) && Locks(s)
    requires Lawful(setting, s, s.processes[p], turn) && setting.wireSafe
    requires turn.effect.ChangeConfig? || Registering(s)
    ensures Registering(t) || turn.effect.AskReload? || s.gateways == map[]
  {
    TakeFrame(setting, s, p, turn, t);
    if Changing(s.processes[p]) {
      assert HoldsReload(s.processes[p]) && s.reloadLock == Some(p);
    } else {
      assert s.reloadLock.value != p;
    }
  }

  /** A request stays until it is dropped, and it is dropped only when every gateway is
      younger. */
  lemma StaysAsked(setting: Setting, s: State, p: Pid, turn: Turn, t: State, g: Moment, q: Moment)
    requires p in s.processes && t == Take(setting, s, p, turn) && Reloads(setting, s) && setting.parentDeath
    requires Replaces(s, s.processes[p], turn) && g in s.gateways && q in s.requests && g < q
    ensures Asked(t, g)
  {
    assert q in t.requests;
  }

  lemma MoveSafe(setting: Setting, s: State, p: Pid, luck: bool, pick: Moment)
    requires p in s.processes && Safe(setting, s)
    ensures Safe(setting, Take(setting, s, p, Next(setting, s, s.processes[p], luck, pick)))
  {
    var turn := Next(setting, s, s.processes[p], luck, pick);
    EveryTurnLawful(setting, s, s.processes[p], luck, pick);
    LawfulSafe(setting, s, p, turn, Take(setting, s, p, turn));
  }

  lemma LawfulSafe(setting: Setting, s: State, p: Pid, turn: Turn, t: State)
    requires p in s.processes && Safe(setting, s) && Lawful(setting, s, s.processes[p], turn)
    requires t == Take(setting, s, p, turn)
    ensures Safe(setting, t)
  {
    MoveFits(setting, s, p, turn, t);
    MoveLocks(setting, s, p, turn, t);
    MoveDated(setting, s, p, turn, t);
    MoveOneSupervisor(setting, s, p, turn, t);
    MoveChildren(setting, s, p, turn, t);
    MoveEpochs(setting, s, p, turn, t);
    MoveQuiet(setting, s, p, turn, t);
    MoveReloads(setting, s, p, turn, t);
    if setting.parentDeath && setting.wireSafe {
      MoveNoneForgotten(setting, s, p, turn, t);
    }
  }

  // ---- Kept by everything else -------------------------------------------------------

  /** A process that has done nothing yet. */
  predicate Newcomer(r: Process) {
    && Fits(r) && !HoldsGateway(r) && !HoldsReload(r) && !Marked(r) && !Settled(r) && !Replaced(r) && r.found == {}
    && !(r.pc.RecheckDisabled? || r.pc.ScanGateways? || r.pc.ScanCaptures? || r.pc.SpawnCapture?)
  }

  lemma JoinLocks(s: State, p: Pid, r: Process, t: State)
    requires p !in s.processes && Newcomer(r) && t == s.(processes := s.processes[p := r])
    requires AllFit(s) && Locks(s) && Dated(s) && OneSupervisor(s)
    ensures AllFit(t) && Locks(t) && Dated(t) && OneSupervisor(t)
  {
  }

  lemma JoinQuiet(setting: Setting, s: State, p: Pid, r: Process, t: State)
    requires p !in s.processes && Newcomer(r) && t == s.(processes := s.processes[p := r])
    requires Epochs(s) && Quiet(setting, s) && Reloads(setting, s)
    ensures Epochs(t) && Quiet(setting, t) && Reloads(setting, t)
  {
    forall q | q in t.processes && Marked(t.processes[q]) ensures Witnessed(t, t.processes[q]) {
      assert Witnessed(s, s.processes[q]);
    }
    forall q | q in t.processes && InForce(t, t.processes[q])
      ensures NoneRunning(setting, t)
      ensures forall o :: o in t.processes ==> !Past(t.processes[q].command, t.processes[o].pc)
    {
      assert InForce(s, s.processes[q]);
    }
  }

  lemma JoinNoneForgotten(s: State, p: Pid, r: Process, t: State)
    requires p !in s.processes && t == s.(processes := s.processes[p := r]) && NoneForgotten(s)
    ensures NoneForgotten(t)
  {
    assert Registering(s) ==> Registering(t);
    assert forall g :: g in s.gateways && Asked(s, g) ==> Asked(t, g);
  }

  lemma LaunchSafe(setting: Setting, s: State, p: Pid, command: Command)
    requires Safe(setting, s)
    ensures Safe(setting, Step(setting, s, Launch(p, command)))
  {
    if p !in s.processes {
      var r := Process(command, Entry(command), 0, {}, 0, None);
      JoinSafe(setting, s, p, r, s.(processes := s.processes[p := r]));
    }
  }

  lemma JoinSafe(setting: Setting, s: State, p: Pid, r: Process, t: State)
    requires Safe(setting, s) && p !in s.processes && Newcomer(r) && t == s.(processes := s.processes[p := r])
    ensures Safe(setting, t)
  {
    JoinLocks(s, p, r, t);
    JoinQuiet(setting, s, p, r, t);
    assert Children(setting, t);
    if setting.parentDeath && setting.wireSafe {
      JoinNoneForgotten(s, p, r, t);
    }
  }

  lemma DeathSafe(setting: Setting, s: State, p: Pid)
    requires Safe(setting, s)
    ensures Safe(setting, Step(setting, s, Die(p)))
  {
  }

  lemma ChildStartsSafe(setting: Setting, s: State, c: Moment)
    requires Safe(setting, s)
    ensures Safe(setting, Step(setting, s, ChildStarts(c)))
  {
  }

  lemma ChildExitsSafe(setting: Setting, s: State, g: Moment)
    requires Safe(setting, s)
    ensures Safe(setting, Step(setting, s, ChildExits(g)))
  {
  }

  lemma SupervisorExitsSafe(setting: Setting, s: State, c: Moment)
    requires Safe(setting, s)
    ensures Safe(setting, Step(setting, s, SupervisorExits(c)))
  {
  }

  lemma MarkersQuiet(setting: Setting, s: State, quiesced: Marker, disabled: Marker, t: State)
    requires Epochs(s) && Quiet(setting, s) && t == s.(quiesced := quiesced, disabled := disabled)
    requires quiesced in {s.quiesced, s.quiesced.Touched(), s.quiesced.Removed()}
    requires disabled in {s.disabled, s.disabled.Touched(), s.disabled.Removed()}
    ensures Epochs(t) && Quiet(setting, t)
  {
    forall q | q in t.processes && Marked(t.processes[q]) ensures Witnessed(t, t.processes[q]) {
      assert Witnessed(s, s.processes[q]);
    }
    forall q | q in t.processes && InForce(t, t.processes[q])
      ensures NoneRunning(setting, t)
      ensures forall o :: o in t.processes ==> !Past(t.processes[q].command, t.processes[o].pc)
    {
      assert Witnessed(s, s.processes[q]);
      assert InForce(s, s.processes[q]);
    }
  }

  lemma MarkerChangesSafe(setting: Setting, s: State, quiesce: bool, touch: bool)
    requires Safe(setting, s)
    ensures Safe(setting, Step(setting, s, MarkerChanges(quiesce, touch)))
  {
    var t := Step(setting, s, MarkerChanges(quiesce, touch));
    MarkersQuiet(setting, s, t.quiesced, t.disabled, t);
    OnlyMarkers(setting, s, t.quiesced, t.disabled, t);
  }

  lemma OnlyMarkers(setting: Setting, s: State, quiesced: Marker, disabled: Marker, t: State)
    requires Safe(setting, s) && t == s.(quiesced := quiesced, disabled := disabled)
    ensures AllFit(t) && Locks(t) && Dated(t) && OneSupervisor(t) && Children(setting, t) && Reloads(setting, t)
    ensures setting.parentDeath && setting.wireSafe ==> NoneForgotten(t)
  {
    assert Registering(s) == Registering(t);
    assert forall g :: g in s.gateways && Asked(s, g) ==> Asked(t, g);
  }

  /** Every event keeps every invariant. */
  lemma StepSafe(setting: Setting, s: State, e: Event)
    requires Safe(setting, s)
    ensures Safe(setting, Step(setting, s, e))
  {
    match e
    case Launch(p, command) => LaunchSafe(setting, s, p, command);
    case Move(p, luck, pick) => if p in s.processes { MoveSafe(setting, s, p, luck, pick); }
    case Die(p) => DeathSafe(setting, s, p);
    case ChildStarts(c) => ChildStartsSafe(setting, s, c);
    case ChildExits(g) => ChildExitsSafe(setting, s, g);
    case SupervisorExits(c) => SupervisorExitsSafe(setting, s, c);
    case MarkerChanges(quiesce, touch) => MarkerChangesSafe(setting, s, quiesce, touch);
  }

  lemma {:induction false} RunSafe(setting: Setting, s: State, events: seq<Event>)
    requires Safe(setting, s)
    ensures Safe(setting, RunFrom(setting, s, events))
    decreases |events|
  {
    if events != [] {
      StepSafe(setting, s, events[0]);
      RunSafe(setting, Step(setting, s, events[0]), events[1..]);
    }
  }

  lemma ReachableSafe(setting: Setting, s: State)
    requires Reachable(setting, s)
    ensures Safe(setting, s)
  {
    var events :| Run(setting, events) == s;
    RunSafe(setting, INITIAL, events);
  }

  // ---- What follows for every run ------------------------------------------------------

  /** At most one process is in a lock's critical section, and a lock that is taken belongs
      to a live process in it: no death leaves a lock behind. */
  lemma LocksExclude(setting: Setting, s: State, p: Pid, q: Pid)
    requires Reachable(setting, s) && p in s.processes && q in s.processes
    ensures HoldsGateway(s.processes[p]) && HoldsGateway(s.processes[q]) ==> p == q
    ensures HoldsReload(s.processes[p]) && HoldsReload(s.processes[q]) ==> p == q
    ensures s.gatewayLock.Some? ==> s.gatewayLock.value in s.processes && HoldsGateway(s.processes[s.gatewayLock.value])
    ensures s.reloadLock.Some? ==> s.reloadLock.value in s.processes && HoldsReload(s.processes[s.reloadLock.value])
  {
    ReachableSafe(setting, s);
  }

  lemma AtMostOne(ids: set<Moment>)
    requires forall a, b :: a in ids && b in ids ==> a == b
    ensures |ids| <= 1
  {
    if ids != {} {
      var a :| a in ids;
      assert ids == {a};
    }
  }

  /** There is never more than one supervisor, nor, when a supervisor takes its child with
      it, more than one gateway. */
  lemma OneGateway(setting: Setting, s: State)
    requires Reachable(setting, s)
    ensures |s.supervisors| <= 1 && (setting.parentDeath ==> |s.gateways| <= 1)
  {
    ReachableSafe(setting, s);
    AtMostOne(s.supervisors);
    if setting.parentDeath {
      forall g, h | g in s.gateways && h in s.gateways ensures g == h {
        assert Siblings(s, g, h);
      }
      AtMostOne(s.gateways.Keys);
      assert |s.gateways| == |s.gateways.Keys|;
    }
  }

  /** A finished command stays as it finished. */
  lemma {:induction false} DoneStays(setting: Setting, s: State, p: Pid, events: seq<Event>)
    requires p in s.processes && s.processes[p].pc.Done?
    ensures p in RunFrom(setting, s, events).processes && RunFrom(setting, s, events).processes[p] == s.processes[p]
    decreases |events|
  {
    if events != [] {
      DoneStaysOnce(setting, s, p, events[0]);
      DoneStays(setting, Step(setting, s, events[0]), p, events[1..]);
    }
  }

  lemma DoneStaysOnce(setting: Setting, s: State, p: Pid, e: Event)
    requires p in s.processes && s.processes[p].pc.Done?
    ensures p in Step(setting, s, e).processes && Step(setting, s, e).processes[p] == s.processes[p]
  {
    if e.Move? && e.pid in s.processes {
      var turn := Next(setting, s, s.processes[e.pid], e.luck, e.pick);
      TakeFrame(setting, s, e.pid, turn, Take(setting, s, e.pid, turn));
    }
  }

  /** Once pause or gateway-disable has succeeded, whatever any process does next, no
      supervisor and no gateway runs and no starter is about to start one, as long as the
      marker has not been removed since the command saw it. */
  lemma StoppedUntilRemoved(setting: Setting, s: State, p: Pid, events: seq<Event>, t: State)
    requires Reachable(setting, s) && t == RunFrom(setting, s, events)
    requires p in s.processes && (s.processes[p].command == Pause || s.processes[p].command == Disable)
    requires s.processes[p].pc == Done(0)
    requires MarkerOf(t, s.processes[p].command).removals == s.processes[p].epoch
    ensures t.supervisors == {} && (setting.parentDeath ==> t.gateways == map[])
    ensures MarkerOf(t, s.processes[p].command).present
    ensures forall q :: q in t.processes ==> !Past(s.processes[p].command, t.processes[q].pc)
  {
    ReachableSafe(setting, s);
    RunSafe(setting, s, events);
    DoneStays(setting, s, p, events);
    assert InForce(t, t.processes[p]);
    assert Marked(t.processes[p]) && Witnessed(t, t.processes[p]);
  }

  /** A request disappears only when every gateway running then was started after it was
      made. */
  lemma RequestsServed(setting: Setting, s: State, e: Event, request: Moment)
    requires setting.parentDeath && Reachable(setting, s)
    requires request in s.requests && request !in Step(setting, s, e).requests
    ensures forall g :: g in s.gateways ==> request < g
  {
    ReachableSafe(setting, s);
    OnlyMovesDrop(setting, s, e, request);
    var r := s.processes[e.pid];
    var turn := Next(setting, s, r, e.luck, e.pick);
    EveryTurnLawful(setting, s, r, e.luck, e.pick);
    OnlyDropsDrop(setting, s, e.pid, turn, request);
    assert Replaced(r) && request in Left(r);
  }

  lemma OnlyMovesDrop(setting: Setting, s: State, e: Event, request: Moment)
    requires request in s.requests && request !in Step(setting, s, e).requests
    ensures e.Move? && e.pid in s.processes
  {
  }

  lemma OnlyDropsDrop(setting: Setting, s: State, p: Pid, turn: Turn, request: Moment)
    requires p in s.processes && request in s.requests && request !in Take(setting, s, p, turn).requests
    ensures turn.effect == DropRequest(request)
  {
  }

  /** A gateway with an older config always has a reload coming: a request made after it
      started is pending, or a registration that will make one holds the reload lock. */
  lemma StaleGatewayReloads(setting: Setting, s: State, g: Moment)
    requires setting.parentDeath && setting.wireSafe && Reachable(setting, s)
    requires g in s.gateways && s.gateways[g].config != s.config
    ensures (exists q :: q in s.requests && g < q) || Registering(s)
  {
    ReachableSafe(setting, s);
    assert Asked(s, g) || Registering(s);
  }
}
