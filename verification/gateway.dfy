/** Any number of hb processes starting, stopping, pausing, enabling, disabling, reloading
    and re-registering one gateway daemon, next to the supervisor that restarts it. Every
    step reads or changes shared state once, so a run may switch between processes between
    any two steps, and a process may die before any step. */
module Gateway {
  import opened Options

  type Pid = nat
  /** Daemons and request files are named by the moment they were created. */
  type Moment = nat

  datatype Command = Up | Reconcile | Pause | Resume | Enable | Disable | Reload | Wire

  /** Where a process stands. The status codes are hb's: 0 done, 1 failed, 2 lock busy. */
  datatype Pc =
    | Begin | CheckMarker | RemoveQuiesced | RemoveDisabled | Prepare
    // _start_gateway
    | StartCheckQuiesced | StartCheckDisabled | StartLock
    | RecheckQuiesced | RecheckDisabled | ScanGateways | ScanCaptures
    | Await(wrapper: Moment, pending: bool) | AwaitAlive(wrapper: Moment, pending: bool)
    | SpawnCapture | TermWrapper(wrapper: Moment) | StartRelease(status: nat) | Started(status: nat)
    // _stop_gateway
    | StopLock | StopScan | Killing(captures: set<Moment>, gateways: set<Moment>)
    | CheckGateways | CheckCaptures | StopRelease(ok: bool) | Stopped(ok: bool)
    | TouchDisabled
    // gateway_reload_if_requested
    | ReloadLock | ReloadFind | ReloadScanGateways | ReloadScanCaptures
    | ReloadProbe | ReloadDelete(left: set<Moment>) | ReloadRelease(status: nat)
    // wire_mcp, after its call of up
    | WireLock | WireChange | WireScan | WireRequest | WireRelease(status: nat)
    | Done(status: nat)

  /** One hb process: its command, where it stands, how often the marker it set had been
      removed when it saw the marker, the requests it found, its retries, and, for a stop that
      succeeded while its marker was there, how often that had been removed by then. */
  datatype Process = Process(command: Command, pc: Pc, epoch: nat, found: set<Moment>, retries: nat, ended: Option<nat>)

  /** A running gateway: the supervisor that started it and the config it read. */
  datatype Daemon = Daemon(parent: Moment, config: nat)

  /** The markers count their removals; a removal of an absent marker is not one. */
  datatype Marker = Marker(present: bool, removals: nat) {
    function Touched(): Marker { this.(present := true) }
    function Removed(): Marker { if present then Marker(false, removals + 1) else this }
  }

  datatype State = State(
    processes: map<Pid, Process>,
    gatewayLock: Option<Pid>,
    reloadLock: Option<Pid>,
    quiesced: Marker,
    disabled: Marker,
    supervisors: set<Moment>,
    gateways: map<Moment, Daemon>,
    requests: set<Moment>,
    config: nat,
    clock: Moment)

  /** What a run may assume: that a supervisor's death takes its child with it, that a
      registration which changed the config neither fails nor dies before it is over, and that
      nobody removes a marker while a stop that has seen it is under way. */
  datatype Setting = Setting(parentDeath: bool, wireSafe: bool, steadyMarkers: bool)

  const INITIAL := State(map[], None, None, Marker(false, 0), Marker(false, 0), {}, map[], {}, 0, 0)

  datatype Event =
    | Launch(pid: Pid, command: Command)
    | Move(pid: Pid, luck: bool, pick: Moment)
    | Die(pid: Pid)
    | ChildStarts(supervisor: Moment)
    | ChildExits(gateway: Moment)
    | SupervisorExits(supervisor: Moment)
    | MarkerChanges(quiesce: bool, touch: bool)

  /** What a step does to the state that the processes share. */
  datatype Effect =
    | Nothing
    | LockGateway | UnlockGateway | LockReload | UnlockReload
    | TouchMarker(quiesce: bool) | RemoveMarker(quiesce: bool)
    | StartCapture | KillCapture(capture: Moment) | KillGateway(gateway: Moment)
    | ChangeConfig | AskReload | DropRequest(request: Moment)

  /** One step of a process: where it stands afterwards, and its effect. */
  datatype Turn = Turn(next: Process, effect: Effect)

  // ---- Where a process may stand ---------------------------------------------------

  /** Past _start_gateway's lock and before its release. */
  predicate Starting(pc: Pc) {
    pc.RecheckQuiesced? || pc.RecheckDisabled? || pc.ScanGateways? || pc.ScanCaptures? || pc.Await? || pc.AwaitAlive?
    || pc.SpawnCapture? || pc.TermWrapper? || pc.StartRelease?
  }

  /** Past _stop_gateway's lock and before its release. */
  predicate Stopping(pc: Pc) {
    pc.StopScan? || pc.Killing? || pc.CheckGateways? || pc.CheckCaptures? || pc.StopRelease?
  }

  predicate InReload(pc: Pc) {
    pc.ReloadLock? || pc.ReloadFind? || pc.ReloadScanGateways? || pc.ReloadScanCaptures? || pc.ReloadProbe?
    || pc.ReloadDelete? || pc.ReloadRelease?
  }

  predicate InWire(pc: Pc) {
    pc.WireLock? || pc.WireChange? || pc.WireScan? || pc.WireRequest? || pc.WireRelease?
  }

  predicate HoldsGateway(r: Process) {
    Starting(r.pc) || Stopping(r.pc)
  }

  predicate HoldsReload(r: Process) {
    match r.command
    case Reload => !r.pc.ReloadLock? && !r.pc.Done?
    case Wire => InWire(r.pc) && !r.pc.WireLock?
    case _ => false
  }

  /** A registration that may have changed the config and has not yet asked for a reload. */
  predicate Changing(r: Process) {
    r.command == Wire && (r.pc.WireChange? || r.pc.WireScan? || r.pc.WireRequest?)
  }

  // ---- The commands ----------------------------------------------------------------

  function Goto(r: Process, pc: Pc): Turn {
    Turn(r.(pc := pc), Nothing)
  }

  function Doing(r: Process, effect: Effect, pc: Pc): Turn {
    Turn(r.(pc := pc), effect)
  }

  /** Where a command begins. */
  function Entry(command: Command): Pc {
    match command
    case Reload => ReloadLock
    case Up => RemoveQuiesced
    case _ => Begin
  }

  /** What the other commands do first: look at the quiesce marker, remove it, or set their
      own marker. Unlucky steps are file operations or other checks that fail. */
  function MoveBegin(s: State, r: Process, luck: bool): Turn {
    match r.command
    case Resume => if luck then Doing(r, RemoveMarker(true), RemoveQuiesced) else Goto(r, Done(1))
    case Wire => Goto(r, if s.quiesced.present || !luck then Done(1) else RemoveQuiesced)
    case Enable => Goto(r, if s.quiesced.present || !luck then Done(1) else RemoveDisabled)
    case Reconcile => Goto(r, if s.quiesced.present then Done(if luck then 0 else 1) else Prepare)
    case Pause => Doing(r, if luck then TouchMarker(true) else Nothing, CheckMarker)
    case Disable => Doing(r, if luck then TouchMarker(false) else Nothing, CheckMarker)
    case _ => Goto(r, r.pc)
  }

  /** Removing a marker before starting; the executor comes up in between. */
  function MoveRemove(r: Process, luck: bool): Turn {
    match r.pc
    case RemoveQuiesced => if luck then Doing(r, RemoveMarker(true), Prepare) else Goto(r, Done(1))
    case RemoveDisabled => if luck then Doing(r, RemoveMarker(false), StartCheckQuiesced) else Goto(r, Done(1))
    case _ => Goto(r, if luck then StartCheckQuiesced else Done(1))
  }

  /** The marker of a stopping command. */
  function MarkerOf(s: State, command: Command): Marker {
    if command == Disable then s.disabled else s.quiesced
  }

  /** A stopping command goes on only when its marker really exists. */
  function MoveCheck(s: State, r: Process): Turn {
    if MarkerOf(s, r.command).present
    then Turn(r.(pc := StopLock, epoch := MarkerOf(s, r.command).removals), Nothing)
    else Goto(r, Done(1))
  }

  /** _start_gateway. */
  function MoveStart(s: State, r: Process, luck: bool, pick: Moment): Turn {
    match r.pc
    case StartCheckQuiesced => Goto(r, if s.quiesced.present then Started(0) else StartCheckDisabled)
    case StartCheckDisabled =>
      Goto(r, if s.disabled.present then Started(0) else if luck then StartLock else Started(1))
    case StartLock =>
      if s.gatewayLock.None? && luck then Doing(r, LockGateway, RecheckQuiesced) else Goto(r, Started(2))
    case RecheckQuiesced => Goto(r, if s.quiesced.present then StartRelease(0) else RecheckDisabled)
    case RecheckDisabled => Goto(r, if s.disabled.present then StartRelease(0) else ScanGateways)
    case ScanGateways =>
      Goto(r, if |s.gateways| == 0 then ScanCaptures else StartRelease(if |s.gateways| == 1 then 0 else 1))
    case ScanCaptures =>
      Goto(r,
        if |s.supervisors| == 0 then SpawnCapture
        else if |s.supervisors| > 1 then StartRelease(1)
        else if pick in s.supervisors then Await(pick, true)
        else ScanCaptures)
    case Await(wrapper, pending) =>
      Goto(r,
        if |s.gateways| == 0 then AwaitAlive(wrapper, pending)
        else if |s.gateways| == 1 then StartRelease(0)
        else if pending then StartRelease(1)
        else TermWrapper(wrapper))
    case AwaitAlive(wrapper, pending) =>
      Goto(r,
        if wrapper !in s.supervisors then (if pending then StartRelease(1) else TermWrapper(wrapper))
        else if pending || !luck then StartRelease(0)
        else Await(wrapper, false))
    case SpawnCapture => Doing(r, StartCapture, Await(s.clock, false))
    case TermWrapper(wrapper) => Goto(r, if wrapper in s.supervisors then r.pc else StartRelease(1))
    case StartRelease(status) => Doing(r, UnlockGateway, Started(status))
    case _ => Goto(r, r.pc)
  }

  const MAX_RETRIES := 5

  /** What each command does when _start_gateway has returned. */
  function MoveStarted(r: Process, status: nat, luck: bool): Turn {
    match r.command
    case Wire => Goto(r, if status == 0 && luck then WireLock else Done(1))
    case Enable => Goto(r, if status == 0 then Done(0) else if status == 2 then TouchDisabled else StopLock)
    case Reload =>
      Goto(r,
        if status == 0 then ReloadDelete(r.found)
        else if status == 2 && r.retries < MAX_RETRIES then ReloadProbe
        else ReloadRelease(1))
    case Reconcile => Goto(r, Done(status))
    case _ => Goto(r, if status == 0 && !luck then Done(1) else Done(status))
  }

  /** _stop_gateway. The TERM round is only a chance to exit, which a daemon always has. */
  function MoveStop(s: State, r: Process, luck: bool, pick: Moment): Turn {
    match r.pc
    case StopLock => if s.gatewayLock.None? && luck then Doing(r, LockGateway, StopScan) else Goto(r, Stopped(false))
    case StopScan => Goto(r, Killing(s.supervisors, s.gateways.Keys))
    case Killing(captures, gateways) =>
      if captures != {} then
        if pick in captures then Doing(r, KillCapture(pick), Killing(captures - {pick}, gateways)) else Goto(r, r.pc)
      else if gateways != {} then
        if pick in gateways then Doing(r, KillGateway(pick), Killing(captures, gateways - {pick})) else Goto(r, r.pc)
      else Goto(r, CheckGateways)
    case CheckGateways => Goto(r, if |s.gateways| == 0 then CheckCaptures else StopRelease(false))
    case CheckCaptures => Goto(r, StopRelease(|s.supervisors| == 0))
    case StopRelease(ok) => Doing(r, UnlockGateway, Stopped(ok))
    case _ => Goto(r, r.pc)
  }

  /** A stopping command succeeds. */
  function Ends(s: State, r: Process): Turn {
    var marker := MarkerOf(s, r.command);
    Turn(r.(pc := Done(0), ended := if marker.present then Some(marker.removals) else None), Nothing)
  }

  /** What each command does when _stop_gateway has returned. */
  function MoveStopped(s: State, r: Process, ok: bool, luck: bool): Turn {
    match r.command
    case Pause => if ok && luck then Ends(s, r) else Goto(r, Done(1))
    case Disable => if ok then Ends(s, r) else Goto(r, Done(1))
    case Enable => Goto(r, TouchDisabled)
    case Reload => Goto(r, if ok then StartCheckQuiesced else ReloadRelease(1))
    case _ => Goto(r, if ok then Done(0) else Done(1))
  }

  /** gateway_reload_if_requested. */
  function MoveReload(s: State, r: Process, luck: bool, pick: Moment): Turn {
    match r.pc
    case ReloadLock => if s.reloadLock.None? && luck then Doing(r, LockReload, ReloadFind) else Goto(r, Done(1))
    case ReloadFind => Goto(r.(found := s.requests), if s.requests == {} then ReloadRelease(0) else ReloadScanGateways)
    case ReloadScanGateways => Goto(r, if |s.gateways| == 0 then ReloadScanCaptures else StopLock)
    case ReloadScanCaptures => Goto(r, if |s.supervisors| == 0 then ReloadDelete(r.found) else ReloadRelease(0))
    case ReloadProbe =>
      if |s.gateways| > 0 then Goto(r, ReloadDelete(r.found))
      else Goto(r.(retries := r.retries + 1), StartCheckQuiesced)
    case ReloadDelete(left) =>
      if pick in left then Doing(r, if luck then DropRequest(pick) else Nothing, ReloadDelete(left - {pick}))
      else Goto(r, if left == {} then ReloadRelease(0) else r.pc)
    case ReloadRelease(status) => Doing(r, UnlockReload, Done(status))
    case _ => Goto(r, r.pc)
  }

  /** The registering part of wire_mcp. */
  function MoveWire(setting: Setting, s: State, r: Process, luck: bool, fails: bool): Turn {
    match r.pc
    case WireLock => if s.reloadLock.None? && luck then Doing(r, LockReload, WireChange) else Goto(r, Done(1))
    case WireChange =>
      if luck then Doing(r, ChangeConfig, WireChange)
      else Goto(r, if fails && !setting.wireSafe then WireRelease(1) else WireScan)
    case WireScan => Goto(r, if |s.gateways| == 0 then WireRelease(0) else WireRequest)
    case WireRequest =>
      if fails && !setting.wireSafe then Goto(r, WireRelease(1)) else Doing(r, AskReload, WireRelease(0))
    case WireRelease(status) => Doing(r, UnlockReload, Done(status))
    case _ => Goto(r, r.pc)
  }

  /** The next step of a process. */
  function Next(setting: Setting, s: State, r: Process, luck: bool, pick: Moment): Turn {
    if r.pc.Begin? then MoveBegin(s, r, luck)
    else if r.pc.CheckMarker? then MoveCheck(s, r)
    else if r.pc.RemoveQuiesced? || r.pc.RemoveDisabled? || r.pc.Prepare? then MoveRemove(r, luck)
    else if r.pc.Started? then MoveStarted(r, r.pc.status, luck)
    else if r.pc.Stopped? then MoveStopped(s, r, r.pc.ok, luck)
    else if r.pc.TouchDisabled? then Doing(r, if luck then TouchMarker(false) else Nothing, Done(1))
    else if r.pc.StopLock? || Stopping(r.pc) then MoveStop(s, r, luck, pick)
    else if InWire(r.pc) then MoveWire(setting, s, r, luck, pick == 0)
    else if InReload(r.pc) then MoveReload(s, r, luck, pick)
    else MoveStart(s, r, luck, pick)
  }

  // ---- Effects and events ----------------------------------------------------------

  /** The gateways left when a supervisor dies. */
  function Orphaned(setting: Setting, gateways: map<Moment, Daemon>, c: Moment): map<Moment, Daemon> {
    if setting.parentDeath then map g | g in gateways && gateways[g].parent != c :: gateways[g] else gateways
  }

  function Apply(setting: Setting, s: State, p: Pid, effect: Effect): State {
    match effect
    case Nothing => s
    case LockGateway => s.(gatewayLock := Some(p))
    case UnlockGateway => s.(gatewayLock := None)
    case LockReload => s.(reloadLock := Some(p))
    case UnlockReload => s.(reloadLock := None)
    case TouchMarker(quiesce) =>
      if quiesce then s.(quiesced := s.quiesced.Touched()) else s.(disabled := s.disabled.Touched())
    case RemoveMarker(quiesce) =>
      if quiesce then s.(quiesced := s.quiesced.Removed()) else s.(disabled := s.disabled.Removed())
    case StartCapture => s.(supervisors := s.supervisors + {s.clock}, clock := s.clock + 1)
    case KillCapture(c) => s.(supervisors := s.supervisors - {c}, gateways := Orphaned(setting, s.gateways, c))
    case KillGateway(g) => s.(gateways := s.gateways - {g})
    case ChangeConfig => s.(config := s.config + 1)
    case AskReload => s.(requests := s.requests + {s.clock}, clock := s.clock + 1)
    case DropRequest(r) => s.(requests := s.requests - {r})
  }

  function Take(setting: Setting, s: State, p: Pid, turn: Turn): State
    requires p in s.processes
  {
    Apply(setting, s, p, turn.effect).(processes := s.processes[p := turn.next])
  }

  /** Any process at work may die; one that is done is only remembered. */
  predicate MayDie(setting: Setting, r: Process) {
    !r.pc.Done? && !(setting.wireSafe && Changing(r))
  }

  /** A process dies; the kernel frees its locks. */
  function Death(s: State, p: Pid): State {
    s.(processes := s.processes - {p},
       gatewayLock := if s.gatewayLock == Some(p) then None else s.gatewayLock,
       reloadLock := if s.reloadLock == Some(p) then None else s.reloadLock)
  }

  /** A stop that has seen its marker and is not over. */
  predicate UnderWay(r: Process) {
    && (r.command == Pause || r.command == Disable) && (r.pc.StopLock? || Stopping(r.pc) || r.pc.Stopped?)
  }

  /** Such a stop under the quiesce marker, or under the other one. */
  predicate StopsUnder(r: Process, quiesce: bool) {
    UnderWay(r) && quiesce == (r.command == Pause)
  }

  /** With steady markers, the removal of a marker waits for the stops that have seen it. */
  predicate Deferred(setting: Setting, s: State, effect: Effect) {
    && setting.steadyMarkers && effect.RemoveMarker?
    && exists q :: q in s.processes && StopsUnder(s.processes[q], effect.quiesce)
  }

  /** What an event does; an event that is not enabled changes nothing. */
  function Step(setting: Setting, s: State, e: Event): State {
    match e
    case Launch(p, command) =>
      if p in s.processes then s
      else s.(processes := s.processes[p := Process(command, Entry(command), 0, {}, 0, None)])
    case Move(p, luck, pick) =>
      if p in s.processes && !Deferred(setting, s, Next(setting, s, s.processes[p], luck, pick).effect)
      then Take(setting, s, p, Next(setting, s, s.processes[p], luck, pick))
      else s
    case Die(p) =>
      if p in s.processes && MayDie(setting, s.processes[p]) then Death(s, p) else s
    case ChildStarts(c) =>
      if c in s.supervisors && (forall g :: g in s.gateways ==> s.gateways[g].parent != c)
      then s.(gateways := s.gateways[s.clock := Daemon(c, s.config)], clock := s.clock + 1)
      else s
    case ChildExits(g) => Apply(setting, s, 0, KillGateway(g))
    case SupervisorExits(c) => Apply(setting, s, 0, KillCapture(c))
    case MarkerChanges(quiesce, touch) =>
      var effect := if touch then TouchMarker(quiesce) else RemoveMarker(quiesce);
      if Deferred(setting, s, effect) then s else Apply(setting, s, 0, effect)
  }

  /** The state a run of events leads to from any state. */
  function RunFrom(setting: Setting, s: State, events: seq<Event>): State
    decreases |events|
  {
    if events == [] then s else RunFrom(setting, Step(setting, s, events[0]), events[1..])
  }

  function Run(setting: Setting, events: seq<Event>): State {
    RunFrom(setting, INITIAL, events)
  }

  ghost predicate Reachable(setting: Setting, s: State) {
    exists events :: Run(setting, events) == s
  }
}
