/** The commands that build, change and remove one box, as step sequences over the box's
    Docker objects, its env file and its lock. A Docker call may fail, with or without having
    had its effect; a process may die before any step; other users of Docker may remove
    anything and may put objects of their own under the box's names. */
module BoxLifecycle {
  import opened Options

  type Pid = nat
  /** Docker objects are named by the moment they were created. */
  type Moment = nat
  /** Token 0 is the empty one, with which an env file is as good as without a token. */
  type Token = nat

  datatype Command = Create | Import | Upgrade | Recreate | Delete | Prune

  /** The objects found by name: the network and the two volumes. */
  datatype Thing = Network | AgentVolume | ExecutorVolume

  /** What is under such a name, and whether its labels say it is the box's own. */
  datatype Item = Item(id: Moment, ours: bool)

  /** Where a process stands; it is released and done with what it was for, or without. */
  datatype Pc =
    | Begin | Exists
    // PreflightFreshObjects, and what create and import do before they touch Docker
    | FreshContainers | Fresh(thing: Thing) | Validate | Image | Mint | Save | SaveRest
    // inspectDestroyTargets
    | List | Inspect(left: set<Moment>) | InspectThing(thing: Thing)
    // upgrade and agent recreation
    | ReadToken | RemoveOld(left: set<Moment>) | InspectAgent | StopAgent | RemoveAgent
    // box.Create
    | Ensure(thing: Thing) | MakeThing(thing: Thing) | MakeAgent | MakeExecutor | RemoveLeaked | Prepare
    // the rest of Destroy
    | DropContainers(left: set<Moment>) | DropNetwork | DropVolume(thing: Thing) | DropEnv
    // boxStateInUse
    | PruneThing(thing: Thing)
    | Release(ok: bool) | Done(ok: bool)

  /** A process: its token, the agent it made or found, the executor it made, Destroy's targets
      and errors, and when its preflight had found nothing. */
  datatype Process = Process(
    command: Command, pc: Pc, token: Token, agent: Moment, executor: Moment,
    destroying: bool, ids: set<Moment>, network: Option<Moment>, volumes: set<Thing>, errors: bool, since: Moment)

  /** The box's own containers with the token each was created with, what is under the other
      names, the token in the env file if there is one, and the lock. */
  datatype State = State(
    processes: map<Pid, Process>, lock: Option<Pid>,
    containers: map<Moment, Token>, things: map<Thing, Item>, env: Option<Token>, clock: Moment)

  datatype Effect =
    | Nothing | TakeLock | FreeLock | WriteEnv(token: Token) | RemoveEnv
    | AddContainer(token: Token) | RemoveContainer(id: Moment)
    | AddThing(thing: Thing) | RemoveNetwork(id: Moment) | RemoveVolume(thing: Thing)

  datatype Turn = Turn(next: Process, effect: Effect)

  /** How a step turns out: a call that is not ok may still have had its effect. */
  datatype Luck = Luck(ok: bool, happened: bool, pick: Moment)

  datatype Event =
    | Launch(pid: Pid, command: Command)
    | Move(pid: Pid, luck: Luck)
    | Die(pid: Pid)
    | ContainerLost(id: Moment)
    | ThingLost(thing: Thing)
    | ForeignThing(thing: Thing)

  function Initial(things: map<Thing, Item>, env: Option<Token>, clock: Moment): State {
    State(map[], None, map[], things, env, clock)
  }

  // ---- The commands ----------------------------------------------------------------

  function Goto(r: Process, pc: Pc): Turn {
    Turn(r.(pc := pc), Nothing)
  }

  /** A call with an effect, and where its success and its failure lead. */
  function Call(r: Process, luck: Luck, effect: Effect, success: Pc, failure: Pc): Turn {
    Turn(r.(pc := if luck.ok then success else failure), if luck.ok || luck.happened then effect else Nothing)
  }

  predicate Ours(s: State, t: Thing) {
    t in s.things && s.things[t].ours
  }

  function AfterExists(r: Process, found: bool, agent: Moment): Turn {
    match r.command
    case Create => Goto(r, if found then Release(false) else FreshContainers)
    case Import => Goto(r, if found then Release(false) else FreshContainers)
    case Delete => if found then Goto(r.(destroying := true), List) else Goto(r, Release(false))
    case Upgrade => Goto(r, if found then Image else Release(false))
    case Recreate => if found then Goto(r.(agent := agent), ReadToken) else Goto(r, Release(false))
    case Prune => Goto(r, if found then Release(false) else PruneThing(AgentVolume))
  }

  /** Where a failure of box.Create leads: create and import destroy what there is. */
  function Fail(r: Process): Process {
    if r.command == Create || r.command == Import then r.(pc := List, destroying := true) else r.(pc := Release(false))
  }

  function MoveFirst(s: State, r: Process, luck: Luck): Turn {
    match r.pc
    case Begin => if s.lock.None? && luck.ok then Turn(r.(pc := Exists), TakeLock) else Goto(r, Done(false))
    case Exists =>
      if !luck.ok then Goto(r, Release(false))
      else AfterExists(r, if r.command == Recreate then luck.pick in s.containers else s.containers != map[], luck.pick)
    case FreshContainers => Goto(r, if luck.ok then Fresh(Network) else Release(false))
    case Fresh(t) =>
      if !luck.ok || t in s.things then Goto(r, Release(false))
      else if t == Network then Goto(r, Fresh(AgentVolume))
      else if t == AgentVolume then Goto(r, Fresh(ExecutorVolume))
      else Goto(r.(since := s.clock), if r.command == Create then Image else Validate)
    case Validate => Goto(r, if luck.ok then Mint else Release(false))
    case Image =>
      Goto(r,
        if !luck.ok then Release(false)
        else if r.command == Create then Mint
        else if r.command == Import then Ensure(Network) else List)
    case Mint => if luck.ok && luck.pick != 0 then Goto(r.(token := luck.pick), Save) else Goto(r, Release(false))
    case Save => if luck.ok then Turn(r.(pc := SaveRest), WriteEnv(r.token)) else Goto(r, Release(false))
    case SaveRest =>
      Goto(r,
        if !luck.ok then Release(false)
        else if r.command == Create then Ensure(Network)
        else if r.command == Import then Image else RemoveOld(r.ids))
    case _ => Goto(r, r.pc)
  }

  /** inspectDestroyTargets: the labelled containers, those under the derived names, and the
      other objects; anything foreign or not inspectable refuses. */
  function MoveInspect(s: State, r: Process, luck: Luck): Turn {
    match r.pc
    case List =>
      if luck.ok then Goto(r.(ids := {}, network := None, volumes := {}, errors := false), Inspect(s.containers.Keys))
      else Goto(r, Release(false))
    case Inspect(left) =>
      if !luck.ok then Goto(r, Release(false))
      else if luck.pick in left || luck.pick in s.containers then
        Goto(if luck.pick in s.containers then r.(ids := r.ids + {luck.pick}) else r, Inspect(left - {luck.pick}))
      else Goto(r, if left == {} then InspectThing(Network) else r.pc)
    case InspectThing(t) =>
      if !luck.ok || (t in s.things && !s.things[t].ours) then Goto(r, Release(false))
      else
        var found :=
          if t !in s.things then r
          else if t == Network then r.(network := Some(s.things[t].id))
          else r.(volumes := r.volumes + {t});
        Goto(found,
          if t == Network then InspectThing(AgentVolume)
          else if t == AgentVolume then InspectThing(ExecutorVolume)
          else if r.destroying then DropContainers(r.ids) else ReadToken)
    case _ => Goto(r, r.pc)
  }

  /** Replacing containers of an existing box. */
  function MoveReplace(s: State, r: Process, luck: Luck): Turn {
    match r.pc
    case ReadToken =>
      if luck.ok && s.env.Some? && s.env.value != 0
      then Goto(r.(token := s.env.value), if r.command == Recreate then InspectAgent else Save)
      else Goto(r, Release(false))
    case RemoveOld(left) =>
      if luck.pick in left then
        var call := Call(r, luck, RemoveContainer(luck.pick), RemoveOld(left - {luck.pick}),
          RemoveOld(left - {luck.pick}));
        if luck.ok && luck.pick in s.containers then call else Turn(call.next.(errors := true), call.effect)
      else Goto(r, if left != {} then r.pc else if r.errors then Release(false) else Ensure(Network))
    case InspectAgent => Goto(r, if luck.ok && r.agent in s.containers then Ensure(Network) else Release(false))
    case StopAgent => Goto(r, if luck.ok then RemoveAgent else Release(false))
    case RemoveAgent =>
      Call(r, luck, RemoveContainer(r.agent), if r.agent in s.containers then MakeAgent else Release(false),
        Release(false))
    case _ => Goto(r, r.pc)
  }

  /** What follows once a name is in order. */
  function AfterThing(r: Process, t: Thing): Pc {
    match t
    case Network => Ensure(AgentVolume)
    case AgentVolume => if r.command == Recreate then StopAgent else Ensure(ExecutorVolume)
    case ExecutorVolume => MakeAgent
  }

  /** box.Create. */
  function MoveCreate(s: State, r: Process, luck: Luck): Turn {
    match r.pc
    case Ensure(t) =>
      if !luck.ok || (t in s.things && !s.things[t].ours) then Turn(Fail(r), Nothing)
      else Goto(r, if t in s.things then AfterThing(r, t) else MakeThing(t))
    case MakeThing(t) =>
      if t in s.things then (if t == Network then Turn(Fail(r), Nothing) else Goto(r, AfterThing(r, t)))
      else if luck.ok then Turn(r.(pc := AfterThing(r, t)), AddThing(t))
      else Turn(Fail(r), if luck.happened then AddThing(t) else Nothing)
    case MakeAgent =>
      if luck.ok then
        Turn(r.(agent := s.clock, pc := if r.command == Recreate then Prepare else MakeExecutor), AddContainer(r.token))
      else Turn(Fail(r), if luck.happened then AddContainer(r.token) else Nothing)
    case MakeExecutor => Call(r.(executor := s.clock), luck, AddContainer(r.token), Prepare, RemoveLeaked)
    case RemoveLeaked => Turn(Fail(r), if luck.ok || luck.happened then RemoveContainer(r.agent) else Nothing)
    case Prepare => if luck.ok || luck.happened then Goto(r, Release(luck.ok)) else Turn(Fail(r), Nothing)
    case _ => Goto(r, r.pc)
  }

  /** The removals of Destroy, each failure remembered, and the env file last. */
  function MoveDestroy(s: State, r: Process, luck: Luck): Turn {
    match r.pc
    case DropContainers(left) =>
      if luck.pick in left then
        Call(r.(errors := r.errors || !luck.ok), luck, RemoveContainer(luck.pick), DropContainers(left - {luck.pick}),
          DropContainers(left - {luck.pick}))
      else Goto(r, if left == {} then DropNetwork else r.pc)
    case DropNetwork =>
      if r.network.None? then Goto(r, DropVolume(AgentVolume))
      else Call(r.(errors := r.errors || !luck.ok), luck, RemoveNetwork(r.network.value), DropVolume(AgentVolume),
        DropVolume(AgentVolume))
    case DropVolume(t) =>
      var next := if t == AgentVolume then DropVolume(ExecutorVolume) else DropEnv;
      if t !in r.volumes || (luck.ok && t !in s.things) then Goto(r, next)
      else if t in s.things && s.things[t].ours then
        Call(r.(errors := r.errors || !luck.ok), luck, RemoveVolume(t), next, next)
      else Goto(r.(errors := true), next)
    case DropEnv =>
      if luck.ok && !r.errors then Turn(r.(pc := Release(r.command == Delete || r.command == Prune)), RemoveEnv)
      else Goto(r, Release(false))
    case _ => Goto(r, r.pc)
  }

  /** The recheck of prune under the lock: nothing may be left under any name. */
  function MovePrune(s: State, r: Process, luck: Luck, t: Thing): Turn {
    if !luck.ok || t in s.things then Goto(r, Release(false))
    else if t == AgentVolume then Goto(r, PruneThing(ExecutorVolume))
    else if t == ExecutorVolume then Goto(r, PruneThing(Network))
    else Goto(r, DropEnv)
  }

  predicate First(pc: Pc) {
    pc.Begin? || pc.Exists? || pc.FreshContainers? || pc.Fresh? || pc.Validate? || pc.Image? || pc.Mint? || pc.Save?
    || pc.SaveRest?
  }

  predicate Inspecting(pc: Pc) {
    pc.List? || pc.Inspect? || pc.InspectThing?
  }

  predicate Replacing(pc: Pc) {
    pc.ReadToken? || pc.RemoveOld? || pc.InspectAgent? || pc.StopAgent? || pc.RemoveAgent?
  }

  predicate Creating(pc: Pc) {
    pc.Ensure? || pc.MakeThing? || pc.MakeAgent? || pc.MakeExecutor? || pc.RemoveLeaked? || pc.Prepare?
  }

  predicate Dropping(pc: Pc) {
    pc.DropContainers? || pc.DropNetwork? || pc.DropVolume? || pc.DropEnv?
  }

  predicate Locked(pc: Pc) {
    !pc.Begin? && !pc.Done?
  }

  function Next(s: State, r: Process, luck: Luck): Turn {
    if First(r.pc) then MoveFirst(s, r, luck)
    else if Inspecting(r.pc) then MoveInspect(s, r, luck)
    else if Replacing(r.pc) then MoveReplace(s, r, luck)
    else if Creating(r.pc) then MoveCreate(s, r, luck)
    else if Dropping(r.pc) then MoveDestroy(s, r, luck)
    else if r.pc.PruneThing? then MovePrune(s, r, luck, r.pc.thing)
    else if r.pc.Release? then Turn(r.(pc := Done(r.pc.ok)), FreeLock)
    else Goto(r, r.pc)
  }

  // ---- Effects and events ----------------------------------------------------------

  function Apply(s: State, p: Pid, effect: Effect): State {
    match effect
    case Nothing => s
    case TakeLock => s.(lock := Some(p))
    case FreeLock => s.(lock := None)
    case WriteEnv(token) => s.(env := Some(token))
    case RemoveEnv => s.(env := None)
    case AddContainer(token) => s.(containers := s.containers[s.clock := token], clock := s.clock + 1)
    case RemoveContainer(id) => s.(containers := s.containers - {id})
    case AddThing(t) => s.(things := s.things[t := Item(s.clock, true)], clock := s.clock + 1)
    case RemoveNetwork(id) =>
      if Network in s.things && s.things[Network].id == id then s.(things := s.things - {Network}) else s
    case RemoveVolume(t) => s.(things := s.things - {t})
  }

  function Take(s: State, p: Pid, turn: Turn): State
    requires p in s.processes
  {
    Apply(s, p, turn.effect).(processes := s.processes[p := turn.next])
  }

  function Newcomer(command: Command): Process {
    Process(command, Begin, 0, 0, 0, false, {}, None, {}, false, 0)
  }

  /** What an event does; an event that is not enabled changes nothing. */
  function Step(s: State, e: Event): State {
    match e
    case Launch(p, command) => if p in s.processes then s else s.(processes := s.processes[p := Newcomer(command)])
    case Move(p, luck) => if p in s.processes then Take(s, p, Next(s, s.processes[p], luck)) else s
    case Die(p) => s.(processes := s.processes - {p}, lock := if s.lock == Some(p) then None else s.lock)
    case ContainerLost(id) => s.(containers := s.containers - {id})
    case ThingLost(t) => s.(things := s.things - {t})
    case ForeignThing(t) =>
      if t in s.things then s else s.(things := s.things[t := Item(s.clock, false)], clock := s.clock + 1)
  }

  function RunFrom(s: State, events: seq<Event>): State
    decreases |events|
  {
    if events == [] then s else RunFrom(Step(s, events[0]), events[1..])
  }

  /** A run begins without objects of the box, but perhaps with foreign objects under its
      names and with an old env file. */
  ghost predicate Reachable(s: State) {
    exists things, env, clock, events :: Starts(things, clock) && s == RunFrom(Initial(things, env, clock), events)
  }

  ghost predicate Starts(things: map<Thing, Item>, clock: Moment) {
    forall t :: t in things ==> !things[t].ours && things[t].id < clock
  }
}
