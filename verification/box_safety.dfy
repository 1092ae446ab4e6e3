/** What every interleaving of the box commands keeps. */
module BoxSafety {
  import opened Options
  import opened BoxLifecycle

  /** While any object of the box is left, its env file is there, and holds the token that
      every one of the box's containers was created with. */
  predicate Recoverable(s: State) {
    && (forall c :: c in s.containers ==> s.env == Some(s.containers[c]))
    && (Ours(s, Network) || Ours(s, AgentVolume) || Ours(s, ExecutorVolume) ==> s.env.Some?)
  }

  /** No object of the box is left. */
  predicate Empty(s: State) {
    s.containers == map[] && !Ours(s, Network) && !Ours(s, AgentVolume) && !Ours(s, ExecutorVolume)
  }

  predicate Fresher(command: Command) {
    command == Create || command == Import
  }

  /** Destroy knows this object, if it is the box's. */
  predicate Known(s: State, r: Process, t: Thing) {
    Ours(s, t) ==> if t == Network then r.network == Some(s.things[t].id) else t in r.volumes
  }

  predicate AllKnown(s: State, r: Process) {
    Known(s, r, Network) && Known(s, r, AgentVolume) && Known(s, r, ExecutorVolume)
  }

  /** What a process may rely on while it holds the lock. */
  predicate Promise(s: State, r: Process) {
    match r.pc
    case FreshContainers => Fresher(r.command) && s.containers == map[]
    case Fresh(t) =>
      Fresher(r.command) && s.containers == map[] && (t != Network ==> !Ours(s, Network))
      && (t == ExecutorVolume ==> !Ours(s, AgentVolume))
    case Validate => r.command == Import && Empty(s)
    case Mint => Fresher(r.command) && Empty(s)
    case Image =>
      if r.command == Create then Empty(s) else if r.command == Import then s.env == Some(r.token)
      else r.command == Upgrade
    case Save => if Fresher(r.command) then Empty(s) else r.command == Upgrade && s.env == Some(r.token)
    case SaveRest => (Fresher(r.command) || r.command == Upgrade) && s.env == Some(r.token)
    case List => r.destroying || r.command == Upgrade
    case Inspect(left) => (r.destroying || r.command == Upgrade) && s.containers.Keys <= left + r.ids
    case InspectThing(t) =>
      && (r.destroying || r.command == Upgrade) && s.containers.Keys <= r.ids
      && (t != Network ==> Known(s, r, Network)) && (t == ExecutorVolume ==> Known(s, r, AgentVolume))
    case ReadToken => r.command == Upgrade || r.command == Recreate
    case RemoveOld(_) => s.env == Some(r.token)
    case InspectAgent => s.env == Some(r.token)
    case StopAgent => s.env == Some(r.token)
    case RemoveAgent => s.env == Some(r.token)
    case Ensure(_) => s.env == Some(r.token)
    case MakeThing(_) => s.env == Some(r.token)
    case MakeAgent => s.env == Some(r.token)
    case MakeExecutor => s.env == Some(r.token)
    case RemoveLeaked => s.env == Some(r.token)
    case DropContainers(left) => AllKnown(s, r) && (!r.errors ==> s.containers.Keys <= left)
    case DropNetwork => AllKnown(s, r) && (!r.errors ==> s.containers == map[])
    case DropVolume(t) =>
      && AllKnown(s, r)
      && (!r.errors ==> s.containers == map[] && !Ours(s, Network) && (t == ExecutorVolume ==> !Ours(s, AgentVolume)))
      && t != Network
    case DropEnv => !r.errors ==> Empty(s)
    case PruneThing(t) =>
      && r.command == Prune && s.containers == map[]
      && (t != AgentVolume ==> !Ours(s, AgentVolume)) && (t == Network ==> !Ours(s, ExecutorVolume))
    case _ => true
  }

  /** A turn taken by the lock's holder. */
  ghost predicate Keeps(s: State, r: Process, turn: Turn, p: Pid) {
    && Recoverable(Apply(s, p, turn.effect))
    && Promise(Apply(s, p, turn.effect), turn.next)
  }

  lemma BeginKeeps(s: State, p: Pid, r: Process, luck: Luck, turn: Turn)
    requires (r.pc.Begin?) && Recoverable(s) && Promise(s, r) && turn == MoveFirst(s, r, luck)
    ensures Keeps(s, r, turn, p)
  {
  }

  lemma FoundKeeps(s: State, r: Process, next: Process, command: Command, found: bool)
    requires command == r.command && (command != Recreate ==> (found <==> s.containers != map[]))
    requires next == AfterExists(r, found, next.agent).next
    ensures Promise(s, next)
  {
  }

  lemma ExistsKeeps(s: State, p: Pid, r: Process, luck: Luck, turn: Turn)
    requires (r.pc.Exists?) && Recoverable(s) && Promise(s, r) && turn == MoveFirst(s, r, luck)
    ensures Keeps(s, r, turn, p)
  {
    assert turn.effect.Nothing?;
    if luck.ok {
      FoundKeeps(s, r, turn.next, r.command,
        if r.command == Recreate then luck.pick in s.containers else s.containers != map[]);
    }
  }

  lemma FreshKeeps(s: State, p: Pid, r: Process, luck: Luck, turn: Turn)
    requires (r.pc.FreshContainers? || r.pc.Fresh?) && Recoverable(s) && Promise(s, r) && turn == MoveFirst(s, r, luck)
    ensures Keeps(s, r, turn, p)
  {
  }

  lemma ReadyKeeps(s: State, p: Pid, r: Process, luck: Luck, turn: Turn)
    requires (r.pc.Validate? || r.pc.Image? || r.pc.Mint?) && Recoverable(s) && Promise(s, r)
    requires turn == MoveFirst(s, r, luck)
    ensures Keeps(s, r, turn, p)
  {
  }

  lemma SaveKeeps(s: State, p: Pid, r: Process, luck: Luck, turn: Turn)
    requires (r.pc.Save? || r.pc.SaveRest?) && Recoverable(s) && Promise(s, r) && turn == MoveFirst(s, r, luck)
    ensures Keeps(s, r, turn, p)
  {
  }

  lemma ListKeeps(s: State, p: Pid, r: Process, luck: Luck, turn: Turn)
    requires (r.pc.List?) && Recoverable(s) && Promise(s, r) && turn == MoveInspect(s, r, luck)
    ensures Keeps(s, r, turn, p)
  {
  }

  lemma InspectKeeps(s: State, p: Pid, r: Process, luck: Luck, turn: Turn)
    requires (r.pc.Inspect?) && Recoverable(s) && Promise(s, r) && turn == MoveInspect(s, r, luck)
    ensures Keeps(s, r, turn, p)
  {
  }

  lemma InspectThingKeeps(s: State, p: Pid, r: Process, luck: Luck, turn: Turn)
    requires (r.pc.InspectThing?) && Recoverable(s) && Promise(s, r) && turn == MoveInspect(s, r, luck)
    ensures Keeps(s, r, turn, p)
  {
  }

  lemma ReadTokenKeeps(s: State, p: Pid, r: Process, luck: Luck, turn: Turn)
    requires (r.pc.ReadToken? || r.pc.InspectAgent? || r.pc.StopAgent?) && Recoverable(s) && Promise(s, r)
    requires turn == MoveReplace(s, r, luck)
    ensures Keeps(s, r, turn, p)
  {
  }

  lemma RemoveOldKeeps(s: State, p: Pid, r: Process, luck: Luck, turn: Turn)
    requires (r.pc.RemoveOld?) && Recoverable(s) && Promise(s, r) && turn == MoveReplace(s, r, luck)
    ensures Keeps(s, r, turn, p)
  {
  }

  lemma RemoveAgentKeeps(s: State, p: Pid, r: Process, luck: Luck, turn: Turn)
    requires (r.pc.RemoveAgent?) && Recoverable(s) && Promise(s, r) && turn == MoveReplace(s, r, luck)
    ensures Keeps(s, r, turn, p)
  {
  }

  lemma EnsureKeeps(s: State, p: Pid, r: Process, luck: Luck, turn: Turn)
    requires (r.pc.Ensure?) && Recoverable(s) && Promise(s, r) && turn == MoveCreate(s, r, luck)
    ensures Keeps(s, r, turn, p)
  {
  }

  /** Creating an object under a free name leaves everything else alone. */
  lemma ThingMade(s: State, p: Pid, t: Thing, effect: Effect)
    requires Recoverable(s) && s.env.Some? && (effect.Nothing? || effect == AddThing(t))
    ensures Recoverable(Apply(s, p, effect)) && Apply(s, p, effect).env == s.env
  {
  }

  /** Where a process only relies on the env file holding its token. */
  lemma HasToken(s: State, r: Process)
    requires s.env == Some(r.token)
    requires r.pc.Ensure? || r.pc.MakeThing? || r.pc.MakeAgent? || r.pc.MakeExecutor? || r.pc.RemoveLeaked?
      || r.pc.StopAgent? || r.pc.RemoveAgent? || r.pc.Prepare? || r.pc.Release? || (r.pc.List? && r.destroying)
    ensures Promise(s, r)
  {
  }

  lemma MakeThingKeeps(s: State, p: Pid, r: Process, luck: Luck, turn: Turn)
    requires (r.pc.MakeThing?) && Recoverable(s) && Promise(s, r) && turn == MoveCreate(s, r, luck)
    ensures Keeps(s, r, turn, p)
  {
    ThingMade(s, p, r.pc.thing, turn.effect);
    HasToken(Apply(s, p, turn.effect), turn.next);
  }

  lemma MakeKeeps(s: State, p: Pid, r: Process, luck: Luck, turn: Turn)
    requires (r.pc.MakeAgent? || r.pc.MakeExecutor?) && Recoverable(s) && Promise(s, r)
    requires turn == MoveCreate(s, r, luck)
    ensures Keeps(s, r, turn, p)
  {
  }

  lemma LeakedKeeps(s: State, p: Pid, r: Process, luck: Luck, turn: Turn)
    requires (r.pc.RemoveLeaked? || r.pc.Prepare?) && Recoverable(s) && Promise(s, r) && turn == MoveCreate(s, r, luck)
    ensures Keeps(s, r, turn, p)
  {
  }

  /** Dropping a container: it is gone, or an error is remembered. */
  lemma ContainerDropped(s: State, t: State, r: Process, c: Moment, next: Process)
    requires r.pc.DropContainers? && Recoverable(s) && Promise(s, r) && t == s.(containers := s.containers - {c})
    requires next == r.(pc := DropContainers(r.pc.left - {c}), errors := next.errors) && (r.errors ==> next.errors)
    ensures Recoverable(t) && Promise(t, next)
  {
    assert Known(s, r, Network) && Known(s, r, AgentVolume) && Known(s, r, ExecutorVolume);
    assert forall x :: Known(t, next, x) <==> Known(s, r, x);
  }

  lemma DropContainersKeeps(s: State, p: Pid, r: Process, luck: Luck, turn: Turn)
    requires (r.pc.DropContainers?) && Recoverable(s) && Promise(s, r) && turn == MoveDestroy(s, r, luck)
    ensures Keeps(s, r, turn, p)
  {
    var t := Apply(s, p, turn.effect);
    if turn.effect.RemoveContainer? {
      ContainerDropped(s, t, r, luck.pick, turn.next);
    }
  }

  lemma DropNetworkKeeps(s: State, p: Pid, r: Process, luck: Luck, turn: Turn)
    requires (r.pc.DropNetwork?) && Recoverable(s) && Promise(s, r) && turn == MoveDestroy(s, r, luck)
    ensures Keeps(s, r, turn, p)
  {
  }

  lemma DropEnvKeeps(s: State, p: Pid, r: Process, luck: Luck, turn: Turn)
    requires r.pc.DropEnv? && Recoverable(s) && Promise(s, r) && turn == MoveDestroy(s, r, luck)
    ensures Keeps(s, r, turn, p)
  {
  }

  lemma DropVolumeKeeps(s: State, p: Pid, r: Process, luck: Luck, turn: Turn)
    requires r.pc.DropVolume? && Recoverable(s) && Promise(s, r) && turn == MoveDestroy(s, r, luck)
    ensures Keeps(s, r, turn, p)
  {
    VolumeDropped(s, p, r, r.pc.thing, turn);
  }

  /** Dropping a volume: either it is gone or no longer the box's, or an error is remembered. */
  lemma VolumeDropped(s: State, p: Pid, r: Process, t: Thing, turn: Turn)
    requires t != Network && Recoverable(s) && Promise(s, r) && r.pc == DropVolume(t)
    requires turn.effect.Nothing? || turn.effect == RemoveVolume(t)
    requires turn.next ==
      r.(pc := if t == AgentVolume then DropVolume(ExecutorVolume) else DropEnv, errors := turn.next.errors)
    requires r.errors ==> turn.next.errors
    requires turn.effect.Nothing? && Ours(s, t) ==> turn.next.errors
    ensures Keeps(s, r, turn, p)
  {
    assert Known(s, r, t);
  }

  lemma PruneKeeps(s: State, p: Pid, r: Process, luck: Luck, turn: Turn)
    requires r.pc.PruneThing? && Recoverable(s) && Promise(s, r) && turn == MovePrune(s, r, luck, r.pc.thing)
    ensures Keeps(s, r, turn, p)
  {
  }

  lemma OutsideKeeps(s: State, p: Pid, r: Process, luck: Luck, turn: Turn)
    requires (r.pc.Release? || r.pc.Done?) && Recoverable(s) && turn == Next(s, r, luck)
    ensures Keeps(s, r, turn, p)
  {
  }

  lemma NextKeeps(s: State, p: Pid, r: Process, luck: Luck)
    requires Recoverable(s) && Promise(s, r)
    ensures Keeps(s, r, Next(s, r, luck), p)
  {
    var turn := Next(s, r, luck);
    if r.pc.Begin? {
      BeginKeeps(s, p, r, luck, turn);
    } else if r.pc.Exists? {
      ExistsKeeps(s, p, r, luck, turn);
    } else if r.pc.FreshContainers? || r.pc.Fresh? {
      FreshKeeps(s, p, r, luck, turn);
    } else if r.pc.Validate? || r.pc.Image? || r.pc.Mint? {
      ReadyKeeps(s, p, r, luck, turn);
    } else if First(r.pc) {
      SaveKeeps(s, p, r, luck, turn);
    } else if r.pc.List? {
      ListKeeps(s, p, r, luck, turn);
    } else if r.pc.Inspect? {
      InspectKeeps(s, p, r, luck, turn);
    } else if r.pc.InspectThing? {
      InspectThingKeeps(s, p, r, luck, turn);
    } else if r.pc.RemoveOld? {
      RemoveOldKeeps(s, p, r, luck, turn);
    } else if r.pc.RemoveAgent? {
      RemoveAgentKeeps(s, p, r, luck, turn);
    } else if Replacing(r.pc) {
      ReadTokenKeeps(s, p, r, luck, turn);
    } else if r.pc.Ensure? {
      EnsureKeeps(s, p, r, luck, turn);
    } else if r.pc.MakeThing? {
      MakeThingKeeps(s, p, r, luck, turn);
    } else if r.pc.MakeAgent? || r.pc.MakeExecutor? {
      MakeKeeps(s, p, r, luck, turn);
    } else if Creating(r.pc) {
      LeakedKeeps(s, p, r, luck, turn);
    } else if r.pc.DropContainers? {
      DropContainersKeeps(s, p, r, luck, turn);
    } else if r.pc.DropNetwork? {
      DropNetworkKeeps(s, p, r, luck, turn);
    } else if r.pc.DropVolume? {
      DropVolumeKeeps(s, p, r, luck, turn);
    } else if r.pc.DropEnv? {
      DropEnvKeeps(s, p, r, luck, turn);
    } else if r.pc.PruneThing? {
      PruneKeeps(s, p, r, luck, turn);
    } else {
      OutsideKeeps(s, p, r, luck, turn);
    }
  }

  // ---- The lock ----------------------------------------------------------------------

  /** Only a process in the section touches anything, and the lock goes with the section. */
  predicate Locking(s: State, r: Process, turn: Turn) {
    && turn.next.command == r.command
    && (turn.effect.TakeLock? <==> !Locked(r.pc) && Locked(turn.next.pc))
    && (turn.effect.TakeLock? ==> s.lock.None?)
    && (turn.effect.FreeLock? <==> Locked(r.pc) && !Locked(turn.next.pc))
    && (!Locked(r.pc) ==> turn.effect.Nothing? || turn.effect.TakeLock?)
  }

  lemma FirstLocking(s: State, r: Process, luck: Luck)
    requires First(r.pc)
    ensures Locking(s, r, MoveFirst(s, r, luck))
  {
  }

  lemma InspectLocking(s: State, r: Process, luck: Luck)
    requires Inspecting(r.pc)
    ensures Locking(s, r, MoveInspect(s, r, luck))
  {
  }

  lemma ReplaceLocking(s: State, r: Process, luck: Luck)
    requires Replacing(r.pc)
    ensures Locking(s, r, MoveReplace(s, r, luck))
  {
  }

  lemma CreateLocking(s: State, r: Process, luck: Luck)
    requires Creating(r.pc)
    ensures Locking(s, r, MoveCreate(s, r, luck))
  {
  }

  lemma DestroyLocking(s: State, r: Process, luck: Luck)
    requires Dropping(r.pc)
    ensures Locking(s, r, MoveDestroy(s, r, luck))
  {
  }

  lemma NextLocking(s: State, r: Process, luck: Luck)
    ensures Locking(s, r, Next(s, r, luck))
  {
    if First(r.pc) {
      FirstLocking(s, r, luck);
    } else if Inspecting(r.pc) {
      InspectLocking(s, r, luck);
    } else if Replacing(r.pc) {
      ReplaceLocking(s, r, luck);
    } else if Creating(r.pc) {
      CreateLocking(s, r, luck);
    } else if Dropping(r.pc) {
      DestroyLocking(s, r, luck);
    }
  }

  /** The lock is held by a process exactly while that process is in the section. */
  predicate Locks(s: State) {
    && (forall p :: p in s.processes && Locked(s.processes[p].pc) ==> s.lock == Some(p))
    && (s.lock.Some? ==> s.lock.value in s.processes && Locked(s.processes[s.lock.value].pc))
  }

  predicate Promises(s: State) {
    forall p :: p in s.processes ==> Promise(s, s.processes[p])
  }

  /** A network that Destroy is about to remove by its id is the box's own. */
  predicate NetworkOurs(s: State, r: Process) {
    && (r.network.Some? ==> r.network.value < s.clock)
    && (r.network.Some? && Network in s.things && s.things[Network].id == r.network.value ==> s.things[Network].ours)
  }

  predicate Networks(s: State) {
    && (Network in s.things ==> s.things[Network].id < s.clock)
    && (forall p :: p in s.processes ==> NetworkOurs(s, s.processes[p]))
  }

  predicate Safe(s: State) {
    Locks(s) && Promises(s) && Networks(s) && Recoverable(s)
  }

  // ---- Kept by every event -------------------------------------------------------------

  /** What is promised depends on the objects and the env file alone. */
  lemma SamePromise(s: State, t: State, r: Process)
    requires s.containers == t.containers && s.things == t.things && s.env == t.env
    ensures Promise(s, r) <==> Promise(t, r)
    ensures Recoverable(s) <==> Recoverable(t)
  {
  }

  lemma MoveLocks(s: State, p: Pid, turn: Turn, t: State)
    requires p in s.processes && Locks(s) && Locking(s, s.processes[p], turn) && t == Take(s, p, turn)
    ensures Locks(t)
  {
    assert t.lock == if turn.effect.TakeLock? then Some(p) else if turn.effect.FreeLock? then None else s.lock;
  }

  lemma MovePromises(s: State, p: Pid, luck: Luck, turn: Turn, t: State)
    requires p in s.processes && Safe(s) && turn == Next(s, s.processes[p], luck) && t == Take(s, p, turn)
    ensures Promises(t) && Recoverable(t)
  {
    NextKeeps(s, p, s.processes[p], luck);
    NextLocking(s, s.processes[p], luck);
    MovedPromises(s, p, turn, t);
  }

  lemma MovedPromises(s: State, p: Pid, turn: Turn, t: State)
    requires p in s.processes && Locks(s) && Promises(s) && Locking(s, s.processes[p], turn)
    requires t == Apply(s, p, turn.effect).(processes := s.processes[p := turn.next])
    requires Keeps(s, s.processes[p], turn, p)
    ensures Promises(t) && Recoverable(t)
  {
    SamePromise(Apply(s, p, turn.effect), t, turn.next);
    forall q | q in t.processes ensures Promise(t, t.processes[q]) {
      if q != p {
        if Locked(s.processes[p].pc) {
          assert s.lock == Some(p);
          assert !Locked(s.processes[q].pc);
        } else {
          SamePromise(s, t, s.processes[q]);
        }
      }
    }
  }

  lemma MoveNetworks(s: State, p: Pid, luck: Luck, turn: Turn, t: State)
    requires p in s.processes && Networks(s) && turn == Next(s, s.processes[p], luck) && t == Take(s, p, turn)
    ensures Networks(t)
  {
    var r := s.processes[p];
    NetworkTarget(s, r, luck);
    KeptNetworks(s, p, turn, t);
  }

  predicate FindsNetwork(s: State, r: Process, next: Process) {
    next.network == r.network || next.network == None
    || (Ours(s, Network) && next.network == Some(s.things[Network].id))
  }

  lemma NetworkTarget(s: State, r: Process, luck: Luck)
    ensures FindsNetwork(s, r, Next(s, r, luck).next)
  {
    if Inspecting(r.pc) {
      assert FindsNetwork(s, r, MoveInspect(s, r, luck).next);
    } else {
      KeepsNetwork(s, r, luck);
    }
  }

  lemma KeepsNetwork(s: State, r: Process, luck: Luck)
    requires !Inspecting(r.pc)
    ensures Next(s, r, luck).next.network == r.network
  {
  }

  lemma KeptNetworks(s: State, p: Pid, turn: Turn, t: State)
    requires p in s.processes && Networks(s)
    requires t == Apply(s, p, turn.effect).(processes := s.processes[p := turn.next])
    requires FindsNetwork(s, s.processes[p], turn.next)
    ensures Networks(t)
  {
    forall q | q in t.processes ensures NetworkOurs(t, t.processes[q]) {
      assert NetworkOurs(s, s.processes[q]);
    }
  }

  lemma MoveSafe(s: State, p: Pid, luck: Luck)
    requires p in s.processes && Safe(s)
    ensures Safe(Take(s, p, Next(s, s.processes[p], luck)))
  {
    var turn := Next(s, s.processes[p], luck);
    NextLocking(s, s.processes[p], luck);
    MoveLocks(s, p, turn, Take(s, p, turn));
    MovePromises(s, p, luck, turn, Take(s, p, turn));
    MoveNetworks(s, p, luck, turn, Take(s, p, turn));
  }

  /** Fewer objects of the box, or more foreign ones, break no promise. */
  lemma LossKeeps(s: State, t: State, r: Process)
    requires Promise(s, r) && t.env == s.env
    requires t.containers.Keys <= s.containers.Keys
    requires forall c :: c in t.containers ==> t.containers[c] == s.containers[c]
    requires forall x :: Ours(t, x) ==> Ours(s, x) && t.things[x] == s.things[x]
    ensures Promise(t, r)
  {
    assert s.containers == map[] ==> t.containers == map[];
    assert forall x :: Known(s, r, x) ==> Known(t, r, x);
    assert !Ours(s, Network) ==> !Ours(t, Network);
    assert !Ours(s, AgentVolume) ==> !Ours(t, AgentVolume);
    assert !Ours(s, ExecutorVolume) ==> !Ours(t, ExecutorVolume);
  }

  lemma LossSafe(s: State, t: State)
    requires Safe(s) && t == s.(containers := t.containers, things := t.things, clock := t.clock) && t.clock >= s.clock
    requires t.containers.Keys <= s.containers.Keys
    requires forall c :: c in t.containers ==> t.containers[c] == s.containers[c]
    requires forall x :: Ours(t, x) ==> Ours(s, x) && t.things[x] == s.things[x]
    requires Network in t.things ==>
      (Network in s.things && t.things[Network] == s.things[Network]) || t.things[Network] == Item(s.clock, false)
    requires Network in t.things ==> t.things[Network].id < t.clock
    ensures Safe(t)
  {
    forall p | p in t.processes ensures Promise(t, t.processes[p]) && NetworkOurs(t, t.processes[p]) {
      LossKeeps(s, t, s.processes[p]);
      assert NetworkOurs(s, s.processes[p]);
    }
    assert Ours(t, AgentVolume) ==> Ours(s, AgentVolume);
    assert Ours(t, ExecutorVolume) ==> Ours(s, ExecutorVolume);
  }

  lemma LaunchSafe(s: State, p: Pid, command: Command)
    requires Safe(s)
    ensures Safe(Step(s, Launch(p, command)))
  {
    var t := Step(s, Launch(p, command));
    forall q | q in t.processes ensures Promise(t, t.processes[q]) && NetworkOurs(t, t.processes[q]) {
      if q in s.processes {
        SamePromise(s, t, s.processes[q]);
        assert NetworkOurs(s, s.processes[q]);
      }
    }
  }

  lemma DeathSafe(s: State, p: Pid)
    requires Safe(s)
    ensures Safe(Step(s, Die(p)))
  {
    var t := Step(s, Die(p));
    forall q | q in t.processes ensures Promise(t, t.processes[q]) && NetworkOurs(t, t.processes[q]) {
      SamePromise(s, t, s.processes[q]);
      assert NetworkOurs(s, s.processes[q]);
    }
  }

  lemma ContainerLostSafe(s: State, c: Moment)
    requires Safe(s)
    ensures Safe(Step(s, ContainerLost(c)))
  {
    LossSafe(s, Step(s, ContainerLost(c)));
  }

  lemma ThingLostSafe(s: State, x: Thing)
    requires Safe(s)
    ensures Safe(Step(s, ThingLost(x)))
  {
    LossSafe(s, Step(s, ThingLost(x)));
  }

  lemma ForeignThingSafe(s: State, x: Thing)
    requires Safe(s)
    ensures Safe(Step(s, ForeignThing(x)))
  {
    LossSafe(s, Step(s, ForeignThing(x)));
  }

  lemma StepSafe(s: State, e: Event)
    requires Safe(s)
    ensures Safe(Step(s, e))
  {
    match e
    case Launch(p, command) => LaunchSafe(s, p, command);
    case Move(p, luck) => if p in s.processes { MoveSafe(s, p, luck); }
    case Die(p) => DeathSafe(s, p);
    case ContainerLost(c) => ContainerLostSafe(s, c);
    case ThingLost(x) => ThingLostSafe(s, x);
    case ForeignThing(x) => ForeignThingSafe(s, x);
  }

  lemma {:induction false} RunSafe(s: State, events: seq<Event>)
    requires Safe(s)
    ensures Safe(RunFrom(s, events))
    decreases |events|
  {
    if events != [] {
      StepSafe(s, events[0]);
      RunSafe(Step(s, events[0]), events[1..]);
    }
  }

  lemma ReachableSafe(s: State)
    requires Reachable(s)
    ensures Safe(s)
  {
    var things: map<Thing, Item>, env: Option<Token>, clock: Moment, events: seq<Event> :|
      Starts(things, clock) && s == RunFrom(Initial(things, env, clock), events);
    RunSafe(Initial(things, env, clock), events);
  }

  // ---- What follows for every run --------------------------------------------------------

  /** At every point of every run: while any object of the box exists, its env file exists
      and holds the token every one of its containers was created with. */
  lemma AlwaysRecoverable(s: State)
    requires Reachable(s) && !Empty(s)
    ensures s.env.Some? && forall c :: c in s.containers ==> s.containers[c] == s.env.value
  {
    ReachableSafe(s);
    if s.containers != map[] {
      var c :| c in s.containers;
    }
  }

  /** While any object of the box exists, no event changes its token: the env file is
      written with the same token, or by a process that found nothing, and removed when
      nothing is left. */
  lemma TokenSteady(s: State, e: Event)
    requires Reachable(s) && !Empty(s)
    ensures Step(s, e).env == s.env
  {
    ReachableSafe(s);
    if e.Move? && e.pid in s.processes {
      var r := s.processes[e.pid];
      assert Promise(s, r);
      EnvEffects(s, r, e.luck);
      }
  }

  lemma EnvEffects(s: State, r: Process, luck: Luck)
    requires Promise(s, r)
    ensures var effect := Next(s, r, luck).effect;
      && (effect.WriteEnv? ==> Empty(s) || s.env == Some(effect.token))
      && (effect.RemoveEnv? ==> Empty(s) && !r.errors)
  {
    if First(r.pc) {
      assert Next(s, r, luck) == MoveFirst(s, r, luck);
    } else if Dropping(r.pc) {
      assert Next(s, r, luck) == MoveDestroy(s, r, luck);
    } else {
      NoEnvEffects(s, r, luck);
    }
  }

  lemma NoEnvEffects(s: State, r: Process, luck: Luck)
    requires !First(r.pc) && !Dropping(r.pc)
    ensures !Next(s, r, luck).effect.WriteEnv? && !Next(s, r, luck).effect.RemoveEnv?
  {
  }

  /** No command ever removes or replaces what is not the box's own. */
  lemma ForeignKept(s: State, p: Pid, luck: Luck, t: Thing)
    requires Reachable(s) && p in s.processes && t in s.things && !s.things[t].ours
    ensures t in Step(s, Move(p, luck)).things && Step(s, Move(p, luck)).things[t] == s.things[t]
  {
    ReachableSafe(s);
    var r := s.processes[p];
    assert NetworkOurs(s, r);
    ThingEffects(s, r, luck, t);
  }

  lemma ThingEffects(s: State, r: Process, luck: Luck, t: Thing)
    requires NetworkOurs(s, r) && t in s.things && !s.things[t].ours
    ensures var effect := Next(s, r, luck).effect;
      && effect != AddThing(t) && effect != RemoveVolume(t)
      && (effect.RemoveNetwork? ==> r.network == Some(effect.id))
  {
    if Creating(r.pc) {
      assert Next(s, r, luck) == MoveCreate(s, r, luck);
    } else if Dropping(r.pc) {
      assert Next(s, r, luck) == MoveDestroy(s, r, luck);
    } else {
      NoThingEffects(s, r, luck);
    }
  }

  lemma NoThingEffects(s: State, r: Process, luck: Luck)
    requires !Creating(r.pc) && !Dropping(r.pc)
    ensures var effect := Next(s, r, luck).effect;
      !effect.AddThing? && !effect.RemoveVolume? && !effect.RemoveNetwork?
  {
  }

  /** A removed env file means a box without a trace: the step that removes it finds no
      container, network or volume of the box, after no failed removal. */
  lemma EnvGoesLast(s: State, p: Pid, luck: Luck)
    requires Reachable(s) && p in s.processes && s.env.Some? && Step(s, Move(p, luck)).env.None?
    ensures Empty(s) && !s.processes[p].errors && s.lock == Some(p)
  {
    ReachableSafe(s);
    var r := s.processes[p];
    var turn := Next(s, r, luck);
    EnvEffects(s, r, luck);
    NextLocking(s, r, luck);
    OnlyRemoveEnv(s, p, turn);
  }

  lemma OnlyRemoveEnv(s: State, p: Pid, turn: Turn)
    requires p in s.processes && s.env.Some? && Take(s, p, turn).env.None?
    ensures turn.effect.RemoveEnv?
  {
  }

  // ---- Whose data a command may remove -----------------------------------------------------

  /** Everything of the box was made at this moment or later. */
  predicate MadeSince(s: State, m: Moment) {
    && (forall c :: c in s.containers ==> m <= c)
    && (Ours(s, Network) ==> m <= s.things[Network].id)
    && (Ours(s, AgentVolume) ==> m <= s.things[AgentVolume].id)
    && (Ours(s, ExecutorVolume) ==> m <= s.things[ExecutorVolume].id)
  }

  /** Past the preflight of a fresh box. */
  predicate Past(pc: Pc) {
    pc.Validate? || pc.Image? || pc.Mint? || pc.Save? || pc.SaveRest? || Inspecting(pc) || Creating(pc) || Dropping(pc)
  }

  predicate Destroyer(r: Process) {
    && (r.destroying ==> Fresher(r.command) || r.command == Delete) && (Replacing(r.pc) ==> !Fresher(r.command))
    && (r.pc.DropContainers? || r.pc.DropNetwork? || r.pc.DropVolume? ==> r.destroying)
  }

  /** Create and import, once past their preflight, have only their own objects before them. */
  predicate Spares(s: State, r: Process) {
    && r.since <= s.clock && Destroyer(r)
    && (Fresher(r.command) && Past(r.pc) ==> MadeSince(s, r.since))
  }

  predicate AllSpare(s: State) {
    forall p :: p in s.processes ==> Spares(s, s.processes[p])
  }

  /** A command comes past its preflight only when nothing of the box is there. */
  predicate Sparing(s: State, r: Process, turn: Turn) {
    && turn.next.command == r.command && Destroyer(turn.next)
    && (turn.next.since == r.since || turn.next.since == s.clock)
    && (Fresher(r.command) && Past(turn.next.pc) ==>
      (Past(r.pc) && turn.next.since == r.since) || (Empty(s) && turn.next.since == s.clock && turn.effect.Nothing?))
  }

  lemma EnterSparing(s: State, r: Process, luck: Luck)
    requires (r.pc.Begin? || r.pc.Exists? || r.pc.FreshContainers?) && Promise(s, r) && Destroyer(r)
    ensures Sparing(s, r, MoveFirst(s, r, luck))
  {
  }

  lemma FreshSparing(s: State, r: Process, luck: Luck)
    requires r.pc.Fresh? && Promise(s, r) && Destroyer(r)
    ensures Sparing(s, r, MoveFirst(s, r, luck))
  {
  }

  lemma SaveSparing(s: State, r: Process, luck: Luck)
    requires (r.pc.Validate? || r.pc.Image? || r.pc.Mint? || r.pc.Save? || r.pc.SaveRest?) && Promise(s, r)
    requires Destroyer(r)
    ensures Sparing(s, r, MoveFirst(s, r, luck))
  {
  }

  lemma InspectSparing(s: State, r: Process, luck: Luck)
    requires Inspecting(r.pc) && Promise(s, r) && Destroyer(r)
    ensures Sparing(s, r, MoveInspect(s, r, luck))
  {
  }

  lemma ReplaceSparing(s: State, r: Process, luck: Luck)
    requires Replacing(r.pc) && Promise(s, r) && Destroyer(r)
    ensures Sparing(s, r, MoveReplace(s, r, luck))
  {
  }

  lemma CreateSparing(s: State, r: Process, luck: Luck)
    requires Creating(r.pc) && Destroyer(r)
    ensures Sparing(s, r, MoveCreate(s, r, luck))
  {
  }

  lemma DestroySparing(s: State, r: Process, luck: Luck)
    requires Dropping(r.pc) && Destroyer(r)
    ensures Sparing(s, r, MoveDestroy(s, r, luck))
  {
  }

  lemma NextSparing(s: State, r: Process, luck: Luck)
    requires Promise(s, r) && Destroyer(r)
    ensures Sparing(s, r, Next(s, r, luck))
  {
    if r.pc.Begin? || r.pc.Exists? || r.pc.FreshContainers? {
      EnterSparing(s, r, luck);
    } else if r.pc.Fresh? {
      FreshSparing(s, r, luck);
    } else if First(r.pc) {
      SaveSparing(s, r, luck);
    } else if Inspecting(r.pc) {
      InspectSparing(s, r, luck);
    } else if Replacing(r.pc) {
      ReplaceSparing(s, r, luck);
    } else if Creating(r.pc) {
      CreateSparing(s, r, luck);
    } else if Dropping(r.pc) {
      DestroySparing(s, r, luck);
    }
  }

  /** What a turn makes is new. */
  lemma MadeNow(s: State, p: Pid, effect: Effect, m: Moment)
    requires MadeSince(s, m) && m <= s.clock
    ensures MadeSince(Apply(s, p, effect), m) && m <= Apply(s, p, effect).clock
  {
  }

  lemma MadeLess(s: State, t: State, m: Moment)
    requires MadeSince(s, m) && t.containers.Keys <= s.containers.Keys
    requires forall x :: Ours(t, x) ==> Ours(s, x) && t.things[x] == s.things[x]
    ensures MadeSince(t, m)
  {
    assert Ours(t, Network) ==> Ours(s, Network);
    assert Ours(t, AgentVolume) ==> Ours(s, AgentVolume);
    assert Ours(t, ExecutorVolume) ==> Ours(s, ExecutorVolume);
  }

  lemma MoveSpares(s: State, p: Pid, luck: Luck, turn: Turn, t: State)
    requires p in s.processes && Safe(s) && AllSpare(s) && turn == Next(s, s.processes[p], luck)
    requires t == Take(s, p, turn)
    ensures AllSpare(t)
  {
    var r := s.processes[p];
    NextSparing(s, r, luck);
    NextLocking(s, r, luck);
    var after := Apply(s, p, turn.effect);
    forall q | q in t.processes ensures Spares(t, t.processes[q]) {
      if q == p {
        MoverSpares(s, p, r, turn, after);
      } else {
        BystanderSpares(s, p, q, turn, after);
      }
      SameObjects(after, t, t.processes[q]);
    }
  }

  lemma SameObjects(s: State, t: State, r: Process)
    requires t == s.(processes := t.processes)
    ensures Spares(s, r) <==> Spares(t, r)
  {
  }

  lemma MoverSpares(s: State, p: Pid, r: Process, turn: Turn, after: State)
    requires Spares(s, r) && Sparing(s, r, turn) && after == Apply(s, p, turn.effect)
    ensures Spares(after, turn.next)
  {
    if Fresher(r.command) && Past(turn.next.pc) && Past(r.pc) && turn.next.since == r.since {
      MadeNow(s, p, turn.effect, r.since);
    }
  }

  lemma BystanderSpares(s: State, p: Pid, q: Pid, turn: Turn, after: State)
    requires p in s.processes && q in s.processes && p != q && Locks(s) && Spares(s, s.processes[q])
    requires Locking(s, s.processes[p], turn) && after == Apply(s, p, turn.effect)
    ensures Spares(after, s.processes[q])
  {
    var r := s.processes[q];
    if Fresher(r.command) && Past(r.pc) {
      MadeNow(s, p, turn.effect, r.since);
    }
  }

  lemma StepSpares(s: State, e: Event)
    requires Safe(s) && AllSpare(s)
    ensures AllSpare(Step(s, e))
  {
    var t := Step(s, e);
    if e.Move? && e.pid in s.processes {
      MoveSpares(s, e.pid, e.luck, Next(s, s.processes[e.pid], e.luck), t);
    } else {
      OthersSpare(s, e, t);
    }
  }

  lemma OthersSpare(s: State, e: Event, t: State)
    requires AllSpare(s) && t == Step(s, e) && (e.Move? ==> e.pid !in s.processes)
    ensures AllSpare(t)
  {
    assert t.containers.Keys <= s.containers.Keys && t.clock >= s.clock;
    assert forall x :: Ours(t, x) ==> Ours(s, x) && t.things[x] == s.things[x];
    forall q | q in t.processes ensures Spares(t, t.processes[q]) {
      if q in s.processes && Fresher(s.processes[q].command) && Past(s.processes[q].pc) {
        MadeLess(s, t, s.processes[q].since);
      }
    }
  }

  lemma {:induction false} RunSpares(s: State, events: seq<Event>)
    requires Safe(s) && AllSpare(s)
    ensures AllSpare(RunFrom(s, events))
    decreases |events|
  {
    if events != [] {
      StepSafe(s, events[0]);
      StepSpares(s, events[0]);
      RunSpares(Step(s, events[0]), events[1..]);
    }
  }

  lemma ReachableSpares(s: State)
    requires Reachable(s)
    ensures AllSpare(s)
  {
    var things: map<Thing, Item>, env: Option<Token>, clock: Moment, events: seq<Event> :|
      Starts(things, clock) && s == RunFrom(Initial(things, env, clock), events);
    RunSpares(Initial(things, env, clock), events);
  }

  /** The box's data is safe from every command but delete: a command that removes the box's
      network or a volume is delete, or is a create or import that made it itself after its
      own preflight had found nothing. */
  lemma DataSpared(s: State, p: Pid, luck: Luck, t: Thing)
    requires Reachable(s) && p in s.processes && Ours(s, t) && !Ours(Step(s, Move(p, luck)), t)
    ensures var r := s.processes[p]; r.command == Delete || (Fresher(r.command) && r.since <= s.things[t].id)
  {
    ReachableSpares(s);
    var r := s.processes[p];
    assert Spares(s, r);
    OnlyDestroyRemoves(s, p, r, luck, t, Next(s, r, luck));
  }

  lemma OnlyDestroyRemoves(s: State, p: Pid, r: Process, luck: Luck, t: Thing, turn: Turn)
    requires turn == Next(s, r, luck) && Ours(s, t) && !Ours(Apply(s, p, turn.effect), t)
    ensures r.pc.DropNetwork? || r.pc.DropVolume?
  {
    assert turn.effect.RemoveNetwork? || turn.effect.RemoveVolume?;
    if !Dropping(r.pc) {
      OnlyDropping(s, r, luck);
    } else {
      assert turn == MoveDestroy(s, r, luck);
    }
  }

  lemma OnlyDropping(s: State, r: Process, luck: Luck)
    requires !Dropping(r.pc)
    ensures !Next(s, r, luck).effect.RemoveNetwork? && !Next(s, r, luck).effect.RemoveVolume?
  {
    if Creating(r.pc) {
      assert Next(s, r, luck) == MoveCreate(s, r, luck);
    } else {
      NoThingEffects(s, r, luck);
    }
  }

  /** Likewise a container: create and import only ever remove their own. */
  lemma FreshCommandsSpare(s: State, p: Pid, luck: Luck, c: Moment)
    requires Reachable(s) && p in s.processes && c in s.containers && c !in Step(s, Move(p, luck)).containers
    ensures Fresher(s.processes[p].command) ==> s.processes[p].since <= c
  {
    ReachableSpares(s);
    var r := s.processes[p];
    assert Spares(s, r);
    if Fresher(r.command) && !Past(r.pc) {
      NoContainerEffects(s, r, luck);
    }
  }

  lemma NoContainerEffects(s: State, r: Process, luck: Luck)
    requires !Past(r.pc) && !Replacing(r.pc)
    ensures !Next(s, r, luck).effect.RemoveContainer?
  {
  }
}
