/** What a successful command leaves of its box, whatever the other processes do, and that each
    command succeeds when it is left alone. */
module BoxResults {
  import opened Options
  import opened BoxLifecycle
  import opened BoxSafety

  // ---- What a command is for -----------------------------------------------------------------

  predicate Builder(command: Command) {
    command == Create || command == Import || command == Upgrade
  }

  predicate AllOurs(s: State) {
    Ours(s, Network) && Ours(s, AgentVolume) && Ours(s, ExecutorVolume)
  }

  /** Two new containers with the box's token, in the box's network, over its volumes. */
  predicate Whole(s: State, r: Process) {
    && AllOurs(s) && s.env == Some(r.token) && r.agent != r.executor && r.agent !in r.ids && r.executor !in r.ids
    && s.containers == map[r.agent := r.token, r.executor := r.token]
  }

  /** What a command has done when it succeeds: a builder leaves a whole box, an agent
      recreation the new agent, delete and prune nothing of the box. */
  predicate Accomplished(s: State, r: Process) {
    match r.command
    case Create => Whole(s, r)
    case Import => Whole(s, r)
    case Upgrade => Whole(s, r)
    case Recreate =>
      Ours(s, Network) && Ours(s, AgentVolume) && s.env == Some(r.token) && r.agent in s.containers
      && s.containers[r.agent] == r.token
    case Delete => Empty(s) && s.env.None?
    case Prune => Empty(s) && s.env.None?
  }

  // ---- How far it has come -------------------------------------------------------------------

  /** The names before this one are in order. */
  predicate OursBefore(s: State, t: Thing) {
    (t != Network ==> Ours(s, Network)) && (t == ExecutorVolume ==> Ours(s, AgentVolume))
  }

  /** Past inspection, an upgrade knows all its old containers. */
  predicate OldKnown(s: State, r: Process) {
    r.command == Upgrade ==> s.containers.Keys <= r.ids && !r.errors
  }

  predicate Making(s: State, r: Process, t: Thing) {
    (Builder(r.command) || (r.command == Recreate && t != ExecutorVolume)) && OursBefore(s, t)
    && (r.command != Recreate ==> s.containers == map[])
  }

  predicate Dated(s: State, r: Process) {
    (forall c :: c in s.containers ==> c < s.clock) && (forall i :: i in r.ids ==> i < s.clock)
  }

  predicate Built(s: State, r: Process) {
    match r.pc
    case Inspect(_) => !r.errors
    case InspectThing(_) => !r.errors
    case Image => r.command == Import ==> s.containers == map[]
    case ReadToken => OldKnown(s, r)
    case Save => OldKnown(s, r)
    case SaveRest => OldKnown(s, r) && (r.command != Upgrade ==> s.containers == map[])
    case RemoveOld(left) => r.command == Upgrade && (!r.errors ==> s.containers.Keys <= left)
    case InspectAgent => r.command == Recreate
    case StopAgent => r.command == Recreate && OursBefore(s, ExecutorVolume)
    case RemoveAgent => r.command == Recreate && OursBefore(s, ExecutorVolume)
    case Ensure(t) => Making(s, r, t)
    case MakeThing(t) => Making(s, r, t) && t !in s.things
    case MakeAgent =>
      && (Builder(r.command) || r.command == Recreate) && OursBefore(s, ExecutorVolume)
      && (r.command != Recreate ==> s.containers == map[] && AllOurs(s))
    case MakeExecutor =>
      Builder(r.command) && AllOurs(s) && s.containers == map[r.agent := r.token] && r.agent !in r.ids
    case Prepare => (Builder(r.command) || r.command == Recreate) && Accomplished(s, r)
    case Release(ok) => ok ==> Accomplished(s, r)
    case _ => true
  }

  ghost predicate KeepsBuilt(s: State, r: Process, turn: Turn, p: Pid) {
    Built(Apply(s, p, turn.effect), turn.next) && Dated(Apply(s, p, turn.effect), turn.next)
  }

  lemma BeginBuilt(s: State, p: Pid, r: Process, luck: Luck, turn: Turn)
    requires (r.pc.Begin? || r.pc.FreshContainers?) && Promise(s, r) && Built(s, r) && Dated(s, r)
    requires turn == MoveFirst(s, r, luck)
    ensures KeepsBuilt(s, r, turn, p)
  {
  }

  lemma FoundBuilt(s: State, r: Process, found: bool, agent: Moment)
    requires Dated(s, r)
    ensures Built(s, AfterExists(r, found, agent).next) && Dated(s, AfterExists(r, found, agent).next)
  {
  }

  lemma ExistsBuilt(s: State, p: Pid, r: Process, luck: Luck, turn: Turn)
    requires r.pc.Exists? && Dated(s, r) && turn == MoveFirst(s, r, luck)
    ensures KeepsBuilt(s, r, turn, p)
  {
    assert turn.effect.Nothing?;
    if luck.ok {
      FoundBuilt(s, r, if r.command == Recreate then luck.pick in s.containers else s.containers != map[], luck.pick);
    }
  }

  lemma FreshBuilt(s: State, p: Pid, r: Process, luck: Luck, turn: Turn)
    requires (r.pc.Fresh? || r.pc.Validate? || r.pc.Image?) && Promise(s, r) && Built(s, r) && Dated(s, r)
    requires turn == MoveFirst(s, r, luck)
    ensures KeepsBuilt(s, r, turn, p)
  {
  }

  lemma SaveBuilt(s: State, p: Pid, r: Process, luck: Luck, turn: Turn)
    requires (r.pc.Mint? || r.pc.Save? || r.pc.SaveRest?) && Promise(s, r) && Built(s, r) && Dated(s, r)
    requires turn == MoveFirst(s, r, luck)
    ensures KeepsBuilt(s, r, turn, p)
  {
  }

  lemma InspectBuilt(s: State, p: Pid, r: Process, luck: Luck, turn: Turn)
    requires Inspecting(r.pc) && Promise(s, r) && Built(s, r) && Dated(s, r)
    requires turn == MoveInspect(s, r, luck)
    ensures KeepsBuilt(s, r, turn, p)
  {
  }

  lemma RemoveOldBuilt(s: State, p: Pid, r: Process, luck: Luck, turn: Turn)
    requires r.pc.RemoveOld? && Promise(s, r) && Built(s, r) && Dated(s, r)
    requires turn == MoveReplace(s, r, luck)
    ensures KeepsBuilt(s, r, turn, p)
  {
  }

  lemma ReplaceBuilt(s: State, p: Pid, r: Process, luck: Luck, turn: Turn)
    requires (r.pc.ReadToken? || r.pc.InspectAgent? || r.pc.StopAgent? || r.pc.RemoveAgent?)
    requires Promise(s, r) && Built(s, r) && Dated(s, r)
    requires turn == MoveReplace(s, r, luck)
    ensures KeepsBuilt(s, r, turn, p)
  {
  }

  lemma EnsureBuilt(s: State, p: Pid, r: Process, luck: Luck, turn: Turn)
    requires r.pc.Ensure? && Promise(s, r) && Built(s, r) && Dated(s, r)
    requires turn == MoveCreate(s, r, luck)
    ensures KeepsBuilt(s, r, turn, p)
  {
  }

  lemma MakeThingBuilt(s: State, p: Pid, r: Process, luck: Luck, turn: Turn)
    requires r.pc.MakeThing? && Promise(s, r) && Built(s, r) && Dated(s, r)
    requires turn == MoveCreate(s, r, luck)
    ensures KeepsBuilt(s, r, turn, p)
  {
  }

  lemma MakeAgentBuilt(s: State, p: Pid, r: Process, luck: Luck, turn: Turn)
    requires r.pc.MakeAgent? && Promise(s, r) && Built(s, r) && Dated(s, r)
    requires turn == MoveCreate(s, r, luck)
    ensures KeepsBuilt(s, r, turn, p)
  {
  }

  lemma MakeExecutorBuilt(s: State, p: Pid, r: Process, luck: Luck, turn: Turn)
    requires r.pc.MakeExecutor? && Promise(s, r) && Built(s, r) && Dated(s, r)
    requires turn == MoveCreate(s, r, luck)
    ensures KeepsBuilt(s, r, turn, p)
  {
    assert r.agent in s.containers;
  }

  lemma PrepareBuilt(s: State, p: Pid, r: Process, luck: Luck, turn: Turn)
    requires (r.pc.RemoveLeaked? || r.pc.Prepare?) && Promise(s, r) && Built(s, r) && Dated(s, r)
    requires turn == MoveCreate(s, r, luck)
    ensures KeepsBuilt(s, r, turn, p)
  {
  }

  lemma DropContainersBuilt(s: State, p: Pid, r: Process, luck: Luck, turn: Turn)
    requires r.pc.DropContainers? && Promise(s, r) && Built(s, r) && Dated(s, r)
    requires turn == MoveDestroy(s, r, luck)
    ensures KeepsBuilt(s, r, turn, p)
  {
  }

  lemma DropNetworkBuilt(s: State, p: Pid, r: Process, luck: Luck, turn: Turn)
    requires r.pc.DropNetwork? && Promise(s, r) && Built(s, r) && Dated(s, r)
    requires turn == MoveDestroy(s, r, luck)
    ensures KeepsBuilt(s, r, turn, p)
  {
  }

  lemma DropVolumeBuilt(s: State, p: Pid, r: Process, luck: Luck, turn: Turn)
    requires r.pc.DropVolume? && Promise(s, r) && Built(s, r) && Dated(s, r)
    requires turn == MoveDestroy(s, r, luck)
    ensures KeepsBuilt(s, r, turn, p)
  {
    assert turn.next.pc.DropVolume? || turn.next.pc.DropEnv?;
    assert turn.next.ids == r.ids && Apply(s, p, turn.effect).containers == s.containers;
  }

  lemma DropEnvBuilt(s: State, p: Pid, r: Process, luck: Luck, turn: Turn)
    requires r.pc.DropEnv? && Promise(s, r) && Built(s, r) && Dated(s, r)
    requires turn == MoveDestroy(s, r, luck)
    ensures KeepsBuilt(s, r, turn, p)
  {
  }

  lemma EndBuilt(s: State, p: Pid, r: Process, luck: Luck, turn: Turn)
    requires (r.pc.PruneThing? || r.pc.Release? || r.pc.Done?) && Promise(s, r) && Built(s, r) && Dated(s, r)
    requires turn == Next(s, r, luck)
    ensures KeepsBuilt(s, r, turn, p)
  {
  }

  /** Every step of a command keeps what it has come to. */
  lemma NextBuilt(s: State, p: Pid, r: Process, luck: Luck)
    requires Promise(s, r) && Built(s, r) && Dated(s, r)
    ensures KeepsBuilt(s, r, Next(s, r, luck), p)
  {
    var turn := Next(s, r, luck);
    if r.pc.Begin? || r.pc.FreshContainers? {
      BeginBuilt(s, p, r, luck, turn);
    } else if r.pc.Exists? {
      ExistsBuilt(s, p, r, luck, turn);
    } else if r.pc.Fresh? || r.pc.Validate? || r.pc.Image? {
      FreshBuilt(s, p, r, luck, turn);
    } else if First(r.pc) {
      SaveBuilt(s, p, r, luck, turn);
    } else if Inspecting(r.pc) {
      InspectBuilt(s, p, r, luck, turn);
    } else if r.pc.RemoveOld? {
      RemoveOldBuilt(s, p, r, luck, turn);
    } else if Replacing(r.pc) {
      ReplaceBuilt(s, p, r, luck, turn);
    } else if r.pc.Ensure? {
      EnsureBuilt(s, p, r, luck, turn);
    } else if r.pc.MakeThing? {
      MakeThingBuilt(s, p, r, luck, turn);
    } else if r.pc.MakeAgent? {
      MakeAgentBuilt(s, p, r, luck, turn);
    } else if r.pc.MakeExecutor? {
      MakeExecutorBuilt(s, p, r, luck, turn);
    } else if Creating(r.pc) {
      PrepareBuilt(s, p, r, luck, turn);
    } else if r.pc.DropContainers? {
      DropContainersBuilt(s, p, r, luck, turn);
    } else if r.pc.DropNetwork? {
      DropNetworkBuilt(s, p, r, luck, turn);
    } else if r.pc.DropVolume? {
      DropVolumeBuilt(s, p, r, luck, turn);
    } else if r.pc.DropEnv? {
      DropEnvBuilt(s, p, r, luck, turn);
    } else {
      EndBuilt(s, p, r, luck, turn);
    }
  }

  // ---- Whole runs ----------------------------------------------------------------------------

  /** Nobody else removes anything of the box or takes its names; the other processes may do
      whatever they do. */
  predicate Quiet(e: Event) {
    e.Launch? || e.Move? || e.Die?
  }

  /** The process lives through these events, and they are quiet. */
  predicate Lives(s: State, p: Pid, events: seq<Event>)
    decreases |events|
  {
    p in s.processes && (events != [] ==> Quiet(events[0]) && Lives(Step(s, events[0]), p, events[1..]))
  }

  lemma SameBuilt(s: State, t: State, r: Process)
    requires s.containers == t.containers && s.things == t.things && s.env == t.env && s.clock <= t.clock
    requires Built(s, r) && Dated(s, r)
    ensures Built(t, r) && Dated(t, r)
  {
  }

  lemma OwnBuilt(s: State, p: Pid, luck: Luck, t: State)
    requires p in s.processes && Safe(s) && Built(s, s.processes[p]) && Dated(s, s.processes[p])
    requires t == Step(s, Move(p, luck))
    ensures Built(t, t.processes[p]) && Dated(t, t.processes[p])
  {
    var turn := Next(s, s.processes[p], luck);
    assert Promise(s, s.processes[p]);
    NextBuilt(s, p, s.processes[p], luck);
    var after := Apply(s, p, turn.effect);
    assert t == after.(processes := s.processes[p := turn.next]);
    SameBuilt(after, t, turn.next);
  }

  /** While a process holds the lock, the others touch nothing; otherwise it relies on nothing. */
  lemma OtherBuilt(s: State, p: Pid, q: Pid, luck: Luck, t: State)
    requires p in s.processes && q in s.processes && p != q && Safe(s) && Dated(s, s.processes[p])
    requires Built(s, s.processes[p]) && t == Step(s, Move(q, luck))
    ensures p in t.processes && t.processes[p] == s.processes[p]
    ensures Built(t, t.processes[p]) && Dated(t, t.processes[p])
  {
    var turn := Next(s, s.processes[q], luck);
    NextLocking(s, s.processes[q], luck);
    var after := Apply(s, q, turn.effect);
    assert t == after.(processes := s.processes[q := turn.next]);
    if Locked(s.processes[p].pc) {
      assert s.lock == Some(p) && !Locked(s.processes[q].pc);
      SameBuilt(s, t, s.processes[p]);
    } else {
      StaysDated(s, q, turn.effect, s.processes[p]);
    }
  }

  lemma StaysDated(s: State, q: Pid, effect: Effect, r: Process)
    requires Dated(s, r)
    ensures Dated(Apply(s, q, effect), r)
  {
  }

  lemma StepBuilt(s: State, p: Pid, e: Event, t: State)
    requires p in s.processes && Safe(s) && Built(s, s.processes[p]) && Dated(s, s.processes[p])
    requires Quiet(e) && t == Step(s, e) && p in t.processes
    ensures Built(t, t.processes[p]) && Dated(t, t.processes[p])
    ensures t.processes[p].command == s.processes[p].command
  {
    if e.Move? && e.pid in s.processes {
      NextLocking(s, s.processes[e.pid], e.luck);
      if e.pid == p {
        OwnBuilt(s, p, e.luck, t);
      } else {
        OtherBuilt(s, p, e.pid, e.luck, t);
      }
    } else {
      SameBuilt(s, t, s.processes[p]);
    }
  }

  lemma {:induction false} RunBuilt(s: State, p: Pid, events: seq<Event>)
    requires Safe(s) && Lives(s, p, events) && Built(s, s.processes[p]) && Dated(s, s.processes[p])
    ensures var t := RunFrom(s, events);
      p in t.processes && Built(t, t.processes[p]) && t.processes[p].command == s.processes[p].command
    decreases |events|
  {
    if events != [] {
      StepBuilt(s, p, events[0], Step(s, events[0]));
      StepSafe(s, events[0]);
      RunBuilt(Step(s, events[0]), p, events[1..]);
    }
  }

  lemma {:induction false} RunDated(s: State, events: seq<Event>)
    requires forall c :: c in s.containers ==> c < s.clock
    ensures forall c :: c in RunFrom(s, events).containers ==> c < RunFrom(s, events).clock
    decreases |events|
  {
    if events != [] {
      StepDated(s, events[0], Step(s, events[0]));
      RunDated(Step(s, events[0]), events[1..]);
    }
  }

  lemma StepDated(s: State, e: Event, t: State)
    requires (forall c :: c in s.containers ==> c < s.clock) && t == Step(s, e)
    ensures forall c :: c in t.containers ==> c < t.clock
  {
    if e.Move? && e.pid in s.processes {
      var turn := Next(s, s.processes[e.pid], e.luck);
      StaysDated(s, e.pid, turn.effect, s.processes[e.pid].(ids := {}));
    }
  }

  lemma ReachableDated(s: State)
    requires Reachable(s)
    ensures forall c :: c in s.containers ==> c < s.clock
  {
    var things: map<Thing, Item>, env: Option<Token>, clock: Moment, events: seq<Event> :|
      Starts(things, clock) && s == RunFrom(Initial(things, env, clock), events);
    RunDated(Initial(things, env, clock), events);
  }

  /** From its launch to its success, whatever the other processes do, as long as nobody outside
      touches the box: a command that succeeds has done what it is for. */
  lemma SuccessLeaves(s: State, p: Pid, events: seq<Event>, t: State)
    requires Reachable(s) && Lives(s, p, events) && t == RunFrom(s, events)
    requires s.processes[p] == Newcomer(s.processes[p].command)
    ensures p in t.processes && t.processes[p].command == s.processes[p].command
    ensures t.processes[p].pc == Release(true) ==> Accomplished(t, t.processes[p])
  {
    ReachableSafe(s);
    ReachableDated(s);
    RunBuilt(s, p, events);
  }

  // ---- What an agent recreation replaces -------------------------------------------------------

  /** Exactly one of these containers is replaced, by the agent. */
  ghost predicate Replaced(first: map<Moment, Token>, now: map<Moment, Token>, r: Process) {
    r.agent !in first && exists c :: c in first && now == (first - {c})[r.agent := r.token]
  }

  /** How far a recreation has come from these containers. */
  ghost predicate Recreating(first: map<Moment, Token>, s: State, r: Process) {
    match r.pc
    case MakeAgent => r.agent in first && s.containers == first - {r.agent}
    case Prepare => Replaced(first, s.containers, r)
    case Release(ok) => ok ==> Replaced(first, s.containers, r)
    case Done(_) => true
    case Begin => false
    case _ => s.containers == first && (r.pc.RemoveAgent? ==> r.command == Recreate)
  }

  /** Where a recreation can be. */
  predicate RecreatesOnly(r: Process) {
    && r.command == Recreate
    && (r.pc.Exists? || r.pc.ReadToken? || r.pc.InspectAgent? || r.pc.StopAgent? || r.pc.RemoveAgent?
      || ((r.pc.Ensure? || r.pc.MakeThing?) && r.pc.thing != ExecutorVolume) || r.pc.MakeAgent? || r.pc.Prepare?
      || r.pc.Release? || r.pc.Done?)
  }

  lemma FoundRecreates(s: State, p: Pid, r: Process, luck: Luck, turn: Turn, first: map<Moment, Token>)
    requires RecreatesOnly(r) && Recreating(first, s, r) && (r.pc.Exists? || Replacing(r.pc))
    requires turn == Next(s, r, luck)
    ensures RecreatesOnly(turn.next) && Recreating(first, Apply(s, p, turn.effect), turn.next)
  {
  }

  lemma EnsureRecreates(s: State, p: Pid, r: Process, luck: Luck, turn: Turn, first: map<Moment, Token>)
    requires RecreatesOnly(r) && Recreating(first, s, r) && (r.pc.Ensure? || r.pc.MakeThing?)
    requires turn == Next(s, r, luck)
    ensures RecreatesOnly(turn.next) && Recreating(first, Apply(s, p, turn.effect), turn.next)
  {
  }

  lemma MakeRecreates(s: State, p: Pid, r: Process, luck: Luck, turn: Turn, first: map<Moment, Token>)
    requires RecreatesOnly(r) && Recreating(first, s, r)
    requires (r.pc.MakeAgent? || r.pc.Prepare? || !Locked(r.pc) || r.pc.Release?)
    requires turn == Next(s, r, luck) && forall c :: c in first ==> c < s.clock
    ensures RecreatesOnly(turn.next) && Recreating(first, Apply(s, p, turn.effect), turn.next)
  {
    if r.pc.MakeAgent? && luck.ok {
      assert Apply(s, p, turn.effect).containers == (first - {r.agent})[turn.next.agent := turn.next.token];
    }
  }

  lemma NextRecreates(s: State, p: Pid, r: Process, luck: Luck, first: map<Moment, Token>)
    requires RecreatesOnly(r) && Recreating(first, s, r) && forall c :: c in first ==> c < s.clock
    ensures var turn := Next(s, r, luck);
      RecreatesOnly(turn.next) && Recreating(first, Apply(s, p, turn.effect), turn.next)
  {
    if r.pc.Exists? || Replacing(r.pc) {
      FoundRecreates(s, p, r, luck, Next(s, r, luck), first);
    } else if r.pc.Ensure? || r.pc.MakeThing? {
      EnsureRecreates(s, p, r, luck, Next(s, r, luck), first);
    } else {
      MakeRecreates(s, p, r, luck, Next(s, r, luck), first);
    }
  }

  lemma SameRecreating(s: State, t: State, r: Process, first: map<Moment, Token>)
    requires s.containers == t.containers || r.pc.Done?
    ensures Recreating(first, s, r) ==> Recreating(first, t, r)
  {
  }

  lemma ClockGrows(s: State, e: Event)
    ensures s.clock <= Step(s, e).clock
  {
  }

  lemma StepRecreates(s: State, p: Pid, e: Event, t: State, first: map<Moment, Token>)
    requires p in s.processes && Safe(s) && RecreatesOnly(s.processes[p]) && Recreating(first, s, s.processes[p])
    requires Quiet(e) && t == Step(s, e) && p in t.processes && forall c :: c in first ==> c < s.clock
    ensures RecreatesOnly(t.processes[p]) && Recreating(first, t, t.processes[p])
  {
    if e.Move? && e.pid in s.processes {
      var turn := Next(s, s.processes[e.pid], e.luck);
      var after := Apply(s, e.pid, turn.effect);
      assert t == after.(processes := s.processes[e.pid := turn.next]);
      NextLocking(s, s.processes[e.pid], e.luck);
      if e.pid == p {
        NextRecreates(s, p, s.processes[p], e.luck, first);
        SameRecreating(after, t, turn.next, first);
      } else if Locked(s.processes[p].pc) {
        assert s.lock == Some(p) && !Locked(s.processes[e.pid].pc);
        SameRecreating(s, t, s.processes[p], first);
      }
    }
  }

  lemma {:induction false} RunRecreates(s: State, p: Pid, events: seq<Event>, first: map<Moment, Token>)
    requires Safe(s) && Lives(s, p, events) && RecreatesOnly(s.processes[p]) && Recreating(first, s, s.processes[p])
    requires forall c :: c in first ==> c < s.clock
    ensures var t := RunFrom(s, events); p in t.processes && Recreating(first, t, t.processes[p])
    decreases |events|
  {
    if events != [] {
      StepRecreates(s, p, events[0], Step(s, events[0]), first);
      StepSafe(s, events[0]);
      ClockGrows(s, events[0]);
      RunRecreates(Step(s, events[0]), p, events[1..], first);
    }
  }

  /** An agent recreation that succeeds has replaced exactly one of the containers there were when
      it got the lock, by a new one with the box's token. */
  lemma RecreateReplacesOne(s: State, p: Pid, events: seq<Event>, t: State)
    requires Reachable(s) && Lives(s, p, events) && t == RunFrom(s, events)
    requires s.processes[p].command == Recreate && s.processes[p].pc == Exists
    ensures p in t.processes
    ensures t.processes[p].pc == Release(true) ==> Replaced(s.containers, t.containers, t.processes[p])
  {
    ReachableSafe(s);
    ReachableDated(s);
    RunRecreates(s, p, events, s.containers);
  }

  // ---- What a failure does ---------------------------------------------------------------------

  /** Where a command still looks and prepares. */
  predicate Looking(pc: Pc) {
    pc.Exists? || pc.FreshContainers? || pc.Fresh? || pc.Validate? || pc.Image? || pc.Mint? || pc.Save? || pc.SaveRest?
    || Inspecting(pc) || pc.ReadToken? || pc.InspectAgent? || pc.StopAgent? || pc.PruneThing?
  }

  lemma LookFailed(s: State, r: Process, luck: Luck, turn: Turn)
    requires First(r.pc) && Looking(r.pc) && !luck.ok && turn == MoveFirst(s, r, luck)
    ensures turn == Goto(r, Release(false))
  {
  }

  /** While it looks and prepares, the first call that fails ends a command, and changes nothing. */
  lemma FailureStops(s: State, r: Process, luck: Luck)
    requires Looking(r.pc) && !luck.ok
    ensures Next(s, r, luck) == Goto(r, Release(false))
  {
    if First(r.pc) {
      LookFailed(s, r, luck, Next(s, r, luck));
    }
  }

  /** A command counts as successful only through its own success. */
  lemma OnlyReleased(s: State, r: Process, luck: Luck)
    requires r.pc != Done(true) && Next(s, r, luck).next.pc == Done(true)
    ensures r.pc == Release(true)
  {
    if !r.pc.Release? && !r.pc.Done? {
      NoneDone(s, r, luck);
    }
  }

  lemma NoneDone(s: State, r: Process, luck: Luck)
    requires !r.pc.Release? && !r.pc.Done?
    ensures Next(s, r, luck).next.pc != Done(true)
  {
    if First(r.pc) {
      assert MoveFirst(s, r, luck).next.pc != Done(true);
    } else if Creating(r.pc) {
      assert MoveCreate(s, r, luck).next.pc != Done(true);
    }
  }

  // ---- Whose objects a build goes on with ------------------------------------------------------

  /** A build goes on only with a name that is its own box's, but for a volume that someone put
      there between its look and its creation: Docker hands out that one. */
  lemma OwnUnlessRaced(s: State, p: Pid, r: Process, luck: Luck, t: Thing, turn: Turn)
    requires (r.pc == Ensure(t) || r.pc == MakeThing(t)) && turn == MoveCreate(s, r, luck)
    requires turn.next.pc == AfterThing(r, t)
    ensures Ours(Apply(s, p, turn.effect), t)
      || (r.pc.MakeThing? && t != Network && t in s.things && !s.things[t].ours)
  {
  }

  // ---- No box without a token --------------------------------------------------------------------

  /** Past the minting or reading of its token, a process has one. */
  predicate Tokened(r: Process) {
    (r.pc.Save? || r.pc.SaveRest? || r.pc.RemoveOld? || r.pc.InspectAgent? || r.pc.StopAgent? || r.pc.RemoveAgent?
      || (Creating(r.pc) && !r.pc.RemoveLeaked?) || (r.pc.Image? && r.command == Import)) ==> r.token != 0
  }

  predicate AllTokened(s: State) {
    && (forall c :: c in s.containers ==> s.containers[c] != 0)
    && (forall p :: p in s.processes ==> Tokened(s.processes[p]))
  }

  lemma FirstTokened(s: State, r: Process, luck: Luck, turn: Turn)
    requires First(r.pc) && Promise(s, r) && Tokened(r) && turn == MoveFirst(s, r, luck)
    ensures Tokened(turn.next) && !turn.effect.AddContainer?
  {
  }

  lemma ReplaceTokened(s: State, r: Process, luck: Luck, turn: Turn)
    requires Replacing(r.pc) && Tokened(r) && turn == MoveReplace(s, r, luck)
    ensures Tokened(turn.next) && !turn.effect.AddContainer?
  {
  }

  lemma CreateTokened(s: State, r: Process, luck: Luck, turn: Turn)
    requires Creating(r.pc) && Tokened(r) && turn == MoveCreate(s, r, luck)
    ensures Tokened(turn.next) && (turn.effect.AddContainer? ==> turn.effect.token != 0)
  {
  }

  lemma InspectTokened(s: State, r: Process, luck: Luck, turn: Turn)
    requires Inspecting(r.pc) && turn == MoveInspect(s, r, luck)
    ensures Tokened(turn.next) && !turn.effect.AddContainer?
  {
  }

  lemma DropTokened(s: State, r: Process, luck: Luck, turn: Turn)
    requires Dropping(r.pc) && turn == MoveDestroy(s, r, luck)
    ensures Tokened(turn.next) && !turn.effect.AddContainer?
  {
  }

  lemma NextTokened(s: State, r: Process, luck: Luck)
    requires Promise(s, r) && Tokened(r)
    ensures var turn := Next(s, r, luck);
      Tokened(turn.next) && (turn.effect.AddContainer? ==> turn.effect.token != 0)
  {
    if First(r.pc) {
      FirstTokened(s, r, luck, Next(s, r, luck));
    } else if Replacing(r.pc) {
      ReplaceTokened(s, r, luck, Next(s, r, luck));
    } else if Creating(r.pc) {
      CreateTokened(s, r, luck, Next(s, r, luck));
    } else if Inspecting(r.pc) {
      InspectTokened(s, r, luck, Next(s, r, luck));
    } else if Dropping(r.pc) {
      DropTokened(s, r, luck, Next(s, r, luck));
    }
  }

  lemma StepTokened(s: State, e: Event)
    requires Safe(s) && AllTokened(s)
    ensures AllTokened(Step(s, e))
  {
    if e.Move? && e.pid in s.processes {
      var turn := Next(s, s.processes[e.pid], e.luck);
      assert Promise(s, s.processes[e.pid]);
      NextTokened(s, s.processes[e.pid], e.luck);
      TokenedAfter(s, e.pid, turn);
    }
  }

  lemma TokenedAfter(s: State, p: Pid, turn: Turn)
    requires p in s.processes && AllTokened(s) && Tokened(turn.next)
    requires turn.effect.AddContainer? ==> turn.effect.token != 0
    ensures AllTokened(Take(s, p, turn))
  {
  }

  lemma {:induction false} RunTokened(s: State, events: seq<Event>)
    requires Safe(s) && AllTokened(s)
    ensures AllTokened(RunFrom(s, events))
    decreases |events|
  {
    if events != [] {
      StepTokened(s, events[0]);
      StepSafe(s, events[0]);
      RunTokened(Step(s, events[0]), events[1..]);
    }
  }

  /** In every run no container is ever created without a token. */
  lemma NoneTokenless(s: State, c: Moment)
    requires Reachable(s) && c in s.containers
    ensures s.containers[c] != 0
  {
    var things: map<Thing, Item>, env: Option<Token>, clock: Moment, events: seq<Event> :|
      Starts(things, clock) && s == RunFrom(Initial(things, env, clock), events);
    RunTokened(Initial(things, env, clock), events);
  }
}
