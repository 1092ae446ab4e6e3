/** Every command reaches its success when it is left alone and its calls succeed. */
module BoxAlone {
  import opened Options
  import opened BoxLifecycle
  import opened BoxSafety
  import opened BoxResults

  // ---- On the way to success -----------------------------------------------------------------

  predicate NothingThere(s: State) {
    s.containers == map[] && s.things == map[]
  }

  predicate NoneForeign(s: State) {
    forall t :: t in s.things ==> s.things[t].ours
  }

  predicate HasToken(s: State) {
    s.env.Some? && s.env.value != 0
  }

  /** What a command needs: create, import and prune a host without anything under the box's
      names, the others a box of which nothing is foreign, and a token to build with. */
  predicate Ready(s: State, command: Command) {
    match command
    case Create => NothingThere(s)
    case Import => NothingThere(s)
    case Prune => NothingThere(s)
    case Delete => s.containers != map[] && NoneForeign(s)
    case Upgrade => s.containers != map[] && NoneForeign(s) && HasToken(s)
    case Recreate => s.containers != map[] && NoneForeign(s) && HasToken(s)
  }

  predicate Rebuilding(s: State, r: Process) {
    r.command == Upgrade && NoneForeign(s) && HasToken(s) && !r.destroying
  }

  /** Delete, or a create or import that has failed and cleans up. */
  predicate Destroying(s: State, r: Process) {
    (r.command == Delete || Fresher(r.command)) && NoneForeign(s) && r.destroying
  }

  predicate Starting(s: State, r: Process) {
    Fresher(r.command) && NothingThere(s) && !r.destroying
  }

  /** The containers found are those there are. */
  predicate FoundAll(s: State, r: Process) {
    r.ids == s.containers.Keys && !r.errors
  }

  predicate Replacing1(s: State, r: Process) {
    r.command == Recreate && NoneForeign(s) && r.agent in s.containers
  }

  predicate Building(r: Process) {
    Builder(r.command) && (Fresher(r.command) ==> !r.destroying)
  }

  predicate Names(s: State, r: Process, t: Thing) {
    NoneForeign(s) && (Building(r) || (Replacing1(s, r) && t != ExecutorVolume))
  }

  /** The end of a cleanup is that the env file is gone; any other is success. */
  predicate Ended(s: State, r: Process, ok: bool) {
    if Fresher(r.command) && r.destroying then s.env.None? else ok
  }

  predicate OnCourse(s: State, r: Process) {
    match r.pc
    case Begin => s.lock.None? && Ready(s, r.command) && !r.destroying && !r.errors
    case Exists => Ready(s, r.command) && !r.destroying && !r.errors
    case FreshContainers => Starting(s, r)
    case Fresh(_) => Starting(s, r)
    case Validate => r.command == Import && Starting(s, r)
    case Mint => Starting(s, r)
    case Image => (Starting(s, r)) || Rebuilding(s, r)
    case Save => (Starting(s, r)) || (Rebuilding(s, r) && FoundAll(s, r))
    case SaveRest =>
      (Starting(s, r)) || (r.command == Upgrade && NoneForeign(s) && FoundAll(s, r))
    case List => Rebuilding(s, r) || Destroying(s, r)
    case Inspect(left) =>
      (Rebuilding(s, r) || Destroying(s, r)) && left + r.ids == s.containers.Keys && !r.errors
    case InspectThing(_) => (Rebuilding(s, r) || Destroying(s, r)) && FoundAll(s, r)
    case ReadToken => HasToken(s) && (Replacing1(s, r) || (Rebuilding(s, r) && FoundAll(s, r)))
    case RemoveOld(left) => r.command == Upgrade && NoneForeign(s) && left == s.containers.Keys && !r.errors
    case InspectAgent => Replacing1(s, r)
    case StopAgent => Replacing1(s, r)
    case RemoveAgent => Replacing1(s, r)
    case Ensure(t) => Names(s, r, t)
    case MakeThing(t) => Names(s, r, t) && t !in s.things
    case MakeAgent => Building(r) || r.command == Recreate
    case MakeExecutor => Building(r)
    case Prepare => Building(r) || r.command == Recreate
    case RemoveLeaked => false
    case DropContainers(_) => Destroying(s, r) && !r.errors
    case DropNetwork => Destroying(s, r) && !r.errors
    case DropVolume(_) => Destroying(s, r) && !r.errors
    case DropEnv => (Destroying(s, r) || r.command == Prune) && !r.errors
    case PruneThing(_) => r.command == Prune && NothingThere(s) && !r.errors
    case Release(ok) => Ended(s, r, ok)
    case Done(ok) => Ended(s, r, ok)
  }

  function Order(t: Thing): nat {
    match t
    case Network => 3
    case AgentVolume => 2
    case ExecutorVolume => 1
  }

  /** How far it is to the end at most. */
  function Distance(s: State, r: Process): nat {
    match r.pc
    case Begin => 41 + 2 * |s.containers| + |r.ids|
    case Exists => 40 + 2 * |s.containers| + |r.ids|
    case FreshContainers => 34 + |r.ids|
    case Fresh(t) => 30 + |r.ids| + Order(t)
    case Image =>
      if r.command == Create then 19 + |r.ids| else if r.command == Import then 14 else 27 + 2 * |s.containers|
    case Validate => 18 + |r.ids|
    case Mint => 17 + |r.ids|
    case Save => 16 + |r.ids|
    case SaveRest => 15 + |r.ids|
    case List => 26 + 2 * |s.containers|
    case Inspect(left) => 25 + |r.ids| + 2 * |left|
    case InspectThing(t) => 20 + |r.ids| + Order(t)
    case ReadToken => 18 + |r.ids|
    case RemoveOld(left) => 13 + |left|
    case InspectAgent => 13
    case Ensure(t) => 6 + 2 * Order(t)
    case MakeThing(t) => 5 + 2 * Order(t)
    case StopAgent => 6
    case RemoveAgent => 5
    case MakeAgent => 4
    case MakeExecutor => 3
    case Prepare => 2
    case RemoveLeaked => 0
    case DropContainers(left) => 13 + |left|
    case DropNetwork => 12
    case DropVolume(t) => 8 + Order(t)
    case DropEnv => 2
    case PruneThing(t) => if t == AgentVolume then 6 else if t == ExecutorVolume then 5 else 4
    case Release(_) => 1
    case Done(_) => 0
  }

  ghost function Any(ids: set<Moment>): Moment
    ensures ids != {} ==> Any(ids) in ids
  {
    if ids == {} then 0 else var i :| i in ids; i
  }

  /** A call that succeeds, about one of the containers still to be seen, if it is about one. */
  ghost function Lucky(s: State, r: Process): Luck {
    Luck(true, true,
      match r.pc
      case Exists => Any(s.containers.Keys)
      case Mint => 1
      case Inspect(left) => if left == {} then s.clock else Any(left)
      case RemoveOld(left) => Any(left)
      case DropContainers(left) => Any(left)
      case _ => 0)
  }

  predicate Past(s: State) {
    forall c :: c in s.containers ==> c < s.clock
  }

  ghost predicate Advances(s: State, p: Pid, r: Process, turn: Turn) {
    && OnCourse(Apply(s, p, turn.effect), turn.next)
    && Distance(Apply(s, p, turn.effect), turn.next) < Distance(s, r)
    && (Fresher(r.command) ==> turn.next.command == r.command && turn.next.destroying == r.destroying)
  }

  lemma BeginAdvances(s: State, p: Pid, r: Process, turn: Turn)
    requires r.pc.Begin?
    requires OnCourse(s, r) && Past(s) && turn == MoveFirst(s, r, Lucky(s, r))
    ensures Advances(s, p, r, turn)
  {
  }

  lemma ExistsAdvances(s: State, p: Pid, r: Process, turn: Turn)
    requires r.pc.Exists?
    requires OnCourse(s, r) && Past(s) && turn == MoveFirst(s, r, Lucky(s, r))
    ensures Advances(s, p, r, turn)
  {
  }

  lemma FreshAdvances(s: State, p: Pid, r: Process, turn: Turn)
    requires r.pc.Fresh?
    requires OnCourse(s, r) && Past(s) && turn == MoveFirst(s, r, Lucky(s, r))
    ensures Advances(s, p, r, turn)
  {
  }

  lemma PreflightAdvances(s: State, p: Pid, r: Process, turn: Turn)
    requires (r.pc.FreshContainers? || r.pc.Validate?)
    requires OnCourse(s, r) && Past(s) && turn == MoveFirst(s, r, Lucky(s, r))
    ensures Advances(s, p, r, turn)
  {
  }

  lemma MintAdvances(s: State, p: Pid, r: Process, turn: Turn)
    requires (r.pc.Image? || r.pc.Mint?)
    requires OnCourse(s, r) && Past(s) && turn == MoveFirst(s, r, Lucky(s, r))
    ensures Advances(s, p, r, turn)
  {
  }

  lemma SaveAdvances(s: State, p: Pid, r: Process, turn: Turn)
    requires (r.pc.Save? || r.pc.SaveRest?)
    requires OnCourse(s, r) && Past(s) && turn == MoveFirst(s, r, Lucky(s, r))
    ensures Advances(s, p, r, turn)
  {
  }

  lemma ListAdvances(s: State, p: Pid, r: Process, turn: Turn)
    requires r.pc.List?
    requires OnCourse(s, r) && Past(s) && turn == MoveInspect(s, r, Lucky(s, r))
    ensures Advances(s, p, r, turn)
  {
  }

  lemma ThingAdvances(s: State, p: Pid, r: Process, turn: Turn)
    requires r.pc.InspectThing?
    requires OnCourse(s, r) && Past(s) && turn == MoveInspect(s, r, Lucky(s, r))
    ensures Advances(s, p, r, turn)
  {
  }

  lemma OneMore(ids: set<Moment>, c: Moment)
    ensures |ids + {c}| <= |ids| + 1
  {
    if c in ids {
      assert ids + {c} == ids;
    }
  }

  /** One more container inspected: it is counted once less among those left, and at most once
      more among those found. */
  lemma OneInspected(s: State, r: Process, left: set<Moment>, c: Moment, next: Process)
    requires r.pc == Inspect(left) && c in left && OnCourse(s, r)
    requires next == r.(ids := r.ids + {c}, pc := Inspect(left - {c}))
    ensures OnCourse(s, next) && Distance(s, next) < Distance(s, r)
  {
    assert |left - {c}| == |left| - 1;
    OneMore(r.ids, c);
    assert (left - {c}) + (r.ids + {c}) == left + r.ids;
  }

  lemma AllInspected(s: State, r: Process, next: Process)
    requires r.pc == Inspect({}) && OnCourse(s, r) && next == r.(pc := InspectThing(Network))
    ensures OnCourse(s, next) && Distance(s, next) < Distance(s, r)
  {
    assert {} + r.ids == r.ids;
  }

  lemma InspectAdvances(s: State, p: Pid, r: Process, turn: Turn)
    requires r.pc.Inspect?
    requires OnCourse(s, r) && Past(s) && turn == MoveInspect(s, r, Lucky(s, r))
    ensures Advances(s, p, r, turn)
  {
    assert turn.effect.Nothing?;
    if r.pc.left == {} {
      AllInspected(s, r, turn.next);
    } else {
      assert Lucky(s, r).pick in r.pc.left + r.ids;
      OneInspected(s, r, r.pc.left, Lucky(s, r).pick, turn.next);
    }
  }

  lemma RemoveOldAdvances(s: State, p: Pid, r: Process, turn: Turn)
    requires r.pc.RemoveOld?
    requires OnCourse(s, r) && Past(s) && turn == MoveReplace(s, r, Lucky(s, r))
    ensures Advances(s, p, r, turn)
  {
    var left, c := r.pc.left, Lucky(s, r).pick;
    if left != {} {
      assert c in left && |left - {c}| == |left| - 1;
    }
  }

  lemma ReplaceAdvances(s: State, p: Pid, r: Process, turn: Turn)
    requires (r.pc.ReadToken? || r.pc.InspectAgent? || r.pc.StopAgent? || r.pc.RemoveAgent?)
    requires OnCourse(s, r) && Past(s) && turn == MoveReplace(s, r, Lucky(s, r))
    ensures Advances(s, p, r, turn)
  {
  }

  lemma EnsureAdvances(s: State, p: Pid, r: Process, turn: Turn)
    requires r.pc.Ensure?
    requires OnCourse(s, r) && Past(s) && turn == MoveCreate(s, r, Lucky(s, r))
    ensures Advances(s, p, r, turn)
  {
  }

  lemma MakeThingAdvances(s: State, p: Pid, r: Process, turn: Turn)
    requires r.pc.MakeThing?
    requires OnCourse(s, r) && Past(s) && turn == MoveCreate(s, r, Lucky(s, r))
    ensures Advances(s, p, r, turn)
  {
  }

  lemma MakeAdvances(s: State, p: Pid, r: Process, turn: Turn)
    requires (r.pc.MakeAgent? || r.pc.MakeExecutor? || r.pc.Prepare?)
    requires OnCourse(s, r) && Past(s) && turn == MoveCreate(s, r, Lucky(s, r))
    ensures Advances(s, p, r, turn)
  {
  }

  lemma DropContainersAdvances(s: State, p: Pid, r: Process, turn: Turn)
    requires r.pc.DropContainers?
    requires OnCourse(s, r) && Past(s) && turn == MoveDestroy(s, r, Lucky(s, r))
    ensures Advances(s, p, r, turn)
  {
  }

  lemma DropAdvances(s: State, p: Pid, r: Process, turn: Turn)
    requires (r.pc.DropNetwork? || r.pc.DropVolume? || r.pc.DropEnv?)
    requires OnCourse(s, r) && Past(s) && turn == MoveDestroy(s, r, Lucky(s, r))
    ensures Advances(s, p, r, turn)
  {
  }

  lemma PruneAdvances(s: State, p: Pid, r: Process, turn: Turn)
    requires r.pc.PruneThing?
    requires OnCourse(s, r) && Past(s) && turn == MovePrune(s, r, Lucky(s, r), r.pc.thing)
    ensures Advances(s, p, r, turn)
  {
  }

  /** Every lucky step of a command on course brings it closer to its end. */
  lemma LuckyAdvances(s: State, p: Pid, r: Process)
    requires OnCourse(s, r) && Past(s) && !r.pc.Release? && !r.pc.Done?
    ensures Advances(s, p, r, Next(s, r, Lucky(s, r)))
  {
    var turn := Next(s, r, Lucky(s, r));
    if r.pc.Begin? {
      BeginAdvances(s, p, r, turn);
    } else if r.pc.Exists? {
      ExistsAdvances(s, p, r, turn);
    } else if r.pc.Fresh? {
      FreshAdvances(s, p, r, turn);
    } else if r.pc.FreshContainers? || r.pc.Validate? {
      PreflightAdvances(s, p, r, turn);
    } else if r.pc.Image? || r.pc.Mint? {
      MintAdvances(s, p, r, turn);
    } else if First(r.pc) {
      SaveAdvances(s, p, r, turn);
    } else if r.pc.Inspect? {
      InspectAdvances(s, p, r, turn);
    } else if r.pc.List? {
      ListAdvances(s, p, r, turn);
    } else if Inspecting(r.pc) {
      ThingAdvances(s, p, r, turn);
    } else if r.pc.RemoveOld? {
      RemoveOldAdvances(s, p, r, turn);
    } else if Replacing(r.pc) {
      ReplaceAdvances(s, p, r, turn);
    } else if r.pc.Ensure? {
      EnsureAdvances(s, p, r, turn);
    } else if r.pc.MakeThing? {
      MakeThingAdvances(s, p, r, turn);
    } else if Creating(r.pc) {
      MakeAdvances(s, p, r, turn);
    } else if r.pc.DropContainers? {
      DropContainersAdvances(s, p, r, turn);
    } else if Dropping(r.pc) {
      DropAdvances(s, p, r, turn);
    } else {
      PruneAdvances(s, p, r, turn);
    }
  }

  // ---- The undisturbed run -------------------------------------------------------------------

  /** The process takes all steps. */
  predicate Only(p: Pid, events: seq<Event>) {
    forall i :: 0 <= i < |events| ==> events[i].Move? && events[i].pid == p
  }

  lemma SameCourse(s: State, t: State, r: Process)
    requires t == s.(processes := t.processes)
    ensures OnCourse(s, r) == OnCourse(t, r) && Distance(s, r) == Distance(t, r)
  {
  }

  predicate SameAim(r: Process, t: Process) {
    t.command == r.command && t.destroying == r.destroying
  }

  lemma StepAdvances(s: State, p: Pid, luck: Luck, t: State)
    requires p in s.processes && Past(s) && OnCourse(s, s.processes[p]) && luck == Lucky(s, s.processes[p])
    requires !s.processes[p].pc.Release? && !s.processes[p].pc.Done? && t == Step(s, Move(p, luck))
    ensures p in t.processes && OnCourse(t, t.processes[p]) && Past(t)
    ensures Distance(t, t.processes[p]) < Distance(s, s.processes[p])
    ensures Fresher(s.processes[p].command) ==> SameAim(s.processes[p], t.processes[p])
  {
    var turn := Next(s, s.processes[p], luck);
    var after := Apply(s, p, turn.effect);
    LuckyAdvances(s, p, s.processes[p]);
    assert t == after.(processes := s.processes[p := turn.next]);
    SameCourse(after, t, turn.next);
    StepDated(s, Move(p, luck), t);
  }

  lemma {:induction false} Arrives(s: State, p: Pid) returns (events: seq<Event>)
    requires p in s.processes && Past(s) && OnCourse(s, s.processes[p]) && !s.processes[p].pc.Done?
    ensures Only(p, events) && Lives(s, p, events)
    ensures var t := RunFrom(s, events);
      && p in t.processes && t.processes[p].pc.Release? && OnCourse(t, t.processes[p])
      && (Fresher(s.processes[p].command) ==> SameAim(s.processes[p], t.processes[p]))
    decreases Distance(s, s.processes[p])
  {
    if s.processes[p].pc.Release? {
      events := [];
    } else {
      var e := Move(p, Lucky(s, s.processes[p]));
      StepAdvances(s, p, Lucky(s, s.processes[p]), Step(s, e));
      NotYetDone(s, s.processes[p], Lucky(s, s.processes[p]));
      var rest := Arrives(Step(s, e), p);
      events := [e] + rest;
      assert events[0] == e && events[1..] == rest;
    }
  }

  lemma NotYetDone(s: State, r: Process, luck: Luck)
    requires !r.pc.Release? && !r.pc.Done? && OnCourse(s, r) && luck == Lucky(s, r)
    ensures !Next(s, r, luck).next.pc.Done?
  {
  }

  /** A command that finds what it needs, is left alone, and whose calls succeed, does what it is
      for. */
  lemma SucceedsAlone(s: State, p: Pid, command: Command, joined: State) returns (events: seq<Event>)
    requires Reachable(s) && p !in s.processes && s.lock.None? && Ready(s, command)
    requires joined == Step(s, Launch(p, command))
    ensures Only(p, events) && Lives(joined, p, events)
    ensures var t := RunFrom(joined, events);
      && p in t.processes && t.processes[p].command == command && t.processes[p].pc == Release(true)
      && Accomplished(t, t.processes[p])
  {
    ReachableDated(s);
    ReachableStep(s, Launch(p, command), joined);
    assert joined.processes[p] == Newcomer(command);
    events := Arrives(joined, p);
    SuccessLeaves(joined, p, events, RunFrom(joined, events));
  }

  // ---- Cleaning up -----------------------------------------------------------------------------

  /** A create or import whose build fails goes on to destroy what there is; an upgrade or a
      recreation stops there and keeps it. The agent without an executor is removed first. */
  lemma FailureDestroys(s: State, p: Pid, r: Process, luck: Luck, turn: Turn)
    requires r.pc.Ensure? || r.pc.MakeThing? || r.pc.MakeAgent? || r.pc.RemoveLeaked? || r.pc.Prepare?
    requires turn == MoveCreate(s, r, luck) && !Creating(turn.next.pc) && !Replacing(turn.next.pc)
    requires !turn.next.pc.Release? || !Prepared(r, luck)
    ensures Fresher(r.command) ==> turn.next == r.(pc := List, destroying := true)
    ensures !Fresher(r.command) ==> turn.next == r.(pc := Release(false))
    ensures r.pc.RemoveLeaked? && luck.ok ==> r.agent !in Apply(s, p, turn.effect).containers
  {
  }

  predicate Prepared(r: Process, luck: Luck) {
    r.pc.Prepare? && (luck.ok || luck.happened)
  }

  lemma OnlyPrepared(s: State, r: Process, luck: Luck)
    requires Creating(r.pc) && Next(s, r, luck).next.pc == Release(true)
    ensures r.pc.Prepare? && luck.ok
  {
    assert Next(s, r, luck) == MoveCreate(s, r, luck);
  }

  /** The cleanup of a failed create or import, left alone, leaves nothing of the box. */
  lemma CleansUpAlone(s: State, p: Pid) returns (events: seq<Event>)
    requires Reachable(s) && p in s.processes && Fresher(s.processes[p].command)
    requires s.processes[p].pc == List && s.processes[p].destroying && NoneForeign(s)
    ensures Only(p, events)
    ensures var t := RunFrom(s, events);
      p in t.processes && t.processes[p].pc.Release? && t.env.None? && Empty(t)
  {
    ReachableDated(s);
    ReachableSafe(s);
    events := Arrives(s, p);
    RunSafe(s, events);
    var t := RunFrom(s, events);
    if t.containers != map[] {
      var c :| c in t.containers;
    }
  }

  lemma {:induction false} RunThen(s: State, events: seq<Event>, e: Event)
    ensures RunFrom(s, events + [e]) == Step(RunFrom(s, events), e)
    decreases |events|
  {
    if events == [] {
      assert events + [e] == [e] && [e][1..] == [];
    } else {
      assert (events + [e])[0] == events[0] && (events + [e])[1..] == events[1..] + [e];
      RunThen(Step(s, events[0]), events[1..], e);
    }
  }

  lemma ReachableStep(s: State, e: Event, t: State)
    requires Reachable(s) && t == Step(s, e)
    ensures Reachable(t)
  {
    var things: map<Thing, Item>, env: Option<Token>, clock: Moment, events: seq<Event> :|
      Starts(things, clock) && s == RunFrom(Initial(things, env, clock), events);
    RunThen(Initial(things, env, clock), events, e);
    assert t == RunFrom(Initial(things, env, clock), events + [e]);
  }
}
