/** The resolver's own walk: at a link it forgets where it stood and restarts from the root
    with base, target and remaining components queued. This module shows that restarting
    computes the walk in place, at a cost that can be read off the links alone. */
module ArchiveRestart {
  import opened Text
  import opened ArchiveTree
  import opened ArchiveWalk
  import opened Machines

  const MAX_HOPS := 40

  // ---- The restarting walk -----------------------------------------------------

  function Restart(t: Tree, w: Walk): Walk {
    match w
    case Ended(_) => w
    case Walking(resolved, pending) =>
      if pending == [] then Ended(Arrive(t, resolved))
      else
        var part, rest := pending[0], pending[1..];
        if part == "" || part == "." then Walking(resolved, rest)
        else if part == ".." then
          if resolved == [] then Ended(Failed(TargetEscapes)) else Walking(resolved[..|resolved| - 1], rest)
        else if AtLink(t, w) then
          match LinkParts(Link(t, w).linkname)
          case Rejected(fault) => Ended(Failed(fault))
          case Parts(parts) => Walking([], LinkBase(t, w) + parts + rest)
        else if rest != [] && !IsDirectory(t, resolved + [part])
          then Ended(Failed(ThroughMissing(Key(resolved + [part]))))
        else Walking(resolved + [part], rest)
  }

  function Restarting(t: Tree): Machine<Walk> {
    Machine(w => Restart(t, w), w => Hop(t, w), (w: Walk) => w.Ended?, w => Arrived(w))
  }

  // ---- What a step in place costs the resolver ---------------------------------

  /** Iterations the resolver spends on one step in place: one, and after a link it walks
      the base again. Arriving costs nothing. */
  function Cost(t: Tree, w: Walk): nat {
    if w.Ended? || w.todo == [] then 0
    else if AtLink(t, w) && Step(t, w).Walking? then 1 + |LinkBase(t, w)|
    else 1
  }

  function CostOf(t: Tree): Walk -> nat {
    w => Cost(t, w)
  }

  function GroundedIn(t: Tree): Walk -> bool {
    w => Grounded(t, w)
  }

  function TotalCost(t: Tree, w: Walk, n: nat): nat {
    Tally(InPlace(t), CostOf(t), w, n)
  }

  /** Components a step queues: the target of a link and the base walked again for it. */
  function Queued(t: Tree, w: Walk): nat {
    if AtLink(t, w) && LinkParts(Link(t, w).linkname).Parts?
    then |LinkBase(t, w)| + |LinkParts(Link(t, w).linkname).parts|
    else 0
  }

  function QueuedOf(t: Tree): Walk -> nat {
    w => Queued(t, w)
  }

  function TotalQueued(t: Tree, w: Walk, n: nat): nat {
    Tally(InPlace(t), QueuedOf(t), w, n)
  }

  /** Without a hop nothing is queued. */
  lemma {:induction false} NothingQueued(t: Tree, w: Walk, n: nat)
    requires Hops(t, w, n) == 0
    ensures TotalQueued(t, w, n) == 0
  {
    if n > 0 {
      NothingQueued(t, w, n - 1);
    }
  }

  lemma StepConserves(t: Tree, w: Walk)
    requires Step(t, w).Walking?
    ensures w.Walking? && Cost(t, w) + |Step(t, w).todo| == |w.todo| + Queued(t, w)
  {
  }

  /** Conservation: every iteration consumes one queued component. */
  lemma {:induction false} CostIsQueued(t: Tree, w: Walk, n: nat)
    requires w.Walking? && Steps(t, w, n).Walking?
    ensures TotalCost(t, w, n) + |Steps(t, w, n).todo| == |w.todo| + TotalQueued(t, w, n)
  {
    if n > 0 {
      StepConserves(t, Steps(t, w, n - 1));
      CostIsQueued(t, w, n - 1);
    }
  }

  // ---- Restarting simulates walking in place -----------------------------------

  /** Away from links the two machines take the same step. */
  lemma SameStep(t: Tree, w: Walk)
    requires !AtLink(t, w) || Step(t, w).Ended?
    ensures Restart(t, w) == Step(t, w)
  {
  }

  lemma WalkOnDown(t: Tree, base: seq<string>, todo: seq<string>, k: nat)
    requires Solid(t, base) && k < |base|
    ensures Restart(t, Walking(base[..k], base[k..] + todo)) == Walking(base[..k + 1], base[k + 1..] + todo)
    ensures Hop(t, Walking(base[..k], base[k..] + todo)) == 0
  {
    assert (base[k..] + todo)[0] == base[k] && (base[k..] + todo)[1..] == base[k + 1..] + todo;
    assert base[..k] + [base[k]] == base[..k + 1];
    assert Proper(base[k]) && IsDirectory(t, base[..k + 1]);
  }

  /** Walking the base again meets no link and cannot fail. */
  lemma {:induction false} WalkBaseAgain(t: Tree, base: seq<string>, todo: seq<string>, k: nat)
    requires Solid(t, base) && k <= |base|
    ensures Run(Restarting(t), Walking([], base + todo), k) == Walking(base[..k], base[k..] + todo)
    ensures Weight(Restarting(t), Walking([], base + todo), k) == 0
  {
    if k > 0 {
      WalkBaseAgain(t, base, todo, k - 1);
      WalkOnDown(t, base, todo, k - 1);
    }
  }

  lemma OneRestart(t: Tree, w: Walk)
    ensures Run(Restarting(t), w, 1) == Restart(t, w)
    ensures Weight(Restarting(t), w, 1) == Hop(t, w)
  {
    assert Run(Restarting(t), w, 0) == w;
    assert Weight(Restarting(t), w, 0) == 0;
  }

  lemma RestartAtLink(t: Tree, w: Walk, base: seq<string>, todo: seq<string>)
    requires AtLink(t, w) && base == LinkBase(t, w) && Step(t, w) == Walking(base, todo)
    ensures Restart(t, w) == Walking([], base + todo)
  {
    assert base + LinkParts(Link(t, w).linkname).parts + w.todo[1..]
      == base + (LinkParts(Link(t, w).linkname).parts + w.todo[1..]);
  }

  /** At a link the restarting walk comes back to where the walk in place goes on. */
  lemma LinkSimulated(t: Tree, w: Walk, base: seq<string>)
    requires Solid(t, base) && AtLink(t, w) && base == LinkBase(t, w) && Step(t, w).Walking?
    ensures Run(Restarting(t), Restart(t, w), |base|) == Step(t, w)
    ensures Weight(Restarting(t), Restart(t, w), |base|) == 0
  {
    var todo := Step(t, w).todo;
    RestartAtLink(t, w, base, todo);
    WalkBaseAgain(t, base, todo, |base|);
    assert base[..|base|] == base && base[|base|..] + todo == todo;
  }

  lemma OverSimulated(t: Tree, w: Walk, base: seq<string>)
    requires Solid(t, base) && AtLink(t, w) && base == LinkBase(t, w) && Step(t, w).Walking?
    ensures Run(Restarting(t), w, 1 + |base|) == Step(t, w)
    ensures Weight(Restarting(t), w, 1 + |base|) == Hop(t, w)
  {
    OneRestart(t, w);
    LinkSimulated(t, w, base);
    RunAdd(Restarting(t), w, 1, |base|);
    TallyAdd(Restarting(t), Restarting(t).weigh, w, 1, |base|);
  }

  /** One step in place is a run of restarting steps; both see the same number of links. */
  lemma StepSimulated(t: Tree, w: Walk)
    requires Grounded(t, w) && w.Walking? && w.todo != []
    ensures Cost(t, w) > 0
    ensures Run(Restarting(t), w, Cost(t, w)) == Step(t, w)
    ensures Weight(Restarting(t), w, Cost(t, w)) == Hop(t, w)
  {
    if AtLink(t, w) && Step(t, w).Walking? {
      OverSimulated(t, w, LinkBase(t, w));
    } else {
      OneRestart(t, w);
      SameStep(t, w);
    }
  }

  /** Restarting refines walking in place. */
  lemma RestartingRefines(t: Tree)
    ensures Refines(Restarting(t), InPlace(t), CostOf(t), GroundedIn(t))
  {
    forall w | Grounded(t, w) && w.Walking? && w.todo != []
      ensures Cost(t, w) > 0 && Run(Restarting(t), w, Cost(t, w)) == Step(t, w)
      ensures Weight(Restarting(t), w, Cost(t, w)) == Hop(t, w)
    {
      StepSimulated(t, w);
    }
    forall w | Grounded(t, w) ensures Grounded(t, Step(t, w)) {
      StepGrounded(t, w);
    }
    forall w | Step(t, w).Ended? ensures Step(t, w) == Restart(t, w) {
      SameStep(t, w);
    }
  }

  // ---- The resolver's verdict --------------------------------------------------

  /** What the resolver reports for a walk: its end, or one of its three stops. */
  ghost function Report(v: Verdict<Walk>): Outcome {
    match v
    case OutOfBudget => Failed(SafetyBound)
    case Cycling => Failed(LinkCycle)
    case Finished(w) => if w.Ended? then w.outcome else Failed(SafetyBound)
  }

  ghost function Resolution(t: Tree, w: Walk, maxSteps: nat): Outcome {
    Report(Watch(Restarting(t), w, maxSteps, MAX_HOPS, 0))
  }

  /** Step n + 1 of the walk in place ends it with this outcome, within both bounds. */
  ghost predicate EndsIn(t: Tree, w: Walk, outcome: Outcome, maxSteps: nat, n: nat) {
    && Steps(t, w, n).Walking? && Steps(t, w, n + 1) == Ended(outcome)
    && TotalCost(t, w, n + 1) <= maxSteps && Hops(t, w, n + 1) <= MAX_HOPS
  }

  /** The walk in place ends with this outcome, within both bounds of the resolver. */
  ghost predicate EndsWithin(t: Tree, w: Walk, outcome: Outcome, maxSteps: nat) {
    exists n: nat :: EndsIn(t, w, outcome, maxSteps, n)
  }

  /** No step by itself reports a cycle or a bound. */
  lemma {:induction false} StepFault(t: Tree, w: Walk, n: nat)
    requires w.Walking?
    ensures Steps(t, w, n) !in {Ended(Failed(LinkCycle)), Ended(Failed(SafetyBound))}
  {
    if n > 0 {
      StepFault(t, w, n - 1);
    }
  }

  /** Completeness: a walk in place that ends within the bounds is what is reported. */
  lemma ResolutionComplete(t: Tree, w: Walk, maxSteps: nat, outcome: Outcome)
    requires Grounded(t, w) && w.Walking? && EndsWithin(t, w, outcome, maxSteps)
    ensures Resolution(t, w, maxSteps) == outcome
    ensures outcome !in {Failed(SafetyBound), Failed(LinkCycle)}
  {
    RestartingRefines(t);
    var n: nat :| EndsIn(t, w, outcome, maxSteps, n);
    StepFault(t, w, n + 1);
    RefinedComplete(Restarting(t), InPlace(t), CostOf(t), GroundedIn(t), w, maxSteps, MAX_HOPS, n);
  }

  /** A watched run that finishes is a walk in place that ends within the bounds. */
  lemma FinishedEnds(t: Tree, w: Walk, maxSteps: nat)
    requires Grounded(t, w) && w.Walking?
    requires Watch(Restarting(t), w, maxSteps, MAX_HOPS, 0).Finished?
    ensures EndsWithin(t, w, Resolution(t, w, maxSteps), maxSteps)
  {
    RestartingRefines(t);
    var n := RefinedSound(Restarting(t), InPlace(t), CostOf(t), GroundedIn(t), w, maxSteps, MAX_HOPS);
    assert EndsIn(t, w, Resolution(t, w, maxSteps), maxSteps, n);
  }

  /** Soundness: an answer that is neither a bound nor a cycle is where the walk in place
      ends. */
  lemma ResolutionSound(t: Tree, w: Walk, maxSteps: nat)
    requires Grounded(t, w) && w.Walking?
    requires Resolution(t, w, maxSteps) !in {Failed(SafetyBound), Failed(LinkCycle)}
    ensures EndsWithin(t, w, Resolution(t, w, maxSteps), maxSteps)
  {
    FinishedEnds(t, w, maxSteps);
  }

  lemma CycleVerdict(t: Tree, w: Walk, maxSteps: nat)
    requires Grounded(t, w) && w.Walking? && Resolution(t, w, maxSteps) == Failed(LinkCycle)
    ensures Watch(Restarting(t), w, maxSteps, MAX_HOPS, 0) == Cycling
  {
    if Watch(Restarting(t), w, maxSteps, MAX_HOPS, 0).Finished? {
      FinishedEnds(t, w, maxSteps);
      ResolutionComplete(t, w, maxSteps, Failed(LinkCycle));
    }
  }

  /** A reported cycle is sound: the unbounded walk in place never ends. */
  lemma CycleIsEndless(t: Tree, w: Walk, maxSteps: nat)
    requires Grounded(t, w) && w.Walking? && Resolution(t, w, maxSteps) == Failed(LinkCycle)
    ensures NeverEnds(t, w)
  {
    RestartingRefines(t);
    CycleVerdict(t, w, maxSteps);
    forall n: nat ensures Steps(t, w, n).Walking? {
      RefinedCycle(Restarting(t), InPlace(t), CostOf(t), GroundedIn(t), w, maxSteps, MAX_HOPS, n);
    }
  }

  /** The meaning of every answer of the resolver, in terms of the walk in place. */
  lemma ResolutionMeaning(t: Tree, w: Walk, maxSteps: nat, outcome: Outcome)
    requires Grounded(t, w) && w.Walking?
    ensures outcome !in {Failed(SafetyBound), Failed(LinkCycle)} ==>
      (Resolution(t, w, maxSteps) == outcome <==> EndsWithin(t, w, outcome, maxSteps))
    ensures Resolution(t, w, maxSteps) == Failed(LinkCycle) ==> NeverEnds(t, w)
    ensures Resolution(t, w, maxSteps) == Failed(SafetyBound) ==> !EndsWithin(t, w, outcome, maxSteps)
  {
    var answer := Resolution(t, w, maxSteps);
    if EndsWithin(t, w, outcome, maxSteps) {
      ResolutionComplete(t, w, maxSteps, outcome);
    }
    if answer == Failed(LinkCycle) {
      CycleIsEndless(t, w, maxSteps);
    } else if answer != Failed(SafetyBound) {
      ResolutionSound(t, w, maxSteps);
    }
  }
}
