/** Deterministic machines: running them, one machine simulating another at a cost, and
    watching a run for repeated states and exhausted budgets. */
module Machines {

  /** A machine: its step, what a step weighs, and when it has finished. An idle state
      finishes with the next step. */
  datatype Machine<!S> = Machine(step: S -> S, weigh: S -> nat, done: S -> bool, idle: S -> bool)

  function Run<S>(m: Machine<S>, s: S, n: nat): S {
    if n == 0 then s else m.step(Run(m, s, n - 1))
  }

  /** The sum of a count over the first n states. */
  function Tally<S>(m: Machine<S>, count: S -> nat, s: S, n: nat): nat {
    if n == 0 then 0 else Tally(m, count, s, n - 1) + count(Run(m, s, n - 1))
  }

  function Weight<S>(m: Machine<S>, s: S, n: nat): nat {
    Tally(m, m.weigh, s, n)
  }

  /** Finished states stay, idle states finish next, and are not finished. */
  ghost predicate Settles<S(!new)>(m: Machine<S>) {
    && (forall s :: m.done(s) ==> m.step(s) == s)
    && (forall s :: m.idle(s) ==> !m.done(s) && m.done(m.step(s)))
  }

  lemma {:induction false} RunAdd<S>(m: Machine<S>, s: S, n: nat, k: nat)
    ensures Run(m, s, n + k) == Run(m, Run(m, s, n), k)
  {
    if k > 0 {
      RunAdd(m, s, n, k - 1);
    }
  }

  lemma {:induction false} TallyAdd<S>(m: Machine<S>, count: S -> nat, s: S, n: nat, k: nat)
    ensures Tally(m, count, s, n + k) == Tally(m, count, s, n) + Tally(m, count, Run(m, s, n), k)
  {
    if k > 0 {
      TallyAdd(m, count, s, n, k - 1);
      RunAdd(m, s, n, k - 1);
    }
  }

  /** A run and its count, taken apart at their first step. */
  lemma {:induction false} FirstStep<S>(m: Machine<S>, count: S -> nat, s: S, k: nat)
    ensures Run(m, s, k + 1) == Run(m, m.step(s), k)
    ensures Tally(m, count, s, k + 1) == count(s) + Tally(m, count, m.step(s), k)
  {
    if k > 0 {
      FirstStep(m, count, s, k - 1);
    } else {
      assert Run(m, s, 0) == s;
    }
  }

  lemma {:induction false} TallyGrows<S>(m: Machine<S>, count: S -> nat, s: S, n: nat, k: nat)
    requires n <= k
    ensures Tally(m, count, s, n) <= Tally(m, count, s, k)
  {
    if n < k {
      TallyGrows(m, count, s, n, k - 1);
    }
  }

  lemma {:induction false} StaysDone<S(!new)>(m: Machine<S>, s: S, n: nat, k: nat)
    requires Settles(m) && n <= k && m.done(Run(m, s, n))
    ensures Run(m, s, k) == Run(m, s, n)
  {
    if n < k {
      StaysDone(m, s, n, k - 1);
    }
  }

  /** Before a machine is done it was never done, and had never been idle. */
  lemma LiveBefore<S(!new)>(m: Machine<S>, s: S, n: nat, k: nat)
    requires Settles(m) && k <= n && !m.done(Run(m, s, n))
    ensures !m.done(Run(m, s, k)) && (k < n ==> !m.idle(Run(m, s, k)))
  {
    if m.done(Run(m, s, k)) {
      StaysDone(m, s, k, n);
    }
    if k < n && m.idle(Run(m, s, k)) {
      StaysDone(m, s, k + 1, n);
    }
  }

  /** The step with which a machine becomes done. */
  lemma {:induction false} Finish<S(!new)>(m: Machine<S>, s: S, n: nat) returns (k: nat)
    requires Settles(m) && !m.done(s) && m.done(Run(m, s, n))
    ensures k < n && !m.done(Run(m, s, k)) && Run(m, s, k + 1) == Run(m, s, n)
  {
    if !m.done(Run(m, s, n - 1)) {
      k := n - 1;
    } else {
      k := Finish(m, s, n - 1);
      StaysDone(m, s, n - 1, n);
    }
  }

  // ---- One machine simulated by another ----------------------------------------

  /** From a kept, live state, cost(s) steps of the fine machine make one coarse step, with
      the same weight. */
  ghost predicate Simulates<S(!new)>(fine: Machine<S>, coarse: Machine<S>, cost: S -> nat, kept: S -> bool) {
    forall s :: kept(s) && !coarse.done(s) && !coarse.idle(s) ==>
      && cost(s) > 0
      && Run(fine, s, cost(s)) == coarse.step(s)
      && Weight(fine, s, cost(s)) == coarse.weigh(s)
  }

  ghost predicate Keeps<S(!new)>(m: Machine<S>, kept: S -> bool) {
    forall s :: kept(s) ==> kept(m.step(s))
  }

  lemma {:induction false} RunKeeps<S(!new)>(m: Machine<S>, kept: S -> bool, s: S, n: nat)
    requires Keeps(m, kept) && kept(s)
    ensures kept(Run(m, s, n))
  {
    if n > 0 {
      RunKeeps(m, kept, s, n - 1);
    }
  }

  /** A count bounded at each kept state by a multiple of another is so over a whole run. */
  lemma {:induction false} TallyBounded<S(!new)>(m: Machine<S>, count: S -> nat, unit: S -> nat, factor: nat,
      kept: S -> bool, s: S, n: nat)
    requires Keeps(m, kept) && kept(s) && forall x :: kept(x) ==> count(x) <= unit(x) * factor
    ensures Tally(m, count, s, n) <= Tally(m, unit, s, n) * factor
  {
    if n > 0 {
      TallyBounded(m, count, unit, factor, kept, s, n - 1);
      RunKeeps(m, kept, s, n - 1);
      Distribute(Tally(m, unit, s, n - 1), unit(Run(m, s, n - 1)), factor);
    }
  }

  lemma Distribute(a: nat, b: nat, c: nat)
    ensures (a + b) * c == a * c + b * c
  {
  }

  /** After n coarse steps, paid for in full, the fine machine is where the coarse one is, and
      has weighed as much. */
  ghost predicate InStep<S>(fine: Machine<S>, coarse: Machine<S>, s: S, n: nat, paid: nat) {
    paid >= n && Run(fine, s, paid) == Run(coarse, s, n) && Weight(fine, s, paid) == Weight(coarse, s, n)
  }

  lemma StepSimulation<S(!new)>(fine: Machine<S>, coarse: Machine<S>, s: S, n: nat, paid: nat, at: S, more: nat)
    requires InStep(fine, coarse, s, n, paid) && at == Run(coarse, s, n)
    requires more > 0 && Run(fine, at, more) == coarse.step(at) && Weight(fine, at, more) == coarse.weigh(at)
    ensures InStep(fine, coarse, s, n + 1, paid + more)
  {
    RunAdd(fine, s, paid, more);
    TallyAdd(fine, fine.weigh, s, paid, more);
  }

  /** One more coarse step, at its cost. */
  lemma SimulationNext<S(!new)>(fine: Machine<S>, coarse: Machine<S>, cost: S -> nat, kept: S -> bool, s: S, n: nat,
      at: S, paid: nat)
    requires Simulates(fine, coarse, cost, kept) && at == Run(coarse, s, n) && paid == Tally(coarse, cost, s, n)
    requires kept(at) && !coarse.done(at) && !coarse.idle(at) && InStep(fine, coarse, s, n, paid)
    ensures InStep(fine, coarse, s, n + 1, Tally(coarse, cost, s, n + 1))
  {
    StepSimulation(fine, coarse, s, n, paid, at, cost(at));
  }

  /** A run of the coarse machine, until it is idle, is a run of the fine one. */
  lemma {:induction false} Simulation<S(!new)>(fine: Machine<S>, coarse: Machine<S>, cost: S -> nat, kept: S -> bool,
      s: S, n: nat)
    requires Simulates(fine, coarse, cost, kept) && Keeps(coarse, kept) && Settles(coarse) && kept(s)
    requires !coarse.done(Run(coarse, s, n))
    ensures InStep(fine, coarse, s, n, Tally(coarse, cost, s, n))
  {
    if n > 0 {
      var before := n - 1;
      LiveBefore(coarse, s, n, before);
      RunKeeps(coarse, kept, s, before);
      Simulation(fine, coarse, cost, kept, s, before);
      SimulationNext(fine, coarse, cost, kept, s, before, Run(coarse, s, before), Tally(coarse, cost, s, before));
    }
  }

  /** Both machines take the same idle step. */
  ghost predicate SameEnd<S(!new)>(fine: Machine<S>, coarse: Machine<S>) {
    && (forall s :: coarse.done(s) <==> fine.done(s))
    && (forall s :: coarse.idle(s) <==> fine.idle(s))
    && (forall s :: coarse.idle(s) ==> coarse.step(s) == fine.step(s) && coarse.weigh(s) == fine.weigh(s) == 0)
    && (forall s :: !coarse.done(s) && coarse.done(coarse.step(s)) ==>
      coarse.step(s) == fine.step(s) && coarse.weigh(s) == fine.weigh(s))
  }

  // ---- Watching a run ------------------------------------------------------------

  /** The state before step i was already met before an earlier one. */
  ghost predicate Repeats<S>(m: Machine<S>, s: S, i: nat) {
    exists j: nat :: j < i && Run(m, s, j) == Run(m, s, i)
  }

  datatype Verdict<S> = Finished(state: S) | OutOfBudget | Cycling

  /** The watcher's verdict from step i on, with its three stops in their order: the step
      budget, a repeated state, the weight budget. */
  ghost function Watch<S>(m: Machine<S>, s: S, maxSteps: nat, maxWeight: nat, i: nat): Verdict<S>
    decreases maxSteps - i
  {
    var now := Run(m, s, i);
    if m.done(now) then Finished(now)
    else if m.idle(now) then Finished(m.step(now))
    else if i >= maxSteps then OutOfBudget
    else if Repeats(m, s, i) then Cycling
    else if Weight(m, s, i + 1) > maxWeight then OutOfBudget
    else Watch(m, s, maxSteps, maxWeight, i + 1)
  }

  /** What one more step makes of the verdict. */
  lemma WatchGoesOn<S>(m: Machine<S>, s: S, maxSteps: nat, maxWeight: nat, i: nat)
    requires !m.done(Run(m, s, i)) && !m.idle(Run(m, s, i)) && i < maxSteps && !Repeats(m, s, i)
    ensures Watch(m, s, maxSteps, maxWeight, i) ==
      if Weight(m, s, i + 1) > maxWeight then OutOfBudget
      else if m.done(Run(m, s, i + 1)) then Finished(Run(m, s, i + 1))
      else Watch(m, s, maxSteps, maxWeight, i + 1)
  {
  }

  /** A repeated state keeps repeating. */
  lemma {:induction false} Periodic<S>(m: Machine<S>, s: S, j: nat, i: nat, k: nat)
    requires Run(m, s, j) == Run(m, s, i)
    ensures Run(m, s, j + k) == Run(m, s, i + k)
  {
    if k > 0 {
      Periodic(m, s, j, i, k - 1);
    }
  }

  /** A machine that repeats a state before it is done is never done. */
  lemma RepeatNeverDone<S(!new)>(m: Machine<S>, s: S, i: nat, n: nat)
    requires Settles(m) && Repeats(m, s, i) && !m.done(Run(m, s, i))
    ensures !m.done(Run(m, s, n))
    decreases n
  {
    var j: nat :| j < i && Run(m, s, j) == Run(m, s, i);
    if n <= i {
      LiveBefore(m, s, i, n);
    } else {
      Periodic(m, s, j, i, n - i);
      RepeatNeverDone(m, s, i, j + (n - i));
    }
  }

  /** A run that is done after step n gets there when no budget runs out before. */
  lemma {:induction false} WatchComplete<S(!new)>(m: Machine<S>, s: S, maxSteps: nat, maxWeight: nat, n: nat, i: nat)
    requires Settles(m) && i <= n && !m.done(Run(m, s, n)) && m.done(Run(m, s, n + 1))
    requires Weight(m, s, n + 1) <= maxWeight && (if m.idle(Run(m, s, n)) then n <= maxSteps else n < maxSteps)
    ensures Watch(m, s, maxSteps, maxWeight, i) == Finished(Run(m, s, n + 1))
    decreases n - i
  {
    LiveBefore(m, s, n, i);
    TallyGrows(m, m.weigh, s, i + 1, n + 1);
    if Repeats(m, s, i) {
      RepeatNeverDone(m, s, i, n + 1);
    }
    if i < n {
      WatchComplete(m, s, maxSteps, maxWeight, n, i + 1);
    }
  }

  /** A finished verdict names where the run ends, within both budgets. */
  lemma {:induction false} WatchSound<S(!new)>(m: Machine<S>, s: S, maxSteps: nat, maxWeight: nat, i: nat)
    returns (n: nat)
    requires Settles(m) && Watch(m, s, maxSteps, maxWeight, i).Finished? && !m.done(Run(m, s, i))
    requires Weight(m, s, i) <= maxWeight && i <= maxSteps
    requires forall x :: m.idle(x) ==> m.weigh(x) == 0
    ensures !m.done(Run(m, s, n)) && m.done(Run(m, s, n + 1))
    ensures Watch(m, s, maxSteps, maxWeight, i) == Finished(Run(m, s, n + 1))
    ensures Weight(m, s, n + 1) <= maxWeight && (if m.idle(Run(m, s, n)) then n <= maxSteps else n < maxSteps)
    decreases maxSteps - i
  {
    if m.idle(Run(m, s, i)) || m.done(Run(m, s, i + 1)) {
      n := i;
    } else {
      n := WatchSound(m, s, maxSteps, maxWeight, i + 1);
    }
  }

  /** A cycling verdict is sound: the machine is never done. */
  lemma {:induction false} WatchCycle<S(!new)>(m: Machine<S>, s: S, maxSteps: nat, maxWeight: nat, i: nat, n: nat)
    requires Settles(m) && Watch(m, s, maxSteps, maxWeight, i) == Cycling
    ensures !m.done(Run(m, s, n))
    decreases maxSteps - i
  {
    if Repeats(m, s, i) {
      RepeatNeverDone(m, s, i, n);
    } else {
      WatchCycle(m, s, maxSteps, maxWeight, i + 1, n);
    }
  }

  // ---- Watching the fine machine tells about the coarse one ----------------------

  ghost predicate Refines<S(!new)>(fine: Machine<S>, coarse: Machine<S>, cost: S -> nat, kept: S -> bool) {
    && Simulates(fine, coarse, cost, kept) && Keeps(coarse, kept)
    && Settles(fine) && Settles(coarse) && SameEnd(fine, coarse)
    && (forall s :: coarse.idle(s) ==> cost(s) == 0)
    && (forall s :: !coarse.done(s) && !coarse.idle(s) && coarse.done(coarse.step(s)) ==> cost(s) == 1)
  }

  /** The coarse machine ends after n + 1 steps, at a cost and a weight within the budgets. */
  ghost predicate EndsAt<S(!new)>(coarse: Machine<S>, cost: S -> nat, s: S, maxSteps: nat, maxWeight: nat, n: nat) {
    && !coarse.done(Run(coarse, s, n)) && coarse.done(Run(coarse, s, n + 1))
    && Tally(coarse, cost, s, n + 1) <= maxSteps && Weight(coarse, s, n + 1) <= maxWeight
  }

  /** Where the fine machine is when the coarse one takes its last step. */
  lemma EndSimulated<S(!new)>(fine: Machine<S>, coarse: Machine<S>, cost: S -> nat, kept: S -> bool, s: S, n: nat)
    returns (k: nat)
    requires Refines(fine, coarse, cost, kept) && kept(s)
    requires !coarse.done(Run(coarse, s, n)) && coarse.done(Run(coarse, s, n + 1))
    ensures !fine.done(Run(fine, s, k)) && Run(fine, s, k + 1) == Run(coarse, s, n + 1)
    ensures fine.idle(Run(fine, s, k)) <==> coarse.idle(Run(coarse, s, n))
    ensures Weight(fine, s, k + 1) == Weight(coarse, s, n + 1)
    ensures Tally(coarse, cost, s, n + 1) == if fine.idle(Run(fine, s, k)) then k else k + 1
  {
    Simulation(fine, coarse, cost, kept, s, n);
    k := Tally(coarse, cost, s, n);
  }

  lemma RefinedComplete<S(!new)>(fine: Machine<S>, coarse: Machine<S>, cost: S -> nat, kept: S -> bool, s: S,
      maxSteps: nat, maxWeight: nat, n: nat)
    requires Refines(fine, coarse, cost, kept) && kept(s) && EndsAt(coarse, cost, s, maxSteps, maxWeight, n)
    ensures Watch(fine, s, maxSteps, maxWeight, 0) == Finished(Run(coarse, s, n + 1))
  {
    var k := EndSimulated(fine, coarse, cost, kept, s, n);
    WatchComplete(fine, s, maxSteps, maxWeight, k, 0);
  }

  /** When the fine machine ends, so does the coarse one. */
  lemma EndsTogether<S(!new)>(fine: Machine<S>, coarse: Machine<S>, cost: S -> nat, kept: S -> bool, s: S, k: nat)
    returns (n: nat)
    requires Refines(fine, coarse, cost, kept) && kept(s) && !coarse.done(s) && fine.done(Run(fine, s, k))
    ensures !coarse.done(Run(coarse, s, n)) && coarse.done(Run(coarse, s, n + 1))
  {
    if !coarse.done(Run(coarse, s, k)) {
      Simulation(fine, coarse, cost, kept, s, k);
      StaysDone(fine, s, k, Tally(coarse, cost, s, k));
    }
    n := Finish(coarse, s, k);
  }

  /** A machine becomes done once. */
  lemma OneFinish<S(!new)>(m: Machine<S>, s: S, j: nat, k: nat)
    requires Settles(m) && !m.done(Run(m, s, j)) && m.done(Run(m, s, j + 1))
    requires !m.done(Run(m, s, k)) && m.done(Run(m, s, k + 1))
    ensures j == k
  {
    if j < k {
      StaysDone(m, s, j + 1, k);
    }
    if k < j {
      StaysDone(m, s, k + 1, j);
    }
  }

  lemma RefinedSound<S(!new)>(fine: Machine<S>, coarse: Machine<S>, cost: S -> nat, kept: S -> bool, s: S,
      maxSteps: nat, maxWeight: nat)
    returns (n: nat)
    requires Refines(fine, coarse, cost, kept) && kept(s) && !coarse.done(s)
    requires Watch(fine, s, maxSteps, maxWeight, 0).Finished?
    ensures EndsAt(coarse, cost, s, maxSteps, maxWeight, n)
    ensures Watch(fine, s, maxSteps, maxWeight, 0) == Finished(Run(coarse, s, n + 1))
  {
    assert Settles(fine);
    assert Run(fine, s, 0) == s && !fine.done(s);
    var k := WatchSound(fine, s, maxSteps, maxWeight, 0);
    n := EndsTogether(fine, coarse, cost, kept, s, k + 1);
    var j := EndSimulated(fine, coarse, cost, kept, s, n);
    OneFinish(fine, s, j, k);
  }

  lemma CyclingNeverDone<S(!new)>(m: Machine<S>, s: S, maxSteps: nat, maxWeight: nat, n: nat)
    requires Settles(m) && Watch(m, s, maxSteps, maxWeight, 0) == Cycling
    ensures !m.done(Run(m, s, n))
  {
    WatchCycle(m, s, maxSteps, maxWeight, 0, n);
  }

  lemma RefinedCycle<S(!new)>(fine: Machine<S>, coarse: Machine<S>, cost: S -> nat, kept: S -> bool, s: S,
      maxSteps: nat, maxWeight: nat, n: nat)
    requires Refines(fine, coarse, cost, kept) && kept(s) && !coarse.done(s)
    requires Watch(fine, s, maxSteps, maxWeight, 0) == Cycling
    ensures !coarse.done(Run(coarse, s, n))
  {
    if coarse.done(Run(coarse, s, n)) {
      var k := FineEnds(fine, coarse, cost, kept, s, n);
      CyclingNeverDone(fine, s, maxSteps, maxWeight, k);
    }
  }

  /** When the coarse machine ends, so does the fine one. */
  lemma FineEnds<S(!new)>(fine: Machine<S>, coarse: Machine<S>, cost: S -> nat, kept: S -> bool, s: S, n: nat)
    returns (k: nat)
    requires Refines(fine, coarse, cost, kept) && kept(s) && !coarse.done(s) && coarse.done(Run(coarse, s, n))
    ensures fine.done(Run(fine, s, k))
  {
    var j := Finish(coarse, s, n);
    k := EndSimulated(fine, coarse, cost, kept, s, j);
    k := k + 1;
  }
}
