/** The insertion-ordered member index and its resolver, as loops over mutable stacks. */
module ArchiveIndex {
  import opened Text
  import opened Machines
  import opened ArchiveTree
  import opened ArchiveWalk
  import opened ArchiveRestart

  // ---- The resolver's state key ------------------------------------------------

  /** The string under which the resolver remembers a state. */
  function StateKey(resolved: seq<string>, pending: seq<string>): string {
    Join(resolved, '\0') + "\U{1}" + Join(pending, '\0')
  }

  /** Every component went through the control-character check; resolved ones are names. */
  ghost predicate Clean(w: Walk) {
    w.Walking? ==> AllSafe(w.dir) && AllSafe(w.todo) && "" !in w.dir
  }

  lemma SafeFree(parts: seq<string>, c: char)
    requires AllSafe(parts) && c < ' '
    ensures AllFree(parts, c)
  {
  }

  lemma JoinNotEmpty(parts: seq<string>, c: char)
    requires parts != [] && "" !in parts
    ensures Join(parts, c) != ""
  {
    assert parts[0] in parts;
  }

  /** The state key tells clean states apart. */
  lemma StateKeyInjective(a: Walk, b: Walk)
    requires a.Walking? && b.Walking? && Clean(a) && Clean(b) && a.todo != [] && b.todo != []
    requires StateKey(a.dir, a.todo) == StateKey(b.dir, b.todo)
    ensures a == b
  {
    var ka, kb := Join(a.dir, '\0'), Join(b.dir, '\0');
    SafeFree(a.dir, '\U{1}');
    SafeFree(b.dir, '\U{1}');
    JoinFree(a.dir, '\0', '\U{1}');
    JoinFree(b.dir, '\0', '\U{1}');
    IndexOfPrefix(ka, '\U{1}', Join(a.todo, '\0'));
    IndexOfPrefix(kb, '\U{1}', Join(b.todo, '\0'));
    var s := StateKey(a.dir, a.todo);
    assert ka == s[..|ka|] && kb == s[..|kb|];
    assert Join(a.todo, '\0') == s[|ka| + 1..] && Join(b.todo, '\0') == s[|kb| + 1..];
    SafeFree(a.todo, '\0');
    SafeFree(b.todo, '\0');
    JoinInjective(a.todo, b.todo, '\0');
    SafeFree(a.dir, '\0');
    SafeFree(b.dir, '\0');
    if a.dir != [] && b.dir != [] {
      JoinInjective(a.dir, b.dir, '\0');
    } else if a.dir != [] {
      JoinNotEmpty(a.dir, '\0');
    } else if b.dir != [] {
      JoinNotEmpty(b.dir, '\0');
    }
  }

  lemma RestartClean(t: Tree, w: Walk)
    requires Clean(w)
    ensures Clean(Restart(t, w))
  {
    if AtLink(t, w) && LinkParts(Link(t, w).linkname).Parts? {
      LinkPartsFree(Link(t, w).linkname);
    }
  }

  lemma {:induction false} RunClean(t: Tree, w: Walk, n: nat)
    requires Clean(w)
    ensures Clean(Run(Restarting(t), w, n))
  {
    if n > 0 {
      RunClean(t, w, n - 1);
      RestartClean(t, Run(Restarting(t), w, n - 1));
    }
  }

  /** Where resolving a key starts. */
  function Start(key: string): Walk {
    Walking([], if key == "" then [] else Split(key, '/'))
  }

  lemma StartClean(key: string)
    requires SafeText(key)
    ensures Clean(Start(key))
  {
    var parts := Split(key, '/');
    forall i | 0 <= i < |parts| ensures SafeText(parts[i]) {
      SafePieces(key, i);
    }
  }

  lemma StartGrounded(t: Tree, key: string)
    ensures Grounded(t, Start(key))
  {
  }

  /** The resolver is under way before iteration i, in a state with this key. */
  ghost predicate Meets(t: Tree, w: Walk, i: nat, key: string) {
    var now := Run(Restarting(t), w, i);
    now.Walking? && now.todo != [] && StateKey(now.dir, now.todo) == key
  }

  ghost predicate Known(t: Tree, w: Walk, seen: set<string>, j: nat) {
    exists k :: k in seen && Meets(t, w, j, k)
  }

  /** The keys of the states met before iteration i are exactly those remembered. */
  ghost predicate Remembers(t: Tree, w: Walk, seen: set<string>, i: nat) {
    && (forall j: nat :: j < i ==> Known(t, w, seen, j))
    && (forall k :: k in seen ==> exists j: nat :: j < i && Meets(t, w, j, k))
  }

  lemma SameKeySameState(t: Tree, w: Walk, i: nat, j: nat, key: string)
    requires Clean(w) && Meets(t, w, i, key) && Meets(t, w, j, key)
    ensures Run(Restarting(t), w, i) == Run(Restarting(t), w, j)
  {
    RunClean(t, w, i);
    RunClean(t, w, j);
    StateKeyInjective(Run(Restarting(t), w, i), Run(Restarting(t), w, j));
  }

  /** Looking the key up among those remembered decides whether the state repeats. */
  lemma SeenMeansRepeats(t: Tree, w: Walk, seen: set<string>, i: nat, key: string)
    requires Clean(w) && Remembers(t, w, seen, i) && Meets(t, w, i, key)
    ensures key in seen <==> Repeats(Restarting(t), w, i)
  {
    if key in seen {
      var j: nat :| j < i && Meets(t, w, j, key);
      SameKeySameState(t, w, i, j, key);
    }
    if Repeats(Restarting(t), w, i) {
      var j: nat :| j < i && Run(Restarting(t), w, j) == Run(Restarting(t), w, i);
      assert Known(t, w, seen, j);
      var k :| k in seen && Meets(t, w, j, k);
      assert k == key;
    }
  }

  lemma RemembersMore(t: Tree, w: Walk, seen: set<string>, i: nat, key: string)
    requires Remembers(t, w, seen, i) && Meets(t, w, i, key)
    ensures Remembers(t, w, seen + {key}, i + 1)
  {
    forall j: nat | j < i + 1 ensures Known(t, w, seen + {key}, j) {
      if j < i {
        assert Known(t, w, seen, j);
        var k :| k in seen && Meets(t, w, j, k);
        assert k in seen + {key};
      } else {
        assert key in seen + {key};
      }
    }
    forall k | k in seen + {key} ensures exists j: nat :: j < i + 1 && Meets(t, w, j, k) {
      if k in seen {
        var j: nat :| j < i && Meets(t, w, j, k);
      }
    }
  }

  /** Before iteration i the resolver is in this state, has remembered the earlier ones and
      still has to give this answer. */
  ghost predicate UnderWay(t: Tree, w: Walk, maxSteps: nat, i: nat, hops: nat, seen: set<string>, now: Walk,
      answer: Outcome)
  {
    && Run(Restarting(t), w, i) == now && Weight(Restarting(t), w, i) == hops
    && answer == Report(Watch(Restarting(t), w, maxSteps, MAX_HOPS, i))
    && Remembers(t, w, seen, i)
  }

  lemma SetsOut(t: Tree, w: Walk, maxSteps: nat, answer: Outcome)
    requires answer == Resolution(t, w, maxSteps)
    ensures UnderWay(t, w, maxSteps, 0, 0, {}, w, answer)
  {
  }

  lemma Stops(t: Tree, w: Walk, maxSteps: nat, i: nat, hops: nat, seen: set<string>, now: Walk, answer: Outcome)
    requires Clean(w) && UnderWay(t, w, maxSteps, i, hops, seen, now, answer) && now.Walking?
    ensures now.todo == [] ==> answer == Arrive(t, now.dir)
    ensures now.todo != [] && i >= maxSteps ==> answer == Failed(SafetyBound)
    ensures now.todo != [] && i < maxSteps && StateKey(now.dir, now.todo) in seen ==> answer == Failed(LinkCycle)
  {
    if now.todo != [] {
      SeenMeansRepeats(t, w, seen, i, StateKey(now.dir, now.todo));
    }
  }

  /** What one more iteration makes of the verdict. */
  lemma GoesOn(t: Tree, w: Walk, maxSteps: nat, i: nat, hops: nat, seen: set<string>, now: Walk, answer: Outcome,
      next: Walk)
    requires Clean(w) && UnderWay(t, w, maxSteps, i, hops, seen, now, answer) && now.Walking? && now.todo != []
    requires i < maxSteps && StateKey(now.dir, now.todo) !in seen && next == Restart(t, now)
    ensures hops + Hop(t, now) > MAX_HOPS ==> answer == Failed(SafetyBound)
    ensures hops + Hop(t, now) <= MAX_HOPS ==>
      if next.Ended? then answer == next.outcome
      else UnderWay(t, w, maxSteps, i + 1, hops + Hop(t, now), seen + {StateKey(now.dir, now.todo)}, next, answer)
  {
    var state := StateKey(now.dir, now.todo);
    SeenMeansRepeats(t, w, seen, i, state);
    RemembersMore(t, w, seen, i, state);
    WatchGoesOn(Restarting(t), w, maxSteps, MAX_HOPS, i);
  }

  // One iteration, case by case.

  lemma RestartOnDot(t: Tree, dir: seq<string>, todo: seq<string>)
    requires todo != [] && todo[0] in ["", ".", ".."]
    ensures Hop(t, Walking(dir, todo)) == 0
    ensures Restart(t, Walking(dir, todo)) ==
      if todo[0] != ".." then Walking(dir, todo[1..])
      else if dir == [] then Ended(Failed(TargetEscapes)) else Walking(dir[..|dir| - 1], todo[1..])
  {
  }

  lemma RestartOnName(t: Tree, dir: seq<string>, todo: seq<string>, candidate: string)
    requires todo != [] && todo[0] !in ["", ".", ".."]
    requires candidate == if dir == [] then todo[0] else Join(dir, '/') + "/" + todo[0]
    ensures Hop(t, Walking(dir, todo)) == if candidate in t && t[candidate].IsLink() then 1 else 0
    ensures Restart(t, Walking(dir, todo)) ==
      if candidate in t && t[candidate].IsLink() then
        (match LinkParts(t[candidate].linkname)
         case Rejected(fault) => Ended(Failed(fault))
         case Parts(parts) => Walking([], (if t[candidate].kind == Symlink then dir else []) + parts + todo[1..]))
      else if todo[1..] != [] && (candidate !in t || t[candidate].kind != Directory)
        then Ended(Failed(ThroughMissing(candidate)))
      else Walking(dir + [todo[0]], todo[1..])
  {
    KeyAppend(dir, todo[0]);
  }

  class MemberIndex {
    var order: seq<string>
    var byName: Tree

    ghost predicate Valid()
      reads this
    {
      && (forall i, j :: 0 <= i < j < |order| ==> order[i] != order[j])
      && (forall k :: k in order <==> k in byName)
      && |order| == |byName|
    }

    constructor ()
      ensures Valid() && order == [] && byName == map[]
    {
      order, byName := [], map[];
    }

    method Add(key: string, m: Member)
      requires Valid() && key !in byName
      modifies this
      ensures Valid() && order == old(order) + [key] && byName == old(byName)[key := m]
    {
      assert byName[key := m].Keys == byName.Keys + {key};
      assert |byName[key := m].Keys| == |byName[key := m]| && |byName.Keys| == |byName|;
      order := order + [key];
      byName := byName[key := m];
    }

    /** One iteration of the resolver: takes the first pending component off the queue. It
        stops with an outcome, or hands back the two stacks and the hop count. */
    method Advance(resolved: seq<string>, pending: seq<string>, linkHops: nat)
      returns (stop: seq<Outcome>, resolved': seq<string>, pending': seq<string>, linkHops': nat)
      requires pending != [] && linkHops <= MAX_HOPS
      ensures linkHops' == linkHops + Hop(byName, Walking(resolved, pending))
      ensures linkHops' > MAX_HOPS ==> stop == [Failed(SafetyBound)]
      ensures linkHops' <= MAX_HOPS ==>
        match Restart(byName, Walking(resolved, pending))
        case Ended(outcome) => stop == [outcome]
        case Walking(r, p) => stop == [] && r == resolved' && p == pending'
    {
      stop, resolved', pending', linkHops' := [], resolved, pending[1..], linkHops;
      var part := pending[0];
      if part == "" || part == "." || part == ".." {
        RestartOnDot(byName, resolved, pending);
        if part == ".." {
          if resolved == [] {
            stop := [Failed(TargetEscapes)];
          } else {
            resolved' := resolved[..|resolved| - 1];
          }
        }
        return;
      }

      var candidate := part;
      if resolved != [] {
        candidate := Join(resolved, '/') + "/" + part;
      }
      RestartOnName(byName, resolved, pending, candidate);
      if candidate in byName && byName[candidate].IsLink() {
        var entry := byName[candidate];
        linkHops' := linkHops + 1;
        if linkHops' > MAX_HOPS {
          stop := [Failed(SafetyBound)];
          return;
        }
        var base: seq<string> := [];
        if entry.kind == Symlink {
          base := resolved;
        }
        var target := LinkParts(entry.linkname);
        if target.Rejected? {
          stop := [Failed(target.fault)];
          return;
        }
        resolved', pending' := [], base + target.parts + pending';
        return;
      }
      if pending' != [] && (candidate !in byName || byName[candidate].kind != Directory) {
        stop := [Failed(ThroughMissing(candidate))];
        return;
      }
      resolved' := resolved + [part];
    }

    /** Walks a key to the member it names, following links. */
    method Resolve(key: string) returns (outcome: Outcome)
      requires SafeText(key)
      ensures outcome == Resolution(byName, Start(key), |order| * 8 + 32)
    {
      var pending: seq<string> := [];
      if key != "" {
        pending := Split(key, '/');
      }
      var resolved: seq<string> := [];
      var seenStates: set<string> := {};
      var steps: nat, linkHops: nat := 0, 0;
      var maxSteps := |order| * 8 + 32;

      ghost var w := Start(key);
      ghost var answer := Resolution(byName, w, maxSteps);
      StartClean(key);
      SetsOut(byName, w, maxSteps, answer);
      while pending != []
        invariant UnderWay(byName, w, maxSteps, steps, linkHops, seenStates, Walking(resolved, pending), answer)
        invariant linkHops <= MAX_HOPS && steps <= maxSteps
        decreases maxSteps - steps
      {
        ghost var now := Walking(resolved, pending);
        Stops(byName, w, maxSteps, steps, linkHops, seenStates, now, answer);
        steps := steps + 1;
        if steps > maxSteps {
          return Failed(SafetyBound);
        }
        var state := StateKey(resolved, pending);
        if state in seenStates {
          return Failed(LinkCycle);
        }
        GoesOn(byName, w, maxSteps, steps - 1, linkHops, seenStates, now, answer, Restart(byName, now));
        seenStates := seenStates + {state};
        var stop;
        stop, resolved, pending, linkHops := Advance(resolved, pending, linkHops);
        if stop != [] {
          return stop[0];
        }
      }
      Stops(byName, w, maxSteps, steps, linkHops, seenStates, Walking(resolved, pending), answer);
      outcome := Land(resolved);
    }

    /** What is where the walk has come to. */
    method Land(resolved: seq<string>) returns (outcome: Outcome)
      ensures outcome == Arrive(byName, resolved)
    {
      var final := Join(resolved, '/');
      if final !in byName {
        return Failed(ResolvesToMissing(DisplayKey(final)));
      }
      return Reached(byName[final]);
    }
  }
}
