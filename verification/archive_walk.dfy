/** Pathname resolution as a walk in place (section 4.13 of the POSIX.1-2017 Base
    Definitions): the walker stands in a directory and holds the components still to come.
    A symbolic link is replaced by its target where it stands, a hard link by its target
    from the root, and ".." goes up from the directory really reached; going above the root
    is an error. The walk has no bound on its length. */
module ArchiveWalk {
  import opened Text
  import opened ArchiveTree
  import opened Machines

  datatype Outcome = Reached(member: Member) | Failed(fault: Fault)

  datatype Walk = Walking(dir: seq<string>, todo: seq<string>) | Ended(outcome: Outcome)

  /** Where a walk with nothing left to do has arrived. */
  function Arrive(t: Tree, dir: seq<string>): Outcome {
    if Exists(t, dir) then Reached(t[Key(dir)]) else Failed(ResolvesToMissing(DisplayKey(Key(dir))))
  }

  /** The walk meets a link, which counts as one hop. */
  predicate AtLink(t: Tree, w: Walk) {
    w.Walking? && w.todo != [] && w.todo[0] !in ["", ".", ".."] && IsLink(t, w.dir + [w.todo[0]])
  }

  function Link(t: Tree, w: Walk): Member
    requires AtLink(t, w)
  {
    t[Key(w.dir + [w.todo[0]])]
  }

  /** A link target starts from the link's own directory, or for a hard link from the root. */
  function LinkBase(t: Tree, w: Walk): seq<string>
    requires AtLink(t, w)
  {
    if Link(t, w).kind == Symlink then w.dir else []
  }

  function Step(t: Tree, w: Walk): Walk {
    match w
    case Ended(_) => w
    case Walking(dir, todo) =>
      if todo == [] then Ended(Arrive(t, dir))
      else
        var part, rest := todo[0], todo[1..];
        if part == "" || part == "." then Walking(dir, rest)
        else if part == ".." then
          if dir == [] then Ended(Failed(TargetEscapes)) else Walking(dir[..|dir| - 1], rest)
        else if AtLink(t, w) then
          match LinkParts(Link(t, w).linkname)
          case Rejected(fault) => Ended(Failed(fault))
          case Parts(parts) => Walking(LinkBase(t, w), parts + rest)
        else if rest != [] && !IsDirectory(t, dir + [part]) then Ended(Failed(ThroughMissing(Key(dir + [part]))))
        else Walking(dir + [part], rest)
  }

  /** One for a state that meets a link. */
  function Hop(t: Tree, w: Walk): nat {
    if AtLink(t, w) then 1 else 0
  }

  predicate Arrived(w: Walk) {
    w.Walking? && w.todo == []
  }

  function InPlace(t: Tree): Machine<Walk> {
    Machine(w => Step(t, w), w => Hop(t, w), (w: Walk) => w.Ended?, w => Arrived(w))
  }

  /** The walk after n steps, and the number of links met on the way. */
  function Steps(t: Tree, w: Walk, n: nat): Walk {
    Run(InPlace(t), w, n)
  }

  function Hops(t: Tree, w: Walk, n: nat): nat {
    Weight(InPlace(t), w, n)
  }

  ghost predicate NeverEnds(t: Tree, w: Walk) {
    forall n: nat :: Steps(t, w, n).Walking?
  }

  ghost predicate EndsWith(t: Tree, w: Walk, outcome: Outcome) {
    exists n: nat :: Steps(t, w, n) == Ended(outcome)
  }

  // ---- What every walk keeps ---------------------------------------------------

  /** While components remain the walker stands on real directories only. */
  predicate Grounded(t: Tree, w: Walk) {
    w.Walking? ==> Landed(t, w.dir) && (w.todo != [] ==> Solid(t, w.dir)) && AllFree(w.todo, '/')
  }

  lemma LinkPartsFree(value: string)
    requires LinkParts(value).Parts?
    ensures AllFree(LinkParts(value).parts, '/') && AllSafe(LinkParts(value).parts)
  {
    var raw := Split(value, '/');
    var parts := LinkParts(value).parts;
    forall i | 0 <= i < |parts| ensures Free(parts[i], '/') && SafeText(parts[i]) {
      assert parts[i] in raw;
      var k :| 0 <= k < |raw| && raw[k] == parts[i];
      SafePieces(value, k);
    }
  }

  /** A piece of a safe text is safe. */
  lemma {:induction false} SafePieces(value: string, k: nat)
    requires SafeText(value) && k < |Split(value, '/')|
    ensures SafeText(Split(value, '/')[k])
    decreases |value|
  {
    var i := IndexOf(value, '/');
    if i < |value| && k > 0 {
      SafePieces(value[i + 1..], k - 1);
    }
  }

  lemma RestFree(todo: seq<string>)
    requires todo != [] && AllFree(todo, '/')
    ensures AllFree(todo[1..], '/')
  {
  }

  lemma UpGrounded(t: Tree, dir: seq<string>, rest: seq<string>)
    requires dir != [] && Solid(t, dir) && AllFree(rest, '/')
    ensures Grounded(t, Walking(dir[..|dir| - 1], rest))
  {
    SolidParent(t, dir);
    if |dir| > 1 {
      SolidParent(t, dir[..|dir| - 1]);
    }
  }

  lemma OverGrounded(t: Tree, dir: seq<string>, base: seq<string>, linkname: string, rest: seq<string>)
    requires Solid(t, dir) && (base == dir || base == []) && AllFree(rest, '/') && LinkParts(linkname).Parts?
    ensures Grounded(t, Walking(base, LinkParts(linkname).parts + rest))
  {
    LinkPartsFree(linkname);
    if dir != [] {
      SolidParent(t, dir);
    }
  }

  lemma DownGrounded(t: Tree, dir: seq<string>, part: string, rest: seq<string>)
    requires Solid(t, dir) && Proper(part) && AllFree(rest, '/') && !IsLink(t, dir + [part])
    requires rest != [] ==> IsDirectory(t, dir + [part])
    ensures Grounded(t, Walking(dir + [part], rest))
  {
    if rest != [] {
      SolidExtend(t, dir, part);
      SolidParent(t, dir + [part]);
    }
    assert (dir + [part])[..|dir|] == dir;
  }

  lemma StepGrounded(t: Tree, w: Walk)
    requires Grounded(t, w)
    ensures Grounded(t, Step(t, w))
  {
    if w.Walking? && w.todo != [] {
      var part, rest := w.todo[0], w.todo[1..];
      RestFree(w.todo);
      if part == "" || part == "." {
        if w.dir != [] {
          SolidParent(t, w.dir);
        }
      } else if part == ".." {
        if w.dir != [] {
          UpGrounded(t, w.dir, rest);
        }
      } else if AtLink(t, w) {
        if LinkParts(Link(t, w).linkname).Parts? {
          OverGrounded(t, w.dir, LinkBase(t, w), Link(t, w).linkname, rest);
        }
      } else if rest == [] || IsDirectory(t, w.dir + [part]) {
        DownGrounded(t, w.dir, part, rest);
      }
    }
  }

  /** Containment: at every intermediate point of every walk from a real directory, the
      walker stands on real directories of the archive, below the root. */
  lemma {:induction false} WalkGrounded(t: Tree, w: Walk, n: nat)
    requires Grounded(t, w)
    ensures Grounded(t, Steps(t, w, n))
  {
    if n > 0 {
      WalkGrounded(t, w, n - 1);
      StepGrounded(t, Steps(t, w, n - 1));
    }
  }

  lemma StaysEnded(t: Tree, w: Walk, n: nat, m: nat)
    requires n <= m && Steps(t, w, n).Ended?
    ensures Steps(t, w, m) == Steps(t, w, n)
  {
    StaysDone(InPlace(t), w, n, m);
  }

  /** The step at which a finished walk finishes. */
  lemma LastStep(t: Tree, w: Walk, n: nat) returns (k: nat)
    requires w.Walking? && Steps(t, w, n).Ended?
    ensures k < n && Steps(t, w, k).Walking? && Steps(t, w, k + 1) == Steps(t, w, n)
  {
    k := Finish(InPlace(t), w, n);
  }

  /** A walk has at most one outcome. */
  lemma OneOutcome(t: Tree, w: Walk, a: Outcome, b: Outcome)
    requires EndsWith(t, w, a) && EndsWith(t, w, b)
    ensures a == b
  {
    var n: nat :| Steps(t, w, n) == Ended(a);
    var m: nat :| Steps(t, w, m) == Ended(b);
    StaysEnded(t, w, if n < m then n else m, if n < m then m else n);
  }

  /** What a walk reaches is never a link. */
  lemma ReachesNoLink(t: Tree, w: Walk, m: Member)
    requires Grounded(t, w) && w.Walking? && EndsWith(t, w, Reached(m))
    requires "" in t ==> !t[""].IsLink()
    ensures !m.IsLink() && m in t.Values
  {
    var n: nat :| Steps(t, w, n) == Ended(Reached(m));
    var k := LastStep(t, w, n);
    WalkGrounded(t, w, k);
    var last := Steps(t, w, k);
    assert Step(t, last) == Ended(Reached(m));
    assert last.todo == [] && Exists(t, last.dir) && m == t[Key(last.dir)];
  }

  /** Two walks joined: n steps and then m more. */
  lemma StepsAdd(t: Tree, w: Walk, n: nat, m: nat)
    ensures Steps(t, w, n + m) == Steps(t, Steps(t, w, n), m)
    ensures Hops(t, w, n + m) == Hops(t, w, n) + Hops(t, Steps(t, w, n), m)
  {
    RunAdd(InPlace(t), w, n, m);
    TallyAdd(InPlace(t), InPlace(t).weigh, w, n, m);
  }

  /** One step into a real directory. */
  lemma WalkInto(t: Tree, dir: seq<string>, path: seq<string>, rest: seq<string>, k: nat)
    requires Solid(t, dir + path) && k < |path|
    ensures Step(t, Walking(dir + path[..k], path[k..] + rest)) == Walking(dir + path[..k + 1], path[k + 1..] + rest)
    ensures Hop(t, Walking(dir + path[..k], path[k..] + rest)) == 0
  {
    var part := path[k];
    assert (dir + path)[|dir| + k] == part;
    assert dir + path[..k] + [part] == dir + path[..k + 1] == (dir + path)[..|dir| + k + 1];
    assert IsDirectory(t, dir + path[..k + 1]);
    assert (path[k..] + rest)[0] == part && (path[k..] + rest)[1..] == path[k + 1..] + rest;
  }

  /** Walking along real directories takes one step a component and meets no link. */
  lemma {:induction false} WalkDown(t: Tree, dir: seq<string>, path: seq<string>, rest: seq<string>, n: nat)
    requires Solid(t, dir + path) && n <= |path|
    ensures Steps(t, Walking(dir, path + rest), n) == Walking(dir + path[..n], path[n..] + rest)
    ensures Hops(t, Walking(dir, path + rest), n) == 0
  {
    if n == 0 {
      assert dir + path[..0] == dir && path[0..] == path;
    } else {
      WalkDown(t, dir, path, rest, n - 1);
      WalkInto(t, dir, path, rest, n - 1);
    }
  }
}
