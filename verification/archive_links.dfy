/** What acceptance means for links, and when the resolver's bounds can fire. */
module ArchiveLinks {
  import opened Text
  import opened Machines
  import opened ArchiveTree
  import opened ArchiveWalk
  import opened ArchiveRestart
  import opened ArchiveIndex
  import opened ArchiveValidator
  import opened ArchiveAcceptance

  // ---- Single steps ------------------------------------------------------------------

  lemma OneStep(t: Tree, w: Walk, n: nat, before: Walk, after: Walk)
    requires Steps(t, w, n) == before && Step(t, before) == after
    ensures Steps(t, w, n + 1) == after
    ensures Hops(t, w, n + 1) == Hops(t, w, n) + Hop(t, before)
    ensures TotalQueued(t, w, n + 1) == TotalQueued(t, w, n) + Queued(t, before)
  {
  }

  lemma StepInto(t: Tree, dir: seq<string>, part: string, rest: seq<string>)
    requires Proper(part) && IsDirectory(t, dir + [part])
    ensures Step(t, Walking(dir, [part] + rest)) == Walking(dir + [part], rest)
    ensures Hop(t, Walking(dir, [part] + rest)) == 0 && Queued(t, Walking(dir, [part] + rest)) == 0
  {
    assert ([part] + rest)[1..] == rest;
  }

  lemma StepUp(t: Tree, dir: seq<string>, rest: seq<string>)
    requires dir != []
    ensures Step(t, Walking(dir, [".."] + rest)) == Walking(dir[..|dir| - 1], rest)
    ensures Hop(t, Walking(dir, [".."] + rest)) == 0 && Queued(t, Walking(dir, [".."] + rest)) == 0
  {
    assert ([".."] + rest)[1..] == rest;
  }

  lemma StepOver(t: Tree, dir: seq<string>, name: string, m: Member, parts: seq<string>, at: Walk)
    requires Proper(name) && Key(dir + [name]) in t && t[Key(dir + [name])] == m && m.IsLink()
    requires LinkParts(m.linkname) == Parts(parts) && at == Walking(dir, [name])
    ensures Step(t, at) == Walking(if m.kind == Symlink then dir else [], parts)
    ensures Hop(t, at) == 1 && Queued(t, at) == (if m.kind == Symlink then |dir| else 0) + |parts|
  {
    assert [name][1..] == [] && parts + [] == parts;
    assert AtLink(t, at) && Link(t, at) == m;
  }

  // ---- Every link of an accepted archive leads somewhere real -----------------------

  /** Where following a link member begins: in its own directory, or for a hard link at the
      root. */
  function FollowFrom(m: Member, key: string): Walk
    requires LinkParts(m.linkname).Parts?
  {
    Walking(if m.kind == Symlink then DirParts(key) else [], LinkParts(m.linkname).parts)
  }

  /** A link member whose place and target have been checked. */
  ghost predicate PlacedLink(t: Tree, key: string) {
    && key in t && t[key].IsLink() && ProperKey(key) && key != "" && SolidAbove(t, PathOf(key))
    && LinkParts(t[key].linkname).Parts?
  }

  /** Resolving a link's key walks down to its directory and then follows the link. */
  lemma KeyLeadsToLink(t: Tree, key: string, start: Walk, len: nat)
    requires PlacedLink(t, key) && start == FollowFrom(t[key], key) && len == |PathOf(key)|
    ensures Steps(t, Start(key), len) == start
  {
    var path := PathOf(key);
    var dir, name := path[..|path| - 1], path[|path| - 1];
    PathOfLink(t, key, path, dir, name);
    OverLink(t, dir, name, t[key], LinkParts(t[key].linkname).parts, Start(key));
  }

  lemma PathOfLink(t: Tree, key: string, path: seq<string>, dir: seq<string>, name: string)
    requires PlacedLink(t, key) && path == PathOf(key) && dir == path[..|path| - 1] && name == path[|path| - 1]
    ensures Solid(t, dir) && Proper(name) && Key(dir + [name]) == key && Start(key) == Walking([], dir + [name])
    ensures DirParts(key) == dir && |path| == |dir| + 1
  {
    assert path == dir + [name];
  }

  lemma LandsFrom(t: Tree, key: string, start: Walk) returns (m: Member)
    requires PlacedLink(t, key) && start == FollowFrom(t[key], key) && LinkLands(t, key)
    ensures EndsWith(t, start, Reached(m)) && (t[key].kind == Hardlink ==> m.kind == File)
  {
    m :| EndsWithin(t, Start(key), Reached(m), MaxSteps(t)) && (t[key].kind == Hardlink ==> m.kind == File);
    var n: nat :| EndsIn(t, Start(key), Reached(m), MaxSteps(t), n);
    var len := |PathOf(key)|;
    KeyLeadsToLink(t, key, start, len);
    RestEnds(t, Start(key), start, len, n + 1, Reached(m));
  }

  /** What remains of a walk after its first steps ends as the whole does. */
  lemma RestEnds(t: Tree, w: Walk, rest: Walk, len: nat, n: nat, outcome: Outcome)
    requires Steps(t, w, len) == rest && rest.Walking? && Steps(t, w, n) == Ended(outcome)
    ensures EndsWith(t, rest, outcome)
  {
    if n < len {
      StaysEnded(t, w, n, len);
    }
    StepsAdd(t, w, len, n - len);
    assert Steps(t, rest, n - len) == Ended(outcome);
  }

  /** A place from which a walk ends well without ever leaving the archive's directories. */
  ghost predicate SafeDestination(t: Tree, w: Walk, m: Member) {
    && EndsWith(t, w, Reached(m)) && m in t.Values && !m.IsLink()
    && forall n: nat :: Grounded(t, Steps(t, w, n)) && Steps(t, w, n) != Ended(Failed(TargetEscapes))
  }

  lemma ReachesSafely(t: Tree, w: Walk, m: Member)
    requires Grounded(t, w) && w.Walking? && EndsWith(t, w, Reached(m)) && ("" in t ==> !t[""].IsLink())
    ensures SafeDestination(t, w, m)
  {
    ReachesNoLink(t, w, m);
    forall n: nat ensures Grounded(t, Steps(t, w, n)) && Steps(t, w, n) != Ended(Failed(TargetEscapes)) {
      WalkGrounded(t, w, n);
      if Steps(t, w, n) == Ended(Failed(TargetEscapes)) {
        OneOutcome(t, w, Reached(m), Failed(TargetEscapes));
      }
    }
  }

  /** In every accepted archive, following any link ends on an existing member that is no
      link, and for a hard link is a regular file; on the way it stands on real directories
      of the archive only, and never rises above the root. */
  lemma AcceptedLinksLand(hs: seq<Header>, maxMembers: nat, t: Tree, key: string) returns (m: Member)
    requires FirstViolation(hs, maxMembers).Accepted? && t == TreeOf(hs) && key in t && t[key].IsLink()
    ensures LinkParts(t[key].linkname).Parts?
    ensures SafeDestination(t, FollowFrom(t[key], key), m) && (t[key].kind == Hardlink ==> m.kind == File)
  {
    AcceptedIffLawful(hs, maxMembers);
    LawfulKeys(hs, key);
    LawfulTarget(hs, key);
    var start, len := FollowFrom(t[key], key), |PathOf(key)|;
    m := LandsFrom(t, key, start);
    KeyLeadsToLink(t, key, start, len);
    StartGrounded(t, key);
    WalkGrounded(t, Start(key), len);
    RootNoLink(hs);
    ReachesSafely(t, start, m);
  }

  lemma RootNoLink(hs: seq<Header>)
    requires LawfulHeaders(hs)
    ensures "" in TreeOf(hs) ==> !TreeOf(hs)[""].IsLink()
  {
    if "" in TreeOf(hs) {
      LawfulKeys(hs, "");
    }
  }

  lemma LawfulTarget(hs: seq<Header>, key: string)
    requires LawfulHeaders(hs) && key in TreeOf(hs) && TreeOf(hs)[key].IsLink()
    ensures TargetCheck(TreeOf(hs)[key], key) == Accepted && key != ""
  {
    LawfulKeys(hs, key);
    TreeOfKeys(hs);
    var i :| 0 <= i < |hs| && KeyOf(hs[i]) == key;
    TreeOfMembers(hs, i);
  }

  // ---- Archives without links ----------------------------------------------------------

  predicate LinkFree(hs: seq<Header>) {
    forall i :: 0 <= i < |hs| ==> hs[i].flag != SymbolicLink && hs[i].flag != HardLink
  }

  lemma NoLinks(hs: seq<Header>, t: Tree, key: string)
    requires LinkFree(hs) && DistinctKeys(hs) && t == TreeOf(hs) && key in t
    ensures !t[key].IsLink()
  {
    TreeOfKeys(hs);
    var i :| 0 <= i < |hs| && KeyOf(hs[i]) == key;
    TreeOfMembers(hs, i);
  }

  lemma LawfulWithoutLinks(hs: seq<Header>, maxMembers: nat, t: Tree)
    requires t == TreeOf(hs) && (LawfulHeaders(hs) ==> forall key :: key in t ==> !t[key].IsLink())
    ensures Lawful(hs, maxMembers) <==>
      0 < |hs| <= maxMembers && LawfulHeaders(hs) && TreeShaped(t) && IsDirectory(t, ["home"])
      && IsDirectory(t, ["home", "agent"])
  {
  }

  /** Without links an archive within the member cap is accepted exactly when its headers
      are lawful, it is a tree, and home and home/agent are directories. */
  lemma LinkFreeAccepted(hs: seq<Header>, maxMembers: nat, t: Tree)
    requires LinkFree(hs) && t == TreeOf(hs)
    ensures FirstViolation(hs, maxMembers).Accepted? <==>
      0 < |hs| <= maxMembers && LawfulHeaders(hs) && TreeShaped(t) && IsDirectory(t, ["home"])
      && IsDirectory(t, ["home", "agent"])
  {
    AcceptedIffLawful(hs, maxMembers);
    if LawfulHeaders(hs) {
      forall key | key in t ensures !t[key].IsLink() {
        NoLinks(hs, t, key);
      }
    }
    LawfulWithoutLinks(hs, maxMembers, t);
  }

  // ---- When the bounds fire ------------------------------------------------------------

  /** For a walk in place that arrives, the resolver reports its safety bound exactly when
      more than 40 links were met, or when the components of the key, of the targets met and
      of the bases walked again for them add up to more than the step bound. */
  lemma BoundExact(t: Tree, w: Walk, maxSteps: nat, n: nat)
    requires Grounded(t, w) && w.Walking? && Arrived(Steps(t, w, n))
    ensures Resolution(t, w, maxSteps) ==
      if Hops(t, w, n) > MAX_HOPS || |w.todo| + TotalQueued(t, w, n) > maxSteps then Failed(SafetyBound)
      else Arrive(t, Steps(t, w, n).dir)
  {
    var here := Steps(t, w, n);
    CostIsQueued(t, w, n);
    ArrivalCounts(t, w, n);
    assert Step(t, here) == Ended(Arrive(t, here.dir));
    if Hops(t, w, n) > MAX_HOPS || |w.todo| + TotalQueued(t, w, n) > maxSteps {
      NotReported(t, w, maxSteps, n);
    } else {
      assert EndsIn(t, w, Arrive(t, here.dir), maxSteps, n);
      ResolutionComplete(t, w, maxSteps, Arrive(t, here.dir));
    }
  }

  lemma ArrivalCounts(t: Tree, w: Walk, n: nat)
    requires Arrived(Steps(t, w, n))
    ensures TotalCost(t, w, n + 1) == TotalCost(t, w, n) && Hops(t, w, n + 1) == Hops(t, w, n)
  {
  }

  /** A walk that ends beyond a bound is reported as a bound. */
  lemma NotReported(t: Tree, w: Walk, maxSteps: nat, n: nat)
    requires Grounded(t, w) && w.Walking? && Steps(t, w, n).Walking? && Steps(t, w, n + 1).Ended?
    requires Hops(t, w, n + 1) > MAX_HOPS || TotalCost(t, w, n + 1) > maxSteps
    ensures Resolution(t, w, maxSteps) == Failed(SafetyBound)
  {
    var answer := Resolution(t, w, maxSteps);
    if answer == Failed(LinkCycle) {
      CycleIsEndless(t, w, maxSteps);
    } else if answer != Failed(SafetyBound) {
      ResolutionSound(t, w, maxSteps);
      var k: nat :| EndsIn(t, w, answer, maxSteps, k);
      OneFinish(InPlace(t), w, k, n);
    }
  }

  /** Every link target of the archive has at most this many components. */
  ghost predicate TargetsUpTo(t: Tree, length: nat) {
    forall key :: key in t && LinkParts(t[key].linkname).Parts? ==> |LinkParts(t[key].linkname).parts| <= length
  }

  /** A hop queues at most a target, and a base no deeper than the archive has members. */
  lemma HopQueues(t: Tree, w: Walk, length: nat)
    requires Grounded(t, w) && TargetsUpTo(t, length)
    ensures Queued(t, w) <= Hop(t, w) * (|t| + length)
  {
    if AtLink(t, w) {
      SolidDepth(t, w.dir);
    }
  }

  lemma HopsQueue(t: Tree, w: Walk, length: nat, n: nat)
    requires Grounded(t, w) && TargetsUpTo(t, length)
    ensures TotalQueued(t, w, n) <= Hops(t, w, n) * (|t| + length)
  {
    forall x | Grounded(t, x) ensures Grounded(t, Step(t, x)) && Queued(t, x) <= Hop(t, x) * (|t| + length) {
      StepGrounded(t, x);
      HopQueues(t, x, length);
    }
    TallyBounded(InPlace(t), QueuedOf(t), InPlace(t).weigh, |t| + length, GroundedIn(t), w, n);
  }

  lemma MemberDepth(t: Tree, key: string)
    requires key in t && ProperKey(key) && SolidAbove(t, PathOf(key))
    ensures |PathOf(key)| <= |t|
  {
    var path := PathOf(key);
    var keys := seq(|path|, i requires 0 <= i < |path| => Key(path[..i + 1]));
    forall i, j | 0 <= i < j < |keys| ensures keys[i] != keys[j] {
      assert keys[i] == Key(path[..i + 1]) && keys[j] == Key(path[..j + 1]);
      if keys[i] == keys[j] {
        KeyInjective(path[..i + 1], path[..j + 1]);
      }
    }
    forall i | 0 <= i < |keys| ensures keys[i] in t {
      if i + 1 < |path| {
        assert path[..|path| - 1][..i + 1] == path[..i + 1];
        assert IsDirectory(t, path[..i + 1]);
      } else {
        assert path[..i + 1] == path;
      }
    }
    Pigeonhole(t, keys);
  }

  lemma EightTimes(depth: nat, size: nat, hops: nat, queued: nat)
    requires depth <= size && hops <= 7 && queued <= hops * (size + 4)
    ensures depth + queued <= size * 8 + 32
  {
    assert hops * (size + 4) <= 7 * (size + 4);
  }

  /** Up to seven links with targets of up to four components never meet a bound: a member
      that a walk in place reaches this way is what the resolver returns. */
  lemma FewShortLinksResolve(t: Tree, key: string, n: nat)
    requires key in t && ProperKey(key) && SolidAbove(t, PathOf(key)) && TargetsUpTo(t, 4)
    requires Arrived(Steps(t, Start(key), n)) && Hops(t, Start(key), n) <= 7
    ensures Resolve(t, key) == Arrive(t, Steps(t, Start(key), n).dir)
  {
    StartGrounded(t, key);
    MemberDepth(t, key);
    HopsQueue(t, Start(key), 4, n);
    EightTimes(|Start(key).todo|, |t|, Hops(t, Start(key), n), TotalQueued(t, Start(key), n));
    BoundExact(t, Start(key), MaxSteps(t), n);
  }

  // ---- A link that resolves in place and is refused -------------------------------------

  /** Up and down again into the same directory, k times. */
  function Zigzag(part: string, k: nat): seq<string> {
    if k == 0 then [] else ["..", part] + Zigzag(part, k - 1)
  }

  /** home, home/agent, and a link in it that goes up and down k times. */
  function ZigzagTree(k: nat): Tree {
    map[
      "home" := Member("home", Directory, ""),
      "home/agent" := Member("home/agent", Directory, ""),
      "home/agent/x" := Member("home/agent/x", Symlink, Join(Zigzag("agent", k), '/'))
    ]
  }

  predicate UpAndDown(parts: seq<string>, part: string) {
    forall i :: 0 <= i < |parts| ==> parts[i] == ".." || parts[i] == part
  }

  lemma {:induction false} ZigzagParts(part: string, k: nat)
    ensures |Zigzag(part, k)| == 2 * k && UpAndDown(Zigzag(part, k), part)
    ensures k > 0 ==> Zigzag(part, k)[0] == ".."
  {
    if k > 0 {
      ZigzagParts(part, k - 1);
    }
  }

  lemma ZigzagTarget(part: string, parts: seq<string>, text: string)
    requires parts != [] && parts[0] == ".." && UpAndDown(parts, part) && text == Join(parts, '/')
    requires Proper(part) && SafeText(part)
    ensures LinkParts(text) == Parts(parts)
  {
    assert AllFree(parts, '/');
    SplitJoin(parts, '/');
    assert "" !in parts && "." !in parts;
    SafeJoin(parts);
    BeginsWith(parts, text);
  }

  lemma BeginsWith(parts: seq<string>, text: string)
    requires parts != [] && parts[0] == ".." && text == Join(parts, '/')
    ensures text != "" && text[0] == '.'
  {
  }

  lemma ZigzagKeys()
    ensures Key(["home"]) == "home" && Key(["home", "agent"]) == "home/agent"
    ensures Key(["home", "agent", "x"]) == "home/agent/x"
  {
    KeyAppend(["home"], "agent");
    assert ["home"] + ["agent"] == ["home", "agent"];
    KeyAppend(["home", "agent"], "x");
    assert ["home", "agent"] + ["x"] == ["home", "agent", "x"];
    assert "home" + "/" + "agent" == "home/agent" && "home/agent" + "/" + "x" == "home/agent/x";
  }

  lemma ZigzagLookups(k: nat, t: Tree)
    requires t == ZigzagTree(k)
    ensures Solid(t, ["home", "agent"]) && IsDirectory(t, ["home"]) && IsDirectory(t, ["home", "agent"])
  {
    ZigzagKeys();
    assert [] + ["home"] == ["home"] && ["home"] + ["agent"] == ["home", "agent"];
    assert Solid(t, []);
    SolidExtend(t, [], "home");
    SolidExtend(t, ["home"], "agent");
  }

  /** One zigzag comes back to where it started. */
  lemma OneZigzag(t: Tree, top: string, part: string, rest: seq<string>, here: Walk)
    requires Proper(part) && IsDirectory(t, [top, part]) && here == Walking([top, part], ["..", part] + rest)
    ensures Steps(t, here, 2) == Walking([top, part], rest)
    ensures Hops(t, here, 2) == 0 && TotalQueued(t, here, 2) == 0
  {
    assert ["..", part] + rest == [".."] + ([part] + rest);
    assert [top, part][..1] == [top] && [top] + [part] == [top, part];
    var up, down := Walking([top], [part] + rest), Walking([top, part], rest);
    StepUp(t, [top, part], [part] + rest);
    StepInto(t, [top], part, rest);
    NoSteps(t, here);
    OneStep(t, here, 0, here, up);
    OneStep(t, here, 1, up, down);
  }

  lemma NoSteps(t: Tree, w: Walk)
    ensures Steps(t, w, 0) == w && Hops(t, w, 0) == 0 && TotalQueued(t, w, 0) == 0
  {
  }

  /** The counts of a run after its first steps add up. */
  lemma CountsAdd(t: Tree, w: Walk, n: nat, middle: Walk, k: nat)
    requires Steps(t, w, n) == middle
    ensures Steps(t, w, n + k) == Steps(t, middle, k)
    ensures Hops(t, w, n + k) == Hops(t, w, n) + Hops(t, middle, k)
    ensures TotalQueued(t, w, n + k) == TotalQueued(t, w, n) + TotalQueued(t, middle, k)
  {
    RunAdd(InPlace(t), w, n, k);
    TallyAdd(InPlace(t), InPlace(t).weigh, w, n, k);
    TallyAdd(InPlace(t), QueuedOf(t), w, n, k);
  }

  lemma {:induction false} ZigzagWalk(t: Tree, top: string, part: string, k: nat, n: nat, here: Walk)
    requires Proper(part) && IsDirectory(t, [top, part]) && here == Walking([top, part], Zigzag(part, k)) && n == 2 * k
    ensures Steps(t, here, n) == Walking([top, part], [])
    ensures Hops(t, here, n) == 0 && TotalQueued(t, here, n) == 0
    decreases k
  {
    if k == 0 {
      NoSteps(t, here);
    } else {
      var rest := Zigzag(part, k - 1);
      var next := Walking([top, part], rest);
      assert here == Walking([top, part], ["..", part] + rest);
      OneZigzag(t, top, part, rest, here);
      ZigzagWalk(t, top, part, k - 1, n - 2, next);
      CountsAdd(t, here, 2, next, n - 2);
    }
  }

  /** Down to a link below real directories and over it: one hop, queueing its target and,
      for a symbolic link, its directory. */
  lemma OverLink(t: Tree, dir: seq<string>, name: string, m: Member, parts: seq<string>, w: Walk)
    requires Solid(t, dir) && Proper(name) && w == Walking([], dir + [name])
    requires Key(dir + [name]) in t && t[Key(dir + [name])] == m && m.IsLink() && LinkParts(m.linkname) == Parts(parts)
    ensures Steps(t, w, |dir| + 1) == Walking(if m.kind == Symlink then dir else [], parts)
    ensures Hops(t, w, |dir| + 1) == 1
    ensures TotalQueued(t, w, |dir| + 1) == (if m.kind == Symlink then |dir| else 0) + |parts|
  {
    assert [] + dir == dir;
    WalkDown(t, [], dir, [name], |dir|);
    assert dir[..|dir|] == dir && dir[|dir|..] + [name] == [name];
    NothingQueued(t, w, |dir|);
    StepOver(t, dir, name, m, parts, Walking(dir, [name]));
    OneStep(t, w, |dir|, Walking(dir, [name]), Step(t, Walking(dir, [name])));
  }

  lemma ZigzagSize(k: nat, t: Tree)
    requires t == ZigzagTree(k)
    ensures MaxSteps(t) == 56
  {
    assert t.Keys == {"home", "home/agent", "home/agent/x"};
    assert |t.Keys| == |t|;
  }

  /** A link in a directory, whose target zigzags k times: over it and through its target the
      walk comes back to the directory. */
  lemma ZigzagRun(t: Tree, top: string, part: string, dir: seq<string>, name: string, k: nat, m: Member, start: Walk,
      over: nat, n: nat)
    requires k > 0 && Proper(part) && SafeText(part) && Proper(name) && dir == [top, part] && Solid(t, dir)
    requires IsDirectory(t, dir)
    requires Key(dir + [name]) in t && t[Key(dir + [name])] == m && m.kind == Symlink
    requires m.linkname == Join(Zigzag(part, k), '/')
    requires start == Walking([], dir + [name]) && over == |dir| + 1 && n == 2 * k
    ensures Steps(t, start, over + n) == Walking(dir, [])
    ensures Hops(t, start, over + n) == 1 && TotalQueued(t, start, over + n) == 2 + n
  {
    var parts := Zigzag(part, k);
    ZigzagOver(t, dir, part, name, parts, k, m, start, over);
    ZigzagWalk(t, top, part, k, n, Walking(dir, parts));
    CountsAdd(t, start, over, Walking(dir, parts), n);
  }

  lemma ZigzagOver(t: Tree, dir: seq<string>, part: string, name: string, parts: seq<string>, k: nat, m: Member,
      start: Walk, over: nat)
    requires k > 0 && parts == Zigzag(part, k) && |dir| == 2 && over == |dir| + 1
    requires Proper(part) && SafeText(part) && Proper(name) && Solid(t, dir)
    requires Key(dir + [name]) in t && t[Key(dir + [name])] == m && m.kind == Symlink && m.linkname == Join(parts, '/')
    requires start == Walking([], dir + [name])
    ensures Steps(t, start, over) == Walking(dir, parts)
    ensures Hops(t, start, over) == 1 && TotalQueued(t, start, over) == 2 + 2 * k
  {
    ZigzagParts(part, k);
    ZigzagTarget(part, parts, m.linkname);
    OverLink(t, dir, name, m, parts, start);
  }

  lemma StartAt(path: seq<string>, key: string)
    requires AllProper(path) && key == Key(path)
    ensures Start(key) == Walking([], path)
  {
    PathOfKey(path);
  }

  lemma ZigzagStart(key: string)
    requires key == "home/agent/x"
    ensures Start(key) == Walking([], ["home", "agent", "x"])
  {
    ZigzagKeys();
    StartAt(["home", "agent", "x"], key);
  }

  lemma ZigzagArrives(k: nat, t: Tree, dir: seq<string>)
    requires t == ZigzagTree(k) && dir == ["home", "agent"]
    ensures Arrive(t, dir) == Reached(Member("home/agent", Directory, ""))
  {
    ZigzagKeys();
  }

  lemma ZigzagCounts(k: nat, t: Tree, start: Walk, last: Walk, n: nat, queued: nat)
    requires k > 0 && t == ZigzagTree(k) && start == Walking([], ["home", "agent", "x"])
    requires last == Walking(["home", "agent"], [])
    requires n == 3 + 2 * k && queued == 2 + 2 * k
    ensures Steps(t, start, n) == last && Hops(t, start, n) == 1 && TotalQueued(t, start, n) == queued
  {
    ZigzagKeys();
    ZigzagLookups(k, t);
    assert ["home", "agent"] + ["x"] == ["home", "agent", "x"];
    ZigzagRun(t, "home", "agent", ["home", "agent"], "x", k, t["home/agent/x"], start, 3, 2 * k);
  }

  /** The walk in place reaches home/agent over a single link, and the resolver refuses it
      exactly when the target is too long for the step bound: from 26 zigzags on. */
  lemma LongTargetRefused(k: nat, t: Tree, key: string, reached: Outcome)
    requires k > 0 && t == ZigzagTree(k) && key == "home/agent/x"
    requires reached == Reached(Member("home/agent", Directory, ""))
    ensures EndsWith(t, Start(key), reached)
    ensures Resolve(t, key) == if k >= 26 then Failed(SafetyBound) else reached
  {
    var n, queued, last := 3 + 2 * k, 2 + 2 * k, Walking(["home", "agent"], []);
    ZigzagStart(key);
    ZigzagSize(k, t);
    ZigzagArrives(k, t, last.dir);
    ZigzagCounts(k, t, Start(key), last, n, queued);
    ArrivedByKey(t, key, n, last, 1, queued);
  }

  lemma ArrivedByKey(t: Tree, key: string, n: nat, last: Walk, hops: nat, queued: nat)
    requires Steps(t, Start(key), n) == last && last.Walking? && last.todo == []
    requires hops == Hops(t, Start(key), n) && queued == TotalQueued(t, Start(key), n)
    ensures EndsWith(t, Start(key), Arrive(t, last.dir))
    ensures Resolve(t, key) ==
      if hops > MAX_HOPS || |Start(key).todo| + queued > MaxSteps(t) then Failed(SafetyBound) else Arrive(t, last.dir)
  {
    StartGrounded(t, key);
    ArrivedAt(t, Start(key), MaxSteps(t), n, last.dir, hops, queued);
  }

  /** The exact bound with its counts given by name. */
  lemma ArrivedAt(t: Tree, w: Walk, maxSteps: nat, n: nat, dir: seq<string>, hops: nat, queued: nat)
    requires Grounded(t, w) && w.Walking? && Steps(t, w, n) == Walking(dir, [])
    requires hops == Hops(t, w, n) && queued == TotalQueued(t, w, n)
    ensures EndsWith(t, w, Arrive(t, dir))
    ensures Resolution(t, w, maxSteps) ==
      if hops > MAX_HOPS || |w.todo| + queued > maxSteps then Failed(SafetyBound) else Arrive(t, dir)
  {
    BoundExact(t, w, maxSteps, n);
    assert Step(t, Walking(dir, [])) == Ended(Arrive(t, dir));
    assert Steps(t, w, n + 1) == Ended(Arrive(t, dir));
  }
}
