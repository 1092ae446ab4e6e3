/** Which archives the validator accepts, said without its passes, its order or its cache:
    a well-formed tree of lawful members in which every link leads somewhere real. */
module ArchiveAcceptance {
  import opened Text
  import opened Machines
  import opened ArchiveTree
  import opened ArchiveWalk
  import opened ArchiveRestart
  import opened ArchiveIndex
  import opened ArchiveValidator

  // ---- Lawful archives -----------------------------------------------------------

  /** What one header must satisfy by itself. */
  predicate LawfulHeader(h: Header) {
    && SafeText(h.name) && !Absolute(h.name) && ".." !in RawParts(h.name)
    && h.flag != Special
    && (PathParts(h.name) == [] ==> h.flag == Dir)
    && (MemberOf(h).IsLink() ==> TargetCheck(MemberOf(h), KeyOf(h)) == Accepted)
  }

  predicate DistinctKeys(hs: seq<Header>) {
    forall i, j :: 0 <= i < j < |hs| ==> KeyOf(hs[i]) != KeyOf(hs[j])
  }

  ghost predicate LawfulHeaders(hs: seq<Header>) {
    (forall i :: 0 <= i < |hs| ==> LawfulHeader(hs[i])) && DistinctKeys(hs)
  }

  /** The members of distinctly named headers, by key. */
  function TreeOf(hs: seq<Header>): Tree {
    if hs == [] then map[]
    else TreeOf(hs[..|hs| - 1])[KeyOf(hs[|hs| - 1]) := MemberOf(hs[|hs| - 1])]
  }

  function Keys(hs: seq<Header>): seq<string> {
    seq(|hs|, i requires 0 <= i < |hs| => KeyOf(hs[i]))
  }

  /** Every proper non-empty prefix of every member is a real directory. */
  ghost predicate TreeShaped(t: Tree) {
    forall key :: key in t ==> SolidAbove(t, PathOf(key))
  }

  predicate SolidAbove(t: Tree, path: seq<string>) {
    path != [] ==> Solid(t, path[..|path| - 1])
  }

  /** The walk in place from the root along a link's own path ends on a member, within the
      resolver's bounds; for a hard link the member is a regular file. */
  ghost predicate LinkLands(t: Tree, key: string)
    requires key in t
  {
    exists m :: EndsWithin(t, Start(key), Reached(m), MaxSteps(t)) && (t[key].kind == Hardlink ==> m.kind == File)
  }

  ghost predicate Lawful(hs: seq<Header>, maxMembers: nat) {
    && 0 < |hs| <= maxMembers
    && LawfulHeaders(hs)
    && TreeShaped(TreeOf(hs))
    && IsDirectory(TreeOf(hs), ["home"]) && IsDirectory(TreeOf(hs), ["home", "agent"])
    && (forall key :: key in TreeOf(hs) && TreeOf(hs)[key].IsLink() ==> LinkLands(TreeOf(hs), key))
  }

  // ---- Keys are paths ----------------------------------------------------------------

  predicate ProperKey(key: string) {
    AllProper(PathOf(key)) && Key(PathOf(key)) == key
  }

  lemma LawfulPath(h: Header)
    requires ".." !in RawParts(h.name)
    ensures AllProper(PathParts(h.name))
  {
    var raw, parts := Split(h.name, '/'), PathParts(h.name);
    forall i | 0 <= i < |parts| ensures Proper(parts[i]) {
      assert parts[i] in parts;
      assert parts[i] in RawParts(h.name) && parts[i] in raw;
    }
  }

  lemma PathOfKey(path: seq<string>)
    requires AllProper(path)
    ensures PathOf(Key(path)) == path && ProperKey(Key(path))
  {
    if path != [] {
      KeyNotEmpty(path);
      KeySplit(path);
    }
  }

  lemma RootKey(h: Header)
    requires ".." !in RawParts(h.name)
    ensures KeyOf(h) == "" <==> PathParts(h.name) == []
  {
    LawfulPath(h);
    if PathParts(h.name) != [] {
      KeyNotEmpty(PathParts(h.name));
    }
  }

  // ---- The first pass ------------------------------------------------------------------

  lemma HeaderCheckExact(h: Header, t: Tree)
    ensures HeaderCheck(h, t).Accepted? <==> LawfulHeader(h) && KeyOf(h) !in t
  {
    if ".." !in RawParts(h.name) {
      RootKey(h);
    }
  }

  ghost predicate LawfulSoFar(hs: seq<Header>, i: nat)
    requires i <= |hs|
  {
    LawfulHeaders(hs[..i])
  }

  predicate HasKey(hs: seq<Header>, key: string) {
    exists i :: 0 <= i < |hs| && KeyOf(hs[i]) == key
  }

  lemma HasKeyNext(hs: seq<Header>, front: seq<Header>, last: Header, key: string)
    requires hs == front + [last]
    ensures HasKey(hs, key) <==> HasKey(front, key) || KeyOf(last) == key
  {
    if HasKey(front, key) {
      var i :| 0 <= i < |front| && KeyOf(front[i]) == key;
      assert KeyOf(hs[i]) == key;
    }
    assert hs[|front|] == last;
  }

  lemma {:induction false} TreeOfKeys(hs: seq<Header>)
    ensures forall key :: key in TreeOf(hs) <==> HasKey(hs, key)
  {
    if hs != [] {
      var front, last := hs[..|hs| - 1], hs[|hs| - 1];
      TreeOfKeys(front);
      forall key ensures key in TreeOf(hs) <==> HasKey(hs, key) {
        HasKeyNext(hs, front, last, key);
      }
    }
  }

  lemma DistinctNext(hs: seq<Header>, i: nat)
    requires i < |hs| && DistinctKeys(hs[..i])
    ensures DistinctKeys(hs[..i + 1]) <==> forall k :: 0 <= k < i ==> KeyOf(hs[k]) != KeyOf(hs[i])
  {
    var longer := hs[..i + 1];
    if forall k :: 0 <= k < i ==> KeyOf(hs[k]) != KeyOf(hs[i]) {
      forall a, b | 0 <= a < b < |longer| ensures KeyOf(longer[a]) != KeyOf(longer[b]) {
        if b < i {
          assert hs[..i][a] == longer[a] && hs[..i][b] == longer[b];
        }
      }
    } else {
      var k :| 0 <= k < i && KeyOf(hs[k]) == KeyOf(hs[i]);
      assert longer[k] == hs[k] && longer[i] == hs[i];
    }
  }

  lemma HeadersNext(hs: seq<Header>, i: nat, short: seq<Header>, long: seq<Header>)
    requires i < |hs| && short == hs[..i] && long == hs[..i + 1] && LawfulHeaders(short)
    ensures LawfulHeaders(long) <==> LawfulHeader(hs[i]) && DistinctKeys(long)
  {
    assert long[i] == hs[i];
    if LawfulHeader(hs[i]) && DistinctKeys(long) {
      forall k | 0 <= k < |long| ensures LawfulHeader(long[k]) {
        if k < i {
          assert long[k] == short[k];
        }
      }
    }
  }

  lemma KeyInTree(hs: seq<Header>, i: nat)
    requires i <= |hs|
    ensures forall key :: key in TreeOf(hs[..i]) <==> exists k :: 0 <= k < i && KeyOf(hs[k]) == key
  {
    TreeOfKeys(hs[..i]);
    assert forall k :: 0 <= k < i ==> hs[..i][k] == hs[k];
  }

  lemma LawfulNext(hs: seq<Header>, i: nat)
    requires i < |hs| && LawfulSoFar(hs, i)
    ensures LawfulSoFar(hs, i + 1) <==> HeaderCheck(hs[i], TreeOf(hs[..i])).Accepted?
  {
    HeaderCheckExact(hs[i], TreeOf(hs[..i]));
    KeyInTree(hs, i);
    DistinctNext(hs, i);
    HeadersNext(hs, i, hs[..i], hs[..i + 1]);
  }

  lemma LawfulPrefix(hs: seq<Header>, i: nat, j: nat)
    requires i <= j <= |hs| && LawfulSoFar(hs, j)
    ensures LawfulSoFar(hs, i)
  {
    var short, long := hs[..i], hs[..j];
    assert forall k :: 0 <= k < i ==> short[k] == long[k];
  }

  /** The first pass goes through exactly on lawful, distinctly named headers, and then has
      indexed every member in order. */
  lemma KeysNext(hs: seq<Header>, i: nat)
    requires i < |hs|
    ensures Keys(hs[..i + 1]) == Keys(hs[..i]) + [KeyOf(hs[i])]
    ensures TreeOf(hs[..i + 1]) == TreeOf(hs[..i])[KeyOf(hs[i]) := MemberOf(hs[i])]
  {
    assert hs[..i + 1][..i] == hs[..i] && hs[..i + 1][i] == hs[i];
  }

  lemma FirstPassNext(hs: seq<Header>, i: nat, order: seq<string>, t: Tree, next: Tree)
    requires i < |hs| && order == Keys(hs[..i]) && t == TreeOf(hs[..i]) && next == TreeOf(hs[..i + 1])
    ensures HeaderCheck(hs[i], t).Refused? ==> FirstPass(hs, i, order, t).Stopped?
    ensures HeaderCheck(hs[i], t).Accepted? ==>
      FirstPass(hs, i, order, t) == FirstPass(hs, i + 1, Keys(hs[..i + 1]), next)
  {
    KeysNext(hs, i);
  }

  lemma {:induction false} FirstPassExact(hs: seq<Header>, i: nat, order: seq<string>, t: Tree)
    requires i <= |hs| && LawfulSoFar(hs, i) && order == Keys(hs[..i]) && t == TreeOf(hs[..i])
    ensures FirstPass(hs, i, order, t).Indexed? <==> LawfulSoFar(hs, |hs|)
    ensures LawfulSoFar(hs, |hs|) ==> FirstPass(hs, i, order, t) == Indexed(Keys(hs), TreeOf(hs))
    decreases |hs| - i
  {
    if i == |hs| {
      assert hs[..i] == hs;
    } else {
      LawfulNext(hs, i);
      FirstPassNext(hs, i, order, t, TreeOf(hs[..i + 1]));
      if HeaderCheck(hs[i], t).Accepted? {
        FirstPassExact(hs, i + 1, Keys(hs[..i + 1]), TreeOf(hs[..i + 1]));
      } else if LawfulSoFar(hs, |hs|) {
        LawfulPrefix(hs, i + 1, |hs|);
      }
    }
  }

  // ---- The second pass -----------------------------------------------------------------

  ghost predicate AllAccepted(checks: seq<Check>) {
    forall k :: 0 <= k < |checks| ==> checks[k].Accepted?
  }

  /** Checks made one after the other pass exactly when each passes. */
  lemma {:induction false} FirstRefusedExact(checks: seq<Check>, i: nat)
    requires i <= |checks| && forall k :: 0 <= k < i ==> checks[k].Accepted?
    ensures FirstRefused(checks, i).Accepted? <==> AllAccepted(checks)
    decreases |checks| - i
  {
    if i < |checks| && checks[i].Accepted? {
      FirstRefusedExact(checks, i + 1);
    }
  }

  // ---- Parents --------------------------------------------------------------------------

  /** Along a path without links, a walk that reaches a directory has met only directories. */
  lemma {:induction false} StraightWalk(t: Tree, path: seq<string>, m: Member, k: nat)
    requires AllProper(path) && (forall j :: 0 < j <= |path| ==> !IsLink(t, path[..j])) && k <= |path|
    requires EndsWith(t, Walking([], path), Reached(m))
    ensures Steps(t, Walking([], path), k) == Walking(path[..k], path[k..])
    ensures forall j :: 0 < j < |path| && j <= k ==> IsDirectory(t, path[..j])
  {
    if k > 0 {
      StraightWalk(t, path, m, k - 1);
      var now := Walking(path[..k - 1], path[k - 1..]);
      assert path[..k - 1] + [path[k - 1]] == path[..k];
      assert path[k - 1..][0] == path[k - 1] && path[k - 1..][1..] == path[k..];
      assert Proper(path[k - 1]);
      assert !IsLink(t, path[..k]);
      if k < |path| && !IsDirectory(t, path[..k]) {
        assert Step(t, now) == Ended(Failed(ThroughMissing(Key(path[..k]))));
        assert Steps(t, Walking([], path), k) == Step(t, now);
        OneOutcome(t, Walking([], path), Reached(m), Failed(ThroughMissing(Key(path[..k]))));
      }
    }
  }

  /** A directory reached along a path without links is the path's own, and solid. */
  lemma ParentIsSolid(t: Tree, path: seq<string>, m: Member)
    requires AllProper(path) && forall j :: 0 < j <= |path| ==> !IsLink(t, path[..j])
    requires EndsWith(t, Walking([], path), Reached(m)) && m.kind == Directory
    ensures path != [] ==> Solid(t, path)
  {
    StraightWalk(t, path, m, |path|);
    assert path[..|path|] == path && path[|path|..] == [];
    assert Steps(t, Walking([], path), |path| + 1) == Ended(Arrive(t, path));
    OneOutcome(t, Walking([], path), Reached(m), Arrive(t, path));
  }

  /** A solid path resolves to its own directory: the step bound never stops it, because a
      directory is no deeper than the archive has members. */
  lemma SolidResolves(t: Tree, path: seq<string>)
    requires Solid(t, path) && path != []
    ensures Exists(t, path) && Resolve(t, Key(path)) == Reached(t[Key(path)])
  {
    assert IsDirectory(t, path[..|path|]) && path[..|path|] == path;
    PathOfKey(path);
    KeyNotEmpty(path);
    var w := Start(Key(path));
    assert w == Walking([], path);
    assert [] + path == path && path + [] == path;
    WalkDown(t, [], path, [], |path|);
    assert Steps(t, w, |path|) == Walking(path, []);
    CostIsQueued(t, w, |path|);
    NothingQueued(t, w, |path|);
    SolidDepth(t, path);
    assert EndsIn(t, w, Reached(t[Key(path)]), MaxSteps(t), |path|);
    StartGrounded(t, Key(path));
    ResolutionComplete(t, w, MaxSteps(t), Reached(t[Key(path)]));
  }

  // ---- The third pass ----------------------------------------------------------------------

  lemma SolidNotBelowLink(t: Tree, path: seq<string>)
    requires SolidAbove(t, path)
    ensures !BelowLink(t, path)
  {
    forall k | 0 < k < |path| ensures !IsLink(t, path[..k]) {
      var parent := path[..|path| - 1];
      assert parent[..k] == path[..k];
      assert IsDirectory(t, parent[..k]);
    }
  }

  lemma ReachedMeans(t: Tree, key: string, m: Member)
    ensures Resolve(t, key) == Reached(m) <==> EndsWithin(t, Start(key), Reached(m), MaxSteps(t))
  {
    StartGrounded(t, key);
    ResolutionMeaning(t, Start(key), MaxSteps(t), Reached(m));
  }

  lemma WithinEnds(t: Tree, w: Walk, outcome: Outcome, maxSteps: nat)
    requires EndsWithin(t, w, outcome, maxSteps)
    ensures EndsWith(t, w, outcome)
  {
    var n: nat :| EndsIn(t, w, outcome, maxSteps, n);
  }

  /** What the third pass asks of a member's parent. */
  predicate ParentAnswer(parent: string, answer: Outcome) {
    parent != "" ==> answer.Reached? && answer.member.kind == Directory
  }

  lemma SolidParentAnswers(t: Tree, dir: seq<string>)
    requires Solid(t, dir)
    ensures ParentAnswer(Key(dir), Resolve(t, Key(dir)))
  {
    if dir != [] {
      SolidResolves(t, dir);
      assert dir[..|dir|] == dir;
    }
  }

  lemma ParentAnswerSolid(t: Tree, dir: seq<string>, answer: Outcome)
    requires AllProper(dir) && answer == Resolve(t, Key(dir)) && ParentAnswer(Key(dir), answer)
    requires forall j :: 0 < j <= |dir| ==> !IsLink(t, dir[..j])
    ensures Solid(t, dir)
  {
    if dir != [] {
      PathOfKey(dir);
      KeyNotEmpty(dir);
      ReachedMeans(t, Key(dir), answer.member);
      WithinEnds(t, Start(Key(dir)), answer, MaxSteps(t));
      ParentIsSolid(t, dir, answer.member);
    }
  }

  lemma ParentExact(t: Tree, path: seq<string>, dir: seq<string>, answer: Outcome)
    requires path != [] && AllProper(path) && dir == path[..|path| - 1] && !BelowLink(t, path)
    requires answer == Resolve(t, Key(dir))
    ensures ParentAnswer(Key(dir), answer) <==> SolidAbove(t, path)
  {
    if SolidAbove(t, path) {
      SolidParentAnswers(t, dir);
    } else if ParentAnswer(Key(dir), answer) {
      forall j | 0 < j <= |dir| ensures !IsLink(t, dir[..j]) {
        assert dir[..j] == path[..j];
      }
      ParentAnswerSolid(t, dir, answer);
    }
  }

  /** What the third pass asks of a link. */
  predicate LinkAnswer(m: Member, answer: Outcome) {
    m.IsLink() ==> answer.Reached? && (m.kind == Hardlink ==> answer.member.kind == File)
  }

  lemma LinkExact(t: Tree, key: string)
    requires key in t
    ensures LinkAnswer(t[key], Resolve(t, key)) <==> (t[key].IsLink() ==> LinkLands(t, key))
  {
    if t[key].IsLink() {
      if Resolve(t, key).Reached? {
        ReachedMeans(t, key, Resolve(t, key).member);
      }
      if LinkLands(t, key) {
        var m :| EndsWithin(t, Start(key), Reached(m), MaxSteps(t)) && (t[key].kind == Hardlink ==> m.kind == File);
        ReachedMeans(t, key, m);
      }
    }
  }

  lemma MemberCheckExact(t: Tree, resolve: string -> Outcome, key: string)
    requires key in t && key != ""
    ensures MemberCheck(t, resolve, key).Accepted? <==>
      ParentAnswer(Key(DirParts(key)), resolve(Key(DirParts(key)))) && LinkAnswer(t[key], resolve(key))
  {
  }

  /** The conditions under which a member passes. */
  ghost predicate Placed(t: Tree, key: string)
    requires key in t
  {
    SolidAbove(t, PathOf(key)) && (t[key].IsLink() ==> LinkLands(t, key))
  }

  lemma PlacedExact(t: Tree, resolve: string -> Outcome, key: string)
    requires key in t && ProperKey(key) && !BelowLink(t, PathOf(key)) && Answers(t, resolve)
    requires key == "" ==> !t[key].IsLink()
    ensures MemberCheck(t, resolve, key).Accepted? <==> Placed(t, key)
  {
    if key != "" {
      var path := PathOf(key);
      var dir := path[..|path| - 1];
      assert DirParts(key) == dir;
      MemberCheckExact(t, resolve, key);
      ParentExact(t, path, dir, Resolve(t, Key(dir)));
      LinkExact(t, key);
    }
  }

  // ---- Acceptance --------------------------------------------------------------------------

  lemma {:induction false} TreeOfMembers(hs: seq<Header>, i: nat)
    requires DistinctKeys(hs) && i < |hs|
    ensures KeyOf(hs[i]) in TreeOf(hs) && TreeOf(hs)[KeyOf(hs[i])] == MemberOf(hs[i])
  {
    var front := hs[..|hs| - 1];
    if i < |front| {
      assert DistinctKeys(front) by {
        forall a, b | 0 <= a < b < |front| ensures KeyOf(front[a]) != KeyOf(front[b]) {
          assert front[a] == hs[a] && front[b] == hs[b];
        }
      }
      TreeOfMembers(front, i);
      assert front[i] == hs[i];
      assert KeyOf(hs[i]) != KeyOf(hs[|hs| - 1]);
    }
  }

  /** Every key of lawful headers is a path, and the root is a directory. */
  lemma LawfulKeys(hs: seq<Header>, key: string)
    requires LawfulHeaders(hs) && key in TreeOf(hs)
    ensures ProperKey(key) && (key == "" ==> TreeOf(hs)[key].kind == Directory)
    ensures key in Keys(hs)
  {
    TreeOfKeys(hs);
    var i :| 0 <= i < |hs| && KeyOf(hs[i]) == key;
    TreeOfMembers(hs, i);
    LawfulPath(hs[i]);
    PathOfKey(PathParts(hs[i].name));
    RootKey(hs[i]);
    assert Keys(hs)[i] == key;
  }

  lemma KeysInTree(hs: seq<Header>, k: nat)
    requires k < |hs|
    ensures Keys(hs)[k] in TreeOf(hs)
  {
    TreeOfKeys(hs);
    assert Keys(hs)[k] == KeyOf(hs[k]);
  }

  ghost predicate AllPlaced(t: Tree) {
    forall key :: key in t ==> Placed(t, key)
  }

  lemma PlacedPasses(hs: seq<Header>, t: Tree, order: seq<string>, resolve: string -> Outcome)
    requires LawfulHeaders(hs) && t == TreeOf(hs) && order == Keys(hs) && Answers(t, resolve)
    requires (forall k :: k in order ==> k in t) && AllPlaced(t)
    ensures SecondPass(order, t).Accepted? && ThirdPass(order, t, resolve).Accepted?
  {
    var nesting, members := NestingChecks(order, t), MemberChecks(order, t, resolve);
    forall k | 0 <= k < |order| ensures nesting[k].Accepted? && members[k].Accepted? {
      assert order[k] in order && Placed(t, order[k]);
      KeyPasses(hs, t, resolve, order[k]);
    }
    FirstRefusedExact(nesting, 0);
    FirstRefusedExact(members, 0);
  }

  lemma KeyPasses(hs: seq<Header>, t: Tree, resolve: string -> Outcome, key: string)
    requires LawfulHeaders(hs) && t == TreeOf(hs) && Answers(t, resolve) && key in t && Placed(t, key)
    ensures NestingCheck(t, key).Accepted? && MemberCheck(t, resolve, key).Accepted?
  {
    LawfulKeys(hs, key);
    SolidNotBelowLink(t, PathOf(key));
    PlacedExact(t, resolve, key);
  }

  lemma ChecksPassed(order: seq<string>, t: Tree, resolve: string -> Outcome, k: nat)
    requires (forall k :: k in order ==> k in t) && k < |order|
    requires SecondPass(order, t).Accepted? && ThirdPass(order, t, resolve).Accepted?
    ensures NestingCheck(t, order[k]).Accepted? && MemberCheck(t, resolve, order[k]).Accepted?
  {
    var nesting, members := NestingChecks(order, t), MemberChecks(order, t, resolve);
    FirstRefusedExact(nesting, 0);
    FirstRefusedExact(members, 0);
    assert nesting[k].Accepted? && members[k].Accepted?;
  }

  lemma PassesPlaced(hs: seq<Header>, t: Tree, order: seq<string>, resolve: string -> Outcome, key: string)
    requires LawfulHeaders(hs) && t == TreeOf(hs) && order == Keys(hs) && Answers(t, resolve)
    requires (forall k :: k in order ==> k in t) && key in t
    requires SecondPass(order, t).Accepted? && ThirdPass(order, t, resolve).Accepted?
    ensures Placed(t, key)
  {
    LawfulKeys(hs, key);
    var k :| 0 <= k < |order| && order[k] == key;
    ChecksPassed(order, t, resolve, k);
    PlacedExact(t, resolve, key);
  }

  lemma KeysAllInTree(hs: seq<Header>)
    ensures forall key :: key in Keys(hs) ==> key in TreeOf(hs)
  {
    forall key | key in Keys(hs) ensures key in TreeOf(hs) {
      var k :| 0 <= k < |Keys(hs)| && Keys(hs)[k] == key;
      KeysInTree(hs, k);
    }
  }

  lemma StartsLawful(hs: seq<Header>)
    ensures LawfulSoFar(hs, 0) && Keys(hs[..0]) == [] && TreeOf(hs[..0]) == map[] && hs[..|hs|] == hs
  {
  }

  /** The verdict, put together from its passes. */
  lemma VerdictParts(hs: seq<Header>, maxMembers: nat, order: seq<string>, t: Tree)
    requires 0 < |hs| <= maxMembers && FirstPass(hs, 0, [], map[]) == Indexed(order, t)
    requires forall k :: k in order ==> k in t
    ensures FirstViolation(hs, maxMembers).Accepted? <==>
      SecondPass(order, t).Accepted? && RequiredPass(t).Accepted? && ThirdPass(order, t, Resolver(t)).Accepted?
  {
  }

  lemma IndexedLawful(hs: seq<Header>)
    ensures FirstPass(hs, 0, [], map[]).Indexed? <==> LawfulHeaders(hs)
    ensures LawfulHeaders(hs) ==> FirstPass(hs, 0, [], map[]) == Indexed(Keys(hs), TreeOf(hs))
  {
    StartsLawful(hs);
    FirstPassExact(hs, 0, [], map[]);
  }

  lemma ResolverAnswers(t: Tree)
    ensures Answers(t, Resolver(t))
  {
  }

  lemma PassesAllPlaced(hs: seq<Header>, t: Tree, order: seq<string>, resolve: string -> Outcome)
    requires LawfulHeaders(hs) && t == TreeOf(hs) && order == Keys(hs) && Answers(t, resolve)
    requires forall k :: k in order ==> k in t
    ensures SecondPass(order, t).Accepted? && ThirdPass(order, t, resolve).Accepted? <==> AllPlaced(t)
  {
    if AllPlaced(t) {
      PlacedPasses(hs, t, order, resolve);
    } else if SecondPass(order, t).Accepted? && ThirdPass(order, t, resolve).Accepted? {
      forall key | key in t ensures Placed(t, key) {
        PassesPlaced(hs, t, order, resolve, key);
      }
    }
  }

  /** An archive passes exactly when its headers are lawful and its members well placed. */
  lemma AcceptedIffPlaced(hs: seq<Header>, maxMembers: nat)
    requires 0 < |hs| <= maxMembers
    ensures FirstViolation(hs, maxMembers).Accepted? <==>
      LawfulHeaders(hs) && RequiredPass(TreeOf(hs)).Accepted? && AllPlaced(TreeOf(hs))
  {
    IndexedLawful(hs);
    if LawfulHeaders(hs) {
      var order, t := Keys(hs), TreeOf(hs);
      KeysAllInTree(hs);
      VerdictParts(hs, maxMembers, order, t);
      ResolverAnswers(t);
      PassesAllPlaced(hs, t, order, Resolver(t));
    }
  }

  /** The validator accepts exactly the lawful archives. */
  lemma AcceptedIffLawful(hs: seq<Header>, maxMembers: nat)
    ensures FirstViolation(hs, maxMembers).Accepted? <==> Lawful(hs, maxMembers)
  {
    if 0 < |hs| <= maxMembers {
      AcceptedIffPlaced(hs, maxMembers);
      PlacedSplit(TreeOf(hs));
    }
  }

  lemma PlacedSplit(t: Tree)
    ensures AllPlaced(t) <==> TreeShaped(t) && (forall key :: key in t && t[key].IsLink() ==> LinkLands(t, key))
  {
  }
}
