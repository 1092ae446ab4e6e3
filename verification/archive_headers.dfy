/** Acceptance read off the headers alone: their paths, their type flags and their link
    targets, with a pathname walk over the list of headers itself. Nothing here speaks of the
    index, of its members or of the resolver. */
module ArchiveHeaders {
  import opened Options
  import opened Text
  import opened Machines
  import opened ArchiveTree
  import opened ArchiveWalk
  import opened ArchiveRestart
  import opened ArchiveIndex
  import opened ArchiveValidator
  import opened ArchiveAcceptance
  import opened ArchiveLinks

  // ---- Single headers --------------------------------------------------------------------

  /** No NUL, control character or DEL. */
  predicate Clean(s: string) {
    forall i :: 0 <= i < |s| ==> ' ' <= s[i] && s[i] != '\U{7F}'
  }

  function PathOfHeader(h: Header): seq<string> {
    PathParts(h.name)
  }

  predicate RegularFile(h: Header) {
    h.flag == Regular || h.flag == RegularOld
  }

  predicate LinkHeader(h: Header) {
    h.flag == SymbolicLink || h.flag == HardLink
  }

  /** How far a target leads below where it starts, read as text. */
  function Depth(parts: seq<string>): int {
    if parts == [] then 0
    else Depth(parts[..|parts| - 1]) + if parts[|parts| - 1] == ".." then -1 else 1
  }

  /** A link's target is text, relative, not empty, and no prefix of it leads above the root,
      from the link's directory or for a hard link from the root. */
  predicate FairTarget(h: Header) {
    var parts := PathParts(h.linkname);
    && Clean(h.linkname) && !(|h.linkname| > 0 && h.linkname[0] == '/') && parts != []
    && forall k :: 0 <= k <= |parts| ==>
      (if h.flag == SymbolicLink then |PathOfHeader(h)| - 1 else 0) + Depth(parts[..k]) >= 0
  }

  /** A name is text, relative and without "..", the type is one of the five known ones, and
      the root is a directory. */
  predicate FairHeader(h: Header) {
    && Clean(h.name) && !(|h.name| > 0 && h.name[0] == '/') && ".." !in Split(h.name, '/')
    && (h.flag == TypeFlag.Dir || RegularFile(h) || LinkHeader(h))
    && (PathOfHeader(h) == [] ==> h.flag == TypeFlag.Dir) && (LinkHeader(h) ==> FairTarget(h))
  }

  // ---- The list ----------------------------------------------------------------------------

  predicate ListedAt(hs: seq<Header>, i: int, path: seq<string>) {
    0 <= i < |hs| && PathOfHeader(hs[i]) == path
  }

  /** The place of the last header with this path, or -1. */
  function Find(hs: seq<Header>, path: seq<string>): (i: int)
    ensures -1 <= i < |hs| && (i >= 0 ==> ListedAt(hs, i, path))
    ensures i < 0 ==> forall j :: !ListedAt(hs, j, path)
  {
    if hs == [] then -1
    else if PathOfHeader(hs[|hs| - 1]) == path then |hs| - 1
    else
      var i := Find(hs[..|hs| - 1], path);
      assert forall j :: 0 <= j < |hs| - 1 ==> hs[..|hs| - 1][j] == hs[j];
      assert forall j :: ListedAt(hs, j, path) ==> ListedAt(hs[..|hs| - 1], j, path);
      i
  }

  /** A directory of this path is in the archive. */
  ghost predicate DirectoryListed(hs: seq<Header>, path: seq<string>) {
    exists i :: ListedAt(hs, i, path) && hs[i].flag == TypeFlag.Dir
  }

  predicate DistinctPaths(hs: seq<Header>) {
    forall i, j :: 0 <= i < j < |hs| ==> PathOfHeader(hs[i]) != PathOfHeader(hs[j])
  }

  /** Every directory a member lies in is in the archive. */
  ghost predicate Nested(hs: seq<Header>) {
    forall i, k :: 0 <= i < |hs| && 0 < k < |PathOfHeader(hs[i])| ==> DirectoryListed(hs, PathOfHeader(hs[i])[..k])
  }

  ghost predicate FairList(hs: seq<Header>) {
    && (forall i :: 0 <= i < |hs| ==> FairHeader(hs[i])) && DistinctPaths(hs) && Nested(hs)
    && DirectoryListed(hs, ["home"]) && DirectoryListed(hs, ["home", "agent"])
  }

  // ---- A pathname walk over the list ---------------------------------------------------------

  /** Where a walk ends, how many links it met, and how many components their targets, and for
      symbolic links their directories, have. */
  datatype Trail = Trail(end: seq<string>, hops: nat, queued: nat)

  /** One step of a walk over the list: what is left to do, whether a link was met, and what it
      queued. */
  datatype Move = Stuck | Move(dir: seq<string>, todo: seq<string>, hops: nat, queued: nat)

  /** "." stays, ".." goes up, a link is replaced by its target, and anything passed through is
      a directory. */
  function Next(hs: seq<Header>, dir: seq<string>, part: string, rest: seq<string>): Move {
    if part == "" || part == "." then Move(dir, rest, 0, 0)
    else if part == ".." then if dir == [] then Stuck else Move(dir[..|dir| - 1], rest, 0, 0)
    else
      var i := Find(hs, dir + [part]);
      if i >= 0 && LinkHeader(hs[i]) then
        var base := if hs[i].flag == SymbolicLink then dir else [];
        var target := PathParts(hs[i].linkname);
        Move(base, target + rest, 1, |base| + |target|)
      else if rest != [] && !(i >= 0 && hs[i].flag == TypeFlag.Dir) then Stuck
      else Move(dir + [part], rest, 0, 0)
  }

  /** The steps of a walk over the list. */
  function NextIn(hs: seq<Header>): Stepping {
    (dir, part, rest) => Next(hs, dir, part, rest)
  }

  type Stepping = (seq<string>, string, seq<string>) -> Move

  /** Following the components still to come from a directory, in up to n steps. */
  function Follow(next: Stepping, dir: seq<string>, todo: seq<string>, n: nat): Option<Trail>
    decreases n
  {
    if todo == [] then Some(Trail(dir, 0, 0))
    else if n == 0 then None
    else
      var move := next(dir, todo[0], todo[1..]);
      if move.Stuck? then None else Longer(move, Follow(next, move.dir, move.todo, n - 1))
  }

  /** The trail with one more step before it. */
  function Longer(move: Move, rest: Option<Trail>): Option<Trail>
    requires move.Move?
  {
    if rest.None? then None
    else Some(Trail(rest.value.end, rest.value.hops + move.hops, rest.value.queued + move.queued))
  }

  /** Following a link member's own path ends on a member of the archive, for a hard link on a
      regular file, over at most 40 links and within eight components a member and 32 more. */
  ghost predicate LinkEnds(hs: seq<Header>, i: nat)
    requires i < |hs|
  {
    exists n: nat, j :: LinkEndsAt(hs, i, n, j)
  }

  predicate LinkEndsAt(hs: seq<Header>, i: nat, n: nat, j: int)
    requires i < |hs|
  {
    var path := PathOfHeader(hs[i]);
    var trail := Follow(NextIn(hs), [], path, n);
    && trail.Some? && trail.value.hops <= 40 && |path| + trail.value.queued <= |hs| * 8 + 32
    && ListedAt(hs, j, trail.value.end) && (hs[i].flag == HardLink ==> RegularFile(hs[j]))
  }

  // ---- Headers and their members -------------------------------------------------------------

  lemma {:induction false} DepthIsRise(parts: seq<string>, k: nat)
    requires k <= |parts|
    ensures Depth(parts[..k]) == Rise(parts, k)
  {
    if k > 0 {
      DepthIsRise(parts, k - 1);
      assert parts[..k][..k - 1] == parts[..k - 1];
    }
  }

  lemma NoDotDot(name: string)
    ensures ".." in RawParts(name) <==> ".." in Split(name, '/')
  {
  }

  lemma FairTargetExact(h: Header)
    requires LinkHeader(h) && ".." !in RawParts(h.name) && PathOfHeader(h) != []
    ensures MemberOf(h).IsLink() && (FairTarget(h) <==> TargetCheck(MemberOf(h), KeyOf(h)) == Accepted)
  {
    var path, parts := PathOfHeader(h), PathParts(h.linkname);
    LawfulPath(h);
    KeyNotEmpty(path);
    KeySplit(path);
    assert |DirParts(KeyOf(h))| == |path| - 1;
    forall k | 0 <= k <= |parts| ensures Depth(parts[..k]) == Rise(parts, k) {
      DepthIsRise(parts, k);
    }
  }

  lemma LinkKinds(h: Header)
    ensures LinkHeader(h) <==> MemberOf(h).IsLink()
    ensures h.flag == TypeFlag.Dir || RegularFile(h) || LinkHeader(h) <==> h.flag != Special
  {
  }

  lemma CleanExact(s: string)
    ensures Clean(s) <==> SafeText(s)
  {
  }

  lemma FairHeaderExact(h: Header)
    ensures FairHeader(h) <==> LawfulHeader(h)
    ensures LinkHeader(h) <==> MemberOf(h).IsLink()
  {
    NoDotDot(h.name);
    LinkKinds(h);
    CleanExact(h.name);
    if LinkHeader(h) && ".." !in RawParts(h.name) && PathOfHeader(h) != [] {
      FairTargetExact(h);
    }
  }

  // ---- The list and the index ----------------------------------------------------------------

  lemma Unlisted(hs: seq<Header>, path: seq<string>, i: nat)
    requires i < |hs| && PathOfHeader(hs[i]) == path
    ensures Find(hs, path) >= 0
  {
    assert ListedAt(hs, i, path);
  }

  lemma OnlyOne(hs: seq<Header>, i: int, j: int, path: seq<string>)
    requires DistinctPaths(hs) && ListedAt(hs, i, path) && ListedAt(hs, j, path)
    ensures i == j
  {
  }

  lemma PathsAreKeys(hs: seq<Header>)
    requires forall i :: 0 <= i < |hs| ==> LawfulHeader(hs[i])
    ensures DistinctPaths(hs) <==> DistinctKeys(hs)
  {
    forall i, j | 0 <= i < j < |hs|
      ensures PathOfHeader(hs[i]) == PathOfHeader(hs[j]) <==> KeyOf(hs[i]) == KeyOf(hs[j])
    {
      LawfulPath(hs[i]);
      LawfulPath(hs[j]);
      if KeyOf(hs[i]) == KeyOf(hs[j]) {
        KeyInjective(PathOfHeader(hs[i]), PathOfHeader(hs[j]));
      }
    }
  }

  /** What the index holds under a path is what the list says of it. */
  lemma InTree(hs: seq<Header>, path: seq<string>)
    requires LawfulHeaders(hs) && AllProper(path)
    ensures Exists(TreeOf(hs), path) <==> Find(hs, path) >= 0
    ensures Find(hs, path) >= 0 ==> TreeOf(hs)[Key(path)] == MemberOf(hs[Find(hs, path)])
  {
    TreeOfKeys(hs);
    var i := Find(hs, path);
    if i >= 0 {
      TreeOfMembers(hs, i);
    } else if Exists(TreeOf(hs), path) {
      var j :| 0 <= j < |hs| && KeyOf(hs[j]) == Key(path);
      LawfulPath(hs[j]);
      KeyInjective(PathOfHeader(hs[j]), path);
      Unlisted(hs, path, j);
    }
  }

  lemma DirectoryExact(hs: seq<Header>, path: seq<string>)
    requires LawfulHeaders(hs) && AllProper(path)
    ensures DirectoryListed(hs, path) <==> IsDirectory(TreeOf(hs), path)
    ensures DirectoryListed(hs, path) <==> Find(hs, path) >= 0 && hs[Find(hs, path)].flag == TypeFlag.Dir
  {
    InTree(hs, path);
    PathsAreKeys(hs);
    var i := Find(hs, path);
    if j :| ListedAt(hs, j, path) && hs[j].flag == TypeFlag.Dir {
      OnlyOne(hs, i, j, path);
    }
  }

  lemma LinkExactly(hs: seq<Header>, path: seq<string>)
    requires LawfulHeaders(hs) && AllProper(path)
    ensures IsLink(TreeOf(hs), path) <==> Find(hs, path) >= 0 && LinkHeader(hs[Find(hs, path)])
  {
    InTree(hs, path);
    if Find(hs, path) >= 0 {
      FairHeaderExact(hs[Find(hs, path)]);
    }
  }

  lemma PrefixProper(path: seq<string>, k: nat)
    requires AllProper(path) && k <= |path|
    ensures AllProper(path[..k])
  {
  }

  /** One member lies in directories of the archive exactly when all its proper prefixes are
      listed as such. */
  lemma NestedAt(hs: seq<Header>, path: seq<string>)
    requires LawfulHeaders(hs) && AllProper(path)
    ensures SolidAbove(TreeOf(hs), path) <==> forall k :: 0 < k < |path| ==> DirectoryListed(hs, path[..k])
  {
    forall k | 0 < k < |path| ensures DirectoryListed(hs, path[..k]) <==> IsDirectory(TreeOf(hs), path[..k]) {
      PrefixProper(path, k);
      DirectoryExact(hs, path[..k]);
    }
    AboveExact(TreeOf(hs), path);
  }

  lemma AboveExact(t: Tree, path: seq<string>)
    requires AllProper(path)
    ensures SolidAbove(t, path) <==> forall k :: 0 < k < |path| ==> IsDirectory(t, path[..k])
  {
    if path != [] {
      var parent := path[..|path| - 1];
      assert forall k :: 0 < k <= |parent| ==> parent[..k] == path[..k];
    }
  }

  lemma NestedExact(hs: seq<Header>)
    requires LawfulHeaders(hs)
    ensures Nested(hs) <==> TreeShaped(TreeOf(hs))
  {
    TreeOfKeys(hs);
    forall i | 0 <= i < |hs|
      ensures SolidAbove(TreeOf(hs), PathOf(KeyOf(hs[i])))
        <==> forall k :: 0 < k < |PathOfHeader(hs[i])| ==> DirectoryListed(hs, PathOfHeader(hs[i])[..k])
    {
      LawfulPath(hs[i]);
      PathOfKey(PathOfHeader(hs[i]));
      NestedAt(hs, PathOfHeader(hs[i]));
    }
    if Nested(hs) {
      forall key | key in TreeOf(hs) ensures SolidAbove(TreeOf(hs), PathOf(key)) {
        var i :| 0 <= i < |hs| && KeyOf(hs[i]) == key;
      }
    } else {
      var i, k :| 0 <= i < |hs| && 0 < k < |PathOfHeader(hs[i])| && !DirectoryListed(hs, PathOfHeader(hs[i])[..k]);
      assert HasKey(hs, KeyOf(hs[i])) && !SolidAbove(TreeOf(hs), PathOf(KeyOf(hs[i])));
    }
  }

  // ---- The two walks -------------------------------------------------------------------------

  predicate Standing(dir: seq<string>, todo: seq<string>) {
    AllProper(dir) && AllFree(todo, '/')
  }

  lemma LinkTarget(h: Header)
    requires LawfulHeader(h) && LinkHeader(h)
    ensures LinkParts(h.linkname) == Parts(PathParts(h.linkname)) && AllFree(PathParts(h.linkname), '/')
    ensures MemberOf(h).linkname == h.linkname && MemberOf(h).IsLink()
    ensures MemberOf(h).kind == Symlink <==> h.flag == SymbolicLink
  {
    FairHeaderExact(h);
    LinkPartsFree(h.linkname);
  }

  /** A step by these moves is a step of this machine. */
  ghost predicate MirrorsAt(next: Stepping, m: Machine<Walk>, queue: Walk -> nat, w: Walk)
    requires w.Walking? && w.todo != []
  {
    match next(w.dir, w.todo[0], w.todo[1..])
    case Stuck => m.step(w).Ended?
    case Move(dir, todo, hops, queued) =>
      m.step(w) == Walking(dir, todo) && m.weigh(w) == hops && queue(w) == queued && Standing(dir, todo)
  }

  /** The machine also ends where nothing is left to do, and stays there. */
  ghost predicate Mirrors(next: Stepping, m: Machine<Walk>, queue: Walk -> nat) {
    && (forall w: Walk :: w.Walking? && w.todo != [] && Standing(w.dir, w.todo) ==> MirrorsAt(next, m, queue, w))
    && (forall w: Walk :: w.Ended? || w.todo == [] ==> m.step(w).Ended?)
  }

  /** A step over the list is a step of the walk in place through the index. */
  lemma ListMirrors(hs: seq<Header>, t: Tree)
    requires LawfulHeaders(hs) && t == TreeOf(hs)
    ensures Mirrors(NextIn(hs), InPlace(t), QueuedOf(t))
  {
    forall w: Walk | w.Walking? && w.todo != [] && Standing(w.dir, w.todo)
      ensures MirrorsAt(NextIn(hs), InPlace(t), QueuedOf(t), w)
    {
      var part := w.todo[0];
      if part != "" && part != "." && part != ".." {
        assert Proper(part);
        NamedStep(hs, t, w, w.dir + [part]);
      }
    }
  }

  lemma NamedStep(hs: seq<Header>, t: Tree, w: Walk, path: seq<string>)
    requires LawfulHeaders(hs) && t == TreeOf(hs) && w.Walking? && w.todo != [] && Standing(w.dir, w.todo)
    requires Proper(w.todo[0]) && path == w.dir + [w.todo[0]]
    ensures MirrorsAt(NextIn(hs), InPlace(t), QueuedOf(t), w)
  {
    var i := Find(hs, path);
    InTree(hs, path);
    LinkExactly(hs, path);
    DirectoryExact(hs, path);
    if i >= 0 && LinkHeader(hs[i]) {
      LinkTarget(hs[i]);
      assert AtLink(t, w) && Link(t, w) == MemberOf(hs[i]);
    }
  }

  /** What a machine with these moves has to show for some steps. */
  predicate Shows(m: Machine<Walk>, queue: Walk -> nat, w: Walk, k: nat, trail: Trail) {
    && Run(m, w, k) == Walking(trail.end, [])
    && Weight(m, w, k) == trail.hops && Tally(m, queue, w, k) == trail.queued
  }

  lemma {:induction false} StaysEndless(next: Stepping, m: Machine<Walk>, queue: Walk -> nat, w: Walk, k: nat)
    requires Mirrors(next, m, queue) && w.Ended?
    ensures Run(m, w, k).Ended?
  {
    if k > 0 {
      StaysEndless(next, m, queue, w, k - 1);
    }
  }

  /** Where a walk by these moves ends, the machine arrives, with the same links met. */
  lemma {:induction false} FollowSound(next: Stepping, m: Machine<Walk>, queue: Walk -> nat, w: Walk, n: nat)
      returns (k: nat)
    requires Mirrors(next, m, queue) && w.Walking? && Standing(w.dir, w.todo)
    requires Follow(next, w.dir, w.todo, n).Some?
    ensures Shows(m, queue, w, k, Follow(next, w.dir, w.todo, n).value)
    ensures AllProper(Follow(next, w.dir, w.todo, n).value.end)
    decreases n
  {
    if w.todo == [] {
      k := 0;
    } else {
      assert MirrorsAt(next, m, queue, w);
      var rest := FollowSound(next, m, queue, m.step(w), n - 1);
      FirstStep(m, m.weigh, w, rest);
      FirstStep(m, queue, w, rest);
      k := rest + 1;
    }
  }

  /** Where the machine arrives, the walk by these moves ends. */
  lemma {:induction false} FollowComplete(next: Stepping, m: Machine<Walk>, queue: Walk -> nat, w: Walk, k: nat,
      trail: Trail)
    requires Mirrors(next, m, queue) && w.Walking? && Standing(w.dir, w.todo) && Shows(m, queue, w, k, trail)
    ensures Follow(next, w.dir, w.todo, k) == Some(trail) && AllProper(trail.end)
    decreases k
  {
    if k > 0 {
      FirstStep(m, m.weigh, w, k - 1);
      FirstStep(m, queue, w, k - 1);
      if m.step(w).Ended? {
        StaysEndless(next, m, queue, m.step(w), k - 1);
      } else {
        assert MirrorsAt(next, m, queue, w);
        var rest := Trail(trail.end, trail.hops - m.weigh(w), trail.queued - queue(w));
        FollowComplete(next, m, queue, m.step(w), k - 1, rest);
        assert trail == Trail(rest.end, rest.hops + m.weigh(w), rest.queued + queue(w));
      }
    } else {
      assert trail == Trail(w.dir, 0, 0);
    }
  }

  // ---- Where links end -----------------------------------------------------------------------

  lemma {:induction false} TreeSize(hs: seq<Header>)
    requires DistinctKeys(hs)
    ensures |TreeOf(hs)| == |hs|
  {
    if hs != [] {
      var front, last := hs[..|hs| - 1], hs[|hs| - 1];
      assert forall i :: 0 <= i < |front| ==> front[i] == hs[i];
      TreeSize(front);
      TreeOfKeys(front);
      assert KeyOf(last) !in TreeOf(front);
    }
  }

  /** Within the resolver's bounds, for a walk that arrives, is what can be counted on it. */
  lemma ArrivesWithin(t: Tree, w: Walk, n: nat, maxSteps: nat, m: Member)
    requires w.Walking? && Arrived(Steps(t, w, n))
    ensures EndsIn(t, w, Reached(m), maxSteps, n) <==>
      Arrive(t, Steps(t, w, n).dir) == Reached(m) && Hops(t, w, n) <= 40 && |w.todo| + TotalQueued(t, w, n) <= maxSteps
  {
    CostIsQueued(t, w, n);
    ArrivalCounts(t, w, n);
    assert Step(t, Steps(t, w, n)) == Ended(Arrive(t, Steps(t, w, n).dir));
  }

  lemma EndsArrived(t: Tree, w: Walk, n: nat, maxSteps: nat, m: Member)
    requires EndsIn(t, w, Reached(m), maxSteps, n)
    ensures Arrived(Steps(t, w, n))
  {
    assert Step(t, Steps(t, w, n)) == Ended(Reached(m));
  }

  lemma FileExact(h: Header)
    requires h.flag != Special
    ensures MemberOf(h).kind == File <==> RegularFile(h)
    ensures MemberOf(h).kind == Hardlink <==> h.flag == HardLink
  {
  }

  lemma LandsOnHeader(hs: seq<Header>, t: Tree, i: nat, key: string)
    requires LawfulHeaders(hs) && t == TreeOf(hs) && i < |hs| && LinkHeader(hs[i]) && key == KeyOf(hs[i])
    requires key in t && t[key] == MemberOf(hs[i]) && Start(key) == Walking([], PathOfHeader(hs[i]))
    requires Standing([], PathOfHeader(hs[i])) && LinkLands(t, key)
    ensures LinkEnds(hs, i)
  {
    var w := Start(key);
    var m :| EndsWithin(t, w, Reached(m), MaxSteps(t)) && (t[key].kind == Hardlink ==> m.kind == File);
    var n: nat :| EndsIn(t, w, Reached(m), MaxSteps(t), n);
    EndsArrived(t, w, n, MaxSteps(t), m);
    ArrivesWithin(t, w, n, MaxSteps(t), m);
    var end := Steps(t, w, n).dir;
    ListMirrors(hs, t);
    FollowComplete(NextIn(hs), InPlace(t), QueuedOf(t), w, n, Trail(end, Hops(t, w, n), TotalQueued(t, w, n)));
    InTree(hs, end);
    TreeSize(hs);
    FileExact(hs[Find(hs, end)]);
    FileExact(hs[i]);
    assert LinkEndsAt(hs, i, n, Find(hs, end));
  }

  lemma HeaderLandedOn(hs: seq<Header>, t: Tree, i: nat, key: string)
    requires LawfulHeaders(hs) && t == TreeOf(hs) && i < |hs| && LinkHeader(hs[i]) && key == KeyOf(hs[i])
    requires key in t && t[key] == MemberOf(hs[i]) && Start(key) == Walking([], PathOfHeader(hs[i]))
    requires Standing([], PathOfHeader(hs[i])) && LinkEnds(hs, i)
    ensures LinkLands(t, key)
  {
    var w := Start(key);
    var n: nat, j :| LinkEndsAt(hs, i, n, j);
    ListMirrors(hs, t);
    var k := FollowSound(NextIn(hs), InPlace(t), QueuedOf(t), w, n);
    var end := Steps(t, w, k).dir;
    InTree(hs, end);
    TreeSize(hs);
    PathsAreKeys(hs);
    Unlisted(hs, end, j);
    OnlyOne(hs, Find(hs, end), j, end);
    FileExact(hs[j]);
    FileExact(hs[i]);
    ArrivesWithin(t, w, k, MaxSteps(t), MemberOf(hs[j]));
    assert EndsWithin(t, w, Reached(MemberOf(hs[j])), MaxSteps(t));
  }

  /** A link's walk lands in the index exactly when it ends in the list. */
  lemma LandsExactly(hs: seq<Header>, t: Tree, i: nat)
    requires LawfulHeaders(hs) && t == TreeOf(hs) && i < |hs| && LinkHeader(hs[i])
    ensures KeyOf(hs[i]) in t && t[KeyOf(hs[i])].IsLink() && (LinkLands(t, KeyOf(hs[i])) <==> LinkEnds(hs, i))
  {
    var path := PathOfHeader(hs[i]);
    LawfulPath(hs[i]);
    PathOfKey(path);
    TreeOfMembers(hs, i);
    FairHeaderExact(hs[i]);
    if LinkLands(t, KeyOf(hs[i])) {
      LandsOnHeader(hs, t, i, KeyOf(hs[i]));
    } else if LinkEnds(hs, i) {
      HeaderLandedOn(hs, t, i, KeyOf(hs[i]));
    }
  }

  ghost predicate AllLinksEnd(hs: seq<Header>) {
    forall i :: 0 <= i < |hs| && LinkHeader(hs[i]) ==> LinkEnds(hs, i)
  }

  lemma AllLand(hs: seq<Header>, t: Tree)
    requires LawfulHeaders(hs) && t == TreeOf(hs)
    ensures AllLinksEnd(hs) <==> forall key :: key in t && t[key].IsLink() ==> LinkLands(t, key)
  {
    forall i | 0 <= i < |hs| && LinkHeader(hs[i])
      ensures KeyOf(hs[i]) in t && t[KeyOf(hs[i])].IsLink() && (LinkLands(t, KeyOf(hs[i])) <==> LinkEnds(hs, i))
    {
      LandsExactly(hs, t, i);
    }
    TreeOfKeys(hs);
    forall key | key in t && t[key].IsLink()
      ensures exists i :: 0 <= i < |hs| && LinkHeader(hs[i]) && KeyOf(hs[i]) == key
    {
      var i :| 0 <= i < |hs| && KeyOf(hs[i]) == key;
      TreeOfMembers(hs, i);
      FairHeaderExact(hs[i]);
    }
  }

  // ---- Acceptance ----------------------------------------------------------------------------

  /** What makes a list of headers acceptable. */
  ghost predicate Acceptable(hs: seq<Header>, maxMembers: nat) {
    && 0 < |hs| <= maxMembers && (forall i :: 0 <= i < |hs| ==> FairHeader(hs[i])) && DistinctPaths(hs) && Nested(hs)
    && DirectoryListed(hs, ["home"]) && DirectoryListed(hs, ["home", "agent"]) && AllLinksEnd(hs)
  }

  lemma FairHeadersExact(hs: seq<Header>)
    ensures (forall i :: 0 <= i < |hs| ==> FairHeader(hs[i])) && DistinctPaths(hs) <==> LawfulHeaders(hs)
  {
    forall i | 0 <= i < |hs| ensures FairHeader(hs[i]) <==> LawfulHeader(hs[i]) {
      FairHeaderExact(hs[i]);
    }
    if forall i :: 0 <= i < |hs| ==> LawfulHeader(hs[i]) {
      PathsAreKeys(hs);
    }
  }

  /** An archive is accepted exactly when its headers are acceptable. */
  lemma AcceptedByHeaders(hs: seq<Header>, maxMembers: nat)
    ensures FirstViolation(hs, maxMembers).Accepted? <==> Acceptable(hs, maxMembers)
  {
    AcceptedIffLawful(hs, maxMembers);
    FairHeadersExact(hs);
    if LawfulHeaders(hs) {
      NestedExact(hs);
      HomeProper();
      DirectoryExact(hs, ["home"]);
      DirectoryExact(hs, ["home", "agent"]);
      AllLand(hs, TreeOf(hs));
    }
  }

  lemma HomeProper()
    ensures AllProper(["home"]) && AllProper(["home", "agent"])
  {
  }

  /** Without links that is: lawful, distinct names, closed under directories, with both homes. */
  lemma LinkFreeByHeaders(hs: seq<Header>, maxMembers: nat)
    requires LinkFree(hs)
    ensures FirstViolation(hs, maxMembers).Accepted? <==> 0 < |hs| <= maxMembers && FairList(hs)
  {
    AcceptedByHeaders(hs, maxMembers);
  }
}
