/** An archive that the validator refuses although a walk in place resolves its only link. */
module ArchiveRefusal {
  import opened Text
  import opened ArchiveTree
  import opened ArchiveWalk
  import opened ArchiveRestart
  import opened ArchiveIndex
  import opened ArchiveValidator
  import opened ArchiveAcceptance
  import opened ArchiveLinks

  /** An archive of two directories, one in the other, and a link in the inner one. */
  function LinkArchive(top: string, part: string, name: string, target: string): seq<Header> {
    [
      Header(Key([top]), TypeFlag.Dir, ""),
      Header(Key([top, part]), TypeFlag.Dir, ""),
      Header(Key([top, part, name]), SymbolicLink, target)
    ]
  }

  function LinkTree(top: string, part: string, name: string, target: string): Tree {
    map[
      Key([top]) := Member(Key([top]), Directory, ""),
      Key([top, part]) := Member(Key([top, part]), Directory, ""),
      Key([top, part, name]) := Member(Key([top, part, name]), Symlink, target)
    ]
  }

  /** Names of one path component each. */
  predicate PlainNames(top: string, part: string, name: string) {
    Proper(top) && Proper(part) && Proper(name) && SafeText(top) && SafeText(part) && SafeText(name)
  }

  /** The archive whose link goes up and down k times. */
  function ZigzagHeaders(k: nat): seq<Header> {
    LinkArchive("home", "agent", "x", Join(Zigzag("agent", k), '/'))
  }

  /** A header named by a path. */
  lemma HeaderAt(path: seq<string>, h: Header)
    requires path != [] && AllProper(path) && AllSafe(path) && h.name == Key(path)
    ensures KeyOf(h) == Key(path) && PathParts(h.name) == path
    ensures SafeText(h.name) && !Absolute(h.name) && ".." !in RawParts(h.name)
  {
    assert AllFree(path, '/');
    SplitJoin(path, '/');
    assert "" !in path && "." !in path && ".." !in path;
    SafeJoin(path);
    KeyNotEmpty(path);
  }

  lemma {:induction false} ZigzagAt(part: string, k: nat, j: nat)
    requires j < 2 * k
    ensures |Zigzag(part, k)| == 2 * k && Zigzag(part, k)[j] == if j % 2 == 0 then ".." else part
  {
    ZigzagParts(part, k);
    if j >= 2 {
      ZigzagAt(part, k - 1, j - 2);
      assert Zigzag(part, k)[j] == Zigzag(part, k - 1)[j - 2];
    }
  }

  /** Read as text, a zigzag rises one level at most. */
  lemma {:induction false} ZigzagRise(part: string, k: nat, j: nat, parts: seq<string>)
    requires part != ".." && parts == Zigzag(part, k) && |parts| == 2 * k && j <= 2 * k
    ensures Rise(parts, j) == if j % 2 == 0 then 0 else -1
  {
    if j > 0 {
      ZigzagRise(part, k, j - 1, parts);
      ZigzagAt(part, k, j - 1);
    }
  }

  lemma ZigzagInside(part: string, k: nat, parts: seq<string>, depth: nat)
    requires part != ".." && parts == Zigzag(part, k) && depth >= 1
    ensures LexicallyInside(parts, depth)
  {
    ZigzagParts(part, k);
    forall j: nat | j <= |parts| ensures depth + Rise(parts, j) >= 0 {
      ZigzagRise(part, k, j, parts);
    }
  }

  lemma ZigzagTargetChecks(k: nat, path: seq<string>, part: string, m: Member)
    requires k > 0 && Proper(part) && SafeText(part) && AllProper(path) && |path| > 1
    requires m.kind == Symlink && m.linkname == Join(Zigzag(part, k), '/')
    ensures TargetCheck(m, Key(path)) == Accepted
  {
    ZigzagParts(part, k);
    ZigzagTarget(part, Zigzag(part, k), m.linkname);
    KeyNotEmpty(path);
    PathOfKey(path);
    ZigzagInside(part, k, Zigzag(part, k), |DirParts(Key(path))|);
  }

  /** What is lawful about a header, apart from a link's target. */
  predicate NamedLawfully(h: Header, key: string) {
    KeyOf(h) == key && SafeText(h.name) && !Absolute(h.name) && ".." !in RawParts(h.name) && PathParts(h.name) != []
  }

  lemma ArchiveNames(top: string, part: string, name: string, target: string, hs: seq<Header>)
    requires PlainNames(top, part, name) && hs == LinkArchive(top, part, name, target)
    ensures NamedLawfully(hs[0], Key([top])) && NamedLawfully(hs[1], Key([top, part]))
    ensures NamedLawfully(hs[2], Key([top, part, name]))
  {
    HeaderAt([top], hs[0]);
    HeaderAt([top, part], hs[1]);
    HeaderAt([top, part, name], hs[2]);
  }

  /** Paths of different lengths have different keys. */
  lemma KeysDiffer(a: seq<string>, b: seq<string>)
    requires AllProper(a) && AllProper(b) && |a| != |b|
    ensures Key(a) != Key(b)
  {
    if Key(a) == Key(b) {
      KeyInjective(a, b);
    }
  }

  lemma ArchiveKeysDiffer(top: string, part: string, name: string)
    requires PlainNames(top, part, name)
    ensures Key([top]) != Key([top, part]) && Key([top]) != Key([top, part, name])
    ensures Key([top, part]) != Key([top, part, name])
  {
    KeysDiffer([top], [top, part]);
    KeysDiffer([top], [top, part, name]);
    KeysDiffer([top, part], [top, part, name]);
  }

  lemma FolderLawful(h: Header, key: string)
    requires NamedLawfully(h, key) && h.flag == TypeFlag.Dir
    ensures LawfulHeader(h)
  {
  }

  lemma LinkLawful(h: Header, key: string)
    requires NamedLawfully(h, key) && h.flag == SymbolicLink && TargetCheck(MemberOf(h), key) == Accepted
    ensures LawfulHeader(h)
  {
  }

  lemma AllThree<T>(s: seq<T>, p: T -> bool)
    requires |s| == 3 && p(s[0]) && p(s[1]) && p(s[2])
    ensures forall i :: 0 <= i < |s| ==> p(s[i])
  {
  }

  lemma ThreeApart<T>(s: seq<T>, f: T -> string)
    requires |s| == 3 && f(s[0]) != f(s[1]) && f(s[0]) != f(s[2]) && f(s[1]) != f(s[2])
    ensures forall i, j :: 0 <= i < j < |s| ==> f(s[i]) != f(s[j])
  {
  }

  lemma ArchiveLawful(hs: seq<Header>, k0: string, k1: string, k2: string)
    requires |hs| == 3 && NamedLawfully(hs[0], k0) && NamedLawfully(hs[1], k1) && NamedLawfully(hs[2], k2)
    requires k0 != k1 && k0 != k2 && k1 != k2
    requires hs[0].flag == TypeFlag.Dir && hs[1].flag == TypeFlag.Dir && hs[2].flag == SymbolicLink
    requires TargetCheck(MemberOf(hs[2]), k2) == Accepted
    ensures LawfulHeaders(hs)
  {
    FolderLawful(hs[0], k0);
    FolderLawful(hs[1], k1);
    LinkLawful(hs[2], k2);
    AllThree(hs, (h: Header) => LawfulHeader(h));
    ThreeApart(hs, (h: Header) => KeyOf(h));
  }

  /** The tree of three headers, one by one. */
  lemma ArchiveTreeOf(hs: seq<Header>)
    requires |hs| == 3
    ensures TreeOf(hs) ==
      map[KeyOf(hs[0]) := MemberOf(hs[0])][KeyOf(hs[1]) := MemberOf(hs[1])][KeyOf(hs[2]) := MemberOf(hs[2])]
  {
    var two, one := hs[..2], hs[..1];
    assert two[..1] == one && one[..0] == [];
    assert TreeOf(one) == map[KeyOf(hs[0]) := MemberOf(hs[0])];
    assert TreeOf(two) == TreeOf(one)[KeyOf(hs[1]) := MemberOf(hs[1])];
  }

  lemma ArchiveIsTree(top: string, part: string, name: string, target: string, hs: seq<Header>)
    requires PlainNames(top, part, name) && hs == LinkArchive(top, part, name, target)
    ensures TreeOf(hs) == LinkTree(top, part, name, target)
  {
    ArchiveNames(top, part, name, target, hs);
    ArchiveTreeOf(hs);
  }

  lemma ArchiveSolid(top: string, part: string, name: string, target: string, t: Tree)
    requires PlainNames(top, part, name) && t == LinkTree(top, part, name, target)
    ensures Solid(t, []) && Solid(t, [top]) && Solid(t, [top, part])
    ensures IsDirectory(t, [top]) && IsDirectory(t, [top, part])
  {
    ArchiveKeysDiffer(top, part, name);
    assert [] + [top] == [top] && [top] + [part] == [top, part];
    SolidExtend(t, [], top);
    SolidExtend(t, [top], part);
  }

  lemma ThreeShaped(t: Tree, k0: string, k1: string, k2: string)
    requires t.Keys == {k0, k1, k2}
    requires SolidAbove(t, PathOf(k0)) && SolidAbove(t, PathOf(k1)) && SolidAbove(t, PathOf(k2))
    ensures TreeShaped(t)
  {
  }

  lemma ArchiveShaped(top: string, part: string, name: string, target: string, t: Tree)
    requires PlainNames(top, part, name) && t == LinkTree(top, part, name, target)
    ensures TreeShaped(t)
  {
    ArchiveSolid(top, part, name, target, t);
    AboveAt(t, [top], []);
    AboveAt(t, [top, part], [top]);
    AboveAt(t, [top, part, name], [top, part]);
    ThreeShaped(t, Key([top]), Key([top, part]), Key([top, part, name]));
  }

  lemma AboveAt(t: Tree, path: seq<string>, dir: seq<string>)
    requires AllProper(path) && path != [] && dir == path[..|path| - 1] && Solid(t, dir)
    ensures SolidAbove(t, PathOf(Key(path)))
  {
    PathOfKey(path);
  }

  // ---- The zigzag archive ------------------------------------------------------------------

  lemma ZigzagNames()
    ensures PlainNames("home", "agent", "x")
  {
  }

  lemma ZigzagIsTree(k: nat, target: string)
    requires target == Join(Zigzag("agent", k), '/')
    ensures LinkTree("home", "agent", "x", target) == ZigzagTree(k)
  {
    ZigzagKeys();
  }

  lemma ZigzagLawfulHeaders(k: nat, hs: seq<Header>)
    requires k > 0 && hs == ZigzagHeaders(k)
    ensures LawfulHeaders(hs)
  {
    ZigzagNames();
    LawfulZigzag("home", "agent", "x", k, hs);
  }

  lemma LawfulZigzag(top: string, part: string, name: string, k: nat, hs: seq<Header>)
    requires k > 0 && PlainNames(top, part, name) && hs == LinkArchive(top, part, name, Join(Zigzag(part, k), '/'))
    ensures LawfulHeaders(hs)
  {
    var target := Join(Zigzag(part, k), '/');
    ArchiveNames(top, part, name, target, hs);
    ArchiveKeysDiffer(top, part, name);
    ZigzagTargetChecks(k, [top, part, name], part, MemberOf(hs[2]));
    ArchiveLawful(hs, Key([top]), Key([top, part]), Key([top, part, name]));
  }

  lemma ZigzagLands(k: nat, t: Tree, key: string)
    requires k > 0 && t == ZigzagTree(k) && key == "home/agent/x"
    ensures LinkLands(t, key) <==> k < 26
  {
    var reached := Reached(Member("home/agent", Directory, ""));
    LongTargetRefused(k, t, key, reached);
    StartGrounded(t, key);
    LandsAsResolved(t, key, reached.member);
  }

  /** A symbolic link lands exactly when the resolver reaches a member, if that or its bound
      is the answer. */
  lemma LandsAsResolved(t: Tree, key: string, m: Member)
    requires key in t && t[key].kind == Symlink && Grounded(t, Start(key))
    requires Resolve(t, key) in {Reached(m), Failed(SafetyBound)}
    ensures LinkLands(t, key) <==> Resolve(t, key) == Reached(m)
  {
    ResolutionMeaning(t, Start(key), MaxSteps(t), Reached(m));
    if LinkLands(t, key) {
      var other :| EndsWithin(t, Start(key), Reached(other), MaxSteps(t))
        && (t[key].kind == Hardlink ==> other.kind == File);
      ResolutionMeaning(t, Start(key), MaxSteps(t), Reached(other));
    }
  }

  /** With all else in order, an archive with one link is lawful exactly when the link lands. */
  lemma LawfulByLink(hs: seq<Header>, maxMembers: nat, t: Tree, key: string)
    requires t == TreeOf(hs) && 0 < |hs| <= maxMembers && LawfulHeaders(hs) && TreeShaped(t)
    requires IsDirectory(t, ["home"]) && IsDirectory(t, ["home", "agent"])
    requires key in t && t[key].IsLink() && forall other :: other in t && t[other].IsLink() ==> other == key
    ensures Lawful(hs, maxMembers) <==> LinkLands(t, key)
  {
  }

  lemma ZigzagOneLink(k: nat, t: Tree, key: string)
    requires t == ZigzagTree(k) && key == "home/agent/x"
    ensures key in t && t[key].IsLink() && forall other :: other in t && t[other].IsLink() ==> other == key
  {
  }

  lemma ZigzagTreeOf(k: nat, hs: seq<Header>, t: Tree)
    requires hs == ZigzagHeaders(k) && t == ZigzagTree(k)
    ensures TreeOf(hs) == t && TreeShaped(t) && IsDirectory(t, ["home"]) && IsDirectory(t, ["home", "agent"])
  {
    var target := Join(Zigzag("agent", k), '/');
    ZigzagNames();
    ZigzagIsTree(k, target);
    ArchiveIsTree("home", "agent", "x", target, hs);
    ArchiveSolid("home", "agent", "x", target, t);
    ArchiveShaped("home", "agent", "x", target, t);
  }

  /** The validator accepts this archive exactly while the target of its link is short, though
      a walk in place resolves the link over one hop whatever its length. */
  lemma ZigzagAcceptedExactly(k: nat, hs: seq<Header>, maxMembers: nat, key: string)
    requires k > 0 && hs == ZigzagHeaders(k) && maxMembers >= 3 && key == "home/agent/x"
    ensures FirstViolation(hs, maxMembers).Accepted? <==> k < 26
    ensures EndsWith(TreeOf(hs), Start(key), Reached(Member("home/agent", Directory, "")))
  {
    var t := ZigzagTree(k);
    AcceptedIffLawful(hs, maxMembers);
    ZigzagLawfulHeaders(k, hs);
    ZigzagTreeOf(k, hs, t);
    ZigzagOneLink(k, t, key);
    ZigzagLands(k, t, key);
    LawfulByLink(hs, maxMembers, t, key);
    LongTargetRefused(k, t, key, Reached(Member("home/agent", Directory, "")));
  }
}
