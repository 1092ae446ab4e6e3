/** The archive validator: three passes over the member list, and exactly which archives
    they accept. */
module ArchiveValidator {
  import opened Text
  import opened ArchiveTree
  import opened ArchiveWalk
  import opened ArchiveRestart
  import opened ArchiveIndex

  datatype Check = Accepted | Refused(fault: Fault)

  // ---- One member --------------------------------------------------------------

  function KeyOf(h: Header): string {
    Key(PathParts(h.name))
  }

  /** How far a target's first k components lead below where they start. */
  function Rise(parts: seq<string>, k: nat): int
    requires k <= |parts|
  {
    if k == 0 then 0 else Rise(parts, k - 1) + if parts[k - 1] == ".." then -1 else 1
  }

  /** Read as text from a directory this deep, no prefix of the target rises above the root. */
  predicate LexicallyInside(parts: seq<string>, depth: nat) {
    forall k: nat :: k <= |parts| ==> depth + Rise(parts, k) >= 0
  }

  /** The path of the directory a member is in. */
  function DirParts(key: string): seq<string> {
    if key == "" then [] else var parts := Split(key, '/'); parts[..|parts| - 1]
  }

  function KindOf(flag: TypeFlag): Kind {
    match flag
    case Special => File // refused before it is indexed
    case Regular => File
    case RegularOld => File
    case Dir => Directory
    case SymbolicLink => Symlink
    case HardLink => Hardlink
  }

  function MemberOf(h: Header): Member {
    Member(KeyOf(h), KindOf(h.flag), h.linkname)
  }

  /** Why a link's target text is refused, if it is. */
  function TargetCheck(m: Member, key: string): Check {
    match LinkParts(m.linkname)
    case Rejected(fault) => Refused(fault)
    case Parts(parts) =>
      if parts == [] then Refused(EmptyTarget)
      else if !LexicallyInside(parts, if m.kind == Symlink then |DirParts(key)| else 0) then Refused(LexicalEscape)
      else Accepted
  }

  /** The first pass on one header, given the members indexed before it. */
  function HeaderCheck(h: Header, t: Tree): Check {
    if !SafeText(h.name) then Refused(ControlInPath)
    else if ".." in RawParts(h.name) || Absolute(h.name) then Refused(PathEscapes)
    else if KeyOf(h) in t then Refused(DuplicatePath(DisplayKey(KeyOf(h))))
    else if h.flag == Special then Refused(SpecialFile)
    else if KeyOf(h) == "" && h.flag != Dir then Refused(RootNotDirectory)
    else if MemberOf(h).IsLink() then TargetCheck(MemberOf(h), KeyOf(h))
    else Accepted
  }

  // ---- The passes, as the order of the members decides them ------------------------

  datatype Indexing = Indexed(order: seq<string>, tree: Tree) | Stopped(fault: Fault)

  function FirstPass(hs: seq<Header>, i: nat, order: seq<string>, t: Tree): Indexing
    requires i <= |hs|
    decreases |hs| - i
  {
    if i == |hs| then Indexed(order, t)
    else
      match HeaderCheck(hs[i], t)
      case Refused(fault) => Stopped(fault)
      case Accepted => FirstPass(hs, i + 1, order + [KeyOf(hs[i])], t[KeyOf(hs[i]) := MemberOf(hs[i])])
  }

  /** The path of a key: the root's is empty. */
  function PathOf(key: string): seq<string> {
    if key == "" then [] else Split(key, '/')
  }

  predicate BelowLink(t: Tree, path: seq<string>) {
    exists k :: 0 < k < |path| && IsLink(t, path[..k])
  }

  /** The first violation among checks made one after the other. */
  function FirstRefused(checks: seq<Check>, i: nat): Check
    requires i <= |checks|
    decreases |checks| - i
  {
    if i == |checks| then Accepted
    else if checks[i].Refused? then checks[i]
    else FirstRefused(checks, i + 1)
  }

  function NestingCheck(t: Tree, key: string): Check {
    if BelowLink(t, PathOf(key)) then Refused(BeneathLink(key)) else Accepted
  }

  function NestingChecks(order: seq<string>, t: Tree): seq<Check> {
    seq(|order|, i requires 0 <= i < |order| => NestingCheck(t, order[i]))
  }

  function SecondPass(order: seq<string>, t: Tree): Check {
    FirstRefused(NestingChecks(order, t), 0)
  }

  function RequiredPass(t: Tree): Check {
    if !IsDirectory(t, ["home"]) then Refused(RequiredMissing("home"))
    else if !IsDirectory(t, ["home", "agent"]) then Refused(RequiredMissing("home/agent"))
    else Accepted
  }

  function MaxSteps(t: Tree): nat {
    |t| * 8 + 32
  }

  ghost function Resolve(t: Tree, key: string): Outcome {
    Resolution(t, Start(key), MaxSteps(t))
  }

  /** What the resolver answers for every key of a tree. */
  ghost function Resolver(t: Tree): string -> Outcome {
    k => Resolve(t, k)
  }

  /** The third pass on one member, resolving its parent afresh. */
  ghost function MemberCheck(t: Tree, resolve: string -> Outcome, key: string): Check
    requires key in t
  {
    var parent := Key(DirParts(key));
    if key == "" then Accepted
    else if parent != "" && resolve(parent).Failed? then Refused(resolve(parent).fault)
    else if parent != "" && resolve(parent).member.kind != Directory then Refused(ParentNotDirectory(key))
    else if !t[key].IsLink() then Accepted
    else if resolve(key).Failed? then Refused(resolve(key).fault)
    else if t[key].kind == Hardlink && resolve(key).member.kind != File then Refused(HardlinkNotFile)
    else Accepted
  }

  ghost function MemberChecks(order: seq<string>, t: Tree, resolve: string -> Outcome): seq<Check>
    requires forall k :: k in order ==> k in t
  {
    seq(|order|, i requires 0 <= i < |order| => MemberCheck(t, resolve, order[i]))
  }

  ghost function ThirdPass(order: seq<string>, t: Tree, resolve: string -> Outcome): Check
    requires forall k :: k in order ==> k in t
  {
    FirstRefused(MemberChecks(order, t, resolve), 0)
  }

  /** The first violation found, with every parent resolved afresh. */
  ghost function FirstViolation(hs: seq<Header>, maxMembers: nat): Check {
    if |hs| > maxMembers then Refused(TooManyMembers)
    else if hs == [] then Refused(NoMembers)
    else
      match FirstPass(hs, 0, [], map[])
      case Stopped(fault) => Refused(fault)
      case Indexed(order, t) =>
        if SecondPass(order, t).Refused? then SecondPass(order, t)
        else if RequiredPass(t).Refused? then RequiredPass(t)
        else if !(forall k :: k in order ==> k in t) then Accepted
        else ThirdPass(order, t, Resolver(t))
  }

  // ---- The loops -------------------------------------------------------------------

  /** Walks a link target over a stack seeded with the link's own directory. */
  method ValidateLinkTarget(m: Member, key: string) returns (r: Check)
    ensures r == TargetCheck(m, key)
  {
    var target := LinkParts(m.linkname);
    if target.Rejected? {
      return Refused(target.fault);
    }
    var parts := target.parts;
    if parts == [] {
      return Refused(EmptyTarget);
    }
    var resolved: seq<string> := [];
    if m.kind == Symlink {
      resolved := DirParts(key);
    }
    ghost var depth := |resolved|;
    for i := 0 to |parts|
      invariant |resolved| == depth + Rise(parts, i)
      invariant forall k: nat :: k <= i ==> depth + Rise(parts, k) >= 0
    {
      if parts[i] == ".." {
        if resolved == [] {
          assert depth + Rise(parts, i + 1) < 0;
          return Refused(LexicalEscape);
        }
        resolved := resolved[..|resolved| - 1];
      } else {
        resolved := resolved + [parts[i]];
      }
    }
    return Accepted;
  }

  method CheckHeader(h: Header, t: Tree) returns (r: Check)
    ensures r == HeaderCheck(h, t)
  {
    if !SafeText(h.name) {
      return Refused(ControlInPath);
    }
    var rawParts := RawParts(h.name);
    if ".." in rawParts || Absolute(h.name) {
      return Refused(PathEscapes);
    }
    var key := Join(Without(rawParts, "."), '/');
    if key in t {
      return Refused(DuplicatePath(DisplayKey(key)));
    }
    if h.flag == Special {
      return Refused(SpecialFile);
    }
    if key == "" && h.flag != Dir {
      return Refused(RootNotDirectory);
    }
    if MemberOf(h).IsLink() {
      r := ValidateLinkTarget(MemberOf(h), key);
      return;
    }
    return Accepted;
  }

  /** The second pass on one key: no proper prefix is a link. */
  method CheckAncestors(t: Tree, key: string) returns (beneath: bool)
    ensures beneath == BelowLink(t, PathOf(key))
  {
    var parts: seq<string> := [];
    if key != "" {
      parts := Split(key, '/');
    }
    var length := 1;
    while length < |parts|
      invariant length >= 1
      invariant forall k :: 0 < k < length && k < |parts| ==> !IsLink(t, parts[..k])
    {
      var parentKey := Join(parts[..length], '/');
      if parentKey in t && t[parentKey].IsLink() {
        assert IsLink(t, parts[..length]);
        return true;
      }
      length := length + 1;
    }
    return false;
  }

  /** The key before the last slash is the key of the directory. */
  lemma ParentKey(key: string, slash: int)
    requires key != "" && slash == LastIndexOf(key, '/')
    ensures slash <= |key| && (if slash >= 0 then key[..slash] else "") == Key(DirParts(key))
  {
    BeforeLast(key, '/', Split(key, '/')[..|Split(key, '/')| - 1]);
  }

  lemma MemberCheckNext(order: seq<string>, t: Tree, resolve: string -> Outcome, i: nat, check: Check)
    requires (forall k :: k in order ==> k in t) && i < |order| && check == MemberCheck(t, resolve, order[i])
    ensures var checks := MemberChecks(order, t, resolve);
      FirstRefused(checks, i) == if check.Refused? then check else FirstRefused(checks, i + 1)
  {
  }

  /** Every remembered parent is what resolving it afresh gives. */
  ghost predicate Remembered(resolve: string -> Outcome, parents: map<string, Member>) {
    forall p :: p in parents ==> resolve(p) == Reached(parents[p])
  }

  ghost predicate Answers(t: Tree, resolve: string -> Outcome) {
    forall k {:trigger Resolve(t, k)} :: resolve(k) == Resolve(t, k)
  }

  method ResolveKey(idx: MemberIndex, ghost resolve: string -> Outcome, key: string) returns (outcome: Outcome)
    requires idx.Valid() && SafeText(key) && Answers(idx.byName, resolve)
    ensures outcome == resolve(key)
  {
    outcome := idx.Resolve(key);
    assert outcome == Resolve(idx.byName, key);
  }

  /** First pass: per-member checks, building the ordered index. */
  method IndexMembers(headers: seq<Header>, idx: MemberIndex) returns (r: Check)
    requires idx.Valid() && idx.order == [] && idx.byName == map[]
    modifies idx
    ensures idx.Valid() && forall k :: k in idx.order ==> SafeText(k)
    ensures FirstPass(headers, 0, [], map[]) ==
      match r case Accepted => Indexed(idx.order, idx.byName) case Refused(fault) => Stopped(fault)
  {
    for i := 0 to |headers|
      invariant idx.Valid()
      invariant FirstPass(headers, 0, [], map[]) == FirstPass(headers, i, idx.order, idx.byName)
      invariant forall k :: k in idx.order ==> SafeText(k)
    {
      var check := CheckHeader(headers[i], idx.byName);
      if check.Refused? {
        return check;
      }
      SafeKey(headers[i].name);
      idx.Add(KeyOf(headers[i]), MemberOf(headers[i]));
    }
    return Accepted;
  }

  /** Second pass: no member may be nested beneath a link. */
  method CheckNesting(order: seq<string>, t: Tree) returns (r: Check)
    ensures r == SecondPass(order, t)
  {
    ghost var checks := NestingChecks(order, t);
    for i := 0 to |order|
      invariant FirstRefused(checks, 0) == FirstRefused(checks, i)
    {
      var beneath := CheckAncestors(t, order[i]);
      if beneath {
        return Refused(BeneathLink(order[i]));
      }
    }
    return Accepted;
  }

  /** One step of the third pass, given the parents resolved so far. */
  method CheckMember(idx: MemberIndex, ghost resolve: string -> Outcome, key: string, parents: map<string, Member>)
    returns (r: Check, parents': map<string, Member>)
    requires idx.Valid() && key in idx.byName && SafeText(key) && Remembered(resolve, parents)
    requires Answers(idx.byName, resolve)
    ensures r == MemberCheck(idx.byName, resolve, key) && Remembered(resolve, parents')
  {
    parents' := parents;
    if key == "" {
      return Accepted, parents;
    }
    var slash := LastIndexOf(key, '/');
    ParentKey(key, slash);
    var parent := if slash >= 0 then key[..slash] else "";
    if parent != "" {
      if parent !in parents {
        SafeParent(key);
        var resolved := ResolveKey(idx, resolve, parent);
        if resolved.Failed? {
          return Refused(resolved.fault), parents;
        }
        parents' := parents[parent := resolved.member];
      }
      if parents'[parent].kind != Directory {
        return Refused(ParentNotDirectory(key)), parents';
      }
    }
    var member := idx.byName[key];
    if member.IsLink() {
      var target := ResolveKey(idx, resolve, key);
      if target.Failed? {
        return Refused(target.fault), parents';
      }
      if member.kind == Hardlink && target.member.kind != File {
        return Refused(HardlinkNotFile), parents';
      }
    }
    return Accepted, parents';
  }

  /** Third pass: parents are directories and links resolve. A parent is resolved once for
      all its children; the verdict is that of resolving it afresh for each. */
  method CheckLinks(idx: MemberIndex, ghost resolve: string -> Outcome) returns (r: Check)
    requires idx.Valid() && Answers(idx.byName, resolve) && forall k :: k in idx.order ==> SafeText(k)
    ensures r == ThirdPass(idx.order, idx.byName, resolve)
  {
    ghost var verdict := ThirdPass(idx.order, idx.byName, resolve);
    var parents: map<string, Member> := map[];
    for i := 0 to |idx.order|
      invariant verdict == FirstRefused(MemberChecks(idx.order, idx.byName, resolve), i)
      invariant Remembered(resolve, parents)
    {
      var check;
      check, parents := CheckMember(idx, resolve, idx.order[i], parents);
      MemberCheckNext(idx.order, idx.byName, resolve, i, check);
      if check.Refused? {
        return check;
      }
    }
    return Accepted;
  }

  method ValidateDataTar(headers: seq<Header>, maxMembers: nat) returns (r: Check)
    ensures r == FirstViolation(headers, maxMembers)
  {
    if |headers| > maxMembers {
      return Refused(TooManyMembers);
    }
    if headers == [] {
      return Refused(NoMembers);
    }
    var idx := new MemberIndex();
    r := IndexMembers(headers, idx);
    if r.Accepted? {
      r := CheckNesting(idx.order, idx.byName);
    } else {
      return;
    }
    if r.Accepted? {
      r := CheckRequired(idx.byName);
    }
    if r.Accepted? {
      r := CheckLinks(idx, Resolver(idx.byName));
    }
  }

  /** home and home/agent must be real directories. */
  method CheckRequired(t: Tree) returns (r: Check)
    ensures r == RequiredPass(t)
  {
    KeyAppend(["home"], "agent");
    assert ["home"] + ["agent"] == ["home", "agent"];
    assert "home" + "/" + "agent" == "home/agent";
    if "home" !in t || t["home"].kind != Directory {
      return Refused(RequiredMissing("home"));
    }
    if "home/agent" !in t || t["home/agent"].kind != Directory {
      return Refused(RequiredMissing("home/agent"));
    }
    return Accepted;
  }

  lemma {:induction false} SafeJoin(parts: seq<string>)
    requires AllSafe(parts)
    ensures SafeText(Join(parts, '/'))
  {
    if |parts| > 1 {
      SafeJoin(parts[1..]);
    }
  }

  lemma SafeSplit(s: string)
    requires SafeText(s)
    ensures AllSafe(Split(s, '/'))
  {
    forall i | 0 <= i < |Split(s, '/')| ensures SafeText(Split(s, '/')[i]) {
      SafePieces(s, i);
    }
  }

  lemma SafeKey(name: string)
    requires SafeText(name)
    ensures SafeText(Key(PathParts(name)))
  {
    SafeSplit(name);
    var parts := PathParts(name);
    forall i | 0 <= i < |parts| ensures SafeText(parts[i]) {
      assert parts[i] in Split(name, '/');
    }
    SafeJoin(parts);
  }

  lemma SafeParent(key: string)
    requires SafeText(key)
    ensures SafeText(Key(DirParts(key)))
  {
    SafeSplit(key);
    SafeJoin(DirParts(key));
  }
}
