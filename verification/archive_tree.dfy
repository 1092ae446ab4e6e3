/** The decoded member list of an archive, and the paths its members and links name. */
module ArchiveTree {
  import opened Text

  /** The entry type of a tar header; every other type is Special. */
  datatype TypeFlag = Regular | RegularOld | Dir | SymbolicLink | HardLink | Special

  datatype Header = Header(name: string, flag: TypeFlag, linkname: string)

  datatype Kind = File | Directory | Symlink | Hardlink

  /** One indexed member, under its normalised path. */
  datatype Member = Member(name: string, kind: Kind, linkname: string) {
    predicate IsLink() {
      kind == Symlink || kind == Hardlink
    }
  }

  /** The members by normalised path; "" is the root. */
  type Tree = map<string, Member>

  /** Every violation the validator and the resolver report. */
  datatype Fault =
    | NoMembers
    | TooManyMembers
    | ControlInPath
    | PathEscapes
    | DuplicatePath(path: string)
    | SpecialFile
    | RootNotDirectory
    | ControlInTarget
    | AbsoluteTarget
    | EmptyTarget
    | LexicalEscape
    | BeneathLink(path: string)
    | RequiredMissing(path: string)
    | SafetyBound
    | LinkCycle
    | TargetEscapes
    | ThroughMissing(path: string)
    | ResolvesToMissing(path: string)
    | ParentNotDirectory(path: string)
    | HardlinkNotFile

  datatype Parsed = Parts(parts: seq<string>) | Rejected(fault: Fault)

  /** No NUL, C0 control or DEL character. */
  predicate SafeText(s: string) {
    forall i :: 0 <= i < |s| ==> ' ' <= s[i] && s[i] != '\U{7F}'
  }

  predicate AllSafe(parts: seq<string>) {
    forall i :: 0 <= i < |parts| ==> SafeText(parts[i])
  }

  predicate Absolute(s: string) {
    s != "" && s[0] == '/'
  }

  /** The list without the given element. */
  function Without(parts: seq<string>, drop: string): (kept: seq<string>)
    ensures forall x :: x in kept <==> x in parts && x != drop
    ensures |kept| <= |parts|
    ensures drop !in parts ==> kept == parts
  {
    if parts == [] then []
    else if parts[0] == drop then Without(parts[1..], drop)
    else [parts[0]] + Without(parts[1..], drop)
  }

  /** The components of a POSIX path: repeated slashes collapse, "." and ".." stay. */
  function RawParts(path: string): seq<string> {
    Without(Split(path, '/'), "")
  }

  /** The components of a path with "." dropped. */
  function PathParts(path: string): seq<string> {
    Without(RawParts(path), ".")
  }

  /** A link target's components, or why its text is refused. */
  function LinkParts(value: string): Parsed {
    if !SafeText(value) then Rejected(ControlInTarget)
    else if Absolute(value) then Rejected(AbsoluteTarget)
    else Parts(PathParts(value))
  }

  /** A component that names an entry of the current directory. */
  predicate Proper(part: string) {
    part != "" && part != "." && part != ".." && Free(part, '/')
  }

  predicate AllProper(path: seq<string>) {
    forall i :: 0 <= i < |path| ==> Proper(path[i])
  }

  // ---- Looking a path up -----------------------------------------------------

  function Key(path: seq<string>): string {
    Join(path, '/')
  }

  /** How a message shows a key: the root is ".". */
  function DisplayKey(key: string): string {
    if key == "" then "." else key
  }

  predicate Exists(t: Tree, path: seq<string>) {
    Key(path) in t
  }

  predicate IsLink(t: Tree, path: seq<string>) {
    Exists(t, path) && t[Key(path)].IsLink()
  }

  predicate IsDirectory(t: Tree, path: seq<string>) {
    Exists(t, path) && t[Key(path)].kind == Directory
  }

  /** Every component is a proper name and every non-empty prefix a real directory. */
  predicate Solid(t: Tree, path: seq<string>) {
    AllProper(path) && forall k :: 0 < k <= |path| ==> IsDirectory(t, path[..k])
  }

  /** A place a walk can stand on: below real directories, and not itself a link. */
  predicate Landed(t: Tree, path: seq<string>) {
    path == [] || (Solid(t, path[..|path| - 1]) && Proper(path[|path| - 1]) && !IsLink(t, path))
  }

  lemma SolidParent(t: Tree, path: seq<string>)
    requires Solid(t, path) && path != []
    ensures Solid(t, path[..|path| - 1]) && Landed(t, path)
  {
    var parent := path[..|path| - 1];
    forall k | 0 < k <= |parent| ensures IsDirectory(t, parent[..k]) {
      assert parent[..k] == path[..k];
    }
    assert path[..|path|] == path;
  }

  lemma SolidExtend(t: Tree, path: seq<string>, part: string)
    requires Solid(t, path) && Proper(part) && IsDirectory(t, path + [part])
    ensures Solid(t, path + [part])
  {
    var longer := path + [part];
    forall k | 0 < k <= |longer| ensures IsDirectory(t, longer[..k]) {
      if k <= |path| {
        assert longer[..k] == path[..k];
      } else {
        assert longer[..k] == longer;
      }
    }
  }

  lemma KeyAppend(dir: seq<string>, part: string)
    ensures Key(dir + [part]) == if dir == [] then part else Key(dir) + "/" + part
  {
    if dir != [] {
      JoinAppend(dir, part, '/');
    } else {
      assert dir + [part] == [part];
    }
  }

  lemma KeyInjective(a: seq<string>, b: seq<string>)
    requires AllProper(a) && AllProper(b) && Key(a) == Key(b)
    ensures a == b
  {
    if a != [] && b != [] {
      JoinInjective(a, b, '/');
    } else if a != [] {
      KeyNotEmpty(a);
    } else if b != [] {
      KeyNotEmpty(b);
    }
  }

  lemma KeyNotEmpty(path: seq<string>)
    requires path != [] && AllProper(path)
    ensures Key(path) != "" && Key(path)[0] != '/'
  {
    assert path[0] != "" && path[0][0] in path[0];
  }

  /** Splitting a key gives back its path. */
  lemma KeySplit(path: seq<string>)
    requires path != [] && AllProper(path)
    ensures Split(Key(path), '/') == path
  {
    SplitJoin(path, '/');
  }

  /** A list of distinct members bounds the size of the index that holds them. */
  lemma {:induction false} Pigeonhole(t: Tree, keys: seq<string>)
    requires forall i :: 0 <= i < |keys| ==> keys[i] in t
    requires forall i, j :: 0 <= i < j < |keys| ==> keys[i] != keys[j]
    ensures |keys| <= |t|
  {
    if keys != [] {
      var last := keys[|keys| - 1];
      var smaller := map k | k in t && k != last :: t[k];
      assert smaller.Keys == t.Keys - {last};
      Pigeonhole(smaller, keys[..|keys| - 1]);
      assert |t.Keys| == |t| && |smaller.Keys| == |smaller|;
    }
  }

  /** A directory is never deeper than the archive has members. */
  lemma SolidDepth(t: Tree, path: seq<string>)
    requires Solid(t, path)
    ensures |path| <= |t|
  {
    var keys := seq(|path|, i requires 0 <= i < |path| => Key(path[..i + 1]));
    forall i, j | 0 <= i < j < |keys| ensures keys[i] != keys[j] {
      assert keys[i] == Key(path[..i + 1]) && keys[j] == Key(path[..j + 1]);
      if keys[i] == keys[j] {
        KeyInjective(path[..i + 1], path[..j + 1]);
      }
    }
    forall i | 0 <= i < |keys| ensures keys[i] in t {
      assert IsDirectory(t, path[..i + 1]);
    }
    Pigeonhole(t, keys);
  }
}
