/** A native Hermes backup: what its ZIP layout may be, where each entry goes, and the ledger
    that accounts for every file and byte. */
module HermesArchive {
  import opened Options
  import opened Text
  import opened ArchiveTree

  type Content = seq<int>

  datatype FileMode = Unset | Ordinary | SymbolicLinkMode | OtherMode

  /** One entry of the archive's directory; whether its bytes are a Mach-O binary is decided
      elsewhere. */
  datatype Info = Info(filename: string, mode: FileMode, size: nat, machO: bool, content: Content) {
    predicate IsDir() {
      filename != "" && filename[|filename| - 1] == '/'
    }
  }

  const MAX_UNCOMPRESSED := 100 * 1024 * 1024 * 1024
  const MARKERS := {"config.yaml", ".env", "state.db"}
  const RUNTIME_NAMES := {"gateway_state.json", "gateway.pid", "cron.pid", "gateway.lock", "processes.json"}
  const EXCLUDED_DIRS := {
    "__pycache__", ".git", "node_modules", "backups", "checkpoints", ".venv", "venv", "site-packages", ".cache",
    ".tox", ".nox", ".pytest_cache", ".mypy_cache", ".ruff_cache"
  }
  const EXCLUDED_SUFFIXES := [".pyc", ".pyo", ".db-wal", ".db-shm", ".db-journal"]

  // ---- Names ---------------------------------------------------------------------------

  function StripSlashes(name: string): string {
    if name != "" && name[|name| - 1] == '/' then StripSlashes(name[..|name| - 1]) else name
  }

  predicate SafeName(name: string) {
    Free(name, '\U{0}') && Free(name, '\\') && !Absolute(name) && ".." !in PathParts(name)
  }

  /** PurePosixPath(name).parts; an absolute path begins with its root. */
  function PosixParts(name: string): seq<string> {
    if Absolute(name) then ["/"] + PathParts(name) else PathParts(name)
  }

  /** The name of a path given by its parts; the root has none. */
  function LastName(parts: seq<string>): string {
    if parts == [] || parts == ["/"] then "" else parts[|parts| - 1]
  }

  predicate StartsWith(s: string, prefix: string) {
    |prefix| <= |s| && s[..|prefix|] == prefix
  }

  predicate EndsWith(s: string, suffix: string) {
    |suffix| <= |s| && s[|s| - |suffix|..] == suffix
  }

  /** A file's name below the archive's single top directory, if it has one. */
  function Relative(prefix: string, name: string): string {
    if prefix != "" && StartsWith(name, prefix) then name[|prefix|..] else name
  }

  lemma SafeParts(name: string)
    requires SafeName(name)
    ensures PosixParts(name) == PathParts(name) && AllProper(PathParts(name))
  {
    var parts := PathParts(name);
    forall i | 0 <= i < |parts| ensures Proper(parts[i]) {
      assert parts[i] in parts && parts[i] in Split(name, '/');
    }
  }

  // ---- The layout ----------------------------------------------------------------------

  /** The archive's files, in order, without its directories. */
  function Files(infos: seq<Info>): seq<Info> {
    if infos == [] then []
    else Files(infos[..|infos| - 1]) + if infos[|infos| - 1].IsDir() then [] else [infos[|infos| - 1]]
  }

  function TotalSize(files: seq<Info>): nat {
    if files == [] then 0 else TotalSize(files[..|files| - 1]) + files[|files| - 1].size
  }

  predicate LawfulInfo(info: Info) {
    SafeName(StripSlashes(info.filename)) && info.mode != SymbolicLinkMode && (info.IsDir() || info.mode != OtherMode)
  }

  /** All paths lie below one directory of this name. */
  predicate AllBelow(paths: seq<seq<string>>, top: string) {
    forall i :: 0 <= i < |paths| ==> paths[i] != [] && paths[i][0] == top
  }

  predicate NoneEmpty(paths: seq<seq<string>>) {
    forall i :: 0 <= i < |paths| ==> paths[i] != []
  }

  function PrefixOf(paths: seq<seq<string>>): string {
    if AllBelow(paths, ".hermes") then ".hermes/" else if AllBelow(paths, "hermes") then "hermes/" else ""
  }

  predicate Marked(path: seq<string>) {
    path != [] && path[0] != "_external" && LastName(path) in MARKERS
  }

  predicate HasMarker(paths: seq<seq<string>>) {
    exists i :: 0 <= i < |paths| && Marked(paths[i])
  }

  predicate Distinct(keys: seq<string>) {
    forall i, j :: 0 <= i < j < |keys| ==> keys[i] != keys[j]
  }

  predicate AllSafeNames(names: seq<string>) {
    forall i :: 0 <= i < |names| ==> SafeName(names[i])
  }

  /** The files' names below their common directory. */
  function RelativeNames(files: seq<Info>, prefix: string): seq<string> {
    seq(|files|, i requires 0 <= i < |files| => Relative(prefix, files[i].filename))
  }

  function PathsOf(names: seq<string>): seq<seq<string>> {
    seq(|names|, i requires 0 <= i < |names| => PosixParts(names[i]))
  }

  function KeysOf(names: seq<string>): seq<string> {
    seq(|names|, i requires 0 <= i < |names| => Key(PathParts(names[i])))
  }

  function Prefix(files: seq<Info>): string {
    PrefixOf(PathsOf(RelativeNames(files, "")))
  }

  predicate LawfulInfos(infos: seq<Info>) {
    forall i :: 0 <= i < |infos| ==> LawfulInfo(infos[i])
  }

  /** Names whose paths are safe, distinct, and include a marker of a Hermes home. */
  predicate LawfulNames(names: seq<string>) {
    NoneEmpty(PathsOf(names)) && HasMarker(PathsOf(names)) && AllSafeNames(names) && Distinct(KeysOf(names))
  }

  /** The archives whose layout is accepted. */
  predicate Lawful(infos: seq<Info>) {
    var files := Files(infos);
    && LawfulInfos(infos) && files != [] && TotalSize(files) <= MAX_UNCOMPRESSED
    && NoneEmpty(PathsOf(RelativeNames(files, ""))) && LawfulNames(RelativeNames(files, Prefix(files)))
  }

  datatype Layout = Layout(prefix: string, files: seq<Info>) | Refused

  /** _zip_layout accepts exactly the lawful archives. */
  method ZipLayout(infos: seq<Info>) returns (r: Layout)
    ensures r == if Lawful(infos) then Layout(Prefix(Files(infos)), Files(infos)) else Refused
  {
    var files := CollectFiles(infos);
    if files.None? || files.value == [] {
      return Refused;
    }
    var prefix := CommonPrefix(PathsOf(RelativeNames(files.value, "")));
    if prefix.None? {
      return Refused;
    }
    var names := RelativeNames(files.value, prefix.value);
    var marked := CheckMarkers(PathsOf(names));
    if !marked {
      return Refused;
    }
    var distinct := CheckPaths(names, KeysOf(names));
    r := if distinct then Layout(prefix.value, files.value) else Refused;
  }

  method CollectFiles(infos: seq<Info>) returns (r: Option<seq<Info>>)
    ensures r == if LawfulInfos(infos) && TotalSize(Files(infos)) <= MAX_UNCOMPRESSED then Some(Files(infos)) else None
  {
    var files: seq<Info> := [];
    var total := 0;
    for k := 0 to |infos|
      invariant files == Files(infos[..k]) && total == TotalSize(files) <= MAX_UNCOMPRESSED
      invariant LawfulInfos(infos[..k])
    {
      var info := infos[k];
      var safe := SafeName(StripSlashes(info.filename));
      FilesNext(infos, k);
      LawfulNext(infos, k, LawfulInfo(info));
      if !safe || info.mode == SymbolicLinkMode || (!info.IsDir() && info.mode == OtherMode) {
        assert !LawfulInfo(infos[k]);
        return None;
      }
      if !info.IsDir() {
        total := total + info.size;
        if total > MAX_UNCOMPRESSED {
          FilesGrow(infos, k + 1);
          return None;
        }
        files := files + [info];
      }
    }
    assert infos[..|infos|] == infos;
    r := Some(files);
  }

  lemma FilesNext(infos: seq<Info>, k: nat)
    requires k < |infos|
    ensures Files(infos[..k + 1]) == Files(infos[..k]) + if infos[k].IsDir() then [] else [infos[k]]
    ensures TotalSize(Files(infos[..k + 1])) ==
      TotalSize(Files(infos[..k])) + if infos[k].IsDir() then 0 else infos[k].size
  {
    assert infos[..k + 1][..k] == infos[..k];
    var files, more := Files(infos[..k]), Files(infos[..k + 1]);
    if infos[k].IsDir() {
      assert more == files;
    } else {
      assert more == files + [infos[k]] && more[..|more| - 1] == files;
    }
  }

  lemma LawfulNext(infos: seq<Info>, k: nat, lawful: bool)
    requires k < |infos| && lawful == LawfulInfo(infos[k])
    ensures LawfulInfos(infos[..k + 1]) <==> LawfulInfos(infos[..k]) && lawful
  {
    forall i | 0 <= i < k ensures infos[..k + 1][i] == infos[..k][i] {
    }
    assert infos[..k + 1][k] == infos[k];
  }

  /** A size too large stays too large. */
  lemma {:induction false} FilesGrow(infos: seq<Info>, k: nat)
    requires k <= |infos|
    ensures TotalSize(Files(infos[..k])) <= TotalSize(Files(infos))
    decreases |infos| - k
  {
    if k < |infos| {
      FilesNext(infos, k);
      FilesGrow(infos, k + 1);
    } else {
      assert infos[..k] == infos;
    }
  }

  /** The prefix of the one directory .hermes or hermes that all paths share, if any. */
  method CommonPrefix(paths: seq<seq<string>>) returns (r: Option<string>)
    requires paths != []
    ensures r == if NoneEmpty(paths) then Some(PrefixOf(paths)) else None
  {
    var first: set<string> := {};
    for k := 0 to |paths|
      invariant forall i :: 0 <= i < k ==> paths[i] != [] && paths[i][0] in first
      invariant forall x :: x in first ==> exists i :: 0 <= i < k && paths[i][0] == x
    {
      if paths[k] == [] {
        return None;
      }
      first := first + {paths[k][0]};
    }
    OneTop(paths, first, ".hermes");
    OneTop(paths, first, "hermes");
    r := Some(if first == {".hermes"} then ".hermes/" else if first == {"hermes"} then "hermes/" else "");
  }

  lemma OneTop(paths: seq<seq<string>>, first: set<string>, top: string)
    requires paths != [] && NoneEmpty(paths)
    requires forall i :: 0 <= i < |paths| ==> paths[i][0] in first
    requires forall x :: x in first ==> exists i :: 0 <= i < |paths| && paths[i][0] == x
    ensures AllBelow(paths, top) <==> first == {top}
  {
    assert paths[0][0] in first;
    if AllBelow(paths, top) {
      forall x | x in first ensures x == top {
        var i :| 0 <= i < |paths| && paths[i][0] == x;
      }
    }
  }

  method CheckMarkers(paths: seq<seq<string>>) returns (ok: bool)
    ensures ok <==> HasMarker(paths) && NoneEmpty(paths)
  {
    var found: set<string> := {};
    for k := 0 to |paths|
      invariant forall i :: 0 <= i < k ==> paths[i] != []
      invariant forall i :: 0 <= i < k && paths[i][0] != "_external" ==> LastName(paths[i]) in found
      invariant forall x :: x in found ==>
        exists i :: 0 <= i < k && paths[i][0] != "_external" && LastName(paths[i]) == x
    {
      if paths[k] == [] {
        return false;
      }
      if paths[k][0] != "_external" {
        found := found + {LastName(paths[k])};
      }
    }
    ok := exists x :: x in found && x in MARKERS;
    if ok {
      var x :| x in found && x in MARKERS;
      var i :| 0 <= i < |paths| && paths[i][0] != "_external" && LastName(paths[i]) == x;
      assert Marked(paths[i]);
    }
  }

  method CheckPaths(names: seq<string>, keys: seq<string>) returns (ok: bool)
    requires |keys| == |names|
    ensures ok <==> AllSafeNames(names) && Distinct(keys)
  {
    var normalized: set<string> := {};
    for k := 0 to |names|
      invariant forall i :: 0 <= i < k ==> SafeName(names[i])
      invariant forall i :: 0 <= i < k ==> keys[i] in normalized
      invariant forall x :: x in normalized ==> exists i :: 0 <= i < k && keys[i] == x
      invariant forall i, j :: 0 <= i < j < k ==> keys[i] != keys[j]
    {
      var safe := SafeName(names[k]);
      if !safe || keys[k] in normalized {
        return false;
      }
      normalized := normalized + {keys[k]};
    }
    ok := true;
  }

  // ---- Where each entry goes -------------------------------------------------------------

  /** An entry's path, whether it lies below _external, and why it is skipped, if it is. */
  datatype Entry = Entry(info: Info, rel: seq<string>, external: bool, reason: Option<string>)

  function PathSkipReason(rel: seq<string>): Option<string> {
    if rel == [] then Some("empty_path")
    else if rel[0] == "tmp" then Some("root_tmp")
    else if rel[|rel| - 1] in RUNTIME_NAMES then Some("runtime_state")
    else if exists i :: 0 <= i < |EXCLUDED_SUFFIXES| && EndsWith(rel[|rel| - 1], EXCLUDED_SUFFIXES[i])
      then Some("excluded_suffix")
    else if rel[0] == "hermes-agent" then Some("hermes_agent_checkout")
    else if exists part :: part in rel && part in EXCLUDED_DIRS then Some("excluded_directory")
    else None
  }

  /** The class of a file under its relative name. */
  function Classify(f: Info, name: string): Entry {
    var rel := PathParts(name);
    var external := rel != [] && rel[0] == "_external";
    var reason :=
      if external && |rel| == 1 then Some("external_root_entry")
      else if !external then PathSkipReason(rel)
      else None;
    Entry(f, rel, external, if reason.None? && f.machO then Some("mach_o_binary") else reason)
  }

  function ClassifyAll(files: seq<Info>, names: seq<string>): seq<Entry>
    requires |names| == |files|
  {
    seq(|files|, i requires 0 <= i < |files| => Classify(files[i], names[i]))
  }

  /** The entries of an archive. */
  function EntriesOf(infos: seq<Info>): seq<Entry> {
    ClassifyAll(Files(infos), RelativeNames(Files(infos), Prefix(Files(infos))))
  }

  method ClassifyEntries(prefix: string, files: seq<Info>) returns (entries: seq<Entry>)
    ensures entries == ClassifyAll(files, RelativeNames(files, prefix))
  {
    entries := [];
    for k := 0 to |files|
      invariant |entries| == k
      invariant forall i :: 0 <= i < k ==> entries[i] == Classify(files[i], Relative(prefix, files[i].filename))
    {
      entries := entries + [Classify(files[k], Relative(prefix, files[k].filename))];
    }
  }

  lemma SafePart(names: seq<string>, k: nat)
    requires LawfulNames(names) && k < |names|
    ensures PathParts(names[k]) != [] && AllProper(PathParts(names[k]))
  {
    assert PathsOf(names)[k] == PosixParts(names[k]);
    SafeParts(names[k]);
  }

  /** What follows from an accepted layout: every path stays inside, no two are the same,
      and each entry has one place. */
  predicate WellPlaced(entries: seq<Entry>) {
    && (forall i :: 0 <= i < |entries| ==> PlacedWell(entries[i]))
    && (forall i, j :: 0 <= i < j < |entries| ==> entries[i].rel != entries[j].rel)
  }

  predicate PlacedWell(e: Entry) {
    && e.rel != [] && AllProper(e.rel) && (e.external <==> e.rel[0] == "_external")
    && (e.external && e.reason.None? ==> |e.rel| > 1) && (e.reason.Some? ==> e.reason.value != "")
  }

  lemma LawfulWellPlaced(infos: seq<Info>)
    requires Lawful(infos)
    ensures WellPlaced(EntriesOf(infos))
  {
    var names := RelativeNames(Files(infos), Prefix(Files(infos)));
    NamesWellPlaced(Files(infos), names, EntriesOf(infos));
  }

  lemma NamesWellPlaced(files: seq<Info>, names: seq<string>, entries: seq<Entry>)
    requires LawfulNames(names) && |files| == |names| && entries == ClassifyAll(files, names)
    ensures WellPlaced(entries)
  {
    forall i | 0 <= i < |entries| ensures PlacedWell(entries[i]) {
      SafePart(names, i);
    }
    forall i, j | 0 <= i < j < |entries| ensures entries[i].rel != entries[j].rel {
      assert KeysOf(names)[i] != KeysOf(names)[j];
    }
  }
}
