/** What of a backup is staged, where, and why the rest is not, said of the archive's own entries. */
module HermesScope {
  import opened Options
  import opened Text
  import opened ArchiveTree
  import opened HermesArchive
  import opened HermesLedger
  import opened HermesMerge
  import opened HermesSteps

  // ---- A file's place ------------------------------------------------------------------------

  predicate IsFile(f: Info) {
    !(|f.filename| > 0 && f.filename[|f.filename| - 1] == '/')
  }

  /** All files of the archive are in the directory of this name. */
  predicate AllIn(infos: seq<Info>, top: string) {
    forall i :: 0 <= i < |infos| && IsFile(infos[i]) ==>
      PathParts(infos[i].filename) != [] && PathParts(infos[i].filename)[0] == top
  }

  /** The path of a file, without the directory that holds the whole backup. */
  function Place(infos: seq<Info>, name: string): seq<string> {
    if AllIn(infos, ".hermes") && StartsWith(name, ".hermes/") then PathParts(name[8..])
    else if AllIn(infos, "hermes") && !AllIn(infos, ".hermes") && StartsWith(name, "hermes/") then PathParts(name[7..])
    else PathParts(name)
  }

  /** The archive has a file of this path. */
  predicate HasFile(infos: seq<Info>, i: int, path: seq<string>) {
    0 <= i < |infos| && IsFile(infos[i]) && Place(infos, infos[i].filename) == path
  }

  // ---- What belongs where --------------------------------------------------------------------

  predicate Suffixed(name: string) {
    exists i :: 0 <= i < |EXCLUDED_SUFFIXES| && EndsWith(name, EXCLUDED_SUFFIXES[i])
  }

  predicate InExcluded(path: seq<string>) {
    exists k :: 0 <= k < |path| && path[k] in EXCLUDED_DIRS
  }

  /** A path whose file belongs to the home. */
  predicate HomePath(path: seq<string>) {
    && path != [] && path[0] != "_external" && path[0] != "tmp" && path[0] != "hermes-agent" && !InExcluded(path)
    && path[|path| - 1] !in RUNTIME_NAMES && !Suffixed(path[|path| - 1])
  }

  /** The reasons for which a file is left out, the one that is given first. */
  const REASONS := [
    "external_root_entry", "root_tmp", "runtime_state", "excluded_suffix", "hermes_agent_checkout",
    "excluded_directory", "mach_o_binary"
  ]

  /** A reason holds of a file. Below _external only the first and the last do. */
  predicate Holds(k: int, path: seq<string>, machO: bool) {
    path != []
    && match k
      case 0 => path == ["_external"]
      case 1 => path[0] == "tmp"
      case 2 => path[0] != "_external" && path[|path| - 1] in RUNTIME_NAMES
      case 3 => path[0] != "_external" && Suffixed(path[|path| - 1])
      case 4 => path[0] == "hermes-agent"
      case 5 => path[0] != "_external" && InExcluded(path)
      case 6 => machO
      case _ => false
  }

  /** The reason given is the first that holds, and there is none exactly when none holds. */
  predicate FirstHolds(reason: Option<string>, path: seq<string>, machO: bool) {
    if reason.None? then forall k :: 0 <= k < |REASONS| ==> !Holds(k, path, machO)
    else exists k :: 0 <= k < |REASONS| && reason.value == REASONS[k] && FirstAtReason(k, path, machO)
  }

  predicate FirstAtReason(k: nat, path: seq<string>, machO: bool) {
    Holds(k, path, machO) && forall j :: 0 <= j < k ==> !Holds(j, path, machO)
  }

  lemma ExcludedExact(path: seq<string>)
    ensures InExcluded(path) <==> exists part :: part in path && part in EXCLUDED_DIRS
  {
    if part :| part in path && part in EXCLUDED_DIRS {
      var k :| 0 <= k < |path| && path[k] == part;
    }
  }

  /** Which reason that is. */
  function ReasonOf(path: seq<string>): (k: nat)
    requires path != []
    ensures k < |REASONS|
  {
    if path == ["_external"] then 0
    else if path[0] == "_external" then 6
    else if path[0] == "tmp" then 1
    else if path[|path| - 1] in RUNTIME_NAMES then 2
    else if Suffixed(path[|path| - 1]) then 3
    else if path[0] == "hermes-agent" then 4
    else if InExcluded(path) then 5
    else 6
  }

  lemma PathReason(path: seq<string>)
    requires path != [] && path[0] != "_external"
    ensures PathSkipReason(path) == if ReasonOf(path) < 6 then Some(REASONS[ReasonOf(path)]) else None
  {
    ExcludedExact(path);
  }

  lemma ReasonGiven(f: Info, name: string, e: Entry, path: seq<string>)
    requires e == Classify(f, name) && path == PathParts(name) && path != [] && e.reason.Some?
    ensures e.reason.value == REASONS[ReasonOf(path)] && (ReasonOf(path) == 6 ==> f.machO)
  {
    if path[0] != "_external" {
      PathReason(path);
    } else {
      assert path == ["_external"] <==> |path| == 1;
    }
  }

  lemma ReasonIsHeld(path: seq<string>, machO: bool)
    requires path != [] && (ReasonOf(path) == 6 ==> machO)
    ensures FirstAtReason(ReasonOf(path), path, machO)
  {
  }

  /** An entry's reason is the first that holds of its path. */
  lemma ReasonIsFirst(f: Info, name: string, e: Entry)
    requires e == Classify(f, name) && PathParts(name) != []
    ensures FirstHolds(e.reason, PathParts(name), f.machO) && e.rel == PathParts(name) && e.info == f
    ensures e.external <==> PathParts(name)[0] == "_external"
  {
    ExcludedExact(PathParts(name));
    if e.reason.Some? {
      ReasonGiven(f, name, e, PathParts(name));
      ReasonIsHeld(PathParts(name), f.machO);
    }
  }

  /** A file without a reason against it: below the home, or a provider's. */
  lemma NoneHolds(path: seq<string>, machO: bool)
    requires path != []
    ensures path[0] != "_external" ==> (FirstHolds(None, path, machO) <==> HomePath(path) && !machO)
    ensures path[0] == "_external" ==> (FirstHolds(None, path, machO) <==> |path| > 1 && !machO)
  {
    if FirstHolds(None, path, machO) {
      assert forall k :: 0 <= k < |REASONS| ==> !Holds(k, path, machO);
      assert !Holds(0, path, machO) && !Holds(1, path, machO) && !Holds(2, path, machO) && !Holds(3, path, machO);
      assert !Holds(4, path, machO) && !Holds(5, path, machO) && !Holds(6, path, machO);
    }
    assert path == ["_external"] <==> path[0] == "_external" && |path| == 1;
  }

  // ---- Files and entries ---------------------------------------------------------------------

  lemma {:induction false} FilesMembers(infos: seq<Info>, f: Info)
    ensures f in Files(infos) <==> f in infos && IsFile(f)
  {
    if infos != [] {
      var front, last := infos[..|infos| - 1], infos[|infos| - 1];
      FilesMembers(front, f);
      assert f in infos <==> f in front || f == last;
    }
  }

  lemma LawfulFile(infos: seq<Info>, f: Info)
    requires Lawful(infos) && f in Files(infos)
    ensures SafeName(f.filename) && PosixParts(f.filename) == PathParts(f.filename)
  {
    FilesMembers(infos, f);
    var i :| 0 <= i < |infos| && infos[i] == f;
    assert LawfulInfo(infos[i]) && StripSlashes(f.filename) == f.filename;
    SafeParts(f.filename);
  }

  lemma FilePath(infos: seq<Info>, j: nat)
    requires Lawful(infos) && j < |Files(infos)|
    ensures PathsOf(RelativeNames(Files(infos), ""))[j] == PathParts(Files(infos)[j].filename)
  {
    LawfulFile(infos, Files(infos)[j]);
  }

  /** All files lie in a directory exactly when all their paths do. */
  lemma AllInExact(infos: seq<Info>, top: string)
    requires Lawful(infos)
    ensures AllIn(infos, top) <==> AllBelow(PathsOf(RelativeNames(Files(infos), "")), top)
  {
    var paths := PathsOf(RelativeNames(Files(infos), ""));
    forall j | 0 <= j < |paths| ensures paths[j] == PathParts(Files(infos)[j].filename) {
      FilePath(infos, j);
    }
    AllInPaths(infos, Files(infos), paths, top);
  }

  lemma AllInPaths(infos: seq<Info>, files: seq<Info>, paths: seq<seq<string>>, top: string)
    requires files == Files(infos) && |paths| == |files|
    requires forall j :: 0 <= j < |files| ==> paths[j] == PathParts(files[j].filename)
    ensures AllIn(infos, top) <==> AllBelow(paths, top)
  {
    if AllBelow(paths, top) {
      forall i | 0 <= i < |infos| && IsFile(infos[i])
        ensures PathParts(infos[i].filename) != [] && PathParts(infos[i].filename)[0] == top
      {
        FilesMembers(infos, infos[i]);
        var j :| 0 <= j < |files| && files[j] == infos[i];
        assert paths[j] != [] && paths[j][0] == top;
      }
    }
    if AllIn(infos, top) {
      forall j | 0 <= j < |paths| ensures paths[j] != [] && paths[j][0] == top {
        FilesMembers(infos, files[j]);
        var i :| 0 <= i < |infos| && infos[i] == files[j];
      }
    }
  }

  lemma PlaceExact(infos: seq<Info>, name: string)
    requires Lawful(infos)
    ensures Place(infos, name) == PathParts(Relative(Prefix(Files(infos)), name))
  {
    AllInExact(infos, ".hermes");
    AllInExact(infos, "hermes");
    assert |".hermes/"| == 8 && |"hermes/"| == 7;
  }

  /** Each file of the archive is one of its entries, under its place. */
  lemma EntryPlace(infos: seq<Info>, j: nat)
    requires Lawful(infos) && j < |Files(infos)|
    ensures var e, f := EntriesOf(infos)[j], Files(infos)[j];
      && e.info == f && e.rel == Place(infos, f.filename) && e.rel != [] && FirstHolds(e.reason, e.rel, f.machO)
      && (e.external <==> e.rel[0] == "_external")
  {
    var f := Files(infos)[j];
    var name := Relative(Prefix(Files(infos)), f.filename);
    PlaceExact(infos, f.filename);
    LawfulWellPlaced(infos);
    assert PlacedWell(EntriesOf(infos)[j]) && EntriesOf(infos)[j] == Classify(f, name);
    ReasonIsFirst(f, name, EntriesOf(infos)[j]);
  }

  // ---- What is staged ------------------------------------------------------------------------

  /** A file of this home path that is no Mach-O binary. */
  predicate InHome(infos: seq<Info>, i: int, path: seq<string>) {
    HasFile(infos, i, path) && HomePath(path) && !infos[i].machO
  }

  /** A file of this path below _external that is no Mach-O binary. */
  predicate InProviders(infos: seq<Info>, i: int, path: seq<string>) {
    HasFile(infos, i, ["_external"] + path) && path != [] && !infos[i].machO
  }

  lemma FileOf(infos: seq<Info>, i: int, path: seq<string>) returns (j: nat)
    requires Lawful(infos) && HasFile(infos, i, path)
    ensures j < |Files(infos)| && Files(infos)[j] == infos[i] && EntriesOf(infos)[j].rel == path
  {
    FilesMembers(infos, infos[i]);
    j :| 0 <= j < |Files(infos)| && Files(infos)[j] == infos[i];
    EntryPlace(infos, j);
  }

  lemma InfoOf(infos: seq<Info>, j: nat) returns (i: nat)
    requires Lawful(infos) && j < |Files(infos)|
    ensures HasFile(infos, i, EntriesOf(infos)[j].rel) && infos[i] == Files(infos)[j]
  {
    FilesMembers(infos, Files(infos)[j]);
    i :| 0 <= i < |infos| && infos[i] == Files(infos)[j];
    EntryPlace(infos, j);
  }

  /** What is staged for the home is exactly the archive's files that belong there, each with its
      content. */
  lemma HomeExactly(infos: seq<Info>, path: seq<string>)
    requires Lawful(infos)
    ensures path in HomeOf(EntriesOf(infos)) <==> exists i :: InHome(infos, i, path)
    ensures forall i :: InHome(infos, i, path) && path in HomeOf(EntriesOf(infos)) ==>
      HomeOf(EntriesOf(infos))[path] == infos[i].content
  {
    var entries := EntriesOf(infos);
    LawfulWellPlaced(infos);
    forall i | InHome(infos, i, path) ensures path in HomeOf(entries) && HomeOf(entries)[path] == infos[i].content {
      var j := FileOf(infos, i, path);
      EntryPlace(infos, j);
      NoneHolds(path, infos[i].machO);
      Unreasoned(entries[j], path, infos[i].machO);
      EveryEntryLands(entries, j);
    }
    if path in HomeOf(entries) {
      HomeFrom(entries, path);
      var j :| 0 <= j < |entries| && CategoryOf(entries[j]) == ToHome && entries[j].rel == path;
      EntryPlace(infos, j);
      NoneHolds(path, entries[j].info.machO);
      var i := InfoOf(infos, j);
      assert InHome(infos, i, path);
    }
  }

  /** Where no reason holds, none is given. */
  lemma Unreasoned(e: Entry, path: seq<string>, machO: bool)
    requires FirstHolds(e.reason, path, machO) && FirstHolds(None, path, machO)
    ensures e.reason.None?
  {
  }

  /** What is staged for the providers is exactly the archive's files below _external, deeper
      than one component. */
  lemma ProvidersExactly(infos: seq<Info>, path: seq<string>)
    requires Lawful(infos)
    ensures path in ProvidersOf(EntriesOf(infos)) <==> exists i :: InProviders(infos, i, path)
    ensures forall i :: InProviders(infos, i, path) && path in ProvidersOf(EntriesOf(infos)) ==>
      ProvidersOf(EntriesOf(infos))[path] == infos[i].content
  {
    var entries, full := EntriesOf(infos), ["_external"] + path;
    LawfulWellPlaced(infos);
    forall i | InProviders(infos, i, path)
      ensures path in ProvidersOf(entries) && ProvidersOf(entries)[path] == infos[i].content
    {
      var j := FileOf(infos, i, full);
      EntryPlace(infos, j);
      NoneHolds(full, infos[i].machO);
      Unreasoned(entries[j], full, infos[i].machO);
      EveryEntryLands(entries, j);
      assert full[1..] == path;
    }
    if path in ProvidersOf(entries) {
      ProvidersFrom(entries, path);
      var j :| 0 <= j < |entries| && CategoryOf(entries[j]) == ToProvider && entries[j].rel == full;
      EntryPlace(infos, j);
      NoneHolds(full, entries[j].info.machO);
      var i := InfoOf(infos, j);
      assert InProviders(infos, i, path);
    }
  }

  /** Every file that is left out is left out for the first reason that holds of it. */
  lemma SkippedForFirstReason(infos: seq<Info>, i: int, path: seq<string>) returns (j: nat)
    requires Lawful(infos) && HasFile(infos, i, path)
    ensures j < |EntriesOf(infos)| && EntriesOf(infos)[j].rel == path && EntriesOf(infos)[j].info == infos[i]
    ensures FirstHolds(EntriesOf(infos)[j].reason, path, infos[i].machO)
  {
    j := FileOf(infos, i, path);
    EntryPlace(infos, j);
  }

  // ---- The ledger's sides --------------------------------------------------------------------

  /** The bytes of these files. */
  ghost function ContentBytes(files: map<seq<string>, Content>): nat {
    if files == map[] then 0
    else
      var path :| path in files;
      |files[path]| + ContentBytes(files - {path})
  }

  lemma {:induction false} ContentBytesAt(files: map<seq<string>, Content>, path: seq<string>)
    requires path in files
    ensures ContentBytes(files) == |files[path]| + ContentBytes(files - {path})
    decreases |files|
  {
    var first :| first in files && ContentBytes(files) == |files[first]| + ContentBytes(files - {first});
    if first != path {
      ContentBytesAt(files - {first}, path);
      ContentBytesAt(files - {path}, first);
      assert files - {first} - {path} == files - {path} - {first};
    }
  }

  lemma OneMore(files: map<seq<string>, Content>, path: seq<string>, content: Content)
    requires path !in files
    ensures ContentBytes(files[path := content]) == ContentBytes(files) + |content|
  {
    var more := files[path := content];
    ContentBytesAt(more, path);
    assert more - {path} == files;
  }

  /** The declared sizes are the real ones. */
  predicate Honest(entries: seq<Entry>) {
    forall i :: 0 <= i < |entries| ==> entries[i].info.size == |entries[i].info.content|
  }

  lemma {:induction false} BytesStaged(entries: seq<Entry>)
    requires WellPlaced(entries) && Honest(entries)
    ensures Bytes(entries, ToHome) == ContentBytes(HomeOf(entries))
    ensures Bytes(entries, ToProvider) == ContentBytes(ProvidersOf(entries))
  {
    if entries != [] {
      var init, e := entries[..|entries| - 1], entries[|entries| - 1];
      Unskipped(entries);
      NewTarget(entries);
      assert forall i :: 0 <= i < |init| ==> init[i] == entries[i];
      BytesStaged(init);
      if CategoryOf(e) == ToHome {
        OneMore(HomeOf(init), Target(e), e.info.content);
      } else if CategoryOf(e) == ToProvider {
        OneMore(ProvidersOf(init), Target(e), e.info.content);
      }
    }
  }

  /** The ledger counts on each side what is staged on that side, and the bytes too where the
      declared sizes are the real ones. */
  lemma LedgerSides(entries: seq<Entry>)
    requires WellPlaced(entries)
    ensures var l := LedgerOf(entries);
      && l.hermesFiles == |HomeOf(entries)| && l.externalFiles == |ProvidersOf(entries)|
      && (Honest(entries) ==>
        l.hermesBytes == ContentBytes(HomeOf(entries)) && l.externalBytes == ContentBytes(ProvidersOf(entries)))
  {
    NothingOverwritten(entries);
    if Honest(entries) {
      BytesStaged(entries);
    }
  }

  // ---- What the import asks of the entries -----------------------------------------------------

  /** The archive is importable exactly when a marker of a home is staged at the home's root. */
  lemma ImportableExactly(entries: seq<Entry>)
    requires WellPlaced(entries)
    ensures Importable(entries) <==> exists m :: m in MARKERS && [m] in HomeOf(entries)
  {
    if Importable(entries) {
      var i :| 0 <= i < |entries| && IsMarker(entries[i]);
      EveryEntryLands(entries, i);
      assert [entries[i].rel[0]] == entries[i].rel;
    }
    if m :| m in MARKERS && [m] in HomeOf(entries) {
      HomeFrom(entries, [m]);
      var i :| 0 <= i < |entries| && CategoryOf(entries[i]) == ToHome && entries[i].rel == [m];
      assert IsMarker(entries[i]);
    }
  }

  /** The names the preview shows are those of the providers that are staged. */
  lemma NamesAreStaged(entries: seq<Entry>)
    requires WellPlaced(entries)
    ensures ExternalNames(entries) == Tops(ProvidersOf(entries))
    ensures forall approved :: Approved(entries, approved) <==> Tops(ProvidersOf(entries)) <= approved
  {
    forall i | 0 <= i < |entries| && CategoryOf(entries[i]) == ToProvider
      ensures |entries[i].rel| > 1 && entries[i].rel[1] in Tops(ProvidersOf(entries))
    {
      EveryEntryLands(entries, i);
      assert PlacedWell(entries[i]) && Target(entries[i])[0] == entries[i].rel[1];
    }
    forall name | name in Tops(ProvidersOf(entries))
      ensures exists i ::
        0 <= i < |entries| && CategoryOf(entries[i]) == ToProvider && |entries[i].rel| > 1 && entries[i].rel[1] == name
    {
      var path :| path in ProvidersOf(entries) && path != [] && path[0] == name;
      ProvidersFrom(entries, path);
      var i :| 0 <= i < |entries| && CategoryOf(entries[i]) == ToProvider && entries[i].rel == ["_external"] + path;
      assert entries[i].rel[1] == name;
    }
  }

  /** The bytes that count against the limit are those that are staged. */
  lemma {:induction false} DecompressedIsStaged(entries: seq<Entry>)
    requires WellPlaced(entries)
    ensures Decompressed(entries) == ContentBytes(HomeOf(entries)) + ContentBytes(ProvidersOf(entries))
  {
    if entries != [] {
      var init, e := entries[..|entries| - 1], entries[|entries| - 1];
      Unskipped(entries);
      NewTarget(entries);
      DecompressedIsStaged(init);
      if CategoryOf(e) == ToHome {
        OneMore(HomeOf(init), Target(e), e.info.content);
      } else if CategoryOf(e) == ToProvider {
        OneMore(ProvidersOf(init), Target(e), e.info.content);
      }
    }
  }

  /** No accepted archive holds a name with a NUL or a backslash, an absolute one, one with "..",
      a symbolic link, or a file that is neither regular nor of no type. */
  lemma AcceptedNames(infos: seq<Info>, i: nat)
    requires Lawful(infos) && i < |infos|
    ensures var name := if IsFile(infos[i]) then infos[i].filename else StripSlashes(infos[i].filename);
      && (forall k :: 0 <= k < |name| ==> name[k] != '\U{0}' && name[k] != '\\')
      && (name != "" ==> name[0] != '/') && ".." !in Split(name, '/')
    ensures infos[i].mode != SymbolicLinkMode
    ensures IsFile(infos[i]) ==> infos[i].mode == Unset || infos[i].mode == Ordinary
  {
    assert LawfulInfo(infos[i]);
    var name := StripSlashes(infos[i].filename);
    assert forall k :: 0 <= k < |name| ==> name[k] in name;
    assert ".." in Split(name, '/') ==> ".." in RawParts(name);
  }
}
