/** Runs of the import over a small backup: what it publishes beside what one would expect, and
    what an interrupt or a late failure leaves. */
module HermesRuns {
  import opened Options
  import opened Text
  import ArchiveTree
  import opened HermesArchive
  import opened HermesLedger
  import opened HermesMerge
  import opened HermesSteps
  import opened HermesImport

  // ---- A backup of a settings file and one provider's file -------------------------------------

  /** A name that any archive may use. */
  predicate Plain(name: string) {
    ArchiveTree.Proper(name) && Free(name, '\U{0}') && Free(name, '\\')
  }

  function ProviderPath(provider: string, x: string): Path {
    ["_external", provider, x]
  }

  function Backup(provider: string, x: string, imported: Content): seq<Info> {
    var name := ArchiveTree.Key(ProviderPath(provider, x));
    [Info(".env", Ordinary, 0, false, []), Info(name, Ordinary, |imported|, false, imported)]
  }

  function BackupEntries(provider: string, x: string, imported: Content): seq<Entry> {
    var infos := Backup(provider, x, imported);
    [Entry(infos[0], [".env"], false, None), Entry(infos[1], ProviderPath(provider, x), true, None)]
  }

  lemma PlainParts(name: string)
    requires Free(name, '/') && name != "" && name != "."
    ensures ArchiveTree.PathParts(name) == [name] && PosixParts(name) == [name]
  {
    assert Split(name, '/') == [name];
    assert [name][1..] == [];
  }

  lemma PlainSafe(name: string)
    requires name == ".env"
    ensures Free(name, '/') && StripSlashes(name) == name && SafeName(name) && ArchiveTree.PathParts(name) == [name]
  {
    assert name[0] == '.' && name[1] == 'e' && name[2] == 'n' && name[3] == 'v';
    PlainParts(name);
    assert ".." != name;
  }

  lemma PlainKept(name: string)
    requires name == ".env"
    ensures PathSkipReason([name]) == None
  {
    assert |name| == 4 && name[0] == '.' && name[1] == 'e';
    PlainSuffix(name);
    PlainFolder(name);
    assert name != "tmp" && name != "hermes-agent" && name !in RUNTIME_NAMES;
  }

  lemma PlainSuffix(name: string)
    requires |name| == 4 && name[1] == 'e'
    ensures forall i :: 0 <= i < |EXCLUDED_SUFFIXES| ==> !EndsWith(name, EXCLUDED_SUFFIXES[i])
  {
    assert ".pyc"[1] == 'p' && ".pyo"[1] == 'p';
  }

  lemma PlainFolder(name: string)
    requires |name| == 4 && name[0] == '.' && name[1] == 'e'
    ensures name !in EXCLUDED_DIRS
  {
    assert ".git"[1] == 'g' && ".tox"[1] == 't' && ".nox"[1] == 'n' && "venv"[0] == 'v';
  }

  lemma ExternalProper()
    ensures Plain("_external")
  {
    var name := "_external";
    assert |name| == 9 && name[0] == '_' && name[1] == 'e';
  }

  /** A path of plain names is read back from its key. */
  lemma PathOfKey(path: Path)
    requires path != [] && forall i :: 0 <= i < |path| ==> Plain(path[i])
    ensures var name := ArchiveTree.Key(path);
      ArchiveTree.PathParts(name) == path && SafeName(name) && name != ""
  {
    ArchiveTree.KeySplit(path);
    ArchiveTree.KeyNotEmpty(path);
    JoinFree(path, '/', '\U{0}');
    JoinFree(path, '/', '\\');
    assert forall i :: 0 <= i < |path| ==> path[i] != "" && path[i] != "." && path[i] != "..";
  }

  /** A key of a path does not end in a slash. */
  lemma NoFinalSlash(provider: string, x: string, name: string)
    requires Plain(provider) && Plain(x) && name == ArchiveTree.Key(ProviderPath(provider, x))
    ensures name != "" && name[|name| - 1] != '/' && StripSlashes(name) == name
  {
    var path := ProviderPath(provider, x);
    ArchiveTree.KeyAppend(["_external", provider], x);
    assert path == ["_external", provider] + [x];
    assert x[|x| - 1] in x && name[|name| - 1] == x[|x| - 1];
  }

  lemma BackupFiles(infos: seq<Info>)
    requires |infos| == 2 && !infos[0].IsDir() && !infos[1].IsDir()
    ensures Files(infos) == infos && TotalSize(infos) == infos[0].size + infos[1].size
  {
    var first := [infos[0]];
    assert infos[..1] == first && first[..0] == [];
    assert Files(first) == first && TotalSize(first) == infos[0].size;
  }

  lemma BackupNames(infos: seq<Info>, provider: string, x: string, other: string)
    requires Plain(provider) && Plain(x) && |infos| == 2 && infos[0].filename == ".env"
    requires infos[1].filename == other == ArchiveTree.Key(ProviderPath(provider, x))
    ensures Prefix(infos) == "" && RelativeNames(infos, "") == [".env", other]
    ensures LawfulNames([".env", other]) && ArchiveTree.PathParts(".env") == [".env"]
    ensures ArchiveTree.PathParts(other) == ProviderPath(provider, x) && SafeName(other)
  {
    var names := RelativeNames(infos, "");
    PlainSafe(".env");
    ExternalProper();
    PathOfKey(ProviderPath(provider, x));
    SafeParts(".env");
    SafeParts(other);
    assert names == [".env", other];
    var paths := PathsOf(names);
    assert paths[0] == [".env"] && paths[1] == ProviderPath(provider, x);
    assert |".hermes"| == 7 && |"hermes"| == 6 && |".env"| == 4 && |"_external"| == 9;
    assert paths[0][0] == ".env";
    assert Marked(paths[0]);
    KeysApart(".env", ProviderPath(provider, x));
    assert KeysOf(names)[0] == ArchiveTree.Key(paths[0]) && KeysOf(names)[1] == ArchiveTree.Key(paths[1]);
  }

  lemma KeysApart(marker: string, path: Path)
    requires ArchiveTree.Proper(marker) && ArchiveTree.AllProper(path) && |path| == 3
    ensures ArchiveTree.Key([marker]) != ArchiveTree.Key(path)
  {
    var short := [marker];
    assert |short| != |path| && ArchiveTree.AllProper(short);
    if ArchiveTree.Key(short) == ArchiveTree.Key(path) {
      ArchiveTree.KeyInjective(short, path);
    }
  }

  lemma BackupLawful(provider: string, x: string, imported: Content)
    requires Plain(provider) && Plain(x) && |imported| <= MAX_UNCOMPRESSED
    ensures var infos := Backup(provider, x, imported);
      Lawful(infos) && EntriesOf(infos) == BackupEntries(provider, x, imported)
  {
    var infos := Backup(provider, x, imported);
    var other := infos[1].filename;
    PlainSafe(".env");
    PlainKept(".env");
    NoFinalSlash(provider, x, other);
    BackupFiles(infos);
    BackupNames(infos, provider, x, other);
    assert LawfulInfo(infos[0]) && LawfulInfo(infos[1]);
    BackupClasses(infos, provider, x, other);
  }

  lemma BackupClasses(infos: seq<Info>, provider: string, x: string, other: string)
    requires |infos| == 2 && !infos[0].machO && !infos[1].machO
    requires ArchiveTree.PathParts(".env") == [".env"] && PathSkipReason([".env"]) == None
    requires ArchiveTree.PathParts(other) == ProviderPath(provider, x)
    ensures ClassifyAll(infos, [".env", other])
      == [Entry(infos[0], [".env"], false, None), Entry(infos[1], ProviderPath(provider, x), true, None)]
  {
    assert |".env"| == 4 && |"_external"| == 9;
  }

  /** What the backup stages. */
  lemma BackupStaged(entries: seq<Entry>, provider: string, x: string, imported: Content)
    requires entries == BackupEntries(provider, x, imported)
    ensures HomeOf(entries) == map[[".env"] := []] && ProvidersOf(entries) == map[[provider, x] := imported]
    ensures Decompressed(entries) == |imported| && Approved(entries, {provider})
    ensures Importable(entries) && ExternalNames(entries) == {provider}
  {
    var first := entries[..1];
    assert first[..0] == [] && entries[..|entries| - 1] == first && first == [entries[0]];
    assert ProviderPath(provider, x)[1..] == [provider, x];
    assert CategoryOf(entries[0]) == ToHome;
    assert HomeOf(first) == map[[".env"] := []] && ProvidersOf(first) == map[];
    assert Decompressed(first) == |entries[0].info.content| == 0;
    assert IsMarker(entries[0]);
    assert CategoryOf(entries[1]) == ToProvider && entries[1].rel[1] == provider;
  }

  lemma OneProvider(provider: string, x: string, content: Content, staged: Tree)
    requires staged == map[[provider, x] := content]
    ensures Providers(staged) == map[provider := Directory(map[[x] := content])] && FoldersOf(map[[x] := content]) == {}
  {
    var p := [provider, x];
    assert p[1..] == [x] && [provider] + [x] == p && p in staged;
    assert Tops(staged) == {provider};
    assert Below(staged, provider) == map[[x] := content];
    assert |[provider]| == 1 && |p| == 2;
  }

  lemma BackupSources(provider: string, x: string, imported: Content, rewrite: (Path, Content) -> Content,
      entries: seq<Entry>)
    requires entries == BackupEntries(provider, x, imported)
    ensures Sources(rewrite, entries) == map[provider := Directory(map[[x] := rewrite([provider, x], imported)])]
    ensures FoldersOf(map[[x] := rewrite([provider, x], imported)]) == {}
  {
    var staged := map[[provider, x] := imported];
    BackupStaged(entries, provider, x, imported);
    assert Rewritten(staged, rewrite) == map[[provider, x] := rewrite([provider, x], imported)];
    OneProvider(provider, x, rewrite([provider, x], imported), Rewritten(staged, rewrite));
  }

  lemma BackupExtractable(entries: seq<Entry>, provider: string, x: string, imported: Content)
    requires entries == BackupEntries(provider, x, imported) && |imported| <= MAX_UNCOMPRESSED
    ensures Importable(entries) && ExternalNames(entries) == {provider} && Extractable(entries, {provider})
  {
    BackupStaged(entries, provider, x, imported);
  }

  /** The backup is acceptable and can be staged. */
  lemma BackupFit(provider: string, x: string, imported: Content, infos: seq<Info>)
    requires Plain(provider) && Plain(x) && |imported| <= MAX_UNCOMPRESSED && provider !in RESERVED
    requires infos == Backup(provider, x, imported)
    ensures Acceptable(infos, {provider}) && Stageable(infos, {provider})
    ensures EntriesOf(infos) == BackupEntries(provider, x, imported)
  {
    BackupLawful(provider, x, imported);
    BackupExtractable(EntriesOf(infos), provider, x, imported);
  }

  // ---- What is published -----------------------------------------------------------------------

  /** The backup brings a file x for a provider that holds x/y. Nothing stands in the way of the
      import, and it publishes the file as x/x. */
  lemma FilePublishedInside(top: map<string, Node>, home: string, provider: string, x: string, y: string,
      kept: Content, imported: Content, rewrite: (Path, Content) -> Content, infos: seq<Info>)
    requires Plain(provider) && Plain(x) && |imported| <= MAX_UNCOMPRESSED && provider !in RESERVED
    requires provider != home && x != y && infos == Backup(provider, x, imported)
    requires top == map[provider := Dir(map[[x, y] := kept], {[x]}, false)]
    ensures Sound(top, home, infos, infos, {provider}, rewrite)
    ensures SomeFileOnFolder(top, home, Sources(rewrite, EntriesOf(infos)))
    ensures Completed(top, home, rewrite, EntriesOf(infos)) == map[
      provider := Dir(map[[x, y] := kept, [x, x] := rewrite([provider, x], imported)], {[x]}, false),
      home := NewHome(rewrite, EntriesOf(infos))]
  {
    BackupFit(provider, x, imported, infos);
    BackupSources(provider, x, imported, rewrite, EntriesOf(infos));
    InstalledInside(top, home, NewHome(rewrite, EntriesOf(infos)), Sources(rewrite, EntriesOf(infos)), provider, x, y,
      kept, rewrite([provider, x], imported));
  }

  lemma InstalledInside(top: map<string, Node>, home: string, stage: Node, sources: map<string, Node>,
      provider: string, x: string, y: string, kept: Content, content: Content)
    requires provider != home && x != y
    requires top == map[provider := Dir(map[[x, y] := kept], {[x]}, false)]
    requires sources == map[provider := Dir(map[[x] := content], {}, false)]
    ensures Installed(top, home, stage, sources)
      == map[provider := Dir(map[[x, y] := kept, [x, x] := content], {[x]}, false), home := stage]
    ensures Swappable(top, home, sources) && SomeFileOnFolder(top, home, sources)
  {
    FileNestsInFolder(top[provider], sources[provider], x, y, kept, content);
    assert [x] in sources[provider].files;
  }

  // ---- What is left ----------------------------------------------------------------------------

  /** An interrupt between the two renames of an existing home leaves it aside. */
  lemma HomeLeftAside(r: Result, before: map<string, Node>, published: Option<Ledger>, top: map<string, Node>,
      manifest: Option<Ledger>, previous: Option<Node>, home: string, stage: Node, sources: map<string, Node>,
      report: Option<Ledger>)
    requires EndsBy(r, Interrupt(PlacingHome), true, true, before, home, sources)
    requires Promised(r, before, published, top, manifest, previous, home, stage, sources, report)
    requires Swappable(before, home, sources) && home in before
    ensures home !in top && previous == Some(before[home]) && manifest == published
  {
    assert Lookup(top, home) == Under(home, before, home, stage, sources, PlacingHome);
  }

  /** An interrupt between the two renames of a provider loses its old tree; the home is the new
      one then, with the old manifest. */
  lemma ProviderLost(r: Result, before: map<string, Node>, published: Option<Ledger>, top: map<string, Node>,
      manifest: Option<Ledger>, previous: Option<Node>, home: string, stage: Node, sources: map<string, Node>,
      report: Option<Ledger>, provider: string)
    requires EndsBy(r, Interrupt(Provider(provider, PlacingNew)), true, true, before, home, sources)
    requires Promised(r, before, published, top, manifest, previous, home, stage, sources, report)
    requires Swappable(before, home, sources) && provider in sources
    ensures provider !in top && Lookup(top, home) == Some(stage) && manifest == published
  {
    var at := Provider(provider, PlacingNew);
    BeforeTotal(provider, provider);
    assert !Unfit(before, home, provider, sources[provider]);
    assert Lookup(top, home) == Under(home, before, home, stage, sources, at);
    assert Lookup(top, provider) == Under(provider, before, home, stage, sources, at);
  }

  /** When the old provider trees cannot be removed, the rollback finds no old home any more, and
      the manifest tells of a completed import. */
  lemma HomeLost(r: Result, before: map<string, Node>, published: Option<Ledger>, top: map<string, Node>,
      manifest: Option<Ledger>, previous: Option<Node>, home: string, stage: Node, sources: map<string, Node>,
      report: Option<Ledger>)
    requires EndsBy(r, Exception(RemovingOld), true, true, before, home, sources)
    requires Promised(r, before, published, top, manifest, previous, home, stage, sources, report)
    requires Swappable(before, home, sources)
    ensures home !in top && previous.None? && manifest == report
  {
  }

  /** A home that is a link or a file cannot be removed: without any trouble all is rolled back,
      with the manifest published. */
  lemma PublishedUndone(r: Result, before: map<string, Node>, published: Option<Ledger>, top: map<string, Node>,
      manifest: Option<Ledger>, previous: Option<Node>, home: string, stage: Node, sources: map<string, Node>,
      report: Option<Ledger>)
    requires EndsBy(r, Nothing, true, true, before, home, sources)
    requires Promised(r, before, published, top, manifest, previous, home, stage, sources, report)
    requires home in before && (before[home] == Link(true) || before[home].File?) && NoneUnfit(before, home, sources)
    ensures r == Failed(RemovingHome) && top == before && previous.None? && manifest == report
  {
    assert r.at.RemovingHome?;
    SameLookups(top, before);
  }

  /** The import of the backup with a given trouble. */
  method ImportBackup(w: Workspace, provider: string, x: string, imported: Content,
      rewrite: (Path, Content) -> Content, trouble: Trouble, ghost sources: map<string, Node>)
      returns (r: Result, ghost stage: Node, ghost report: Option<Ledger>)
    requires w.StagingGone() && w.previous.None?
    requires Plain(provider) && Plain(x) && |imported| <= MAX_UNCOMPRESSED && provider !in RESERVED
    requires sources == map[provider := Directory(map[[x] := rewrite([provider, x], imported)])]
    modifies w
    ensures EndsBy(r, trouble, true, true, old(w.top), w.home, sources)
    ensures Promised(r, old(w.top), old(w.manifest), w.top, w.manifest, w.previous, w.home, stage, sources, report)
    ensures w.StagingGone() <==> !LeavesDirectories(trouble)
    ensures report.Some?
  {
    var infos := Backup(provider, x, imported);
    ghost var entries := EntriesOf(infos);
    BackupFit(provider, x, imported, infos);
    BackupSources(provider, x, imported, rewrite, entries);
    r := w.ImportZip(infos, infos, {provider}, rewrite, trouble);
    stage, report := NewHome(rewrite, entries), Report(infos);
  }

  /** The second staging directory cannot be made, and the first stays behind. */
  method LeavesDirectoryBehind(w: Workspace, provider: string, x: string, imported: Content)
    requires w.StagingGone() && w.previous.None?
    requires Plain(provider) && Plain(x) && |imported| <= MAX_UNCOMPRESSED && provider !in RESERVED
    modifies w
    ensures !w.StagingGone()
  {
    var r, _, _ := ImportBackup(w, provider, x, imported, (p, c) => c, Exception(MakingDirectory(2)),
      map[provider := Directory(map[[x] := imported])]);
  }

  /** The interrupted import of the backup over a home and a provider with another file: the old
      tree of the provider is nowhere any more. */
  method LosesProvider(w: Workspace, provider: string, x: string, imported: Content, y: string, kept: Content)
    requires w.StagingGone() && w.previous.None? && Replaceable(Lookup(w.top, w.home)) && provider != w.home
    requires Plain(provider) && Plain(x) && |imported| <= MAX_UNCOMPRESSED && provider !in RESERVED
    requires x != y && provider in w.top && w.top[provider] == Dir(map[[y] := kept], {}, false)
    modifies w
    ensures provider !in w.top && w.StagingGone() && w.manifest == old(w.manifest)
  {
    ghost var sources := map[provider := Directory(map[[x] := imported])];
    var r;
    ghost var stage, report;
    r, stage, report := ImportBackup(w, provider, x, imported, (p, c) => c, Interrupt(Provider(provider, PlacingNew)),
      sources);
    ProviderLost(r, old(w.top), old(w.manifest), w.top, w.manifest, w.previous, w.home, stage, sources, report,
      provider);
  }

  /** The import of the backup over a home, whose old tree is removed when another removal
      fails. */
  method LosesHome(w: Workspace, provider: string, x: string, imported: Content)
    requires w.StagingGone() && w.previous.None? && w.home in w.top && w.top[w.home].Dir?
    requires Plain(provider) && Plain(x) && |imported| <= MAX_UNCOMPRESSED && provider !in RESERVED
    requires provider != w.home && provider !in w.top
    modifies w
    ensures w.home !in w.top && w.StagingGone() && w.previous.None? && w.manifest.Some?
  {
    ghost var sources := map[provider := Directory(map[[x] := imported])];
    var r;
    ghost var stage, report;
    r, stage, report := ImportBackup(w, provider, x, imported, (p, c) => c, Exception(RemovingOld), sources);
    HomeLost(r, old(w.top), old(w.manifest), w.top, w.manifest, w.previous, w.home, stage, sources, report);
  }
}
