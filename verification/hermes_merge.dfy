/** Directory trees, and what copying one over another really makes: a file that meets an
    existing directory of its name is written inside that directory. */
module HermesMerge {
  import opened Options
  import opened HermesArchive
  import opened HermesLedger

  type Path = seq<string>
  type Tree = map<Path, Content>

  /** A file, a directory given by its files and its folders, empty ones included, with whether
      links lie in it, or a link, with whether it leads anywhere. */
  datatype Node = File(content: Content) | Dir(files: Tree, folders: set<Path>, links: bool) | Link(leads: bool)

  /** The folders that these files need. */
  function FoldersOf(files: Tree): set<Path> {
    set p, k | p in files && 0 < k < |p| :: p[..k]
  }

  /** A tree as it can stand in a file system: every file's folders are there, and no path is
      both. */
  ghost predicate WellFormed(n: Node) {
    n.Dir? ==> FoldersOf(n.files) <= n.folders && n.files.Keys !! n.folders && [] !in n.files
  }

  /** A directory as extraction leaves it: nothing but files and their folders. */
  ghost predicate Staged(n: Node) {
    n.Dir? ==> PrefixFree(n.files) && [] !in n.files && n.folders == FoldersOf(n.files)
  }

  lemma StagedWellFormed(n: Node)
    requires Staged(n)
    ensures WellFormed(n)
  {
    if n.Dir? {
      forall p | p in n.files ensures p !in n.folders {
        if p in n.folders {
          var q, k :| q in n.files && 0 < k < |q| && q[..k] == p;
          assert StrictPrefix(p, q);
        }
      }
    }
  }

  // ---- Copying one tree over another -----------------------------------------------------

  function Last(p: Path): string
    requires p != []
  {
    p[|p| - 1]
  }

  /** Where shutil.copy2 writes: inside the destination if that is a directory. */
  function Landing(folders: set<Path>, p: Path): Path {
    if p in folders && p != [] then p + [Last(p)] else p
  }

  /** A path that names the inside of a folder like the folder itself. */
  predicate Doubled(q: Path) {
    |q| >= 2 && q[|q| - 1] == q[|q| - 2]
  }

  /** The content a path gets from the copied files, if any of them lands there. */
  function Landed(folders: set<Path>, source: Tree, q: Path): Option<Content> {
    if q in source && q !in folders then Some(source[q])
    else if Doubled(q) && q[..|q| - 1] in source && q[..|q| - 1] in folders then Some(source[q[..|q| - 1]])
    else None
  }

  function LandingPaths(folders: set<Path>, source: Tree): set<Path> {
    set p | p in source :: Landing(folders, p)
  }

  /** The files after a copy over these files and folders. */
  function Laid(files: Tree, folders: set<Path>, source: Tree): Tree {
    map q | q in files.Keys + LandingPaths(folders, source) && (q in files || Landed(folders, source, q).Some?) ::
      if Landed(folders, source, q).Some? then Landed(folders, source, q).value else files[q]
  }

  /** What a provider becomes: new files are copied over an existing directory; anything else
      is replaced. */
  function Merged(existing: Option<Node>, source: Node): Node {
    if existing.Some? && existing.value.Dir? && source.Dir?
    then
      var files, folders := existing.value.files, existing.value.folders;
      Dir(Laid(files, folders, source.files), folders + source.folders, false)
    else source
  }

  /** What one would expect it to become: the new tree laid over the old one. */
  function Overlaid(existing: Option<Node>, source: Node): Node {
    if existing.Some? && existing.value.Dir? && source.Dir?
    then Dir(existing.value.files + source.files, existing.value.folders + source.folders, false)
    else source
  }

  /** Copying this file fails: a folder it needs is a file, or it would have to replace a
      folder inside the folder of its name. */
  predicate BlockedAt(files: Tree, folders: set<Path>, p: Path) {
    || (exists k :: 0 < k < |p| && p[..k] in files)
    || (p in folders && Landing(folders, p) in folders)
  }

  predicate Blocked(existing: Node, source: Node) {
    existing.Dir? && source.Dir? && exists p :: p in source.files && BlockedAt(existing.files, existing.folders, p)
  }

  // ---- The copy, file by file ------------------------------------------------------------

  lemma LandedNext(folders: set<Path>, source: Tree, p: Path, c: Content, q: Path)
    requires PrefixFree(source[p := c]) && p !in source && p != []
    ensures Landed(folders, source[p := c], q) == if q == Landing(folders, p) then Some(c)
      else Landed(folders, source, q)
  {
    var more := source[p := c];
    if Doubled(q) && q[..|q| - 1] in more && q in more {
      assert StrictPrefix(q[..|q| - 1], q);
    }
    if p in folders {
      assert (p + [Last(p)])[..|p|] == p;
    }
  }

  /** One more file copied. */
  lemma LaidNext(files: Tree, folders: set<Path>, source: Tree, p: Path, c: Content)
    requires PrefixFree(source[p := c]) && p !in source && p != []
    ensures Laid(files, folders, source[p := c]) == Laid(files, folders, source)[Landing(folders, p) := c]
  {
    forall q {
      LandedNext(folders, source, p, c, q);
    }
  }

  function Prefixes(p: Path): set<Path> {
    set k | 0 < k < |p| :: p[..k]
  }

  lemma FoldersNext(source: Tree, p: Path, c: Content)
    requires p !in source
    ensures FoldersOf(source[p := c]) == FoldersOf(source) + Prefixes(p)
  {
    var more := source[p := c];
    forall d ensures d in FoldersOf(more) <==> d in FoldersOf(source) + Prefixes(p) {
      if d in FoldersOf(more) {
        var q, k :| q in more && 0 < k < |q| && q[..k] == d;
        assert q == p || q in source;
      }
      if d in FoldersOf(source) {
        var q, k :| q in source && 0 < k < |q| && q[..k] == d;
        assert q in more;
      }
      if d in Prefixes(p) {
        var k :| 0 < k < |p| && p[..k] == d;
        assert p in more;
      }
    }
  }

  /** Folders made for other files never matter to a file of the same tree. */
  lemma OwnFoldersApart(all: Tree, done: Tree, p: Path, d: Path)
    requires PrefixFree(all) && p in all && (forall q :: q in done ==> q in all) && p != []
    requires d == p || d == p + [Last(p)]
    ensures d !in FoldersOf(done) && d !in Prefixes(p)
  {
    if d in FoldersOf(done) {
      var q, k :| q in done && 0 < k < |q| && q[..k] == d;
      assert q[..|p|] == p;
      assert StrictPrefix(p, q);
    }
  }

  /** No copied file stands in the way of another's folders. */
  lemma OwnFilesApart(files: Tree, folders: set<Path>, all: Tree, done: Tree, p: Path, k: nat)
    requires PrefixFree(all) && p in all && (forall q :: q in done ==> q in all) && [] !in all && 0 < k < |p|
    ensures p[..k] in Laid(files, folders, done) <==> p[..k] in files
  {
    var d := p[..k];
    if Landed(folders, done, d).Some? {
      var q := if d in done && d !in folders then d else d[..|d| - 1];
      assert q in done && p[..|q|] == q;
      assert StrictPrefix(q, p);
    }
  }

  lemma NothingLaid(files: Tree, folders: set<Path>)
    ensures Laid(files, folders, map[]) == files
  {
  }

  /** How far the copy has come. */
  ghost predicate Copying(existing: Node, all: Tree, done: Tree, files: Tree, folders: set<Path>)
    requires existing.Dir?
  {
    && (forall q :: q in done ==> q in all && done[q] == all[q])
    && (forall q :: q in done ==> !BlockedAt(existing.files, existing.folders, q))
    && files == Laid(existing.files, existing.folders, done) && folders == existing.folders + FoldersOf(done)
  }

  /** What the copy finds for one file is what the old tree says. */
  lemma CopyFinds(existing: Node, all: Tree, done: Tree, files: Tree, folders: set<Path>, p: Path, now: set<Path>)
    requires existing.Dir? && Copying(existing, all, done, files, folders) && PrefixFree(all) && [] !in all
    requires p in all && p !in done && now == folders + Prefixes(p)
    ensures Landing(now, p) == Landing(existing.folders, p)
    ensures (exists k :: 0 < k < |p| && p[..k] in files) || Landing(now, p) in now <==>
      BlockedAt(existing.files, existing.folders, p)
  {
    forall k | 0 < k < |p| ensures p[..k] in files <==> p[..k] in existing.files {
      OwnFilesApart(existing.files, existing.folders, all, done, p, k);
    }
    OwnFoldersApart(all, done, p, p);
    OwnFoldersApart(all, done, p, p + [Last(p)]);
  }

  lemma CopyNext(existing: Node, all: Tree, done: Tree, files: Tree, folders: set<Path>, p: Path, next: Tree)
    requires existing.Dir? && Copying(existing, all, done, files, folders) && PrefixFree(all) && [] !in all
    requires p in all && p !in done && !BlockedAt(existing.files, existing.folders, p) && next == done[p := all[p]]
    ensures Copying(existing, all, next, files[Landing(existing.folders, p) := all[p]], folders + Prefixes(p))
  {
    SubtreePrefixFree(all, next);
    LaidNext(existing.files, existing.folders, done, p, all[p]);
    FoldersNext(done, p, all[p]);
    forall q | q in next ensures !BlockedAt(existing.files, existing.folders, q) {
      assert q == p || q in done;
    }
  }

  lemma SubtreePrefixFree(all: Tree, part: Tree)
    requires PrefixFree(all) && forall q :: q in part ==> q in all
    ensures PrefixFree(part)
  {
  }

  lemma CopyDone(existing: Node, source: Node, done: Tree, files: Tree, folders: set<Path>)
    requires existing.Dir? && source.Dir? && Staged(source) && Copying(existing, source.files, done, files, folders)
    requires done.Keys == source.files.Keys
    ensures Dir(files, folders, false) == Merged(Some(existing), source) && !Blocked(existing, source)
  {
    assert done == source.files;
  }

  /** shutil.copytree of a staged directory over a copy of an existing one, file by file in any
      order. It fails exactly where a file has to become a folder or a folder a file; otherwise
      it makes the merged directory. */
  method CopyOver(existing: Node, source: Node) returns (r: Option<Node>)
    requires existing.Dir? && source.Dir? && Staged(source)
    ensures r == if Blocked(existing, source) then None else Some(Merged(Some(existing), source))
  {
    var files, folders, left := existing.files, existing.folders, source.files.Keys;
    ghost var done: Tree := map[];
    NothingLaid(files, folders);
    while left != {}
      invariant Copying(existing, source.files, done, files, folders)
      invariant left <= source.files.Keys && done.Keys == source.files.Keys - left
    {
      var p :| p in left;
      var now := folders + Prefixes(p);
      CopyFinds(existing, source.files, done, files, folders, p, now);
      if (exists k :: 0 < k < |p| && p[..k] in files) || Landing(now, p) in now {
        return None;
      }
      CopyNext(existing, source.files, done, files, folders, p, done[p := source.files[p]]);
      files, folders, left := files[Landing(now, p) := source.files[p]], now, left - {p};
      done := done[p := source.files[p]];
    }
    CopyDone(existing, source, done, files, folders);
    r := Some(Dir(files, folders, false));
  }

  // ---- What the result is ------------------------------------------------------------------

  /** A folder that the copy makes for a staged file is neither a file of the existing directory
      nor one that was copied. */
  lemma MadeFolderFree(existing: Node, source: Node, d: Path)
    requires existing.Dir? && source.Dir? && Staged(source) && !Blocked(existing, source) && d in source.folders
    ensures d !in Laid(existing.files, existing.folders, source.files)
  {
    var p, k :| p in source.files && 0 < k < |p| && p[..k] == d;
    assert !BlockedAt(existing.files, existing.folders, p);
    if Landed(existing.folders, source.files, d).Some? {
      var q := if d in source.files && d !in existing.folders then d else d[..|d| - 1];
      assert q in source.files && p[..|q|] == q;
      assert StrictPrefix(q, p);
    }
  }

  /** Nor does a copied file take the place of an existing folder. */
  lemma OldFolderFree(existing: Node, source: Node, d: Path)
    requires existing.Dir? && source.Dir? && WellFormed(existing) && !Blocked(existing, source)
    requires d in existing.folders
    ensures d !in Laid(existing.files, existing.folders, source.files)
  {
    if Landed(existing.folders, source.files, d).Some? {
      var p := d[..|d| - 1];
      assert p + [Last(p)] == d;
    }
  }

  /** The folders of whatever is laid are there. */
  lemma LaidFolders(existing: Node, source: Node, q: Path, k: nat)
    requires existing.Dir? && source.Dir? && WellFormed(existing) && Staged(source)
    requires q in Laid(existing.files, existing.folders, source.files) && 0 < k < |q|
    ensures q[..k] in existing.folders + source.folders
  {
    var landed := Landed(existing.folders, source.files, q);
    if landed.None? {
      assert q[..k] in FoldersOf(existing.files);
    } else if q in source.files && q !in existing.folders {
      assert q[..k] in FoldersOf(source.files);
    } else if k < |q| - 1 {
      var p := q[..|q| - 1];
      assert p[..k] == q[..k] && p[..k] in FoldersOf(source.files);
    }
  }

  /** What a provider becomes can stand in a file system. */
  lemma MergedWellFormed(existing: Option<Node>, source: Node)
    requires Staged(source) && (existing.Some? ==> WellFormed(existing.value) && !Blocked(existing.value, source))
    ensures WellFormed(Merged(existing, source))
  {
    StagedWellFormed(source);
    if existing.Some? && existing.value.Dir? && source.Dir? {
      var merged := Merged(existing, source);
      forall d | d in FoldersOf(merged.files) ensures d in merged.folders {
        var q, k :| q in merged.files && 0 < k < |q| && q[..k] == d;
        LaidFolders(existing.value, source, q, k);
      }
      forall d | d in merged.folders ensures d !in merged.files {
        if d in existing.value.folders {
          OldFolderFree(existing.value, source, d);
        } else {
          MadeFolderFree(existing.value, source, d);
        }
      }
    }
  }

  // ---- When the result is the new tree over the old one ------------------------------------

  /** A staged file's path is a folder of the existing directory. */
  predicate FileOnFolder(existing: Option<Node>, source: Node) {
    existing.Some? && existing.value.Dir? && source.Dir? && exists p :: p in source.files && p in existing.value.folders
  }

  lemma LaidOver(files: Tree, folders: set<Path>, source: Tree)
    requires forall p :: p in source ==> p !in folders
    ensures Laid(files, folders, source) == files + source
  {
    forall q ensures q in LandingPaths(folders, source) <==> q in source {
      if q in source {
        assert Landing(folders, q) == q;
      }
    }
  }

  /** The file that lands inside a folder is missing where it was expected. */
  lemma LaidElsewhere(files: Tree, folders: set<Path>, source: Tree, p: Path)
    requires PrefixFree(source) && p in source && p in folders && p !in files
    ensures p !in Laid(files, folders, source)
  {
    if Doubled(p) && p[..|p| - 1] in source {
      assert StrictPrefix(p[..|p| - 1], p);
    }
  }

  /** A provider becomes its new tree over its old one exactly when no staged file's path is a
      folder of the old one. */
  lemma MergedOverlaysExactly(existing: Option<Node>, source: Node)
    requires Staged(source) && (existing.Some? ==> WellFormed(existing.value))
    ensures Merged(existing, source) == Overlaid(existing, source) <==> !FileOnFolder(existing, source)
  {
    if existing.Some? && existing.value.Dir? && source.Dir? {
      var files, folders := existing.value.files, existing.value.folders;
      if p :| p in source.files && p in folders {
        LaidElsewhere(files, folders, source.files, p);
        assert p in files + source.files;
      } else {
        LaidOver(files, folders, source.files);
      }
    }
  }

  /** A staged file x over an existing folder x is published as x/x, beside what is in the
      folder, and the copy does not fail. */
  lemma FileNestsInFolder(existing: Node, source: Node, x: string, y: string, kept: Content, imported: Content)
    requires existing == Dir(map[[x, y] := kept], {[x]}, false) && source == Dir(map[[x] := imported], {}, false)
    requires x != y
    ensures WellFormed(existing) && Staged(source) && !Blocked(existing, source)
    ensures Merged(Some(existing), source) == Dir(map[[x, y] := kept, [x, x] := imported], {[x]}, false)
    ensures Merged(Some(existing), source) != Overlaid(Some(existing), source)
  {
    OneFolder(existing, source, x, y);
    OneLanding(existing.files, existing.folders, source.files, x, imported);
    assert [x] in source.files;
    MergedOverlaysExactly(Some(existing), source);
  }

  lemma OneFolder(existing: Node, source: Node, x: string, y: string)
    requires existing.Dir? && existing.files.Keys == {[x, y]} && existing.folders == {[x]}
    requires source.Dir? && source.files.Keys == {[x]} && source.folders == {}
    ensures WellFormed(existing) && Staged(source) && !Blocked(existing, source)
  {
    assert [x, y][..1] == [x] && |[x] + [x]| == 2;
    forall d | d in FoldersOf(existing.files) ensures d == [x] {
      var p, k :| p in existing.files && 0 < k < |p| && p[..k] == d;
      assert p == [x, y] && k == 1;
    }
    assert Landing(existing.folders, [x]) !in existing.folders;
  }

  lemma OneLanding(files: Tree, folders: set<Path>, source: Tree, x: string, c: Content)
    requires folders == {[x]} && source == map[[x] := c]
    ensures Laid(files, folders, source) == files[[x, x] := c]
  {
    assert [x] + [x] == [x, x];
    LaidNext(files, folders, map[], [x], c);
    NothingLaid(files, folders);
    assert source == map[][[x] := c];
  }
}
