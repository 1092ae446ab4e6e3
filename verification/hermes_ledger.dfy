/** The ledger of an import: what _accounting writes, what _format2_scope_accounted checks,
    and what extraction really does with the same entries. */
module HermesLedger {
  import opened Options
  import opened Text
  import opened ArchiveTree
  import opened HermesArchive

  datatype Category = ToHome | ToProvider | Skip

  function CategoryOf(e: Entry): Category {
    if e.reason.Some? then Skip else if e.external then ToProvider else ToHome
  }

  function Count(entries: seq<Entry>, c: Category): nat {
    if entries == [] then 0
    else Count(entries[..|entries| - 1], c) + if CategoryOf(entries[|entries| - 1]) == c then 1 else 0
  }

  function Bytes(entries: seq<Entry>, c: Category): nat {
    if entries == [] then 0
    else
      var e := entries[|entries| - 1];
      Bytes(entries[..|entries| - 1], c) + if CategoryOf(e) == c then e.info.size else 0
  }

  datatype Skipped = Skipped(path: string, reason: string, bytes: int)

  datatype Ledger = Ledger(
    archiveFiles: int, archiveBytes: int, hermesFiles: int, hermesBytes: int, externalFiles: int, externalBytes: int,
    skippedFiles: int, skippedBytes: int, normalizedFiles: int, normalizedBytes: int,
    skippedByReason: map<string, int>, skippedEntries: seq<Skipped>)

  // ---- Skipped entries -------------------------------------------------------------------

  function SkippedOf(entries: seq<Entry>): seq<Skipped> {
    if entries == [] then []
    else
      var e := entries[|entries| - 1];
      SkippedOf(entries[..|entries| - 1]) + if e.reason.Some? then [Skipped(Key(e.rel), e.reason.value, e.info.size)]
      else []
  }

  function Paths(s: seq<Skipped>): seq<string> {
    seq(|s|, i requires 0 <= i < |s| => s[i].path)
  }

  function Reasons(s: seq<Skipped>): multiset<string> {
    if s == [] then multiset{} else Reasons(s[..|s| - 1]) + multiset{s[|s| - 1].reason}
  }

  function SkippedSize(s: seq<Skipped>): int {
    if s == [] then 0 else SkippedSize(s[..|s| - 1]) + s[|s| - 1].bytes
  }

  function Grouped(reasons: multiset<string>): map<string, int> {
    map r | r in reasons :: reasons[r]
  }

  /** Python's stable sort by path, as an insertion sort. */
  function SortByPath(s: seq<Skipped>): seq<Skipped> {
    if s == [] then [] else Insert(s[|s| - 1], SortByPath(s[..|s| - 1]))
  }

  function Insert(x: Skipped, s: seq<Skipped>): (t: seq<Skipped>)
    ensures |t| == |s| + 1 && t[|s|] == if s != [] && Before(x.path, s[|s| - 1].path) then s[|s| - 1] else x
  {
    if s == [] || !Before(x.path, s[|s| - 1].path) then s + [x]
    else Insert(x, s[..|s| - 1]) + [s[|s| - 1]]
  }

  lemma {:induction false} InsertKeeps(x: Skipped, s: seq<Skipped>)
    ensures Reasons(Insert(x, s)) == Reasons(s) + multiset{x.reason}
    ensures SkippedSize(Insert(x, s)) == SkippedSize(s) + x.bytes
    ensures forall y :: y in Insert(x, s) <==> y == x || y in s
  {
    var t := Insert(x, s);
    if s == [] || !Before(x.path, s[|s| - 1].path) {
      assert t[..|t| - 1] == s;
    } else {
      InsertKeeps(x, s[..|s| - 1]);
      assert t[..|t| - 1] == Insert(x, s[..|s| - 1]);
      assert s == s[..|s| - 1] + [s[|s| - 1]];
    }
  }

  predicate SortedByPath(s: seq<Skipped>) {
    forall i, j :: 0 <= i < j < |s| ==> Before(s[i].path, s[j].path)
  }

  lemma {:induction false} InsertSorted(x: Skipped, s: seq<Skipped>)
    requires SortedByPath(s) && forall i :: 0 <= i < |s| ==> s[i].path != x.path
    ensures SortedByPath(Insert(x, s))
  {
    if s != [] {
      var last, init := s[|s| - 1], s[..|s| - 1];
      BeforeTotal(x.path, last.path);
      if Before(x.path, last.path) {
        InsertSorted(x, init);
        InsertKeeps(x, init);
        var t := Insert(x, init);
        forall i | 0 <= i < |t| ensures Before(t[i].path, last.path) {
          assert t[i] in t;
        }
      } else {
        forall i | 0 <= i < |s| ensures Before(s[i].path, x.path) {
          if i < |s| - 1 {
            BeforeTransitive(s[i].path, last.path, x.path);
          }
        }
      }
    }
  }

  predicate DistinctPaths(s: seq<Skipped>) {
    forall i, j :: 0 <= i < j < |s| ==> s[i].path != s[j].path
  }

  lemma {:induction false} SortKeeps(s: seq<Skipped>)
    ensures |SortByPath(s)| == |s| && Reasons(SortByPath(s)) == Reasons(s)
    ensures SkippedSize(SortByPath(s)) == SkippedSize(s)
    ensures forall y :: y in SortByPath(s) <==> y in s
  {
    if s != [] {
      var init := s[..|s| - 1];
      SortKeeps(init);
      InsertKeeps(s[|s| - 1], SortByPath(init));
      assert s == init + [s[|s| - 1]];
    }
  }

  lemma {:induction false} SortSorts(s: seq<Skipped>)
    requires DistinctPaths(s)
    ensures SortedByPath(SortByPath(s))
  {
    if s != [] {
      var init, last := s[..|s| - 1], s[|s| - 1];
      SortSorts(init);
      SortKeeps(init);
      var t := SortByPath(init);
      forall i | 0 <= i < |t| ensures t[i].path != last.path {
        assert t[i] in t && t[i] in init;
      }
      InsertSorted(last, t);
    }
  }

  // ---- The producer -----------------------------------------------------------------------

  /** The ledger that accounts for these entries. */
  function LedgerOf(entries: seq<Entry>): Ledger {
    var skipped := SkippedOf(entries);
    Ledger(
      |entries|, Bytes(entries, ToHome) + Bytes(entries, ToProvider) + Bytes(entries, Skip),
      Count(entries, ToHome), Bytes(entries, ToHome), Count(entries, ToProvider), Bytes(entries, ToProvider),
      Count(entries, Skip), Bytes(entries, Skip),
      Count(entries, ToHome) + Count(entries, ToProvider), Bytes(entries, ToHome) + Bytes(entries, ToProvider),
      Grouped(Reasons(skipped)), SortByPath(skipped))
  }

  lemma CountNext(entries: seq<Entry>, k: nat, c: Category)
    requires k < |entries|
    ensures Count(entries[..k + 1], c) == Count(entries[..k], c) + if CategoryOf(entries[k]) == c then 1 else 0
    ensures Bytes(entries[..k + 1], c) ==
      Bytes(entries[..k], c) + if CategoryOf(entries[k]) == c then entries[k].info.size else 0
  {
    assert entries[..k + 1][..k] == entries[..k];
  }

  lemma SkippedNext(entries: seq<Entry>, k: nat)
    requires k < |entries|
    ensures SkippedOf(entries[..k + 1]) == SkippedOf(entries[..k])
      + if entries[k].reason.Some? then [Skipped(Key(entries[k].rel), entries[k].reason.value, entries[k].info.size)]
      else []
  {
    assert entries[..k + 1][..k] == entries[..k];
  }

  function Raised(group: map<string, int>, reason: string): map<string, int> {
    group[reason := (if reason in group then group[reason] else 0) + 1]
  }

  lemma AddedSkip(s: seq<Skipped>, x: Skipped)
    ensures Reasons(s + [x]) == Reasons(s) + multiset{x.reason} && SkippedSize(s + [x]) == SkippedSize(s) + x.bytes
    ensures Paths(s + [x]) == Paths(s) + [x.path]
  {
    assert (s + [x])[..|s|] == s;
  }

  lemma GroupedNext(reasons: multiset<string>, reason: string)
    ensures Grouped(reasons + multiset{reason}) == Raised(Grouped(reasons), reason)
  {
  }

  method Accounting(entries: seq<Entry>) returns (l: Ledger)
    ensures l == LedgerOf(entries)
  {
    var hermesFiles, hermesBytes, externalFiles, externalBytes := 0, 0, 0, 0;
    var skippedFiles, skippedBytes, archiveBytes := 0, 0, 0;
    var skippedEntries: seq<Skipped> := [];
    var byReason: map<string, int> := map[];
    for k := 0 to |entries|
      invariant hermesFiles == Count(entries[..k], ToHome) && hermesBytes == Bytes(entries[..k], ToHome)
      invariant externalFiles == Count(entries[..k], ToProvider) && externalBytes == Bytes(entries[..k], ToProvider)
      invariant skippedFiles == Count(entries[..k], Skip) && skippedBytes == Bytes(entries[..k], Skip)
      invariant archiveBytes == hermesBytes + externalBytes + skippedBytes
      invariant skippedEntries == SkippedOf(entries[..k]) && byReason == Grouped(Reasons(skippedEntries))
    {
      CountNext(entries, k, ToHome);
      CountNext(entries, k, ToProvider);
      CountNext(entries, k, Skip);
      SkippedNext(entries, k);
      var e := entries[k];
      archiveBytes := archiveBytes + e.info.size;
      if e.reason.Some? {
        var skipped := Skipped(Key(e.rel), e.reason.value, e.info.size);
        AddedSkip(skippedEntries, skipped);
        GroupedNext(Reasons(skippedEntries), e.reason.value);
        skippedFiles, skippedBytes := skippedFiles + 1, skippedBytes + e.info.size;
        byReason := Raised(byReason, e.reason.value);
        skippedEntries := skippedEntries + [skipped];
      } else if e.external {
        externalFiles, externalBytes := externalFiles + 1, externalBytes + e.info.size;
      } else {
        hermesFiles, hermesBytes := hermesFiles + 1, hermesBytes + e.info.size;
      }
    }
    assert entries[..|entries|] == entries;
    l := Ledger(
      |entries|, archiveBytes, hermesFiles, hermesBytes, externalFiles, externalBytes, skippedFiles, skippedBytes,
      hermesFiles + externalFiles, hermesBytes + externalBytes, byReason, SortByPath(skippedEntries));
  }

  // ---- The checker --------------------------------------------------------------------------

  predicate NoneNegative(l: Ledger) {
    && l.archiveFiles >= 0 && l.archiveBytes >= 0 && l.hermesFiles >= 0 && l.hermesBytes >= 0 && l.externalFiles >= 0
    && l.externalBytes >= 0 && l.skippedFiles >= 0 && l.skippedBytes >= 0 && l.normalizedFiles >= 0
    && l.normalizedBytes >= 0
  }

  /** Files and bytes are conserved: archive = home + providers + skipped. */
  predicate Conserved(l: Ledger) {
    && l.normalizedFiles == l.hermesFiles + l.externalFiles && l.archiveFiles == l.normalizedFiles + l.skippedFiles
    && l.normalizedBytes == l.hermesBytes + l.externalBytes && l.archiveBytes == l.normalizedBytes + l.skippedBytes
  }

  predicate ProperEntry(e: Skipped) {
    e.path != "" && e.reason != "" && e.bytes >= 0
  }

  /** The skipped entries are all there is: strictly sorted, and adding up to the totals. */
  predicate SkipsAccounted(l: Ledger) {
    && ProperEntries(l.skippedEntries)
    && (forall r :: r in l.skippedByReason ==> r != "" && l.skippedByReason[r] >= 0)
    && SortedByPath(l.skippedEntries)
    && l.skippedFiles == |l.skippedEntries| && l.skippedBytes == SkippedSize(l.skippedEntries)
    && l.skippedByReason == Grouped(Reasons(l.skippedEntries))
  }

  predicate ProperEntries(s: seq<Skipped>) {
    forall i :: 0 <= i < |s| ==> ProperEntry(s[i])
  }

  lemma SkipsNext(s: seq<Skipped>, k: nat)
    requires k < |s|
    ensures Grouped(Reasons(s[..k + 1])) == Raised(Grouped(Reasons(s[..k])), s[k].reason)
    ensures SkippedSize(s[..k + 1]) == SkippedSize(s[..k]) + s[k].bytes
    ensures Paths(s[..k + 1]) == Paths(s[..k]) + [s[k].path]
    ensures ProperEntries(s[..k + 1]) <==> ProperEntries(s[..k]) && ProperEntry(s[k])
  {
    var front := s[..k];
    assert s[..k + 1] == front + [s[k]];
    AddedSkip(front, s[k]);
    GroupedNext(Reasons(front), s[k].reason);
    ProperNext(front, s[k]);
  }

  lemma ProperNext(s: seq<Skipped>, x: Skipped)
    ensures ProperEntries(s + [x]) <==> ProperEntries(s) && ProperEntry(x)
  {
    assert (s + [x])[|s|] == x;
    assert forall i :: 0 <= i < |s| ==> (s + [x])[i] == s[i];
  }

  /** The checker's own count of the skipped entries. */
  method GroupSkips(s: seq<Skipped>) returns (ok: bool, grouped: map<string, int>, total: int, paths: seq<string>)
    ensures ok <==> ProperEntries(s)
    ensures ok ==> grouped == Grouped(Reasons(s)) && total == SkippedSize(s) && paths == Paths(s)
  {
    ok, grouped, total, paths := true, map[], 0, [];
    for k := 0 to |s|
      invariant ok && ProperEntries(s[..k])
      invariant grouped == Grouped(Reasons(s[..k])) && total == SkippedSize(s[..k]) && paths == Paths(s[..k])
    {
      SkipsNext(s, k);
      if !ProperEntry(s[k]) {
        ok := false;
        return;
      }
      paths, total, grouped := paths + [s[k].path], total + s[k].bytes, Raised(grouped, s[k].reason);
    }
    assert s[..|s|] == s;
  }

  /** _format2_scope_accounted accepts exactly the ledgers that account for everything. */
  method Format2ScopeAccounted(l: Ledger) returns (ok: bool)
    ensures ok <==> NoneNegative(l) && SkipsAccounted(l) && Conserved(l)
    ensures ok ==> l.archiveFiles == l.hermesFiles + l.externalFiles + |l.skippedEntries|
    ensures ok ==> l.archiveBytes == l.hermesBytes + l.externalBytes + SkippedSize(l.skippedEntries)
    ensures ok ==> l.hermesFiles >= 0 && l.hermesBytes >= 0 && l.externalFiles >= 0 && l.externalBytes >= 0
    ensures ok ==> l.normalizedFiles <= l.archiveFiles && l.normalizedBytes <= l.archiveBytes
  {
    if !NoneNegative(l) || exists r :: r in l.skippedByReason && (r == "" || l.skippedByReason[r] < 0) {
      return false;
    }
    var proper, grouped, total, paths := GroupSkips(l.skippedEntries);
    if !proper {
      return false;
    }
    var sorted := SortedSet(set x | x in paths);
    InOrder(paths, sorted);
    PathsInOrder(l.skippedEntries);
    ok := paths == sorted && l.skippedFiles == |l.skippedEntries| && l.skippedBytes == total
      && l.skippedByReason == grouped && Conserved(l);
  }

  lemma PathsInOrder(s: seq<Skipped>)
    ensures StrictlySorted(Paths(s)) <==> SortedByPath(s)
  {
    assert forall i :: 0 <= i < |s| ==> Paths(s)[i] == s[i].path;
  }

  /** A list equals its sorted set exactly when it is strictly sorted. */
  lemma InOrder(paths: seq<string>, sorted: seq<string>)
    requires sorted == Sorted(set x | x in paths)
    ensures paths == sorted <==> StrictlySorted(paths)
  {
    if StrictlySorted(paths) {
      SortedUnique(paths, sorted);
    }
  }

  // ---- The producer passes the checker -----------------------------------------------------

  predicate NewRel(entries: seq<Entry>, e: Entry) {
    forall j :: 0 <= j < |entries| ==> entries[j].rel != e.rel
  }

  /** What holds of entries holds of all but the last, whose path is new. */
  lemma Unskipped(entries: seq<Entry>)
    requires WellPlaced(entries) && entries != []
    ensures WellPlaced(entries[..|entries| - 1]) && PlacedWell(entries[|entries| - 1])
    ensures NewRel(entries[..|entries| - 1], entries[|entries| - 1])
  {
    var init := entries[..|entries| - 1];
    assert forall j :: 0 <= j < |init| ==> init[j] == entries[j];
  }

  predicate ComesFrom(path: string, entries: seq<Entry>) {
    exists i :: 0 <= i < |entries| && Key(entries[i].rel) == path
  }

  lemma {:induction false} SkippedFrom(entries: seq<Entry>, x: Skipped)
    requires x in SkippedOf(entries)
    ensures ComesFrom(x.path, entries)
  {
    var init, e := entries[..|entries| - 1], entries[|entries| - 1];
    if x in SkippedOf(init) {
      SkippedFrom(init, x);
      var i :| 0 <= i < |init| && Key(init[i].rel) == x.path;
      assert entries[i] == init[i];
    }
  }

  lemma {:induction false} SkippedTotals(entries: seq<Entry>)
    requires WellPlaced(entries)
    ensures ProperEntries(SkippedOf(entries)) && |SkippedOf(entries)| == Count(entries, Skip)
    ensures SkippedSize(SkippedOf(entries)) == Bytes(entries, Skip)
  {
    if entries != [] {
      var init, e := entries[..|entries| - 1], entries[|entries| - 1];
      Unskipped(entries);
      SkippedTotals(init);
      if e.reason.Some? {
        var x := Skipped(Key(e.rel), e.reason.value, e.info.size);
        AddedSkip(SkippedOf(init), x);
        KeyNotEmpty(e.rel);
        assert SkippedOf(entries) == SkippedOf(init) + [x];
      } else {
        assert SkippedOf(entries) == SkippedOf(init);
      }
    }
  }

  lemma NewPath(entries: seq<Entry>, e: Entry)
    requires WellPlaced(entries) && PlacedWell(e) && NewRel(entries, e)
    ensures !ComesFrom(Key(e.rel), entries)
  {
    forall i | 0 <= i < |entries| ensures Key(entries[i].rel) != Key(e.rel) {
      if Key(entries[i].rel) == Key(e.rel) {
        KeyInjective(entries[i].rel, e.rel);
      }
    }
  }

  lemma {:induction false} SkippedDistinct(entries: seq<Entry>)
    requires WellPlaced(entries)
    ensures DistinctPaths(SkippedOf(entries))
  {
    if entries != [] {
      var init, e := entries[..|entries| - 1], entries[|entries| - 1];
      Unskipped(entries);
      SkippedDistinct(init);
      NewPath(init, e);
      var skipped := SkippedOf(init);
      forall i | 0 <= i < |skipped| ensures skipped[i].path != Key(e.rel) {
        SkippedFrom(init, skipped[i]);
      }
    }
  }

  lemma {:induction false} CountsAdd(entries: seq<Entry>)
    ensures Count(entries, ToHome) + Count(entries, ToProvider) + Count(entries, Skip) == |entries|
  {
    if entries != [] {
      CountsAdd(entries[..|entries| - 1]);
    }
  }

  lemma {:induction false} ReasonsProper(s: seq<Skipped>)
    requires ProperEntries(s)
    ensures "" !in Reasons(s)
  {
    if s != [] {
      ReasonsProper(s[..|s| - 1]);
    }
  }

  /** The ledger of any accepted archive passes the checker. */
  lemma ProducerPassesChecker(entries: seq<Entry>)
    requires WellPlaced(entries)
    ensures NoneNegative(LedgerOf(entries)) && SkipsAccounted(LedgerOf(entries)) && Conserved(LedgerOf(entries))
  {
    var skipped := SkippedOf(entries);
    SkippedTotals(entries);
    SkippedDistinct(entries);
    CountsAdd(entries);
    SortKeeps(skipped);
    SortSorts(skipped);
    ReasonsProper(skipped);
    var sorted := SortByPath(skipped);
    forall i | 0 <= i < |sorted| ensures ProperEntry(sorted[i]) {
      assert sorted[i] in sorted && sorted[i] in skipped;
    }
  }

  /** The ledger of an archive whose layout is accepted. */
  function Report(infos: seq<Info>): Option<Ledger> {
    if Lawful(infos) then Some(LedgerOf(EntriesOf(infos))) else None
  }

  /** Layout and classification together, as both the preview and the import read an archive. */
  method ReadArchive(infos: seq<Info>) returns (r: Option<seq<Entry>>)
    ensures r == if Lawful(infos) then Some(EntriesOf(infos)) else None
    ensures r.Some? ==> WellPlaced(r.value)
  {
    var layout := ZipLayout(infos);
    if layout.Refused? {
      return None;
    }
    var entries := ClassifyEntries(layout.prefix, layout.files);
    LawfulWellPlaced(infos);
    r := Some(entries);
  }

  /** For every archive the layout accepts: producing the ledger and checking it succeeds, and
      its bytes are the archive's. */
  lemma ReportPassesChecker(infos: seq<Info>)
    requires Lawful(infos)
    ensures var l := LedgerOf(EntriesOf(infos));
      && NoneNegative(l) && SkipsAccounted(l) && Conserved(l)
      && l.archiveFiles == |Files(infos)| && l.archiveBytes == TotalSize(Files(infos))
  {
    LawfulWellPlaced(infos);
    ProducerPassesChecker(EntriesOf(infos));
    BytesTotal(Files(infos), EntriesOf(infos));
  }

  lemma {:induction false} BytesTotal(files: seq<Info>, entries: seq<Entry>)
    requires |files| == |entries| && forall i :: 0 <= i < |files| ==> entries[i].info == files[i]
    ensures Bytes(entries, ToHome) + Bytes(entries, ToProvider) + Bytes(entries, Skip) == TotalSize(files)
  {
    if files != [] {
      BytesTotal(files[..|files| - 1], entries[..|entries| - 1]);
    }
  }

  // ---- Extraction ---------------------------------------------------------------------------

  /** What extraction leaves below the two staging directories. */
  datatype Extracted = Extracted(home: map<seq<string>, Content>, providers: map<seq<string>, Content>)

  function HomeOf(entries: seq<Entry>): map<seq<string>, Content> {
    if entries == [] then map[]
    else
      var e := entries[|entries| - 1];
      var rest := HomeOf(entries[..|entries| - 1]);
      if CategoryOf(e) == ToHome then rest[e.rel := e.info.content] else rest
  }

  function ProvidersOf(entries: seq<Entry>): map<seq<string>, Content> {
    if entries == [] then map[]
    else
      var e := entries[|entries| - 1];
      var rest := ProvidersOf(entries[..|entries| - 1]);
      if CategoryOf(e) == ToProvider && e.rel != [] then rest[e.rel[1..] := e.info.content] else rest
  }

  /** The file an entry is written to, below its staging directory. */
  function Target(e: Entry): seq<string> {
    if e.external && e.rel != [] then e.rel[1..] else e.rel
  }

  predicate Lands(e: Entry, x: Extracted) {
    match CategoryOf(e)
    case ToHome => Target(e) in x.home && x.home[Target(e)] == e.info.content
    case ToProvider => Target(e) in x.providers && x.providers[Target(e)] == e.info.content
    case Skip => true
  }

  function Decompressed(entries: seq<Entry>): nat {
    if entries == [] then 0
    else
      var e := entries[|entries| - 1];
      Decompressed(entries[..|entries| - 1]) + if e.reason.None? then |e.info.content| else 0
  }

  predicate Approved(entries: seq<Entry>, approved: set<string>) {
    forall i :: 0 <= i < |entries| && CategoryOf(entries[i]) == ToProvider ==>
      |entries[i].rel| > 1 && entries[i].rel[1] in approved
  }

  predicate StrictPrefix(p: seq<string>, q: seq<string>) {
    |p| < |q| && q[..|p|] == p
  }

  /** No file lies below another: the paths can stand in one directory tree. */
  predicate PrefixFree(files: map<seq<string>, Content>) {
    forall p, q :: p in files && q in files ==> !StrictPrefix(p, q)
  }

  /** Writing this path fails: a directory it needs is a file, or it is a directory itself. */
  predicate Obstructed(files: map<seq<string>, Content>, path: seq<string>) {
    exists q :: q in files && (StrictPrefix(q, path) || StrictPrefix(path, q))
  }

  lemma PrefixFreeNext(files: map<seq<string>, Content>, path: seq<string>, content: Content)
    requires PrefixFree(files) && !Obstructed(files, path)
    ensures PrefixFree(files[path := content])
  {
  }

  /** What extraction demands of the entries. */
  predicate Extractable(entries: seq<Entry>, approved: set<string>) {
    && Approved(entries, approved) && Decompressed(entries) <= MAX_UNCOMPRESSED
    && PrefixFree(HomeOf(entries)) && PrefixFree(ProvidersOf(entries))
  }

  /** What holds of all entries holds of the first ones. */
  lemma {:induction false} PrefixExtractable(entries: seq<Entry>, approved: set<string>, k: nat)
    requires k <= |entries|
    ensures Extractable(entries, approved) ==> Extractable(entries[..k], approved)
    decreases |entries|
  {
    if k < |entries| {
      var init := entries[..|entries| - 1];
      assert forall i :: 0 <= i < |init| ==> init[i] == entries[i];
      assert forall p :: p in HomeOf(init) ==> p in HomeOf(entries);
      assert forall p :: p in ProvidersOf(init) ==> p in ProvidersOf(entries);
      PrefixExtractable(init, approved, k);
      assert init[..k] == entries[..k];
    } else {
      assert entries[..k] == entries;
    }
  }

  /** Making a file's directories and writing it. */
  method Write(files: map<seq<string>, Content>, path: seq<string>, content: Content)
    returns (r: Option<map<seq<string>, Content>>)
    requires PrefixFree(files)
    ensures if r.Some? then r.value == files[path := content] && PrefixFree(r.value)
      else !PrefixFree(files[path := content])
  {
    if Obstructed(files, path) {
      var q :| q in files && (StrictPrefix(q, path) || StrictPrefix(path, q));
      assert q in files[path := content];
      return None;
    }
    PrefixFreeNext(files, path, content);
    r := Some(files[path := content]);
  }

  /** One entry's step leaves or breaks what extraction demands. */
  lemma ExtractableNext(entries: seq<Entry>, k: nat, approved: set<string>)
    requires WellPlaced(entries) && k < |entries| && Extractable(entries[..k], approved)
    ensures var e, home, providers := entries[k], HomeOf(entries[..k]), ProvidersOf(entries[..k]);
      var written := Decompressed(entries[..k]) + if e.reason.None? then |e.info.content| else 0;
      && HomeOf(entries[..k + 1]) == (if CategoryOf(e) == ToHome then home[Target(e) := e.info.content] else home)
      && ProvidersOf(entries[..k + 1])
        == (if CategoryOf(e) == ToProvider then providers[Target(e) := e.info.content] else providers)
      && Decompressed(entries[..k + 1]) == written
      && (Approved(entries[..k + 1], approved) <==> (CategoryOf(e) == ToProvider ==> e.rel[1] in approved))
  {
    var front, more := entries[..k], entries[..k + 1];
    assert more[..k] == front && more[k] == entries[k] && PlacedWell(entries[k]);
    forall i | 0 <= i < k ensures more[i] == front[i] {
    }
  }

  /** _extract. It succeeds exactly when every provider is approved, the content is within the
      limit, and no file would lie below another; then what is staged is the entries' content. */
  method Extract(entries: seq<Entry>, approved: set<string>) returns (r: Option<Extracted>)
    requires WellPlaced(entries)
    ensures r == if Extractable(entries, approved) then Some(Extracted(HomeOf(entries), ProvidersOf(entries)))
      else None
  {
    var home: map<seq<string>, Content>, providers: map<seq<string>, Content> := map[], map[];
    var written := 0;
    for k := 0 to |entries|
      invariant home == HomeOf(entries[..k]) && providers == ProvidersOf(entries[..k])
      invariant written == Decompressed(entries[..k]) && Extractable(entries[..k], approved)
    {
      var e := entries[k];
      ExtractableNext(entries, k, approved);
      PrefixExtractable(entries, approved, k + 1);
      if e.reason.None? {
        if e.external && e.rel[1] !in approved {
          return None;
        }
        var write := Write(if e.external then providers else home, Target(e), e.info.content);
        written := written + |e.info.content|;
        if write.None? || written > MAX_UNCOMPRESSED {
          return None;
        }
        if e.external {
          providers := write.value;
        } else {
          home := write.value;
        }
      }
    }
    assert entries[..|entries|] == entries;
    r := Some(Extracted(home, providers));
  }

  /** Every path that is extracted comes from an entry. */
  lemma {:induction false} HomeFrom(entries: seq<Entry>, path: seq<string>)
    requires path in HomeOf(entries)
    ensures exists i :: 0 <= i < |entries| && CategoryOf(entries[i]) == ToHome && entries[i].rel == path
  {
    var init := entries[..|entries| - 1];
    if path in HomeOf(init) {
      HomeFrom(init, path);
      var i :| 0 <= i < |init| && CategoryOf(init[i]) == ToHome && init[i].rel == path;
      assert entries[i] == init[i];
    }
  }

  lemma {:induction false} ProvidersFrom(entries: seq<Entry>, path: seq<string>)
    requires WellPlaced(entries) && path in ProvidersOf(entries)
    ensures exists i ::
      0 <= i < |entries| && CategoryOf(entries[i]) == ToProvider && entries[i].rel == ["_external"] + path
  {
    var init, e := entries[..|entries| - 1], entries[|entries| - 1];
    Unskipped(entries);
    if path in ProvidersOf(init) {
      ProvidersFrom(init, path);
      var i :| 0 <= i < |init| && CategoryOf(init[i]) == ToProvider && init[i].rel == ["_external"] + path;
      assert entries[i] == init[i];
    } else {
      assert e.rel == [e.rel[0]] + e.rel[1..];
    }
  }

  /** The target of one more entry is new. */
  lemma NewTarget(entries: seq<Entry>)
    requires WellPlaced(entries) && entries != []
    ensures var e, init := entries[|entries| - 1], entries[..|entries| - 1];
      && (CategoryOf(e) == ToHome ==> Target(e) !in HomeOf(init))
      && (CategoryOf(e) == ToProvider ==> Target(e) !in ProvidersOf(init))
  {
    var e, init := entries[|entries| - 1], entries[..|entries| - 1];
    Unskipped(entries);
    if CategoryOf(e) == ToHome && Target(e) in HomeOf(init) {
      HomeFrom(init, Target(e));
    }
    if CategoryOf(e) == ToProvider && Target(e) in ProvidersOf(init) {
      assert e.rel == ["_external"] + e.rel[1..];
      ProvidersFrom(init, Target(e));
    }
  }

  /** No two extracted entries share a target: as many files are staged as the ledger says. */
  lemma {:induction false} NothingOverwritten(entries: seq<Entry>)
    requires WellPlaced(entries)
    ensures |HomeOf(entries)| == Count(entries, ToHome) && |ProvidersOf(entries)| == Count(entries, ToProvider)
  {
    if entries != [] {
      Unskipped(entries);
      NewTarget(entries);
      NothingOverwritten(entries[..|entries| - 1]);
    }
  }

  /** Every entry that is not skipped is staged with its own content, under a path that stays
      inside its staging directory. */
  lemma {:induction false} EveryEntryLands(entries: seq<Entry>, k: nat)
    requires WellPlaced(entries) && k < |entries|
    ensures Lands(entries[k], Extracted(HomeOf(entries), ProvidersOf(entries)))
    ensures CategoryOf(entries[k]) != Skip ==> Target(entries[k]) != [] && AllProper(Target(entries[k]))
  {
    Unskipped(entries);
    if k < |entries| - 1 {
      NewTarget(entries);
      EveryEntryLands(entries[..|entries| - 1], k);
    }
  }
}
