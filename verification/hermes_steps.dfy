/** The steps of a Hermes import: what each of them finds and leaves, when it stops, and what
    can be undone. */
module HermesSteps {
  import opened Options
  import opened Text
  import opened HermesArchive
  import opened HermesLedger
  import opened HermesMerge

  /** A provider swapped in, and whether there was something under its name before. */
  datatype Swap = Swap(name: string, had: bool)

  /** One of the four staging directories, in the order of their creation. */
  type Which = n: nat | 1 <= n <= 4 witness 1

  /** The steps by which one provider is swapped in, in their order. */
  datatype Step = Copying | MovingOld | PlacingNew | Securing

  /** The steps of an import, in their order; the providers come in the order of their names. */
  datatype Moment =
    | Previewing
    | MakingDirectory(which: Which)
    | Guarding
    | Staging
    | MovingHome
    | PlacingHome
    | Provider(name: string, step: Step)
    | Publishing
    | RemovingHome
    | RemovingOld

  /** What comes from outside, if anything: an operation of this step fails, or an interrupt
      comes in it. */
  datatype Trouble = Nothing | Exception(at: Moment) | Interrupt(at: Moment)

  predicate Comes(trouble: Trouble, at: Moment) {
    trouble != Nothing && trouble.at == at
  }

  /** An import ends well, by an exception, which is rolled back once there is anything to roll
      back, or by an interrupt, which is not. */
  datatype Result = Imported(ledger: Ledger) | Failed(at: Moment) | Interrupted(at: Moment)

  function Ended(at: Moment, trouble: Trouble): Result {
    if trouble == Interrupt(at) then Interrupted(at) else Failed(at)
  }

  const RESERVED := {
    ".ssh", ".config", "workspace", ".bashrc", ".bash_profile", ".profile", ".zshrc", ".zprofile", ".zshenv"
  }

  // ---- What is to be put in place --------------------------------------------------------

  function Directory(files: Tree): Node {
    Dir(files, FoldersOf(files), false)
  }

  /** The entries of the provider staging directory: a top-level file, or a directory of all
      files below a name. */
  function Providers(staged: Tree): map<string, Node> {
    map n | n in Tops(staged) :: if [n] in staged then File(staged[[n]]) else Directory(Below(staged, n))
  }

  function Tops(staged: Tree): set<string> {
    set p | p in staged && p != [] :: p[0]
  }

  function Below(staged: Tree, name: string): Tree {
    var tails := set p | p in staged && |p| > 1 && p[0] == name :: p[1..];
    map q | q in tails && [name] + q in staged :: staged[[name] + q]
  }

  /** The staged files after the rewriting of paths in their contents. */
  function Rewritten(staged: Tree, rewrite: (Path, Content) -> Content): Tree {
    map p | p in staged :: rewrite(p, staged[p])
  }

  ghost predicate AllStaged(sources: map<string, Node>) {
    forall n :: n in sources ==> Staged(sources[n])
  }

  lemma PrefixBelow(name: string, p: Path, q: Path)
    ensures StrictPrefix(p, q) ==> StrictPrefix([name] + p, [name] + q)
  {
    if StrictPrefix(p, q) {
      assert ([name] + q)[..|p| + 1] == [name] + q[..|p|];
    }
  }

  lemma BelowPrefixFree(staged: Tree, name: string)
    requires PrefixFree(staged)
    ensures PrefixFree(Below(staged, name)) && [] !in Below(staged, name)
  {
    var below := Below(staged, name);
    forall p, q | p in below && q in below ensures !StrictPrefix(p, q) {
      PrefixBelow(name, p, q);
    }
  }

  lemma ProvidersStaged(staged: Tree, rewrite: (Path, Content) -> Content)
    requires PrefixFree(staged)
    ensures AllStaged(Providers(Rewritten(staged, rewrite)))
  {
    var rewritten := Rewritten(staged, rewrite);
    assert PrefixFree(rewritten);
    forall n | n in Providers(rewritten) ensures Staged(Providers(rewritten)[n]) {
      BelowPrefixFree(rewritten, n);
    }
  }

  function Lookup(top: map<string, Node>, name: string): Option<Node> {
    if name in top then Some(top[name]) else None
  }

  /** The directory after a completed import. */
  function Installed(top: map<string, Node>, home: string, stage: Node, sources: map<string, Node>): map<string, Node> {
    map n | n in top.Keys + sources.Keys + {home} ::
      if n == home then stage else if n in sources then Merged(Lookup(top, n), sources[n]) else top[n]
  }

  /** Something a path leads to. */
  predicate Present(node: Option<Node>) {
    node.Some? && node != Some(Link(false))
  }

  /** A home whose old tree can be removed in the end. */
  predicate Replaceable(home: Option<Node>) {
    home.None? || home.value.Dir?
  }

  /** A provider that takes the home's name, meets links, or has a folder that has to become a
      file or a file a folder. */
  predicate Unfit(top: map<string, Node>, home: string, name: string, source: Node) {
    name == home
    || (name in top && (top[name].Link? || (top[name].Dir? && top[name].links) || Blocked(top[name], source)))
  }

  predicate NoneUnfit(top: map<string, Node>, home: string, sources: map<string, Node>) {
    forall n :: n in sources ==> !Unfit(top, home, n, sources[n])
  }

  /** One of the home's own markers is at its root and is not skipped. */
  predicate Importable(entries: seq<Entry>) {
    exists i :: 0 <= i < |entries| && IsMarker(entries[i])
  }

  predicate IsMarker(e: Entry) {
    |e.rel| == 1 && e.rel[0] in MARKERS && CategoryOf(e) == ToHome
  }

  /** The names of the providers an archive brings. */
  function ExternalNames(entries: seq<Entry>): set<string> {
    set i | 0 <= i < |entries| && CategoryOf(entries[i]) == ToProvider && |entries[i].rel| > 1 :: entries[i].rel[1]
  }

  /** A lawful archive with a marker, whose providers are exactly the approved ones, none of
      them reserved. */
  predicate Acceptable(infos: seq<Info>, approved: set<string>) {
    Lawful(infos) && Importable(EntriesOf(infos)) && ExternalNames(EntriesOf(infos)) == approved && approved !! RESERVED
  }

  /** The home these entries make. */
  function NewHome(rewrite: (Path, Content) -> Content, entries: seq<Entry>): Node {
    Directory(Rewritten(HomeOf(entries), rewrite))
  }

  /** The providers these entries bring. */
  function Sources(rewrite: (Path, Content) -> Content, entries: seq<Entry>): map<string, Node> {
    Providers(Rewritten(ProvidersOf(entries), rewrite))
  }

  /** The directory after these entries have been imported. */
  function Completed(top: map<string, Node>, home: string, rewrite: (Path, Content) -> Content,
      entries: seq<Entry>): map<string, Node>
  {
    Installed(top, home, NewHome(rewrite, entries), Sources(rewrite, entries))
  }

  /** An archive that can be staged. */
  predicate Stageable(infos: seq<Info>, approved: set<string>) {
    Lawful(infos) && Importable(EntriesOf(infos)) && Extractable(EntriesOf(infos), approved)
  }

  /** What is to be staged, and its ledger. */
  datatype Plan = Plan(ledger: Ledger, home: Node, providers: map<string, Node>)

  function PlanOf(infos: seq<Info>, approved: set<string>, rewrite: (Path, Content) -> Content): Option<Plan> {
    if Stageable(infos, approved)
    then Some(Plan(LedgerOf(EntriesOf(infos)), NewHome(rewrite, EntriesOf(infos)), Sources(rewrite, EntriesOf(infos))))
    else None
  }

  /** Nothing in the archive or the directory stands in the way of an import. */
  predicate Sound(top: map<string, Node>, home: string, preview: seq<Info>, snapshot: seq<Info>,
      approved: set<string>, rewrite: (Path, Content) -> Content)
  {
    && Acceptable(preview, approved) && Stageable(snapshot, approved)
    && Swappable(top, home, Sources(rewrite, EntriesOf(snapshot)))
  }

  predicate Swappable(top: map<string, Node>, home: string, sources: map<string, Node>) {
    Replaceable(Lookup(top, home)) && NoneUnfit(top, home, sources)
  }

  /** The steps in which the program itself refuses to go on. */
  predicate RefusedAt(at: Moment, top: map<string, Node>, home: string, sources: map<string, Node>) {
    || (at.PlacingHome? && Lookup(top, home) == Some(Link(false)))
    || (at.Provider? && at.step == Copying && at.name in sources && Unfit(top, home, at.name, sources[at.name]))
    || (at.RemovingHome? && !Replaceable(Lookup(top, home)))
  }

  /** The four directories are made, and then the handler is put in place. */
  predicate BeforeStaging(at: Moment) {
    at.Guarding? || at.MakingDirectory?
  }

  predicate InSwap(at: Moment) {
    at.Provider? || at.MovingHome? || at.PlacingHome? || at.Publishing? || Late(at)
  }

  /** The trouble is in a step that the import of these providers has. */
  predicate Occurs(trouble: Trouble, sources: map<string, Node>) {
    trouble != Nothing && (trouble.at.Previewing? || BeforeStaging(trouble.at) || trouble.at.Staging?
      || OccursInSwap(trouble, sources))
  }

  predicate OccursInSwap(trouble: Trouble, sources: map<string, Node>) {
    trouble != Nothing && InSwap(trouble.at) && (trouble.at.Provider? ==> trouble.at.name in sources)
  }

  /** The swap stops in this step, by trouble or because the program refuses to go on. */
  predicate StopsAt(at: Moment, trouble: Trouble, top: map<string, Node>, home: string, sources: map<string, Node>) {
    InSwap(at) && (at.Provider? ==> at.name in sources) && (Comes(trouble, at) || RefusedAt(at, top, home, sources))
  }

  /** Where the steps of one provider stop. */
  function FirstStop(name: string, trouble: Trouble, refused: bool): Option<Moment> {
    if refused then Some(Provider(name, Copying))
    else if trouble != Nothing && trouble.at.Provider? && trouble.at.name == name then Some(trouble.at)
    else None
  }

  lemma StepCases(name: string, trouble: Trouble)
    ensures Comes(trouble, Provider(name, Copying)) || FirstStop(name, trouble, false) ==
      if Comes(trouble, Provider(name, MovingOld)) then Some(Provider(name, MovingOld))
      else if Comes(trouble, Provider(name, PlacingNew)) then Some(Provider(name, PlacingNew))
      else if Comes(trouble, Provider(name, Securing)) then Some(Provider(name, Securing))
      else None
  {
    if trouble != Nothing && trouble.at.Provider? {
      match trouble.at.step
      case Copying =>
      case MovingOld =>
      case PlacingNew =>
      case Securing =>
    }
  }

  // ---- What an import leaves -----------------------------------------------------------------

  /** The old trees are removed when the manifest is already published. */
  predicate Late(at: Moment) {
    at.RemovingHome? || at.RemovingOld?
  }

  /** What is in the home's place in a step. */
  function HomeAt(at: Moment, was: Option<Node>, stage: Node): Option<Node> {
    match at
    case Previewing => was
    case MakingDirectory(_) => was
    case Guarding => was
    case Staging => was
    case MovingHome => was
    case PlacingHome => if Present(was) then None else was
    case _ => Some(stage)
  }

  /** What is in a provider's place in a step. */
  function ProviderAt(at: Moment, name: string, was: Option<Node>, source: Node): Option<Node> {
    var merged := Some(Merged(was, source));
    match at
    case Provider(n, step) =>
      if Before(name, n) || (name == n && step == Securing) then merged
      else if name == n && step == PlacingNew then None
      else was
    case Publishing => merged
    case RemovingHome => merged
    case RemovingOld => merged
    case _ => was
  }

  /** What is under a name in a step. */
  function Under(n: string, before: map<string, Node>, home: string, stage: Node, sources: map<string, Node>,
      at: Moment): Option<Node>
  {
    if n == home then HomeAt(at, Lookup(before, home), stage)
    else if n in sources then ProviderAt(at, n, Lookup(before, n), sources[n])
    else Lookup(before, n)
  }

  /** The directory is as this step finds it. */
  ghost predicate StandsAt(top: map<string, Node>, before: map<string, Node>, home: string, stage: Node,
      sources: map<string, Node>, at: Moment)
  {
    forall n :: Lookup(top, n) == Under(n, before, home, stage, sources, at)
  }

  /** What an unfinished removal may leave of a tree. */
  predicate PartOf(part: Node, whole: Node) {
    part == whole || (part.Dir? && whole.Dir? && part.folders <= whole.folders && (part.links ==> whole.links)
      && forall p :: p in part.files ==> p in whole.files && part.files[p] == whole.files[p])
  }

  predicate Remnant(left: Option<Node>, was: Option<Node>) {
    left.Some? ==> was.Some? && PartOf(left.value, was.value)
  }

  /** Where the old home is in a step: aside from its move to its removal. */
  predicate StandsAside(previous: Option<Node>, at: Moment, was: Option<Node>) {
    match at
    case RemovingHome => if Present(was) then previous.Some? && PartOf(previous.value, was.value) else previous.None?
    case PlacingHome => previous == if Present(was) then was else None
    case Provider(_, _) => previous == if Present(was) then was else None
    case Publishing => previous == if Present(was) then was else None
    case _ => previous.None?
  }

  /** What a rollback restores when some of the old trees are gone already: the home from what
      is left of it, or, once that is removed, no home and what is left of the providers. */
  ghost predicate HalfRestored(before: map<string, Node>, now: map<string, Node>, home: string,
      sources: map<string, Node>, at: Moment)
  {
    forall n ::
      if n == home then
        if at.RemovingHome? then Remnant(Lookup(now, n), Lookup(before, n)) && (n in before ==> n in now) else n !in now
      else if at.RemovingOld? && n in sources then Remnant(Lookup(now, n), Lookup(before, n))
      else Lookup(now, n) == Lookup(before, n)
  }

  /** What each end of an import promises of the directory, the manifest and the home set
      aside. */
  ghost predicate Promised(r: Result, before: map<string, Node>, manifestBefore: Option<Ledger>, top: map<string, Node>,
      manifest: Option<Ledger>, previous: Option<Node>, home: string, stage: Node, sources: map<string, Node>,
      report: Option<Ledger>)
  {
    match r
    case Imported(ledger) =>
      top == Installed(before, home, stage, sources) && manifest == Some(ledger) == report && previous.None?
    case Failed(at) =>
      if Late(at) then manifest == report && previous.None? && HalfRestored(before, top, home, sources, at)
      else top == before && manifest == manifestBefore && previous.None?
    case Interrupted(at) =>
      && StandsAt(top, before, home, stage, sources, at) && StandsAside(previous, at, Lookup(before, home))
      && manifest == if Late(at) then report else manifestBefore
  }

  /** The import itself goes no further than this step. */
  predicate HinderedAt(at: Moment, accepted: bool, stageable: bool, before: map<string, Node>, home: string,
      sources: map<string, Node>)
  {
    (at.Previewing? && !accepted) || (at.Staging? && !stageable) || RefusedAt(at, before, home, sources)
  }

  /** How an import of these providers into this directory ends: well exactly when nothing stands
      in its way and no trouble comes, at the step of the trouble if nothing else stands in its
      way, and never without a cause. */
  predicate EndsBy(r: Result, trouble: Trouble, accepted: bool, stageable: bool, before: map<string, Node>,
      home: string, sources: map<string, Node>)
  {
    var sound := accepted && stageable && Swappable(before, home, sources);
    && (r.Imported? <==> sound && !Occurs(trouble, sources))
    && (sound && Occurs(trouble, sources) ==> r == Ended(trouble.at, trouble))
    && (r.Interrupted? ==> trouble == Interrupt(r.at))
    && (r.Failed? ==> trouble == Exception(r.at) || HinderedAt(r.at, accepted, stageable, before, home, sources))
  }

  /** An interrupt no later than the first rename. */
  predicate UpToFirstRename(at: Moment, home: Option<Node>) {
    at.Previewing? || at.MakingDirectory? || at.Guarding? || at.Staging? || at.MovingHome?
    || (at.PlacingHome? && !Present(home))
  }

  /** After an interrupt everything is as before exactly when it came no later than the first
      rename; in the last step the import is complete. */
  lemma InterruptHarmlessExactly(top: map<string, Node>, previous: Option<Node>, before: map<string, Node>,
      home: string, stage: Node, sources: map<string, Node>, at: Moment)
    requires StandsAt(top, before, home, stage, sources, at) && StandsAside(previous, at, Lookup(before, home))
    requires stage.Dir?
    ensures !at.RemovingOld? ==> (top == before && previous.None? <==> UpToFirstRename(at, Lookup(before, home)))
    ensures at.RemovingOld? ==> top == Installed(before, home, stage, sources) && previous.None?
  {
    assert Lookup(top, home) == Under(home, before, home, stage, sources, at);
    if UpToFirstRename(at, Lookup(before, home)) {
      SameLookups(top, before);
    }
    if at.RemovingOld? {
      SameLookups(top, Installed(before, home, stage, sources));
    }
  }

  /** An interrupt no later than the first rename, or an exception before the manifest is
      published and the old trees are removed. */
  predicate Harmless(trouble: Trouble, home: Option<Node>) {
    match trouble
    case Nothing => false
    case Exception(at) => !Late(at)
    case Interrupt(at) => UpToFirstRename(at, home)
  }

  /** When an import does not succeed, everything is as before exactly after a harmless trouble;
      and where something else stands in its way, exactly when it got no further than a harmless
      one would. */
  lemma HarmlessExactly(r: Result, trouble: Trouble, accepted: bool, stageable: bool, before: map<string, Node>,
      manifestBefore: Option<Ledger>, top: map<string, Node>, manifest: Option<Ledger>, previous: Option<Node>,
      home: string, stage: Node, sources: map<string, Node>, report: Option<Ledger>)
    requires EndsBy(r, trouble, accepted, stageable, before, home, sources) && !r.Imported?
    requires Promised(r, before, manifestBefore, top, manifest, previous, home, stage, sources, report)
    requires stage.Dir? && manifestBefore != report
    ensures accepted && stageable && Swappable(before, home, sources) ==>
      (top == before && manifest == manifestBefore && previous.None? <==> Harmless(trouble, Lookup(before, home)))
    ensures r.Interrupted? ==> trouble == Interrupt(r.at)
    ensures top == before && manifest == manifestBefore && previous.None? <==>
      Harmless(if r.Interrupted? then trouble else Exception(r.at), Lookup(before, home))
  {
    if r.Interrupted? {
      InterruptHarmlessExactly(top, previous, before, home, stage, sources, r.at);
    }
  }

  /** An end before the first rename keeps its promise by touching nothing. */
  lemma NothingTouched(at: Moment, trouble: Trouble, accepted: bool, stageable: bool, top: map<string, Node>,
      manifest: Option<Ledger>, home: string, stage: Node, sources: map<string, Node>, report: Option<Ledger>)
    requires at.Previewing? || BeforeStaging(at) || at.Staging?
    requires Comes(trouble, at) || HinderedAt(at, accepted, stageable, top, home, sources)
    ensures Promised(Ended(at, trouble), top, manifest, top, manifest, None, home, stage, sources, report)
    ensures EndsBy(Ended(at, trouble), trouble, accepted, stageable, top, home, sources)
  {
  }

  /** The staging directories that no handler removes: those made before one that cannot be, or
      all four before the handler is in place. */
  predicate LeavesDirectories(trouble: Trouble) {
    trouble != Nothing && BeforeStaging(trouble.at) && trouble.at != MakingDirectory(1)
  }

  // ---- What can be undone --------------------------------------------------------------------

  /** Whatever was done so far can be undone: what is under each name, or what is kept for
      it, is what was there before. */
  ghost predicate Undoable(top: map<string, Node>, previous: Option<Node>, kept: map<string, Node>, home: string,
    before: map<string, Node>, swaps: seq<Swap>, swapped: bool)
  {
    && (forall i, j :: 0 <= i < j < |swaps| ==> swaps[i].name != swaps[j].name)
    && (forall i :: 0 <= i < |swaps| ==> SwapUndoable(kept, home, before, swaps[i]))
    && (forall n :: n != home && !Swapped(swaps, n) ==> Lookup(top, n) == Lookup(before, n))
    && HomeUndoable(top, previous, home, before, swapped)
  }

  predicate SwapUndoable(kept: map<string, Node>, home: string, before: map<string, Node>, s: Swap) {
    s.name != home && Lookup(before, s.name) == if s.had then Lookup(kept, s.name) else None
  }

  predicate HomeUndoable(top: map<string, Node>, previous: Option<Node>, home: string, before: map<string, Node>,
      swapped: bool)
  {
    if swapped then previous == Lookup(before, home)
    else if previous.Some? then previous == Lookup(before, home) && home !in top
    else Lookup(top, home) == Lookup(before, home)
  }

  function Restore(top: map<string, Node>, kept: map<string, Node>, s: Swap): map<string, Node> {
    if s.had && s.name in kept then (top - {s.name})[s.name := kept[s.name]] else top - {s.name}
  }

  lemma UndoOne(top: map<string, Node>, previous: Option<Node>, kept: map<string, Node>, home: string,
      before: map<string, Node>, swaps: seq<Swap>, s: Swap, swapped: bool)
    requires Undoable(top, previous, kept, home, before, swaps + [s], swapped)
    ensures Undoable(Restore(top, kept, s), previous, if s.had then kept - {s.name} else kept, home, before, swaps,
      swapped)
  {
    var all := swaps + [s];
    var after, left := Restore(top, kept, s), if s.had then kept - {s.name} else kept;
    assert all[|swaps|] == s && SwapUndoable(kept, home, before, s);
    forall i | 0 <= i < |swaps| ensures SwapUndoable(left, home, before, swaps[i]) {
      assert all[i] == swaps[i] && SwapUndoable(kept, home, before, all[i]) && all[i].name != s.name;
    }
    forall n | n != home && !Swapped(swaps, n) ensures Lookup(after, n) == Lookup(before, n) {
      if n != s.name {
        NotSwapped(swaps, s, n);
      }
    }
    forall i, j | 0 <= i < j < |swaps| ensures swaps[i].name != swaps[j].name {
      assert all[i].name != all[j].name;
    }
  }

  lemma NotSwapped(swaps: seq<Swap>, s: Swap, name: string)
    requires !Swapped(swaps, name) && s.name != name
    ensures !Swapped(swaps + [s], name)
  {
    var all := swaps + [s];
    forall i | 0 <= i < |all| ensures all[i].name != name {
      if i < |swaps| {
        assert swaps[i].name != name;
      }
    }
  }

  lemma UndoHome(top: map<string, Node>, previous: Option<Node>, kept: map<string, Node>, home: string,
      before: map<string, Node>, swapped: bool)
    requires Undoable(top, previous, kept, home, before, [], swapped)
    ensures var cleared := if swapped then top - {home} else top;
      (if previous.Some? then cleared[home := previous.value] else cleared) == before
  {
    var cleared := if swapped then top - {home} else top;
    var restored := if previous.Some? then cleared[home := previous.value] else cleared;
    forall n ensures Lookup(restored, n) == Lookup(before, n) {
      assert !Swapped([], n);
    }
    SameLookups(restored, before);
  }

  // ---- When the old trees are being removed --------------------------------------------------

  ghost predicate KeptSwapped(kept: map<string, Node>, swaps: seq<Swap>) {
    forall n :: n in kept ==> Swapped(swaps, n)
  }

  /** What is left of some trees. */
  function Parts(kept: map<string, Node>, parts: map<string, Node>): map<string, Node> {
    map n | n in kept && n in parts && PartOf(parts[n], kept[n]) :: parts[n]
  }

  /** The directory without its home and with what is left of the kept trees. */
  function Damaged(before: map<string, Node>, home: string, kept: map<string, Node>, left: map<string, Node>):
      map<string, Node>
  {
    map n | n in before && n != home && (n in kept ==> n in left) :: if n in kept then left[n] else before[n]
  }

  /** The rollback can still restore what is left. */
  lemma KeptDamaged(top: map<string, Node>, kept: map<string, Node>, left: map<string, Node>, home: string,
      before: map<string, Node>, swaps: seq<Swap>)
    requires Undoable(top, Lookup(before, home), kept, home, before, swaps, true) && KeptSwapped(kept, swaps)
    requires forall n :: n in left ==> n in kept && PartOf(left[n], kept[n])
    ensures Undoable(top, None, left, home, Damaged(before, home, kept, left), swaps, true)
    ensures HalfRestored(before, Damaged(before, home, kept, left), home, kept, RemovingOld)
  {
    var damaged := Damaged(before, home, kept, left);
    forall i | 0 <= i < |swaps| ensures SwapUndoable(left, home, damaged, swaps[i]) {
      assert SwapUndoable(kept, home, before, swaps[i]);
    }
    forall n | n != home && !Swapped(swaps, n) ensures Lookup(top, n) == Lookup(damaged, n) {
      assert n !in kept;
    }
    forall n | n in kept ensures n in before ==> before[n] == kept[n] {
      var i :| 0 <= i < |swaps| && swaps[i].name == n;
      assert SwapUndoable(kept, home, before, swaps[i]);
    }
  }

  predicate Swapped(swaps: seq<Swap>, name: string) {
    exists i :: 0 <= i < |swaps| && swaps[i].name == name
  }

  lemma SameLookups(a: map<string, Node>, b: map<string, Node>)
    requires forall n :: Lookup(a, n) == Lookup(b, n)
    ensures a == b
  {
    forall n ensures n in a <==> n in b {
      assert Lookup(a, n) == Lookup(b, n);
    }
    forall n | n in a ensures a[n] == b[n] {
      assert Lookup(a, n) == Lookup(b, n);
    }
  }

  // ---- Swapping in ---------------------------------------------------------------------------

  /** A provider taken away, or replaced, can be undone with its old content kept. */
  lemma OneSwapped(top: map<string, Node>, previous: Option<Node>, kept: map<string, Node>, home: string,
      before: map<string, Node>, swaps: seq<Swap>, name: string, after: map<string, Node>)
    requires Undoable(top, previous, kept, home, before, swaps, true) && !Swapped(swaps, name) && name != home
    requires name !in kept
    requires forall n :: n != name ==> Lookup(after, n) == Lookup(top, n)
    ensures Undoable(after, previous, if name in top then kept[name := top[name]] else kept, home, before,
      swaps + [Swap(name, name in top)], true)
  {
    var more, all := if name in top then kept[name := top[name]] else kept, swaps + [Swap(name, name in top)];
    assert Lookup(top, name) == Lookup(before, name);
    forall i | 0 <= i < |all| ensures SwapUndoable(more, home, before, all[i]) {
      if i < |swaps| {
        assert SwapUndoable(kept, home, before, swaps[i]) && swaps[i].name != name;
      }
    }
    forall n | n != home && !Swapped(all, n) ensures Lookup(after, n) == Lookup(before, n) {
      assert all[|swaps|].name == name;
      forall i | 0 <= i < |swaps| ensures swaps[i].name != n {
        assert all[i].name != n;
      }
      assert !Swapped(swaps, n);
    }
  }

  /** What is under a name that was swapped does not matter. */
  lemma SwappedFreely(top: map<string, Node>, previous: Option<Node>, kept: map<string, Node>, home: string,
      before: map<string, Node>, swaps: seq<Swap>, name: string, candidate: Node)
    requires Undoable(top, previous, kept, home, before, swaps, true) && Swapped(swaps, name) && name != home
    ensures Undoable(top[name := candidate], previous, kept, home, before, swaps, true)
  {
  }

  /** What is under a name when some of the providers are in place. */
  function Expected(before: map<string, Node>, home: string, stage: Node, sources: map<string, Node>,
      done: seq<string>, n: string): Option<Node>
  {
    if n == home then Some(stage) else if n in done && n in sources then Some(Merged(Lookup(before, n), sources[n]))
    else Lookup(before, n)
  }

  function Waiting(sources: map<string, Node>, done: seq<string>, n: string): Option<Node> {
    if n in done then None else Lookup(sources, n)
  }

  /** How far the swapping in has come: these providers are in place, nothing else changed. */
  ghost predicate Progress(top: map<string, Node>, left: map<string, Node>, kept: map<string, Node>, swaps: seq<Swap>,
      home: string, before: map<string, Node>, stage: Node, sources: map<string, Node>, done: seq<string>)
  {
    && |swaps| == |done| && (forall i :: 0 <= i < |done| ==> swaps[i].name == done[i] && done[i] != home)
    && (forall n :: n in kept ==> n in done)
    && (forall n :: Lookup(left, n) == Waiting(sources, done, n))
    && (forall n :: Lookup(top, n) == Expected(before, home, stage, sources, done, n))
  }

  lemma ProgressStart(top: map<string, Node>, home: string, before: map<string, Node>, stage: Node,
      sources: map<string, Node>)
    requires top == before[home := stage]
    ensures Progress(top, sources, map[], [], home, before, stage, sources, [])
  {
  }

  lemma NextName(sources: map<string, Node>, names: seq<string>, k: nat, earlier: seq<string>)
    requires names == Sorted(sources.Keys) && k < |names| && earlier == names[..k]
    ensures names[k] in sources && names[k] !in earlier && names[..k + 1] == earlier + [names[k]]
  {
    assert names[k] in Elements(names);
    NotBefore(names, k, earlier);
  }

  lemma NotBefore(names: seq<string>, k: nat, earlier: seq<string>)
    requires StrictlySorted(names) && k < |names| && earlier == names[..k]
    ensures names[k] !in earlier
  {
    forall i | 0 <= i < k ensures earlier[i] != names[k] {
      BeforeTotal(names[i], names[k]);
    }
  }

  lemma NotYet(top: map<string, Node>, left: map<string, Node>, kept: map<string, Node>, swaps: seq<Swap>, home: string,
      before: map<string, Node>, stage: Node, sources: map<string, Node>, done: seq<string>, name: string)
    requires Progress(top, left, kept, swaps, home, before, stage, sources, done) && name in sources && name !in done
    ensures name in left && left[name] == sources[name] && name !in kept && !Swapped(swaps, name)
  {
    assert Lookup(left, name) == Waiting(sources, done, name);
  }

  lemma ProgressNext(top: map<string, Node>, left: map<string, Node>, kept: map<string, Node>, swaps: seq<Swap>,
      home: string, before: map<string, Node>, stage: Node, sources: map<string, Node>, done: seq<string>,
      name: string, more: map<string, Node>)
    requires Progress(top, left, kept, swaps, home, before, stage, sources, done) && name in sources && name !in done
    requires name != home
    requires more.Keys == kept.Keys + if name in before then {name} else {}
    ensures Progress(top[name := Merged(Lookup(before, name), sources[name])], left - {name}, more,
      swaps + [Swap(name, name in before)],
      home, before, stage, sources, done + [name])
  {
    var placed, all := top[name := Merged(Lookup(before, name), sources[name])], done + [name];
    forall n ensures n in all <==> n in done || n == name {
    }
    forall n ensures Lookup(left - {name}, n) == Waiting(sources, all, n) {
      assert Lookup(left, n) == Waiting(sources, done, n);
    }
    forall n ensures Lookup(placed, n) == Expected(before, home, stage, sources, all, n) {
      assert Lookup(top, n) == Expected(before, home, stage, sources, done, n);
    }
  }

  /** Where the swapping in stops, the providers before are in place and those behind are not. */
  lemma StoppedAt(top: map<string, Node>, now: map<string, Node>, left: map<string, Node>, kept: map<string, Node>,
      swaps: seq<Swap>, home: string, before: map<string, Node>, stage: Node, sources: map<string, Node>,
      names: seq<string>, k: nat, at: Moment)
    requires names == Sorted(sources.Keys) && k < |names| && at.Provider? && at.name == names[k]
    requires names[k] in sources
    requires Progress(top, left, kept, swaps, home, before, stage, sources, names[..k])
    requires forall n :: n != names[k] || n == home ==> Lookup(now, n) == Lookup(top, n)
    requires names[k] != home ==>
      Lookup(now, names[k]) == ProviderAt(at, names[k], Lookup(before, names[k]), sources[names[k]])
    ensures StandsAt(now, before, home, stage, sources, at)
  {
    forall n ensures Lookup(now, n) == Under(n, before, home, stage, sources, at) {
      if n == home || n != names[k] {
        assert Lookup(top, n) == Expected(before, home, stage, sources, names[..k], n);
        if n in sources && n != names[k] {
          DoneBefore(sources, names, k, n);
          OtherProvider(at, n, Lookup(before, n), sources[n]);
        }
      }
    }
  }

  lemma OtherProvider(at: Moment, n: string, was: Option<Node>, source: Node)
    requires at.Provider? && n != at.name
    ensures ProviderAt(at, n, was, source) == if Before(n, at.name) then Some(Merged(was, source)) else was
  {
  }

  lemma DoneBefore(sources: map<string, Node>, names: seq<string>, k: nat, n: string)
    requires names == Sorted(sources.Keys) && k < |names| && n in sources && n != names[k]
    ensures n in names[..k] <==> Before(n, names[k])
  {
    AllDone(sources, names, n);
    var i :| 0 <= i < |names| && names[i] == n;
    BeforeTotal(n, names[k]);
    if i < k {
      assert names[..k][i] == n;
    }
  }

  lemma InstalledStands(before: map<string, Node>, home: string, stage: Node, sources: map<string, Node>, at: Moment)
    requires at.Publishing? || Late(at)
    ensures StandsAt(Installed(before, home, stage, sources), before, home, stage, sources, at)
  {
  }

  lemma AllInstalled(top: map<string, Node>, left: map<string, Node>, kept: map<string, Node>, swaps: seq<Swap>,
      home: string, before: map<string, Node>, stage: Node, sources: map<string, Node>, names: seq<string>)
    requires Progress(top, left, kept, swaps, home, before, stage, sources, names) && names == Sorted(sources.Keys)
    ensures top == Installed(before, home, stage, sources)
  {
    forall n ensures Lookup(top, n) == Lookup(Installed(before, home, stage, sources), n) {
      assert Lookup(top, n) == Expected(before, home, stage, sources, names, n);
      AllDone(sources, names, n);
    }
    SameLookups(top, Installed(before, home, stage, sources));
  }

  /** At the end all providers have had their turn, and what is kept is theirs. */
  lemma AllSwapped(top: map<string, Node>, left: map<string, Node>, kept: map<string, Node>, swaps: seq<Swap>,
      home: string, before: map<string, Node>, stage: Node, sources: map<string, Node>, names: seq<string>)
    requires Progress(top, left, kept, swaps, home, before, stage, sources, names) && names == Sorted(sources.Keys)
    ensures KeptSwapped(kept, swaps) && kept.Keys <= sources.Keys && forall n :: n in sources ==> n in names
  {
    forall n ensures n in names <==> n in sources {
      AllDone(sources, names, n);
    }
    forall n | n in kept ensures Swapped(swaps, n) && n in sources {
      var i :| 0 <= i < |names| && names[i] == n;
      assert swaps[i].name == n;
    }
  }

  /** The steps of these providers did not stop. */
  ghost predicate PassedBy(done: seq<string>, trouble: Trouble, before: map<string, Node>, home: string,
      sources: map<string, Node>)
  {
    forall n :: n in done && n in sources ==> FirstStop(n, trouble, Unfit(before, home, n, sources[n])).None?
  }

  lemma PassedNext(done: seq<string>, name: string, trouble: Trouble, before: map<string, Node>, home: string,
      sources: map<string, Node>, stop: Option<Moment>)
    requires name in sources && stop == FirstStop(name, trouble, Unfit(before, home, name, sources[name]))
    ensures stop.Some? ==> stop.value.Provider? && StopsAt(stop.value, trouble, before, home, sources)
    ensures stop.None? && PassedBy(done, trouble, before, home, sources) ==>
      PassedBy(done + [name], trouble, before, home, sources)
  {
  }

  lemma NoneStopped(before: map<string, Node>, home: string, sources: map<string, Node>, names: seq<string>,
      trouble: Trouble)
    requires (forall n :: n in sources ==> n in names) && PassedBy(names, trouble, before, home, sources)
    ensures NoneUnfit(before, home, sources)
    ensures trouble != Nothing && trouble.at.Provider? ==> trouble.at.name !in sources
  {
    forall n | n in sources
      ensures !Unfit(before, home, n, sources[n])
      ensures trouble != Nothing && trouble.at.Provider? ==> trouble.at.name != n
    {
      assert FirstStop(n, trouble, Unfit(before, home, n, sources[n])).None?;
    }
  }

  lemma AllDone(sources: map<string, Node>, names: seq<string>, n: string)
    requires names == Sorted(sources.Keys)
    ensures n in names <==> n in sources
  {
    assert n in names <==> n in Elements(names);
  }

  // ---- When a completed import is the new trees over the old ones ------------------------------

  /** The directory one would expect: each provider's new tree laid over its old one. */
  function Expectation(top: map<string, Node>, home: string, stage: Node, sources: map<string, Node>): map<string, Node>
  {
    map n | n in top.Keys + sources.Keys + {home} ::
      if n == home then stage else if n in sources then Overlaid(Lookup(top, n), sources[n]) else top[n]
  }

  /** Some staged file's path is a folder of the provider it goes to. */
  predicate SomeFileOnFolder(top: map<string, Node>, home: string, sources: map<string, Node>) {
    exists n :: n in sources && n != home && FileOnFolder(Lookup(top, n), sources[n])
  }

  ghost predicate AllWellFormed(top: map<string, Node>) {
    forall n :: n in top ==> WellFormed(top[n])
  }

  /** A completed import is the staged trees over the old ones exactly when no staged file's
      path is an existing folder of its provider. Either way it is a proper directory. */
  lemma InstalledAsExpectedExactly(top: map<string, Node>, home: string, stage: Node, sources: map<string, Node>)
    requires AllWellFormed(top) && AllStaged(sources)
    ensures Staged(stage) && NoneUnfit(top, home, sources) ==> AllWellFormed(Installed(top, home, stage, sources))
    ensures Installed(top, home, stage, sources) == Expectation(top, home, stage, sources) <==>
      !SomeFileOnFolder(top, home, sources)
  {
    var installed, expected := Installed(top, home, stage, sources), Expectation(top, home, stage, sources);
    forall n | n in sources && n != home
      ensures installed[n] == expected[n] <==> !FileOnFolder(Lookup(top, n), sources[n])
    {
      MergedOverlaysExactly(Lookup(top, n), sources[n]);
    }
    if Staged(stage) && NoneUnfit(top, home, sources) {
      StagedWellFormed(stage);
      forall n | n in sources && n != home ensures WellFormed(installed[n]) {
        MergedWellFormed(Lookup(top, n), sources[n]);
      }
    }
    if !SomeFileOnFolder(top, home, sources) {
      assert installed.Keys == expected.Keys;
      assert forall n :: n in installed ==> installed[n] == expected[n];
    }
  }
}
