/** The import of a Hermes backup: everything is staged beside the home, swapped in by
    renames, and swapped back when anything fails before the manifest is published. */
module HermesImport {
  import opened Options
  import opened Text
  import opened HermesArchive
  import opened HermesLedger
  import opened HermesMerge
  import opened HermesSteps

  class Workspace {
    /** The directory that holds the home and the providers. */
    var top: map<string, Node>
    const home: string
    var manifest: Option<Ledger>
    var tmpManifest: bool
    var previous: Option<Node>
    var stage: Option<Node>
    var externalStage: Option<map<string, Node>>
    var externalMerge: Option<map<string, Node>>
    var externalPrevious: Option<map<string, Node>>

    ghost predicate StagingGone()
      reads this
    {
      stage.None? && externalStage.None? && externalMerge.None? && externalPrevious.None?
    }

    /** import_zip. It succeeds exactly when nothing stands in its way and no trouble comes, and
        then installs the archive's content. Trouble in one of its steps ends it there. An
        exception before the manifest is published leaves the directory and the manifest exactly
        as before; what any other end leaves is told by its step. Staging directories are left
        exactly when the trouble comes among their creations. */
    method ImportZip(preview: seq<Info>, snapshot: seq<Info>, approved: set<string>,
        rewrite: (Path, Content) -> Content, trouble: Trouble)
      returns (r: Result)
      requires StagingGone() && previous.None?
      modifies this
      ensures EndsBy(r, trouble, Acceptable(preview, approved), Stageable(snapshot, approved), old(top), home,
        Sources(rewrite, EntriesOf(snapshot)))
      ensures Promised(r, old(top), old(manifest), top, manifest, previous, home,
        NewHome(rewrite, EntriesOf(snapshot)), Sources(rewrite, EntriesOf(snapshot)), Report(snapshot))
      ensures r.Imported? ==> !tmpManifest
      ensures StagingGone() <==> !(Acceptable(preview, approved) && LeavesDirectories(trouble))
    {
      ghost var stageNode, sources := NewHome(rewrite, EntriesOf(snapshot)), Sources(rewrite, EntriesOf(snapshot));
      var accepted := false;
      if !Comes(trouble, Previewing) {
        accepted := CheckPreview(preview, approved);
      }
      if accepted {
        var plan := ReadPlan(snapshot, approved, rewrite);
        r := ImportPlan(plan, trouble, stageNode, sources, Report(snapshot));
      } else {
        NothingTouched(Previewing, trouble, Acceptable(preview, approved), Stageable(snapshot, approved), top, manifest,
          home, stageNode, sources, Report(snapshot));
        r := Ended(Previewing, trouble);
      }
    }

    /** What extraction and the rewriting of the active files will make of the archive. It is a
        value, so it does not matter that it is known before the directories for it are made. */
    method ReadPlan(infos: seq<Info>, approved: set<string>, rewrite: (Path, Content) -> Content)
      returns (plan: Option<Plan>)
      ensures plan == PlanOf(infos, approved, rewrite)
      ensures plan.Some? ==> AllStaged(plan.value.providers)
    {
      plan := None;
      var read := ReadArchive(infos);
      if read.Some? && Importable(read.value) {
        var ledger := Accounting(read.value);
        var extracted := Extract(read.value, approved);
        if extracted.Some? {
          ProvidersStaged(extracted.value.providers, rewrite);
          var providers := Providers(Rewritten(extracted.value.providers, rewrite));
          plan := Some(Plan(ledger, Directory(Rewritten(extracted.value.home, rewrite)), providers));
        }
      }
    }

    /** Staging, swap and cleanup. */
    method ImportPlan(plan: Option<Plan>, trouble: Trouble, ghost stageNode: Node, ghost sources: map<string, Node>,
        ghost report: Option<Ledger>)
      returns (r: Result)
      requires StagingGone() && previous.None? && !Comes(trouble, Previewing)
      requires plan.Some? ==> report == Some(plan.value.ledger) && plan.value.home == stageNode
      requires plan.Some? ==> plan.value.providers == sources && AllStaged(sources)
      modifies this
      ensures EndsBy(r, trouble, true, plan.Some?, old(top), home, sources)
      ensures Promised(r, old(top), old(manifest), top, manifest, previous, home, stageNode, sources, report)
      ensures r.Imported? ==> !tmpManifest
      ensures StagingGone() <==> !LeavesDirectories(trouble)
    {
      var stop := MakeStaging(trouble);
      if stop.Some? {
        NothingTouched(stop.value, trouble, true, plan.Some?, top, manifest, home, stageNode, sources, report);
        return Ended(stop.value, trouble);
      }
      if plan.Some? && !Comes(trouble, Staging) {
        stage, externalStage := Some(plan.value.home), Some(plan.value.providers);
        r := SwapIn(plan.value.ledger, stageNode, sources, trouble, report);
      } else {
        NothingTouched(Staging, trouble, true, plan.Some?, top, manifest, home, stageNode, sources, report);
        r := Ended(Staging, trouble);
      }
      CleanUp();
    }

    /** The swap, the manifest and the removal of the old trees; an exception rolls back what
        can be, an interrupt nothing. */
    method SwapIn(ledger: Ledger, ghost stageNode: Node, ghost sources: map<string, Node>, trouble: Trouble,
        ghost report: Option<Ledger>)
      returns (r: Result)
      requires report == Some(ledger)
      requires stage == Some(stageNode) && externalStage == Some(sources) && AllStaged(sources)
      requires externalMerge.Some? && externalPrevious == Some(map[]) && previous.None?
      requires trouble != Nothing ==> InSwap(trouble.at)
      modifies this
      ensures EndsBy(r, trouble, true, true, old(top), home, sources)
      ensures Promised(r, old(top), old(manifest), top, manifest, previous, home, stageNode, sources, report)
      ensures r.Imported? ==> !tmpManifest
    {
      var stop, swaps, swapped;
      ghost var target;
      stop, swaps, swapped, target := Advance(ledger, stageNode, sources, trouble);
      if stop.None? {
        r := Imported(ledger);
      } else {
        r := Ended(stop.value, trouble);
        if r.Failed? {
          Rollback(target, swaps, swapped);
        }
      }
    }

    /** All steps from the first rename on, up to one that stops. What the rollback can restore
        then is the target. */
    method Advance(ledger: Ledger, ghost stageNode: Node, ghost sources: map<string, Node>, trouble: Trouble)
      returns (stop: Option<Moment>, swaps: seq<Swap>, swapped: bool, ghost target: map<string, Node>)
      requires stage == Some(stageNode) && externalStage == Some(sources) && AllStaged(sources)
      requires externalMerge.Some? && externalPrevious == Some(map[]) && previous.None?
      modifies this
      ensures stop.Some? ==> externalPrevious.Some?
      ensures stop.Some? ==> Undoable(top, previous, externalPrevious.value, home, target, swaps, swapped)
      ensures stop.Some? ==>
        if Late(stop.value) then HalfRestored(old(top), target, home, sources, stop.value) else target == old(top)
      ensures stop.Some? ==> StandsAt(top, old(top), home, stageNode, sources, stop.value)
      ensures stop.Some? ==> StandsAside(previous, stop.value, Lookup(old(top), home))
      ensures stop.Some? ==> manifest == if Late(stop.value) then Some(ledger) else old(manifest)
      ensures stop.Some? ==> StopsAt(stop.value, trouble, old(top), home, sources)
      ensures stop.None? ==> top == Installed(old(top), home, stageNode, sources) && previous.None?
      ensures stop.None? ==> manifest == Some(ledger) && !tmpManifest
      ensures stop.None? ==> Swappable(old(top), home, sources) && !OccursInSwap(trouble, sources)
    {
      stop, swaps, swapped := SwapAll(stageNode, sources, trouble);
      target := old(top);
      if stop.None? {
        stop, target := Complete(ledger, old(top), stageNode, sources, swaps, trouble);
      }
    }

    /** The home and all providers. */
    method SwapAll(ghost stageNode: Node, ghost sources: map<string, Node>, trouble: Trouble)
      returns (stop: Option<Moment>, swaps: seq<Swap>, swapped: bool)
      requires stage == Some(stageNode) && externalStage == Some(sources) && AllStaged(sources)
      requires externalMerge.Some? && externalPrevious == Some(map[]) && previous.None?
      modifies this`top, this`previous, this`stage, this`externalStage, this`externalMerge, this`externalPrevious
      ensures externalPrevious.Some?
      ensures Undoable(top, previous, externalPrevious.value, home, old(top), swaps, swapped)
      ensures stop.Some? ==> StandsAt(top, old(top), home, stageNode, sources, stop.value)
      ensures stop.Some? ==> StandsAside(previous, stop.value, Lookup(old(top), home))
      ensures stop.Some? ==> StopsAt(stop.value, trouble, old(top), home, sources)
      ensures stop.Some? ==> !stop.value.Publishing? && !Late(stop.value)
      ensures stop.None? ==> swapped && top == Installed(old(top), home, stageNode, sources)
      ensures stop.None? ==> previous == Lookup(old(top), home) && Lookup(old(top), home) != Some(Link(false))
      ensures stop.None? ==> NoneUnfit(old(top), home, sources)
      ensures stop.None? && OccursInSwap(trouble, sources) ==> trouble.at.Publishing? || Late(trouble.at)
      ensures stop.None? ==> KeptSwapped(externalPrevious.value, swaps) && externalPrevious.value.Keys <= sources.Keys
    {
      swaps := [];
      stop, swapped := SwapHome(top, trouble);
      if stop.None? {
        stop, swaps := SwapProviders(old(top), stageNode, sources, trouble);
      }
    }

    /** The manifest is published and the old trees are removed. */
    method Complete(ledger: Ledger, ghost before: map<string, Node>, ghost stageNode: Node,
        ghost sources: map<string, Node>, ghost swaps: seq<Swap>, trouble: Trouble)
      returns (stop: Option<Moment>, ghost target: map<string, Node>)
      requires externalPrevious.Some? && top == Installed(before, home, stageNode, sources)
      requires Undoable(top, previous, externalPrevious.value, home, before, swaps, true)
      requires previous == Lookup(before, home) && Lookup(before, home) != Some(Link(false))
      requires KeptSwapped(externalPrevious.value, swaps) && externalPrevious.value.Keys <= sources.Keys
      modifies this`manifest, this`tmpManifest, this`previous, this`externalPrevious
      ensures stop.Some? ==> externalPrevious.Some? && StandsAt(top, before, home, stageNode, sources, stop.value)
      ensures stop.Some? ==> Undoable(top, previous, externalPrevious.value, home, target, swaps, true)
      ensures stop.Some? ==>
        if Late(stop.value) then HalfRestored(before, target, home, sources, stop.value) else target == before
      ensures stop.Some? ==> StandsAside(previous, stop.value, Lookup(before, home))
      ensures stop.Some? ==> manifest == if Late(stop.value) then Some(ledger) else old(manifest)
      ensures stop.Some? ==> StopsAt(stop.value, trouble, before, home, sources)
      ensures stop.None? ==> previous.None? && manifest == Some(ledger) && !tmpManifest
      ensures stop.None? ==> Replaceable(Lookup(before, home))
      ensures stop.None? ==> !Comes(trouble, Publishing)
      ensures stop.None? ==> !Comes(trouble, RemovingHome) && !Comes(trouble, RemovingOld)
    {
      target := before;
      stop := PublishManifest(ledger, trouble);
      if stop.None? {
        stop, target := RemovePrevious(before, swaps, trouble);
      }
      if stop.None? {
        stop, target := RemoveKept(before, swaps, trouble);
      }
      if stop.Some? {
        InstalledStands(before, home, stageNode, sources, stop.value);
      }
    }

    /** The removal of the old home. */
    method RemovePrevious(ghost before: map<string, Node>, ghost swaps: seq<Swap>, trouble: Trouble)
      returns (stop: Option<Moment>, ghost target: map<string, Node>)
      requires externalPrevious.Some?
      requires Undoable(top, previous, externalPrevious.value, home, before, swaps, true)
      requires previous == Lookup(before, home)
      requires Lookup(before, home) != Some(Link(false))
      modifies this`previous
      ensures stop == if Comes(trouble, RemovingHome) || !Replaceable(Lookup(before, home)) then Some(RemovingHome)
        else None
      ensures stop.None? ==> previous.None?
      ensures stop.Some? ==> StandsAside(previous, RemovingHome, Lookup(before, home))
      ensures stop.Some? ==> Undoable(top, previous, externalPrevious.value, home, target, swaps, true)
      ensures stop.Some? ==> HalfRestored(before, target, home, map[], RemovingHome)
    {
      target := before;
      stop := if previous.Some? && !previous.value.Dir? then Some(RemovingHome) else None;
      if stop.None? && Comes(trouble, RemovingHome) {
        var part: Node := *;
        if previous.Some? && PartOf(part, previous.value) {
          previous := Some(part);
          target := target[home := part];
        }
        stop := Some(RemovingHome);
      }
      if stop.None? {
        previous := None;
      }
    }

    /** The removal of the old provider trees. */
    method RemoveKept(ghost before: map<string, Node>, ghost swaps: seq<Swap>, trouble: Trouble)
      returns (stop: Option<Moment>, ghost target: map<string, Node>)
      requires externalPrevious.Some? && previous.None? && KeptSwapped(externalPrevious.value, swaps)
      requires Undoable(top, Lookup(before, home), externalPrevious.value, home, before, swaps, true)
      modifies this`externalPrevious
      ensures stop == if Comes(trouble, RemovingOld) then Some(RemovingOld) else None
      ensures stop.Some? ==> externalPrevious.Some?
      ensures stop.Some? ==> Undoable(top, None, externalPrevious.value, home, target, swaps, true)
      ensures stop.Some? ==> HalfRestored(before, target, home, old(externalPrevious.value), RemovingOld)
    {
      stop, target := None, map[];
      if Comes(trouble, RemovingOld) {
        ghost var kept := externalPrevious.value;
        var parts: map<string, Node> := *;
        externalPrevious := Some(Parts(externalPrevious.value, parts));
        target := Damaged(before, home, kept, externalPrevious.value);
        KeptDamaged(top, kept, externalPrevious.value, home, before, swaps);
        stop := Some(RemovingOld);
      } else {
        externalPrevious := None;
      }
    }

    /** The archive is acceptable and names exactly the approved providers. */
    method CheckPreview(infos: seq<Info>, approved: set<string>) returns (ok: bool)
      ensures ok <==> Acceptable(infos, approved)
    {
      var read := ReadArchive(infos);
      if read.None? {
        return false;
      }
      var external := ExternalNames(read.value);
      ok := Importable(read.value) && external !! RESERVED && approved !! RESERVED && external == approved;
    }

    /** Four directories beside the home, up to the one that cannot be made, and the moment after
        them. */
    method MakeStaging(trouble: Trouble) returns (stop: Option<Moment>)
      requires StagingGone()
      modifies this`stage, this`externalStage, this`externalMerge, this`externalPrevious
      ensures stop == if trouble != Nothing && BeforeStaging(trouble.at) then Some(trouble.at) else None
      ensures StagingGone() <==> Comes(trouble, MakingDirectory(1))
      ensures stop.None? ==> stage.Some? && externalStage == Some(map[])
      ensures stop.None? ==> externalMerge == Some(map[]) && externalPrevious == Some(map[])
    {
      if Comes(trouble, MakingDirectory(1)) { return Some(MakingDirectory(1)); }
      stage := Some(Directory(map[]));
      if Comes(trouble, MakingDirectory(2)) { return Some(MakingDirectory(2)); }
      externalStage := Some(map[]);
      if Comes(trouble, MakingDirectory(3)) { return Some(MakingDirectory(3)); }
      externalMerge := Some(map[]);
      if Comes(trouble, MakingDirectory(4)) { return Some(MakingDirectory(4)); }
      externalPrevious := Some(map[]);
      stop := if Comes(trouble, Guarding) then Some(Guarding) else None;
    }

    /** The old home out of the way, the staged one in its place. */
    method SwapHome(ghost before: map<string, Node>, trouble: Trouble) returns (stop: Option<Moment>, swapped: bool)
      requires stage.Some? && externalPrevious.Some? && previous.None? && top == before
      requires externalPrevious.value == map[]
      modifies this`top, this`previous, this`stage
      ensures Undoable(top, previous, externalPrevious.value, home, before, [], swapped)
      ensures stop.None? ==> swapped && stage.None? && top == before[home := old(stage.value)]
      ensures stop.None? ==> previous == Lookup(before, home) && Lookup(before, home) != Some(Link(false))
      ensures stop.None? ==> !Comes(trouble, MovingHome) && !Comes(trouble, PlacingHome)
      ensures stop.Some? ==> stop.value in {MovingHome, PlacingHome}
      ensures stop.Some? ==> Comes(trouble, stop.value) || RefusedAt(stop.value, before, home, map[])
      ensures stop.Some? ==> StandsAside(previous, stop.value, Lookup(before, home))
      ensures stop.Some? ==> Lookup(top, home) == HomeAt(stop.value, Lookup(before, home), old(stage.value))
      ensures forall n :: n != home ==> Lookup(top, n) == Lookup(before, n)
    {
      stop, swapped := None, false;
      if Comes(trouble, MovingHome) {
        return Some(MovingHome), false;
      }
      if home in top && top[home] != Link(false) {
        previous := Some(top[home]);
        top := top - {home};
      }
      if Comes(trouble, PlacingHome) || home in top {
        return Some(PlacingHome), false;
      }
      top, stage := top[home := stage.value], None;
      swapped := true;
    }

    /** The manifest is written beside its place and then renamed there. */
    method PublishManifest(ledger: Ledger, trouble: Trouble) returns (stop: Option<Moment>)
      modifies this`manifest, this`tmpManifest
      ensures stop == if Comes(trouble, Publishing) then Some(Publishing) else None
      ensures if stop.None? then manifest == Some(ledger) && !tmpManifest else manifest == old(manifest)
    {
      if Comes(trouble, Publishing) {
        tmpManifest := *;
        return Some(Publishing);
      }
      manifest, tmpManifest, stop := Some(ledger), false, None;
    }

    method CleanUp()
      modifies this`stage, this`externalStage, this`externalMerge, this`externalPrevious
      ensures stage.None? && externalStage.None? && externalMerge.None? && externalPrevious.None?
    {
      stage, externalStage, externalMerge, externalPrevious := None, None, None, None;
    }

    /** What is to take a name: the new tree, copied over a copy of an existing directory. */
    method Candidate(name: string, source: Node) returns (candidate: Option<Node>)
      requires externalMerge.Some? && Staged(source)
      modifies this`externalMerge
      ensures externalMerge.Some?
      ensures candidate == if name in top && Blocked(top[name], source) then None
        else Some(Merged(Lookup(top, name), source))
    {
      candidate := Some(source);
      if source.Dir? && name in top && top[name].Dir? {
        candidate := CopyOver(top[name], source);
        if candidate.Some? {
          externalMerge := Some(externalMerge.value[name := candidate.value]);
        }
      }
    }

    /** One provider is swapped in: the checks, the copy of an existing directory and of the new
        files over it, and the two renames. */
    method SwapOne(name: string, ghost before: map<string, Node>, swaps: seq<Swap>, trouble: Trouble)
      returns (stop: Option<Moment>, done: seq<Swap>)
      requires externalStage.Some? && externalMerge.Some? && externalPrevious.Some? && name in externalStage.value
      requires Undoable(top, previous, externalPrevious.value, home, before, swaps, true) && !Swapped(swaps, name)
      requires name !in externalPrevious.value && Staged(externalStage.value[name])
      modifies this`top, this`externalStage, this`externalMerge, this`externalPrevious
      ensures externalStage.Some? && externalMerge.Some? && externalPrevious.Some?
      ensures Undoable(top, previous, externalPrevious.value, home, before, done, true)
      ensures forall n :: n != name || n == home ==> Lookup(top, n) == old(Lookup(top, n))
      ensures stop == FirstStop(name, trouble, Unfit(before, home, name, old(externalStage.value)[name]))
      ensures stop.Some? && name != home ==>
        Lookup(top, name) == ProviderAt(stop.value, name, Lookup(before, name), old(externalStage.value)[name])
      ensures stop.None? ==> done == swaps + [Swap(name, name in before)] && name != home
      ensures stop.None? ==> top == old(top)[name := Merged(Lookup(before, name), old(externalStage.value)[name])]
      ensures stop.None? ==> externalStage.value == old(externalStage.value) - {name}
      ensures stop.None? ==>
        externalPrevious.value.Keys == old(externalPrevious.value).Keys + if name in before then {name} else {}
    {
      done := swaps;
      BeforeTotal(name, name);
      var source := externalStage.value[name];
      var linked := name in top && (top[name].Link? || (top[name].Dir? && top[name].links));
      assert name != home ==> Lookup(top, name) == Lookup(before, name);
      if name == home || linked || Comes(trouble, Provider(name, Copying)) {
        return Some(Provider(name, Copying)), done;
      }
      var candidate := Candidate(name, source);
      if candidate.None? {
        return Some(Provider(name, Copying)), done;
      }
      stop, done := Place(name, candidate.value, before, swaps, trouble);
    }

    /** What is under a name moves aside and the candidate takes its place. */
    method Place(name: string, candidate: Node, ghost before: map<string, Node>, swaps: seq<Swap>, trouble: Trouble)
      returns (stop: Option<Moment>, done: seq<Swap>)
      requires externalStage.Some? && externalMerge.Some? && externalPrevious.Some?
      requires Undoable(top, previous, externalPrevious.value, home, before, swaps, true) && !Swapped(swaps, name)
      requires name != home && name !in externalPrevious.value && Lookup(top, name) == Lookup(before, name)
      requires !Comes(trouble, Provider(name, Copying))
      modifies this`top, this`externalStage, this`externalMerge, this`externalPrevious
      ensures externalStage.Some? && externalMerge.Some? && externalPrevious.Some?
      ensures Undoable(top, previous, externalPrevious.value, home, before, done, true)
      ensures forall n :: n != name ==> Lookup(top, n) == old(Lookup(top, n))
      ensures stop == FirstStop(name, trouble, false)
      ensures Lookup(top, name) == if stop == Some(Provider(name, MovingOld)) then Lookup(before, name)
        else if stop == Some(Provider(name, PlacingNew)) then None
        else Some(candidate)
      ensures stop.None? ==> done == swaps + [Swap(name, name in before)] && top == old(top)[name := candidate]
      ensures stop.None? ==> externalStage.value == old(externalStage.value) - {name}
      ensures stop.None? ==>
        externalPrevious.value.Keys == old(externalPrevious.value).Keys + if name in before then {name} else {}
    {
      stop, done := None, swaps;
      StepCases(name, trouble);
      if Comes(trouble, Provider(name, MovingOld)) {
        return Some(Provider(name, MovingOld)), done;
      }
      done := SetAside(name, before, swaps);
      if Comes(trouble, Provider(name, PlacingNew)) {
        return Some(Provider(name, PlacingNew)), done;
      }
      SwappedFreely(top, previous, externalPrevious.value, home, before, done, name, candidate);
      top := top[name := candidate];
      externalStage := Some(externalStage.value - {name});
      externalMerge := Some(externalMerge.value - {name});
      if Comes(trouble, Provider(name, Securing)) {
        stop := Some(Provider(name, Securing));
      }
    }

    /** What is under a name moves aside, and the swap is noted. */
    method SetAside(name: string, ghost before: map<string, Node>, swaps: seq<Swap>) returns (done: seq<Swap>)
      requires externalPrevious.Some?
      requires Undoable(top, previous, externalPrevious.value, home, before, swaps, true) && !Swapped(swaps, name)
      requires name != home && name !in externalPrevious.value && Lookup(top, name) == Lookup(before, name)
      modifies this`top, this`externalPrevious
      ensures externalPrevious.Some? && top == old(top) - {name}
      ensures done == swaps + [Swap(name, name in before)] && Swapped(done, name)
      ensures Undoable(top, previous, externalPrevious.value, home, before, done, true)
      ensures externalPrevious.value.Keys == old(externalPrevious.value).Keys + if name in before then {name} else {}
    {
      var had := name in top;
      if had {
        externalPrevious := Some(externalPrevious.value[name := top[name]]);
        top := top - {name};
      }
      done := swaps + [Swap(name, had)];
      OneSwapped(old(top), previous, old(externalPrevious.value), home, before, swaps, name, top);
      assert done[|swaps|].name == name;
    }

    /** All staged providers are swapped in, in the order of their names. */
    method SwapProviders(ghost before: map<string, Node>, ghost stageNode: Node, ghost sources: map<string, Node>,
        trouble: Trouble)
      returns (stop: Option<Moment>, swaps: seq<Swap>)
      requires externalStage == Some(sources) && AllStaged(sources)
      requires externalMerge.Some? && externalPrevious == Some(map[])
      requires Undoable(top, previous, externalPrevious.value, home, before, [], true)
      requires top == before[home := stageNode]
      modifies this`top, this`externalStage, this`externalMerge, this`externalPrevious
      ensures externalStage.Some? && externalMerge.Some? && externalPrevious.Some?
      ensures Undoable(top, previous, externalPrevious.value, home, before, swaps, true)
      ensures stop.Some? ==> StandsAt(top, before, home, stageNode, sources, stop.value)
      ensures stop.Some? ==> stop.value.Provider? && StopsAt(stop.value, trouble, before, home, sources)
      ensures stop.None? ==> top == Installed(before, home, stageNode, sources)
      ensures stop.None? ==> NoneUnfit(before, home, sources)
      ensures stop.None? && trouble != Nothing && trouble.at.Provider? ==> trouble.at.name !in sources
      ensures stop.None? ==> KeptSwapped(externalPrevious.value, swaps) && externalPrevious.value.Keys <= sources.Keys
    {
      var names := SortedSet(externalStage.value.Keys);
      swaps, stop := [], None;
      ProgressStart(top, home, before, stageNode, sources);
      for k := 0 to |names|
        invariant externalStage.Some? && externalMerge.Some? && externalPrevious.Some? && stop.None?
        invariant Undoable(top, previous, externalPrevious.value, home, before, swaps, true)
        invariant Progress(top, externalStage.value, externalPrevious.value, swaps, home, before, stageNode, sources,
          names[..k])
        invariant PassedBy(names[..k], trouble, before, home, sources)
      {
        NextName(sources, names, k, names[..k]);
        stop, swaps := SwapNext(names, k, before, swaps, trouble, stageNode, sources);
        PassedNext(names[..k], names[k], trouble, before, home, sources, stop);
        if stop.Some? {
          return;
        }
      }
      assert names[..|names|] == names;
      AllInstalled(top, externalStage.value, externalPrevious.value, swaps, home, before, stageNode, sources, names);
      AllSwapped(top, externalStage.value, externalPrevious.value, swaps, home, before, stageNode, sources, names);
      NoneStopped(before, home, sources, names, trouble);
    }

    /** The next provider in the order of the names. */
    method SwapNext(names: seq<string>, k: nat, ghost before: map<string, Node>, swaps: seq<Swap>, trouble: Trouble,
        ghost stageNode: Node, ghost sources: map<string, Node>)
      returns (stop: Option<Moment>, done: seq<Swap>)
      requires externalStage.Some? && externalMerge.Some? && externalPrevious.Some? && AllStaged(sources)
      requires names == Sorted(sources.Keys) && k < |names| && names[k] in sources && names[k] !in names[..k]
      requires names[..k + 1] == names[..k] + [names[k]]
      requires Undoable(top, previous, externalPrevious.value, home, before, swaps, true)
      requires Progress(top, externalStage.value, externalPrevious.value, swaps, home, before, stageNode, sources,
        names[..k])
      modifies this`top, this`externalStage, this`externalMerge, this`externalPrevious
      ensures externalStage.Some? && externalMerge.Some? && externalPrevious.Some?
      ensures Undoable(top, previous, externalPrevious.value, home, before, done, true)
      ensures stop.Some? ==> StandsAt(top, before, home, stageNode, sources, stop.value)
      ensures stop == FirstStop(names[k], trouble, Unfit(before, home, names[k], sources[names[k]]))
      ensures stop.None? ==>
        Progress(top, externalStage.value, externalPrevious.value, done, home, before, stageNode, sources,
          names[..k + 1])
    {
      NotYet(top, externalStage.value, externalPrevious.value, swaps, home, before, stageNode, sources, names[..k],
        names[k]);
      stop, done := SwapOne(names[k], before, swaps, trouble);
      if stop.Some? {
        StoppedAt(old(top), top, old(externalStage.value), old(externalPrevious.value), swaps, home, before, stageNode,
          sources, names, k, stop.value);
      } else {
        ProgressNext(old(top), old(externalStage.value), old(externalPrevious.value), swaps, home, before, stageNode,
          sources, names[..k], names[k], externalPrevious.value);
      }
    }

    /** The rollback restores the directory exactly. */
    method Rollback(ghost before: map<string, Node>, swaps: seq<Swap>, swapped: bool)
      requires externalPrevious.Some? && Undoable(top, previous, externalPrevious.value, home, before, swaps, swapped)
      modifies this`top, this`previous, this`externalPrevious
      ensures top == before && previous.None? && externalPrevious.Some?
    {
      var k := |swaps|;
      assert swaps[..|swaps|] == swaps;
      while k > 0
        invariant 0 <= k <= |swaps| && externalPrevious.Some?
        invariant Undoable(top, previous, externalPrevious.value, home, before, swaps[..k], swapped)
      {
        k := k - 1;
        assert swaps[..k + 1] == swaps[..k] + [swaps[k]];
        UndoSwap(before, swaps[..k], swaps[k], swapped);
      }
      UndoHomeSwap(before, swapped);
    }

    method UndoSwap(ghost before: map<string, Node>, ghost swaps: seq<Swap>, s: Swap, ghost swapped: bool)
      requires externalPrevious.Some?
      requires Undoable(top, previous, externalPrevious.value, home, before, swaps + [s], swapped)
      modifies this`top, this`externalPrevious
      ensures externalPrevious.Some? && Undoable(top, previous, externalPrevious.value, home, before, swaps, swapped)
    {
      UndoOne(top, previous, externalPrevious.value, home, before, swaps, s, swapped);
      top := top - {s.name};
      if s.had && s.name in externalPrevious.value {
        top := top[s.name := externalPrevious.value[s.name]];
        externalPrevious := Some(externalPrevious.value - {s.name});
      }
    }

    method UndoHomeSwap(ghost before: map<string, Node>, swapped: bool)
      requires externalPrevious.Some? && Undoable(top, previous, externalPrevious.value, home, before, [], swapped)
      modifies this`top, this`previous
      ensures top == before && previous.None?
    {
      UndoHome(top, previous, externalPrevious.value, home, before, swapped);
      if swapped {
        top := top - {home};
      }
      if previous.Some? {
        top := top[home := previous.value];
        previous := None;
      }
    }
  }
}
