/** The host directories of a box's agent: the bind strings, and the groups the agent has to
    join to reach them all. */
module Mounts {
  import opened Options
  import opened Text
  import opened Decimal

  const AGENT_UID := 1001
  const AGENT_GID := 1001

  datatype Mount = Mount(source: string, target: string, readOnly: bool, requireMountpoint: bool)

  /** A directory's owner, group and permission bits. */
  datatype Info = Info(uid: nat, gid: nat, perm: bv9)

  /** What the host says about a source. */
  datatype Probe = Unavailable | NotDirectory | Directory(info: Info, mountpoint: bool)

  datatype Prepared = Prepared(binds: seq<string>, groups: seq<string>) | Refused

  // ---- Well-formed mounts --------------------------------------------------------------

  /** The components that are left when a rooted path is cleaned: empty ones and "." go, and ".."
      takes the one before with it, if there is one. */
  function Cleaned(parts: seq<string>, kept: seq<string>): seq<string> {
    if parts == [] then kept
    else if parts[0] == "" || parts[0] == "." then Cleaned(parts[1..], kept)
    else if parts[0] == ".." then Cleaned(parts[1..], if kept == [] then [] else kept[..|kept| - 1])
    else Cleaned(parts[1..], kept + [parts[0]])
  }

  /** Go's path.Clean on a rooted path. */
  function Clean(path: string): string
    requires path != "" && path[0] == '/'
  {
    "/" + Join(Cleaned(Split(path[1..], '/'), []), '/')
  }

  /** An absolute path that cleaning leaves alone. */
  predicate CleanAbsolute(path: string) {
    path != "" && path[0] == '/' && Clean(path) == path
  }

  /** No character that Docker's bind syntax cannot represent. */
  predicate BindSafe(s: string) {
    Free(s, ':') && Free(s, '\n') && Free(s, '\r') && Free(s, '\U{0}')
  }

  predicate ValidMount(m: Mount) {
    && CleanAbsolute(m.source) && BindSafe(m.source) && CleanAbsolute(m.target) && BindSafe(m.target)
    && |m.target| > 5 && m.target[..5] == "/mnt/"
  }

  predicate ValidMountSet(mounts: seq<Mount>) {
    && (forall i :: 0 <= i < |mounts| ==> ValidMount(mounts[i]))
    && (forall i, j :: 0 <= i < j < |mounts| ==> mounts[i].target != mounts[j].target)
  }

  function Targets(mounts: seq<Mount>): set<string> {
    set i | 0 <= i < |mounts| :: mounts[i].target
  }

  /** One more mount in the set. */
  lemma SetNext(mounts: seq<Mount>, front: seq<Mount>, k: nat)
    requires k < |mounts| && front == mounts[..k] && ValidMountSet(front)
    ensures ValidMountSet(mounts[..k + 1]) <==> ValidMount(mounts[k]) && mounts[k].target !in Targets(front)
    ensures Targets(mounts[..k + 1]) == Targets(front) + {mounts[k].target}
  {
    var more := mounts[..k + 1];
    assert more[k] == mounts[k] && forall i :: 0 <= i < k ==> more[i] == front[i];
    if ValidMountSet(more) {
      forall i | 0 <= i < k ensures front[i].target != mounts[k].target {
        assert more[i].target != more[k].target;
      }
    }
  }

  lemma SetPrefix(mounts: seq<Mount>, k: nat)
    requires k <= |mounts|
    ensures ValidMountSet(mounts) ==> ValidMountSet(mounts[..k])
  {
    assert forall i :: 0 <= i < k ==> mounts[..k][i] == mounts[i];
  }

  method ValidateMountSet(mounts: seq<Mount>) returns (ok: bool)
    ensures ok <==> ValidMountSet(mounts)
  {
    var targets: set<string> := {};
    for k := 0 to |mounts|
      invariant ValidMountSet(mounts[..k]) && targets == Targets(mounts[..k])
    {
      SetNext(mounts, mounts[..k], k);
      var valid := ValidMount(mounts[k]);
      if !valid || mounts[k].target in targets {
        SetPrefix(mounts, k + 1);
        return false;
      }
      targets := targets + {mounts[k].target};
    }
    assert mounts[..|mounts|] == mounts;
    ok := true;
  }

  // ---- What well-formed means --------------------------------------------------------------

  predicate ProperPart(part: string) {
    part != "" && part != "." && part != ".."
  }

  predicate AllProper(parts: seq<string>) {
    forall i :: 0 <= i < |parts| ==> ProperPart(parts[i])
  }

  /** Cleaning keeps proper components, and leaves no others. */
  lemma {:induction false} CleanedParts(parts: seq<string>, kept: seq<string>)
    requires AllProper(kept) && AllFree(parts, '/') && AllFree(kept, '/')
    ensures AllProper(Cleaned(parts, kept)) && AllFree(Cleaned(parts, kept), '/')
    ensures AllProper(parts) ==> Cleaned(parts, kept) == kept + parts
    decreases |parts|
  {
    if parts != [] {
      var next :=
        if parts[0] == "" || parts[0] == "." then kept
        else if parts[0] == ".." then (if kept == [] then [] else kept[..|kept| - 1])
        else kept + [parts[0]];
      CleanedParts(parts[1..], next);
      if AllProper(parts) {
        assert kept + [parts[0]] + parts[1..] == kept + parts;
      }
    }
  }

  /** A path is clean exactly when it is the root or has nothing but proper components. */
  lemma CleanExactly(path: string)
    requires path != "" && path[0] == '/'
    ensures CleanAbsolute(path) <==> path == "/" || AllProper(Split(path[1..], '/'))
  {
    var rest := path[1..];
    var parts := Split(rest, '/');
    var kept := Cleaned(parts, []);
    CleanedParts(parts, []);
    JoinSplit(rest, '/');
    assert path == "/" + rest;
    if CleanAbsolute(path) && kept != [] {
      assert Join(kept, '/') == Clean(path)[1..] == rest;
      SplitJoin(kept, '/');
    }
    if AllProper(parts) {
      assert kept == parts;
    }
    if path == "/" {
      assert parts == [""] && Cleaned([""][1..], []) == [];
    }
  }

  /** A target that begins with /mnt/ has mnt as its first component of several. */
  lemma BelowMnt(rest: string)
    requires |rest| > 4 && rest[..4] == "mnt/"
    ensures |Split(rest, '/')| > 1 && Split(rest, '/')[0] == "mnt"
  {
    assert rest[3] == '/' && rest[..3] == rest[..4][..3] == "mnt";
    assert rest == rest[..3] + ['/'] + rest[4..] && Free(rest[..3], '/');
    IndexOfPrefix(rest[..3], '/', rest[4..]);
  }

  /** Both paths of a valid mount can stand in a bind string, and its target is a directory
      really below /mnt. */
  lemma ValidMountMeans(m: Mount)
    requires ValidMount(m)
    ensures m.source[0] == '/' && (m.source == "/" || AllProper(Split(m.source[1..], '/')))
    ensures forall c :: c in m.source || c in m.target ==> c !in {':', '\n', '\r', '\U{0}'}
    ensures m.target[0] == '/' && AllProper(Split(m.target[1..], '/'))
    ensures |Split(m.target[1..], '/')| > 1 && Split(m.target[1..], '/')[0] == "mnt"
  {
    CleanExactly(m.source);
    CleanExactly(m.target);
    assert m.target[1..][..4] == m.target[..5][1..] == "mnt/";
    BelowMnt(m.target[1..]);
  }

  function Bind(m: Mount): string {
    m.source + ":" + m.target + if m.readOnly then ":ro" else ""
  }

  /** A bind string says exactly what was asked for: its fields can be read back. */
  lemma BindReadsBack(m: Mount)
    requires ValidMount(m)
    ensures Split(Bind(m), ':') == [m.source, m.target] + if m.readOnly then ["ro"] else []
  {
    var fields := [m.source, m.target] + if m.readOnly then ["ro"] else [];
    if m.readOnly {
      assert fields[1..] == [m.target, "ro"] && fields[1..][1..] == ["ro"];
      assert Join(fields[1..], ':') == m.target + ":" + "ro";
    } else {
      assert fields[1..] == [m.target];
    }
    assert Join(fields, ':') == Bind(m);
    SplitJoin(fields, ':');
  }

  // ---- Access ----------------------------------------------------------------------------

  function Needed(readOnly: bool): bv9 {
    if readOnly then 5 else 7
  }

  predicate Grants(bits: bv9, needed: bv9) {
    bits & needed == needed
  }

  /** One of the nine permission bits is set. */
  predicate Bit(perm: bv9, k: nat)
    requires k < 9
  {
    perm & (1 << k) != 0
  }

  /** A class of users may list and enter a directory, and write to it if it has to. */
  predicate Allows(perm: bv9, low: nat, readOnly: bool)
    requires low <= 6
  {
    Bit(perm, low + 2) && Bit(perm, low) && (readOnly || Bit(perm, low + 1))
  }

  /** Whether the agent, in these supplementary groups, has the access it needs: the kernel
      asks the owner's bits, else the group's, else the others', and never two of them. */
  predicate Access(d: Info, readOnly: bool, groups: set<nat>) {
    if d.uid == AGENT_UID then Allows(d.perm, 6, readOnly)
    else if d.gid == AGENT_GID || d.gid in groups then Allows(d.perm, 3, readOnly)
    else Allows(d.perm, 0, readOnly)
  }

  /** The mask grants exactly the bits needed. */
  lemma GrantsExactly(perm: bv9, readOnly: bool)
    ensures Grants(perm, Needed(readOnly)) <==> Allows(perm, 0, readOnly)
    ensures Grants(perm >> 3, Needed(readOnly)) <==> Allows(perm, 3, readOnly)
    ensures Grants(perm >> 6, Needed(readOnly)) <==> Allows(perm, 6, readOnly)
  {
  }

  /** The program decides access by these masks. */
  lemma AccessByMask(d: Info, readOnly: bool, groups: set<nat>)
    ensures Access(d, readOnly, groups) <==>
      if d.uid == AGENT_UID then Grants(d.perm >> 6, Needed(readOnly))
      else if d.gid == AGENT_GID || d.gid in groups then Grants(d.perm >> 3, Needed(readOnly))
      else Grants(d.perm, Needed(readOnly))
  {
    GrantsExactly(d.perm, readOnly);
  }

  datatype Choice = Enough | Joining(gid: nat) | Denied

  /** supplementalGroupWithMembership. */
  function SupplementalGroup(d: Info, readOnly: bool, groups: set<nat>): Choice {
    var needed := Needed(readOnly);
    if d.uid == AGENT_UID then (if Grants(d.perm >> 6, needed) then Enough else Denied)
    else if d.gid == AGENT_GID || d.gid in groups then (if Grants(d.perm >> 3, needed) then Enough else Denied)
    else if Grants(d.perm, needed) then Enough
    else if d.gid != 0 && Grants(d.perm >> 3, needed) then Joining(d.gid)
    else Denied
  }

  predicate Reachable(m: Mount, p: Probe) {
    p.Directory? && (m.requireMountpoint ==> p.mountpoint)
  }

  predicate AllReachable(mounts: seq<Mount>, probes: seq<Probe>) {
    |probes| == |mounts| && forall i :: 0 <= i < |mounts| ==> Reachable(mounts[i], probes[i])
  }

  /** These groups, none of them root's, give the agent all the access it needs. */
  predicate Feasible(mounts: seq<Mount>, probes: seq<Probe>, groups: set<nat>)
    requires AllReachable(mounts, probes)
  {
    0 !in groups && forall i :: 0 <= i < |mounts| ==> Access(probes[i].info, mounts[i].readOnly, groups)
  }

  /** The groups the mounts ask for one by one. */
  function Asked(mounts: seq<Mount>, probes: seq<Probe>): set<nat>
    requires AllReachable(mounts, probes)
  {
    set i | 0 <= i < |mounts| && SupplementalGroup(probes[i].info, mounts[i].readOnly, {}).Joining? ::
      probes[i].info.gid
  }

  predicate NoneDenied(mounts: seq<Mount>, probes: seq<Probe>, groups: set<nat>)
    requires AllReachable(mounts, probes)
  {
    forall i :: 0 <= i < |mounts| ==> !SupplementalGroup(probes[i].info, mounts[i].readOnly, groups).Denied?
  }

  // ---- The choice is optimal ---------------------------------------------------------------

  /** What every feasible set must contain, and what no set can make up for. */
  lemma AskedNeeded(mounts: seq<Mount>, probes: seq<Probe>, groups: set<nat>)
    requires AllReachable(mounts, probes) && Feasible(mounts, probes, groups)
    ensures Asked(mounts, probes) <= groups && NoneDenied(mounts, probes, {})
  {
    forall i | 0 <= i < |mounts|
      ensures !SupplementalGroup(probes[i].info, mounts[i].readOnly, {}).Denied?
      ensures SupplementalGroup(probes[i].info, mounts[i].readOnly, {}).Joining? ==> probes[i].info.gid in groups
    {
      assert Access(probes[i].info, mounts[i].readOnly, groups);
      AccessByMask(probes[i].info, mounts[i].readOnly, groups);
    }
  }

  /** The recheck decides whether the asked groups are feasible. */
  lemma RecheckDecides(mounts: seq<Mount>, probes: seq<Probe>)
    requires AllReachable(mounts, probes) && NoneDenied(mounts, probes, {})
    ensures NoneDenied(mounts, probes, Asked(mounts, probes)) <==> Feasible(mounts, probes, Asked(mounts, probes))
  {
    var groups := Asked(mounts, probes);
    forall i | 0 <= i < |mounts|
      ensures !SupplementalGroup(probes[i].info, mounts[i].readOnly, groups).Denied? <==>
        Access(probes[i].info, mounts[i].readOnly, groups)
    {
      AsksNoMore(mounts, probes, i);
      AccessByMask(probes[i].info, mounts[i].readOnly, groups);
    }
  }

  /** With all asked groups joined, no mount asks for another. */
  lemma AsksNoMore(mounts: seq<Mount>, probes: seq<Probe>, i: nat)
    requires AllReachable(mounts, probes) && i < |mounts|
    ensures !SupplementalGroup(probes[i].info, mounts[i].readOnly, Asked(mounts, probes)).Joining?
  {
    if SupplementalGroup(probes[i].info, mounts[i].readOnly, {}).Joining? {
      assert probes[i].info.gid in Asked(mounts, probes);
    }
  }

  /** If any set of groups will do, the asked ones do. */
  lemma AskedSuffices(mounts: seq<Mount>, probes: seq<Probe>, groups: set<nat>)
    requires AllReachable(mounts, probes) && Feasible(mounts, probes, groups)
    ensures Feasible(mounts, probes, Asked(mounts, probes))
  {
    AskedNeeded(mounts, probes, groups);
    var asked := Asked(mounts, probes);
    forall i | 0 <= i < |mounts| ensures Access(probes[i].info, mounts[i].readOnly, asked) {
      var d := probes[i].info;
      assert Access(d, mounts[i].readOnly, groups);
      AccessByMask(d, mounts[i].readOnly, groups);
      AccessByMask(d, mounts[i].readOnly, asked);
      assert !SupplementalGroup(d, mounts[i].readOnly, {}).Denied?;
      if d.uid != AGENT_UID && d.gid != AGENT_GID && d.gid !in asked {
        assert !SupplementalGroup(d, mounts[i].readOnly, {}).Joining?;
      }
    }
  }

  /** The least feasible set of groups, as the sorted decimal strings Docker is given. */
  ghost predicate Least(mounts: seq<Mount>, probes: seq<Probe>, groups: set<nat>)
    requires AllReachable(mounts, probes)
  {
    Feasible(mounts, probes, groups) && forall h :: Feasible(mounts, probes, h) ==> groups <= h
  }

  ghost predicate SomeFeasible(mounts: seq<Mount>, probes: seq<Probe>)
    requires AllReachable(mounts, probes)
  {
    exists h :: Feasible(mounts, probes, h)
  }

  lemma ChoiceOptimal(mounts: seq<Mount>, probes: seq<Probe>)
    requires AllReachable(mounts, probes)
    ensures SomeFeasible(mounts, probes) <==>
      NoneDenied(mounts, probes, {}) && NoneDenied(mounts, probes, Asked(mounts, probes))
    ensures SomeFeasible(mounts, probes) ==> Least(mounts, probes, Asked(mounts, probes))
  {
    if SomeFeasible(mounts, probes) {
      var h :| Feasible(mounts, probes, h);
      AskedNeeded(mounts, probes, h);
      AskedSuffices(mounts, probes, h);
      RecheckDecides(mounts, probes);
      forall g | Feasible(mounts, probes, g) ensures Asked(mounts, probes) <= g {
        AskedNeeded(mounts, probes, g);
      }
    } else if NoneDenied(mounts, probes, {}) {
      RecheckDecides(mounts, probes);
    }
  }

  function Decimals(groups: set<nat>): set<string> {
    set g | g in groups :: FormatNat(g)
  }

  /** prepareAgentMounts. It succeeds exactly when the mounts are well formed, every source is
      there, and some set of groups gives the agent access to all of them; then the groups it
      names are the fewest that do. */
  method PrepareAgentMounts(mounts: seq<Mount>, probes: seq<Probe>) returns (r: Prepared)
    requires |probes| == |mounts|
    ensures r.Prepared? <==> ValidMountSet(mounts) && AllReachable(mounts, probes) && SomeFeasible(mounts, probes)
    ensures r.Prepared? ==> exists g :: Least(mounts, probes, g) && r.groups == Sorted(Decimals(g))
    ensures r.Prepared? ==> |r.binds| == |mounts| && forall i :: 0 <= i < |mounts| ==> r.binds[i] == Bind(mounts[i])
  {
    var valid := ValidateMountSet(mounts);
    if !valid {
      return Refused;
    }
    var ok, binds, groups := PrepareEach(mounts, probes);
    if !ok {
      if AllReachable(mounts, probes) {
        ChoiceOptimal(mounts, probes);
      }
      return Refused;
    }
    ChoiceOptimal(mounts, probes);
    ok := Recheck(mounts, probes, groups);
    if !ok {
      return Refused;
    }
    var sorted := SortedSet(Decimals(groups));
    r := Prepared(binds, sorted);
  }

  /** The first loop: each mount by itself. */
  method PrepareEach(mounts: seq<Mount>, probes: seq<Probe>) returns (ok: bool, binds: seq<string>, groups: set<nat>)
    requires |probes| == |mounts|
    ensures ok <==> AllReachable(mounts, probes) && NoneDenied(mounts, probes, {})
    ensures ok ==> groups == Asked(mounts, probes)
    ensures ok ==> |binds| == |mounts| && forall i :: 0 <= i < |mounts| ==> binds[i] == Bind(mounts[i])
  {
    ok, binds, groups := true, [], {};
    for k := 0 to |mounts|
      invariant ok
      invariant forall i :: 0 <= i < k ==>
        Reachable(mounts[i], probes[i]) && !SupplementalGroup(probes[i].info, mounts[i].readOnly, {}).Denied?
      invariant forall g :: g in groups <==> exists i :: 0 <= i < k && Asks(mounts[i], probes[i], g)
      invariant |binds| == k && forall i :: 0 <= i < k ==> binds[i] == Bind(mounts[i])
    {
      if !Reachable(mounts[k], probes[k]) {
        ok := false;
        return;
      }
      var choice := SupplementalGroup(probes[k].info, mounts[k].readOnly, {});
      if choice.Denied? {
        ok := false;
        return;
      }
      binds := binds + [Bind(mounts[k])];
      if choice.Joining? {
        groups := groups + {choice.gid};
      }
    }
    AskedCollected(mounts, probes, groups);
  }

  /** The second loop: every mount with all groups joined. */
  method Recheck(mounts: seq<Mount>, probes: seq<Probe>, groups: set<nat>) returns (ok: bool)
    requires AllReachable(mounts, probes)
    ensures ok <==> NoneDenied(mounts, probes, groups)
  {
    ok := true;
    for k := 0 to |mounts|
      invariant ok && forall i :: 0 <= i < k ==> !SupplementalGroup(probes[i].info, mounts[i].readOnly, groups).Denied?
    {
      if SupplementalGroup(probes[k].info, mounts[k].readOnly, groups).Denied? {
        ok := false;
        return;
      }
    }
  }

  predicate Asks(m: Mount, p: Probe, g: nat) {
    p.Directory? && SupplementalGroup(p.info, m.readOnly, {}) == Joining(g)
  }

  lemma AskedCollected(mounts: seq<Mount>, probes: seq<Probe>, groups: set<nat>)
    requires AllReachable(mounts, probes)
    requires forall g :: g in groups <==> exists i :: 0 <= i < |mounts| && Asks(mounts[i], probes[i], g)
    ensures groups == Asked(mounts, probes)
  {
    forall g ensures g in groups <==> g in Asked(mounts, probes) {
      if g in groups {
        var i :| 0 <= i < |mounts| && Asks(mounts[i], probes[i], g);
      }
      if g in Asked(mounts, probes) {
        var i :| 0 <= i < |mounts| && SupplementalGroup(probes[i].info, mounts[i].readOnly, {}).Joining?
          && probes[i].info.gid == g;
        assert Asks(mounts[i], probes[i], g);
      }
    }
  }
}
