/** The Docker objects of boxes and the commands' checks and cleanup over them. Every Docker
    call may fail, and the failures are counted, so that contracts can say exactly what
    happens with and without one. */
module BoxObjects {

  type Id = string
  type Labels = map<string, string>

  datatype Container = Container(labels: Labels)
  datatype Net = Net(id: Id, labels: Labels)

  /** How a container is asked for: by a name, or by its id. */
  datatype Ref = ByName(name: string) | ById(id: Id)

  datatype Lookup<T> = Found(value: T) | Missing | Failed

  datatype Targets = Targets(containers: seq<Id>, network: Lookup<Id>, volumes: seq<string>)
  datatype Inspection = Cleared(targets: Targets) | Refused

  datatype Outcome = Untouched | Incomplete | Destroyed

  const LABEL_MANAGED := "tx9"
  const LABEL_BOX := "tx9.box"
  const LABEL_VERSION := "tx9.version"
  const LABEL_ROLE := "tx9.role"

  /** The labels that everything of a box is created with; only containers have a role. */
  function BoxLabels(box: string, version: string, role: string): Labels {
    var labels := map[LABEL_MANAGED := "1", LABEL_BOX := box, LABEL_VERSION := version];
    if role == "" then labels else labels[LABEL_ROLE := role]
  }

  predicate OwnedBy(labels: Labels, box: string) {
    && LABEL_MANAGED in labels && labels[LABEL_MANAGED] == "1"
    && LABEL_BOX in labels && labels[LABEL_BOX] == box
  }

  function AgentName(box: string): string { "tx9-" + box + "-agent" }
  function ExecutorName(box: string): string { "tx9-" + box + "-executor" }
  function NetworkName(box: string): string { "tx9-" + box }
  function AgentVolume(box: string): string { "tx9-" + box + "-agent-data" }
  function ExecutorVolume(box: string): string { "tx9-" + box + "-exec-data" }

  function ContainerNames(box: string): seq<string> { [AgentName(box), ExecutorName(box)] }
  function VolumeNames(box: string): seq<string> { [AgentVolume(box), ExecutorVolume(box)] }

  /** What is created for a box is that box's own and no other's, and so is nothing that lacks one
      of the two labels. */
  lemma LabelsOwn(box: string, version: string, role: string, labels: Labels, other: string)
    ensures OwnedBy(BoxLabels(box, version, role), other) <==> box == other
    ensures OwnedBy(labels, box) && OwnedBy(labels, other) ==> box == other
    ensures !OwnedBy(labels - {LABEL_MANAGED}, box) && !OwnedBy(labels - {LABEL_BOX}, box)
    ensures OwnedBy(labels, box) ==> labels[LABEL_MANAGED := "1"] == labels
  {
    LabelsDiffer();
  }

  lemma LabelsDiffer()
    ensures LABEL_MANAGED != LABEL_BOX && LABEL_MANAGED != LABEL_VERSION && LABEL_MANAGED != LABEL_ROLE
    ensures LABEL_BOX != LABEL_VERSION && LABEL_BOX != LABEL_ROLE
  {
    assert |LABEL_MANAGED| == 3 && |LABEL_BOX| == 7 && |LABEL_VERSION| == 11 && |LABEL_ROLE| == 8;
  }

  /** No two boxes share a name of a container, a network or a volume, and a box's own differ. */
  lemma NamesApart(a: string, b: string)
    ensures AgentName(a) != ExecutorName(b) && AgentVolume(a) != ExecutorVolume(b)
    ensures AgentName(a) == AgentName(b) || ExecutorName(a) == ExecutorName(b) ==> a == b
    ensures NetworkName(a) == NetworkName(b) ==> a == b
    ensures AgentVolume(a) == AgentVolume(b) || ExecutorVolume(a) == ExecutorVolume(b) ==> a == b
  {
    Framed(a, b, "tx9-", "-agent");
    Framed(a, b, "tx9-", "-executor");
    Framed(a, b, "tx9-", "");
    Framed(a, b, "tx9-", "-agent-data");
    Framed(a, b, "tx9-", "-exec-data");
    assert NetworkName(a) == "tx9-" + a + "" && NetworkName(b) == "tx9-" + b + "";
    assert "-agent" == "-agen" + ['t'] && "-executor" == "-executo" + ['r'];
    LastDiffers("tx9-" + a, "-agen", 't', "tx9-" + b, "-executo", 'r');
    BeforeData("tx9-" + a, "tx9-" + b);
  }

  lemma Framed(a: string, b: string, front: string, back: string)
    ensures front + a + back == front + b + back ==> a == b
  {
    var x, y := front + a + back, front + b + back;
    if x == y {
      assert |a| == |b| && a == x[|front|..|front| + |a|] && b == y[|front|..|front| + |b|];
    }
  }

  lemma LastDiffers(a: string, x: string, c: char, b: string, y: string, d: char)
    requires c != d
    ensures a + (x + [c]) != b + (y + [d])
  {
    var p, q := a + (x + [c]), b + (y + [d]);
    assert p[|p| - 1] == c && q[|q| - 1] == d;
  }

  lemma BeforeData(a: string, b: string)
    ensures a + "-agent-data" != b + "-exec-data"
  {
    var p, q := a + "-agent-data", b + "-exec-data";
    assert p[|p| - 6] == 't' && q[|q| - 6] == 'c';
  }

  class Engine {
    var containers: map<Id, Container>
    var names: map<string, Id>
    var networks: map<string, Net>
    var volumes: map<string, Labels>
    var envs: set<string>
    ghost var failures: nat

    ghost predicate Valid()
      reads this
    {
      forall n :: n in names ==> names[n] in containers
    }

    /** The ids of all containers whose labels name the box, whatever their name or role. */
    ghost function Owned(box: string): set<Id>
      reads this
    {
      set id | id in containers && OwnedBy(containers[id].labels, box)
    }

    ghost predicate ForeignRef(ref: Ref, box: string)
      reads this
    {
      match ref
      case ById(id) => id in containers && id !in Owned(box)
      case ByName(n) => n in names && names[n] !in Owned(box)
    }

    ghost predicate ForeignName(box: string)
      reads this
    {
      exists n :: n in ContainerNames(box) && n in names && names[n] !in Owned(box)
    }

    /** One of the box's own names belongs to an object that is not the box's. */
    ghost predicate Foreign(box: string)
      reads this
      requires Valid()
    {
      || (exists n :: n in ContainerNames(box) && n in names && !OwnedBy(containers[names[n]].labels, box))
      || (NetworkName(box) in networks && !OwnedBy(networks[NetworkName(box)].labels, box))
      || (exists v :: v in VolumeNames(box) && v in volumes && !OwnedBy(volumes[v], box))
    }

    /** Nothing at all is under any name of the box. */
    ghost predicate Unused(box: string)
      reads this
    {
      && (forall n :: n in ContainerNames(box) ==> n !in names) && NetworkName(box) !in networks
      && (forall v :: v in VolumeNames(box) ==> v !in volumes)
    }

    /** No object of the box is left. */
    ghost predicate Gone(box: string)
      reads this
    {
      && Owned(box) == {}
      && (NetworkName(box) in networks ==> !OwnedBy(networks[NetworkName(box)].labels, box))
      && (forall v :: v in VolumeNames(box) && v in volumes ==> !OwnedBy(volumes[v], box))
    }

    // ---- Docker calls ----------------------------------------------------------------

    method InspectContainer(ref: Ref) returns (r: Lookup<Id>, labels: Labels)
      requires Valid()
      modifies this`failures
      ensures failures == old(failures) + if r.Failed? then 1 else 0
      ensures !r.Failed? ==>
        match ref
        case ById(id) => if id in containers then r == Found(id) else r.Missing?
        case ByName(n) => if n in names then r == Found(names[n]) else r.Missing?
      ensures r.Found? ==> r.value in containers && labels == containers[r.value].labels
    {
      labels := map[];
      var fails := *;
      if fails {
        r := Failed;
        failures := failures + 1;
      } else if ref.ById? && ref.id in containers {
        r, labels := Found(ref.id), containers[ref.id].labels;
      } else if ref.ByName? && ref.name in names {
        r, labels := Found(names[ref.name]), containers[names[ref.name]].labels;
      } else {
        r := Missing;
      }
    }

    method InspectNetwork(name: string) returns (r: Lookup<Net>)
      modifies this`failures
      ensures failures == old(failures) + if r.Failed? then 1 else 0
      ensures !r.Failed? ==> r == if name in networks then Found(networks[name]) else Missing
    {
      var fails := *;
      if fails {
        r := Failed;
        failures := failures + 1;
      } else {
        r := if name in networks then Found(networks[name]) else Missing;
      }
    }

    method InspectVolume(name: string) returns (r: Lookup<Labels>)
      modifies this`failures
      ensures failures == old(failures) + if r.Failed? then 1 else 0
      ensures !r.Failed? ==> r == if name in volumes then Found(volumes[name]) else Missing
    {
      var fails := *;
      if fails {
        r := Failed;
        failures := failures + 1;
      } else {
        r := if name in volumes then Found(volumes[name]) else Missing;
      }
    }

    /** All managed containers, in the daemon's order. */
    method ListBoxContainers() returns (r: Lookup<seq<Id>>)
      modifies this`failures
      ensures failures == old(failures) + if r.Failed? then 1 else 0
      ensures !r.Missing?
      ensures r.Found? ==> forall id :: id in r.value <==>
        id in containers && LABEL_MANAGED in containers[id].labels && containers[id].labels[LABEL_MANAGED] == "1"
    {
      var fails := *;
      if fails {
        r := Failed;
        failures := failures + 1;
      } else {
        var left := set id | id in containers && LABEL_MANAGED in containers[id].labels
          && containers[id].labels[LABEL_MANAGED] == "1";
        ghost var all := left;
        var listed: seq<Id> := [];
        while left != {}
          invariant left <= all && forall id :: id in listed <==> id in all - left
        {
          var id :| id in left;
          listed, left := listed + [id], left - {id};
        }
        r := Found(listed);
      }
    }

    /** Removing a container, which must be the box's own. A container that is already gone
        is no failure; a failed removal may have removed it or not. */
    method RemoveContainer(id: Id, ghost box: string) returns (ok: bool)
      requires Valid() && (id in containers ==> OwnedBy(containers[id].labels, box))
      modifies this
      ensures Valid() && networks == old(networks) && volumes == old(volumes) && envs == old(envs)
      ensures failures == old(failures) + if ok then 0 else 1
      ensures ok ==> containers == old(containers) - {id}
      ensures !ok ==> containers == old(containers) || containers == old(containers) - {id}
      ensures forall n :: n in names <==> n in old(names) && old(names)[n] in containers
      ensures forall n :: n in names ==> names[n] == old(names)[n]
    {
      ok := *;
      var happens := *;
      if ok || happens {
        containers := containers - {id};
        names := map n | n in names && names[n] != id :: names[n];
      }
      failures := failures + if ok then 0 else 1;
    }

    /** Removing a network by its id, which must be the box's own. */
    method RemoveNetwork(name: string, id: Id, ghost box: string) returns (ok: bool)
      requires Valid() && (name in networks && networks[name].id == id ==> OwnedBy(networks[name].labels, box))
      modifies this`networks, this`failures
      ensures failures == old(failures) + if ok then 0 else 1
      ensures var removed :=
          if name in old(networks) && old(networks)[name].id == id then old(networks) - {name} else old(networks);
        networks == removed || (!ok && networks == old(networks))
    {
      ok := *;
      var happens := *;
      if (ok || happens) && name in networks && networks[name].id == id {
        networks := networks - {name};
      }
      failures := failures + if ok then 0 else 1;
    }

    /** Removing a volume by its name, which must be the box's own. */
    method RemoveVolume(name: string, ghost box: string) returns (ok: bool)
      requires Valid() && (name in volumes ==> OwnedBy(volumes[name], box))
      modifies this`volumes, this`failures
      ensures failures == old(failures) + if ok then 0 else 1
      ensures volumes == old(volumes) - {name} || (!ok && volumes == old(volumes))
    {
      ok := *;
      var happens := *;
      if ok || happens {
        volumes := volumes - {name};
      }
      failures := failures + if ok then 0 else 1;
    }

    method RemoveEnv(box: string) returns (ok: bool)
      modifies this`envs, this`failures
      ensures failures == old(failures) + if ok then 0 else 1
      ensures envs == if ok then old(envs) - {box} else old(envs)
    {
      ok := *;
      if ok {
        envs := envs - {box};
      }
      failures := failures + if ok then 0 else 1;
    }

    // ---- Checks ------------------------------------------------------------------------

    method InspectOwnedContainer(ref: Ref, box: string) returns (r: Lookup<Id>)
      requires Valid()
      modifies this`failures
      ensures failures >= old(failures)
      ensures r.Failed? <==> failures > old(failures) || ForeignRef(ref, box)
      ensures r.Found? ==> r.value in Owned(box)
      ensures !r.Failed? ==>
        match ref
        case ById(id) => if id in containers then r == Found(id) else r.Missing?
        case ByName(n) => if n in names then r == Found(names[n]) else r.Missing?
    {
      var labels;
      r, labels := InspectContainer(ref);
      if r.Found? && !OwnedBy(labels, box) {
        r := Failed;
      }
    }

    method InspectOwnedVolume(name: string, box: string) returns (r: Lookup<string>)
      modifies this`failures
      ensures failures >= old(failures)
      ensures r.Failed? <==> failures > old(failures) || (name in volumes && !OwnedBy(volumes[name], box))
      ensures !r.Failed? ==> r == if name in volumes then Found(name) else Missing
    {
      var found := InspectVolume(name);
      r := match found
        case Failed => Failed
        case Missing => Missing
        case Found(labels) => if OwnedBy(labels, box) then Found(name) else Failed;
    }

    /** Everything Destroy may remove, each object inspected first. It refuses exactly when a
        call fails or a name of the box belongs to a foreign object, and finds every container
        of the box once: duplicate, renamed and of unknown role. */
    method InspectDestroyTargets(box: string) returns (r: Inspection)
      requires Valid()
      modifies this`failures
      ensures failures >= old(failures)
      ensures r.Refused? <==> failures > old(failures) || Foreign(box)
      ensures r.Cleared? ==>
        && (forall id :: id in r.targets.containers <==> id in Owned(box))
        && (forall i, j :: 0 <= i < j < |r.targets.containers| ==> r.targets.containers[i] != r.targets.containers[j])
        && r.targets.network == (if NetworkName(box) in networks then Found(networks[NetworkName(box)].id) else Missing)
        && (forall v :: v in r.targets.volumes <==> v in VolumeNames(box) && v in volumes)
    {
      r := Refused;
      var listed := ListBoxContainers();
      if listed.Failed? { return; }
      var ids := InspectContainers(box, listed.value);
      if ids.Failed? { return; }
      var network := InspectNetwork(NetworkName(box));
      if network.Failed? || (network.Found? && !OwnedBy(network.value.labels, box)) { return; }
      var agent := InspectOwnedVolume(AgentVolume(box), box);
      if agent.Failed? { return; }
      var executor := InspectOwnedVolume(ExecutorVolume(box), box);
      if executor.Failed? { return; }
      var vols := (if agent.Found? then [agent.value] else []) + (if executor.Found? then [executor.value] else []);
      r := Cleared(Targets(ids.value, if network.Found? then Found(network.value.id) else Missing, vols));
    }

    /** The loop over derived names and labelled containers, each container once. */
    method InspectContainers(box: string, listed: seq<Id>) returns (r: Lookup<seq<Id>>)
      requires Valid()
      requires forall id :: id in Owned(box) ==> id in listed
      modifies this`failures
      ensures failures >= old(failures) && !r.Missing?
      ensures r.Failed? <==> failures > old(failures) || ForeignName(box)
      ensures r.Found? ==> forall id :: id in r.value <==> id in Owned(box)
      ensures r.Found? ==> forall i, j :: 0 <= i < j < |r.value| ==> r.value[i] != r.value[j]
    {
      var refs := [ByName(AgentName(box)), ByName(ExecutorName(box))];
      for k := 0 to |listed|
        invariant |refs| >= 2 && refs[..2] == [ByName(AgentName(box)), ByName(ExecutorName(box))]
        invariant forall i :: 2 <= i < |refs| ==> refs[i].ById? && refs[i].id in Owned(box)
        invariant forall j :: 0 <= j < k && listed[j] in Owned(box) ==> ById(listed[j]) in refs
      {
        if listed[k] in containers && OwnedBy(containers[listed[k]].labels, box) {
          refs := refs + [ById(listed[k])];
        }
      }
      r := InspectRefs(box, refs);
    }

    method InspectRefs(box: string, refs: seq<Ref>) returns (r: Lookup<seq<Id>>)
      requires Valid()
      requires |refs| >= 2 && refs[..2] == [ByName(AgentName(box)), ByName(ExecutorName(box))]
      requires forall i :: 2 <= i < |refs| ==> refs[i].ById? && refs[i].id in Owned(box)
      requires forall id :: id in Owned(box) ==> ById(id) in refs
      modifies this`failures
      ensures failures >= old(failures) && !r.Missing?
      ensures r.Failed? <==> failures > old(failures) || ForeignName(box)
      ensures r.Found? ==> forall id :: id in r.value <==> id in Owned(box)
      ensures r.Found? ==> forall i, j :: 0 <= i < j < |r.value| ==> r.value[i] != r.value[j]
    {
      assert refs[0] == refs[..2][0] && refs[1] == refs[..2][1];
      var ids: seq<Id> := [];
      var seen: set<Id> := {};
      for k := 0 to |refs|
        invariant failures == old(failures) && seen <= Owned(box)
        invariant forall id :: id in ids <==> id in seen
        invariant forall i, j :: 0 <= i < j < |ids| ==> ids[i] != ids[j]
        invariant forall i :: 0 <= i < k && refs[i].ById? ==> refs[i].id in seen
        invariant forall i :: 0 <= i < k ==> !ForeignRef(refs[i], box)
      {
        if !(refs[k].ById? && refs[k].id in seen) {
          var found := InspectOwnedContainer(refs[k], box);
          if found.Failed? {
            return Failed;
          }
          if found.Found? && found.value !in seen {
            ids, seen := ids + [found.value], seen + {found.value};
          }
        }
      }
      assert !ForeignRef(refs[0], box) && !ForeignRef(refs[1], box);
      forall id | id in Owned(box) ensures id in seen {
        assert ById(id) in refs;
      }
      r := Found(ids);
    }

    /** The check before a fresh box: it passes exactly when no call fails and nothing at all
        is under any name of the box. */
    method PreflightFreshObjects(box: string) returns (ok: bool)
      requires Valid()
      modifies this`failures
      ensures failures >= old(failures)
      ensures ok <==> failures == old(failures) && Unused(box)
    {
      ok := false;
      var agent, _ := InspectContainer(ByName(AgentName(box)));
      if !agent.Missing? { return; }
      var executor, _ := InspectContainer(ByName(ExecutorName(box)));
      if !executor.Missing? { return; }
      var network := InspectNetwork(NetworkName(box));
      if !network.Missing? { return; }
      var first := InspectVolume(AgentVolume(box));
      if !first.Missing? { return; }
      var second := InspectVolume(ExecutorVolume(box));
      ok := second.Missing?;
    }

    // ---- Destroy -------------------------------------------------------------------------

    /** Destroy. It touches nothing exactly when it cannot clear every target: one is foreign
        or cannot be inspected. Otherwise only objects of the box go, and it succeeds exactly
        when no call fails: then nothing of the box is left and the env file is gone. After
        any failure the env file stays. */
    method Destroy(box: string) returns (r: Outcome)
      requires Valid()
      modifies this
      ensures Valid()
      ensures old(Foreign(box)) ==> r.Untouched?
      ensures r.Untouched? ==> containers == old(containers) && names == old(names)
      ensures r.Untouched? ==> networks == old(networks) && volumes == old(volumes) && envs == old(envs)
      ensures r.Untouched? ==> failures > old(failures) || old(Foreign(box))
      ensures r.Destroyed? <==> failures == old(failures) && !old(Foreign(box))
      ensures r.Destroyed? ==> Gone(box) && envs == old(envs) - {box}
      ensures !r.Destroyed? ==> envs == old(envs)
      ensures containers.Keys <= old(containers).Keys && old(containers).Keys - containers.Keys <= old(Owned(box))
      ensures forall id :: id in containers ==> containers[id] == old(containers)[id]
      ensures networks == old(networks) || networks == old(networks) - {NetworkName(box)}
      ensures volumes.Keys <= old(volumes).Keys && forall v :: v in volumes ==> volumes[v] == old(volumes)[v]
      ensures forall v :: v in old(volumes) && v !in volumes ==> v in VolumeNames(box)
    {
      var inspection := InspectDestroyTargets(box);
      if inspection.Refused? {
        return Untouched;
      }
      var targets := inspection.targets;
      var errors := RemoveContainers(box, targets.containers);
      if targets.network.Found? {
        var ok := RemoveNetwork(NetworkName(box), targets.network.value, box);
        errors := errors || !ok;
      }
      var failed := RemoveVolumes(box, targets.volumes);
      if errors || failed {
        return Incomplete;
      }
      var ok := RemoveEnv(box);
      r := if ok then Destroyed else Incomplete;
    }

    method RemoveContainers(box: string, ids: seq<Id>) returns (errors: bool)
      requires Valid() && forall id :: id in ids <==> id in Owned(box)
      modifies this
      ensures Valid() && networks == old(networks) && volumes == old(volumes) && envs == old(envs)
      ensures failures >= old(failures) && (errors <==> failures > old(failures))
      ensures containers.Keys <= old(containers).Keys && old(containers).Keys - containers.Keys <= old(Owned(box))
      ensures forall id :: id in containers ==> containers[id] == old(containers)[id]
      ensures !errors ==> Owned(box) == {}
    {
      errors := false;
      for k := 0 to |ids|
        invariant Valid() && networks == old(networks) && volumes == old(volumes) && envs == old(envs)
        invariant failures >= old(failures) && (errors <==> failures > old(failures))
        invariant containers.Keys <= old(containers).Keys && old(containers).Keys - containers.Keys <= old(Owned(box))
        invariant forall id :: id in containers ==> containers[id] == old(containers)[id]
        invariant !errors ==> forall i :: 0 <= i < k ==> ids[i] !in containers
      {
        assert ids[k] in old(Owned(box));
        var ok := RemoveContainer(ids[k], box);
        errors := errors || !ok;
      }
      assert forall id :: id in Owned(box) ==> id in old(Owned(box));
    }

    /** Volumes are removed by name, so each is inspected again right before. */
    method RemoveVolumes(box: string, names: seq<string>) returns (errors: bool)
      requires Valid()
      modifies this`volumes, this`failures
      ensures failures >= old(failures) && (errors <== failures > old(failures))
      ensures errors ==> failures > old(failures) || exists v :: v in names && v in volumes && !OwnedBy(volumes[v], box)
      ensures volumes.Keys <= old(volumes).Keys && forall v :: v in volumes ==> volumes[v] == old(volumes)[v]
      ensures forall v :: v in old(volumes) && v !in volumes ==> v in names && OwnedBy(old(volumes)[v], box)
      ensures !errors ==> forall v :: v in names ==> v !in volumes
    {
      errors := false;
      for k := 0 to |names|
        invariant failures >= old(failures) && (errors <== failures > old(failures))
        invariant errors ==>
          failures > old(failures) || exists v :: v in names && v in volumes && !OwnedBy(volumes[v], box)
        invariant volumes.Keys <= old(volumes).Keys && forall v :: v in volumes ==> volumes[v] == old(volumes)[v]
        invariant forall v :: v in old(volumes) && v !in volumes ==> v in names && OwnedBy(old(volumes)[v], box)
        invariant !errors ==> forall i :: 0 <= i < k ==> names[i] !in volumes
      {
        var owned := InspectOwnedVolume(names[k], box);
        if owned.Failed? {
          errors := true;
        } else if owned.Found? {
          var ok := RemoveVolume(names[k], box);
          errors := errors || !ok;
        }
      }
    }
  }
}
