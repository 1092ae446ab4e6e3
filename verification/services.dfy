/** The reconciler of custom services: one supervisor per executable definition, found again
    through a record of its process id and start time. Supervisors may crash and their ids may
    be taken over by other processes at any moment; stopping and starting may fail. */
module Services {
  import opened Options

  type Pid = nat
  type Name = string

  /** What a supervisor's command line says. */
  datatype Job = Job(name: Name, helper: string, logDir: string, delay: string)

  /** A live process; other processes have no job. A child that leads a process group of its
      own has its own id as its group. */
  datatype Process = Process(start: nat, job: Option<Job>, parent: Pid, group: Pid)

  /** A state file. */
  datatype Record = Record(pid: Pid, start: nat, fingerprint: string, helper: string, logDir: string, delay: string)

  /** An entry of the definitions directory: whether it is a regular executable file, and its
      fingerprint if that can be taken. */
  datatype Definition = Definition(name: Name, executable: bool, fingerprint: Option<string>)

  /** What every supervisor is to be started with. */
  datatype Settings = Settings(helper: string, logDir: string, delay: string)

  predicate Lower(c: char) {
    'a' <= c <= 'z' || '0' <= c <= '9'
  }

  predicate SafeName(name: Name) {
    && 1 <= |name| <= 63 && Lower(name[0])
    && forall i :: 0 <= i < |name| ==> Lower(name[i]) || name[i] == '_' || name[i] == '-'
  }

  predicate Usable(d: Definition) {
    d.executable && SafeName(d.name) && d.fingerprint.Some?
  }

  /** The services that ought to run, with their fingerprints. */
  function Desired(definitions: seq<Definition>): map<Name, string> {
    if definitions == [] then map[]
    else
      var d := definitions[|definitions| - 1];
      var rest := Desired(definitions[..|definitions| - 1]);
      if Usable(d) then rest[d.name := d.fingerprint.value] else rest
  }

  // ---- Identity ----------------------------------------------------------------------------

  /** The process with this id and start time still runs. */
  predicate Alive(live: map<Pid, Process>, pid: Pid, start: nat) {
    pid in live && live[pid].start == start
  }

  /** The recorded process is still that process, supervising this name. */
  predicate Matches(live: map<Pid, Process>, r: Record, name: Name) {
    Alive(live, r.pid, r.start) && live[r.pid].job == Some(Job(name, r.helper, r.logDir, r.delay))
  }

  /** A supervisor runs this name as it is defined now. */
  predicate Current(live: map<Pid, Process>, records: map<Name, Record>, name: Name, fingerprint: string, s: Settings) {
    name in records && Matches(live, records[name], name) && records[name].fingerprint == fingerprint
    && Settings(records[name].helper, records[name].logDir, records[name].delay) == s
  }

  predicate Supervises(live: map<Pid, Process>, pid: Pid, name: Name) {
    pid in live && live[pid].job.Some? && live[pid].job.value.name == name
  }

  const LETTERS := "abcdefghijklmnopqrstuvwxyz"
  const DIGITS := "0123456789"

  /** The safe names are the words of 1 to 63 letters, digits, "_" and "-" that begin with a
      letter or a digit. */
  lemma SafeNameLanguage(name: Name)
    ensures SafeName(name) <==>
      && name != "" && |name| < 64 && (name[0] in LETTERS || name[0] in DIGITS)
      && forall i :: 0 <= i < |name| ==> name[i] in LETTERS || name[i] in DIGITS || name[i] in {'_', '-'}
  {
    forall c ensures Lower(c) <==> c in LETTERS || c in DIGITS {
      LettersExact(c);
      DigitsExact(c);
    }
  }

  lemma LettersExact(c: char)
    ensures 'a' <= c <= 'z' <==> c in LETTERS
  {
    if 'a' <= c <= 'z' {
      var i := (c - 'a') as int;
      assert LETTERS[i] == c;
    }
  }

  lemma DigitsExact(c: char)
    ensures '0' <= c <= '9' <==> c in DIGITS
  {
    if '0' <= c <= '9' {
      var i := (c - '0') as int;
      assert DIGITS[i] == c;
    }
  }

  /** No live supervisor is unknown: each is the one its name's record tells of. */
  ghost predicate Recorded(live: map<Pid, Process>, records: map<Name, Record>) {
    forall pid :: pid in live && live[pid].job.Some? ==> OnRecord(live, records, pid, live[pid].job.value.name)
  }

  predicate OnRecord(live: map<Pid, Process>, records: map<Name, Record>, pid: Pid, name: Name) {
    name in records && records[name].pid == pid && Matches(live, records[name], name)
  }

  /** There are never two live supervisors for one name. */
  lemma OnePerName(live: map<Pid, Process>, records: map<Name, Record>, p: Pid, q: Pid, name: Name)
    requires Recorded(live, records) && Supervises(live, p, name) && Supervises(live, q, name)
    ensures p == q
  {
    assert OnRecord(live, records, p, name) && OnRecord(live, records, q, name);
  }

  ghost predicate Supervised(live: map<Pid, Process>, name: Name) {
    exists pid :: Supervises(live, pid, name)
  }

  /** A name whose record matches no process has no supervisor, and forgetting it loses none;
      nor does forgetting it together with the process it tells of. */
  lemma Unrecorded(live: map<Pid, Process>, records: map<Name, Record>, name: Name)
    requires Recorded(live, records)
    ensures !(name in records && Matches(live, records[name], name)) ==>
      !Supervised(live, name) && Recorded(live, records - {name})
    ensures name in records && Matches(live, records[name], name) ==>
      var rest := live - {records[name].pid};
      !Supervised(rest, name) && Recorded(rest, records) && Recorded(rest, records - {name})
  {
    forall pid | pid in live && live[pid].job.Some? ensures OnRecord(live, records, pid, live[pid].job.value.name) {
    }
    if name in records && Matches(live, records[name], name) {
      var rest := live - {records[name].pid};
      forall pid | pid in rest && rest[pid].job.Some?
        ensures rest[pid].job.value.name != name && OnRecord(rest, records - {name}, pid, rest[pid].job.value.name)
      {
        assert OnRecord(live, records, pid, live[pid].job.value.name);
      }
    }
  }

  /** Losing processes or gaining unsupervised ones leaves every supervisor on record. */
  lemma FewerRecorded(live: map<Pid, Process>, after: map<Pid, Process>, records: map<Name, Record>)
    requires Recorded(live, records) && NoneNew(live, after)
    ensures Recorded(after, records)
  {
    forall pid | pid in after && after[pid].job.Some? ensures OnRecord(after, records, pid, after[pid].job.value.name) {
      assert OnRecord(live, records, pid, live[pid].job.value.name);
    }
  }

  /** A new record for a name without a supervisor, and a process that becomes the supervisor
      it tells of. */
  lemma OneMoreRecorded(live: map<Pid, Process>, records: map<Name, Record>, name: Name, r: Record)
    requires Recorded(live, records) && !Supervised(live, name)
    ensures Recorded(live, records[name := r])
  {
    forall pid | pid in live && live[pid].job.Some?
      ensures OnRecord(live, records[name := r], pid, live[pid].job.value.name)
    {
      assert OnRecord(live, records, pid, live[pid].job.value.name);
      assert Supervises(live, pid, live[pid].job.value.name);
    }
  }

  lemma BecomesSupervisor(live: map<Pid, Process>, records: map<Name, Record>, name: Name, after: map<Pid, Process>)
    requires Recorded(live, records) && !Supervised(live, name) && name in records
    requires Alive(live, records[name].pid, records[name].start)
    requires var r := records[name];
      after == live[r.pid := live[r.pid].(job := Some(Job(name, r.helper, r.logDir, r.delay)))]
    ensures Recorded(after, records) && Matches(after, records[name], name)
  {
    forall pid | pid in after && after[pid].job.Some?
      ensures OnRecord(after, records, pid, after[pid].job.value.name)
    {
      if pid != records[name].pid {
        assert OnRecord(live, records, pid, live[pid].job.value.name);
        assert Supervises(live, pid, live[pid].job.value.name);
      }
    }
  }

  /** A forked process whose reconciler was killed becomes a supervisor when it gets to its
      program: still none is unknown exactly when its record is there by then. It is not if the
      kill came before the record, or if another run looked in between and, finding no
      supervisor under the recorded id, removed the record. */
  lemma OrphanRecordedExactly(live: map<Pid, Process>, records: map<Name, Record>, pid: Pid, job: Job,
      after: map<Pid, Process>)
    requires Recorded(live, records) && !Supervised(live, job.name) && pid in live && live[pid].job.None?
    requires after == live[pid := live[pid].(job := Some(job))]
    ensures Recorded(after, records) <==> OnRecord(after, records, pid, job.name)
  {
    assert after[pid].job == Some(job);
    assert Recorded(after, records) ==> OnRecord(after, records, pid, after[pid].job.value.name);
    if OnRecord(after, records, pid, job.name) {
      forall q | q in after && after[q].job.Some? ensures OnRecord(after, records, q, after[q].job.value.name) {
        if q != pid {
          assert OnRecord(live, records, q, live[q].job.value.name) && Supervises(live, q, live[q].job.value.name);
        }
      }
    }
  }

  /** When the recorded process is gone, its name has no supervisor. */
  lemma GoneUnsupervised(live: map<Pid, Process>, records: map<Name, Record>, name: Name)
    requires Recorded(live, records) && name in records && !Alive(live, records[name].pid, records[name].start)
    ensures !Supervised(live, name)
  {
  }

  /** No supervisor appears where none is new. */
  lemma NoneNewUnsupervised(live: map<Pid, Process>, after: map<Pid, Process>, name: Name)
    requires NoneNew(live, after) && !Supervised(live, name)
    ensures !Supervised(after, name)
  {
    forall pid | Supervises(after, pid, name) ensures Supervises(live, pid, name) {
    }
  }

  lemma FewerRecords(live: map<Pid, Process>, records: map<Name, Record>, name: Name)
    requires Recorded(live, records) && !Supervised(live, name)
    ensures Recorded(live, records - {name})
  {
    forall pid | pid in live && live[pid].job.Some?
      ensures OnRecord(live, records - {name}, pid, live[pid].job.value.name)
    {
      assert Supervises(live, pid, live[pid].job.value.name) && OnRecord(live, records, pid, live[pid].job.value.name);
    }
  }

  /** The live supervisors are the same ones. */
  ghost predicate SameSupervisors(a: map<Pid, Process>, b: map<Pid, Process>) {
    forall pid :: (pid in a && a[pid].job.Some?) || (pid in b && b[pid].job.Some?) ==>
      pid in a && pid in b && a[pid] == b[pid]
  }

  /** No supervisor has appeared. */
  ghost predicate NoneNew(a: map<Pid, Process>, b: map<Pid, Process>) {
    forall pid :: pid in b && b[pid].job.Some? ==> pid in a && a[pid] == b[pid]
  }

  /** No supervisor of another name has appeared. */
  ghost predicate NoneNewBut(a: map<Pid, Process>, b: map<Pid, Process>, name: Name) {
    forall pid :: pid in b && b[pid].job.Some? && b[pid].job.value.name != name ==> pid in a && a[pid] == b[pid]
  }

  /** Exactly the desired services run, each as it is defined now, and nothing else is on
      record. */
  ghost predicate Converged(live: map<Pid, Process>, records: map<Name, Record>, desired: map<Name, string>,
      s: Settings)
  {
    && records.Keys == desired.Keys && Recorded(live, records)
    && forall n :: n in desired ==> Current(live, records, n, desired[n], s)
  }

  /** Converged means that for each desired service one process runs with its name and these
      settings, and is on record with the definition's fingerprint; nothing else supervises. */
  lemma ConvergedRuns(live: map<Pid, Process>, records: map<Name, Record>, desired: map<Name, string>, s: Settings,
      name: Name)
    requires Converged(live, records, desired, s)
    ensures name in desired ==>
      && name in records && records[name].fingerprint == desired[name]
      && records[name].pid in live && live[records[name].pid].start == records[name].start
      && live[records[name].pid].job == Some(Job(name, s.helper, s.logDir, s.delay))
    ensures name !in desired ==> name !in records && forall pid :: pid in live ==> !Supervises(live, pid, name)
  {
    if name in desired {
      assert Current(live, records, name, desired[name], s);
    } else if Supervised(live, name) {
      FitOrMatching(live, records, name);
    }
  }

  /** A name that may be started if it is not current: it has no supervisor but a current one. */
  ghost predicate Fit(live: map<Pid, Process>, records: map<Name, Record>, name: Name, fingerprint: string, s: Settings)
  {
    !Supervised(live, name) || Current(live, records, name, fingerprint, s)
  }

  lemma StaysFit(live: map<Pid, Process>, after: map<Pid, Process>, records: map<Name, Record>, left: map<Name, Record>,
      name: Name, fingerprint: string, s: Settings)
    requires Recorded(live, records) && Fit(live, records, name, fingerprint, s)
    requires forall pid :: Supervises(after, pid, name) ==> pid in live && live[pid] == after[pid]
    requires name in records ==> name in left && left[name] == records[name]
    ensures Fit(after, left, name, fingerprint, s)
  {
    forall pid | Supervises(after, pid, name) ensures Current(after, left, name, fingerprint, s) {
      assert Supervises(live, pid, name) && OnRecord(live, records, pid, name);
    }
  }

  /** A name with no matching record has no supervisor. */
  lemma FitOrMatching(live: map<Pid, Process>, records: map<Name, Record>, name: Name)
    requires Recorded(live, records) && Supervised(live, name)
    ensures name in records && Matches(live, records[name], name)
  {
    var pid :| Supervises(live, pid, name);
    assert OnRecord(live, records, pid, name);
  }

  ghost predicate AllFit(live: map<Pid, Process>, records: map<Name, Record>, desired: map<Name, string>,
      except: set<Name>, s: Settings)
  {
    forall n :: n in desired && n !in except ==> Fit(live, records, n, desired[n], s)
  }

  ghost predicate AllCurrent(live: map<Pid, Process>, records: map<Name, Record>, desired: map<Name, string>,
      s: Settings)
  {
    forall n :: n in desired ==> Current(live, records, n, desired[n], s)
  }

  /** No supervisor of these names was lost. */
  ghost predicate Keeps(a: map<Pid, Process>, b: map<Pid, Process>, names: set<Name>) {
    forall pid :: pid in a && a[pid].job.Some? && a[pid].job.value.name in names ==> pid in b && b[pid] == a[pid]
  }

  /** A child of the supervisor that leads a process group of its own. */
  predicate ChildGroup(live: map<Pid, Process>, supervisor: Pid, c: Pid) {
    c in live && live[c].parent == supervisor && live[c].group == c
  }

  /** Whoever is new has a new start time: an identity that is gone never comes back. */
  ghost predicate NoneBack(a: map<Pid, Process>, b: map<Pid, Process>, clock: nat) {
    forall pid :: pid in b ==> (pid in a && b[pid].start == a[pid].start) || b[pid].start >= clock
  }

  /** No supervisor but the one of this identity was lost. */
  ghost predicate OthersStay(a: map<Pid, Process>, b: map<Pid, Process>, pid: Pid, start: nat) {
    forall q :: q in a && a[q].job.Some? && !(q == pid && a[q].start == start) ==> q in b && b[q] == a[q]
  }

  /** The supervisor, or the leader of a child's process group, is still there. */
  ghost predicate Survives(before: map<Pid, Process>, now: map<Pid, Process>, pid: Pid, start: nat) {
    || Alive(now, pid, start)
    || exists c :: c in before && ChildGroup(before, pid, c) && Alive(now, c, before[c].start)
  }

  const STOP_ROUNDS := 50
  const KILL_ROUNDS := 20
  const START_ROUNDS := 100

  class Supervisors {
    var live: map<Pid, Process>
    var records: map<Name, Record>
    /** How often a supervisor crashed. */
    ghost var crashes: nat
    /** How often a start came to nothing, or a process survived its stop. */
    ghost var failures: nat

    /** The time: every process started in the past. */
    var clock: nat

    ghost predicate Valid()
      reads this
    {
      Recorded(live, records) && forall pid :: pid in live ==> live[pid].start < clock
    }

    /** What happens by itself: supervisors crash, other processes come and go. */
    method Meanwhile()
      requires Valid()
      modifies this`live, this`crashes, this`clock
      ensures Valid() && NoneNew(old(live), live) && crashes >= old(crashes)
      ensures NoneBack(old(live), live, old(clock)) && clock >= old(clock)
      ensures crashes == old(crashes) ==> SameSupervisors(old(live), live)
    {
      var crash := *;
      var pid: Pid, parent: Pid, group: Pid := *, *, *;
      if pid in live && live[pid].job.Some? {
        if crash {
          live, crashes := live - {pid}, crashes + 1;
        }
      } else if pid in live {
        live := live - {pid};
      } else {
        live, clock := live[pid := Process(clock, None, parent, group)], clock + 1;
      }
      FewerRecorded(old(live), live, records);
    }

    // ---- Stopping ------------------------------------------------------------------------

    /** A signal to the process of this identity, which it may or may not survive. */
    method Signal(pid: Pid, start: nat)
      requires Valid()
      modifies this`live
      ensures Valid() && (live == old(live) || (Alive(old(live), pid, start) && live == old(live) - {pid}))
    {
      var dies := *;
      if dies && Alive(live, pid, start) {
        live := live - {pid};
        FewerRecorded(old(live), live, records);
      }
    }

    /** KILL to a child's process group, if its leader is still the same process. Supervisors
        stay in the group of their starter and are never in a child's. */
    method KillGroup(leader: Pid, start: nat)
      requires Valid()
      modifies this`live
      ensures Valid() && NoneNew(old(live), live) && SameSupervisors(old(live), live)
      ensures forall q :: q in live ==> q in old(live) && live[q] == old(live)[q]
    {
      if Alive(live, leader, start) && live[leader].group == leader {
        var survivors: set<Pid> := *;
        live := map q | q in live && (live[q].job.Some? || live[q].group != leader || q in survivors) :: live[q];
        FewerRecorded(old(live), live, records);
      }
    }

    /** The children of a supervisor that lead their own process groups, with their start
        times; some may have exited before they are looked at. */
    method ChildGroups(pid: Pid) returns (groups: map<Pid, nat>)
      ensures groups == map c | c in live && ChildGroup(live, pid, c) :: live[c].start
    {
      groups := map c | c in live && live[c].parent == pid && live[c].group == c :: live[c].start;
    }

    /** Waiting, for a bounded number of rounds, for the supervisor and the groups to go. The
        supervisor has been signalled and may exit in any round. */
    method AwaitExit(pid: Pid, start: nat, groups: map<Pid, nat>, rounds: nat) returns (ghost waited: nat)
      requires Valid()
      modifies this`live, this`crashes, this`clock
      ensures Valid() && crashes >= old(crashes) && clock >= old(clock)
      ensures NoneNew(old(live), live) && NoneBack(old(live), live, old(clock))
      ensures crashes == old(crashes) ==> OthersStay(old(live), live, pid, start)
      ensures waited == rounds || (!Alive(live, pid, start) && forall c :: c in groups ==> !Alive(live, c, groups[c]))
    {
      waited := 0;
      for round := 0 to rounds
        invariant Valid() && crashes >= old(crashes) && clock >= old(clock) && waited == round
        invariant NoneNew(old(live), live) && NoneBack(old(live), live, old(clock))
        invariant crashes == old(crashes) ==> OthersStay(old(live), live, pid, start)
      {
        if !Alive(live, pid, start) && forall c :: c in groups ==> !Alive(live, c, groups[c]) {
          return;
        }
        Signal(pid, start);
        Meanwhile();
        waited := waited + 1;
      }
    }

    /** KILL to every child's group that is left. */
    method KillGroups(groups: map<Pid, nat>)
      requires Valid()
      modifies this`live
      ensures Valid() && NoneNew(old(live), live) && SameSupervisors(old(live), live)
      ensures NoneBack(old(live), live, clock)
    {
      var left := groups.Keys;
      while left != {}
        invariant Valid() && NoneNew(old(live), live) && SameSupervisors(old(live), live)
        invariant NoneBack(old(live), live, clock)
      {
        var c :| c in left;
        KillGroup(c, groups[c]);
        left := left - {c};
      }
    }

    /** _stop_one. TERM, a wait, KILL for what is left, another wait; it fails only when the
        supervisor or a child's process group has survived all that, and then the record stays.
        Success leaves no supervisor of the name and, if nothing crashed meanwhile, none of the
        groups of the supervisor's children. */
    method StopOne(name: Name) returns (ok: bool)
      requires Valid()
      modifies this
      ensures Valid() && NoneNew(old(live), live) && crashes >= old(crashes)
      ensures ok ==> !Supervised(live, name) && records == old(records) - {name}
      ensures !ok ==> records == old(records) && name in records
      ensures !ok ==> Survives(old(live), live, records[name].pid, records[name].start)
      ensures failures == if ok then old(failures) else old(failures) + 1
      ensures crashes == old(crashes) ==>
        forall pid :: pid in old(live) && old(live)[pid].job.Some? && !Supervises(old(live), pid, name) ==>
          pid in live && live[pid] == old(live)[pid]
      ensures ok && crashes == old(crashes) && name in old(records) && Matches(old(live), old(records)[name], name) ==>
        forall c :: c in old(live) && ChildGroup(old(live), old(records)[name].pid, c) ==>
          !Alive(live, c, old(live)[c].start)
    {
      ghost var before := live;
      Unrecorded(live, records, name);
      if !(name in records && Matches(live, records[name], name)) {
        records := records - {name};
        return true;
      }
      var pid, start := records[name].pid, records[name].start;
      var groups := ChildGroups(pid);
      Meanwhile();
      assert crashes == old(crashes) ==> Alive(live, pid, start);
      if !Alive(live, pid, start) {
        Forget(name);
        return true;
      }
      ok := StopProcesses(name, pid, start, groups);
      if !ok {
        failures := failures + 1;
      } else {
        forall c | c in before && ChildGroup(before, pid, c) ensures !Alive(live, c, before[c].start) {
          assert c in groups && groups[c] == before[c].start;
        }
      }
    }

    /** TERM and KILL, each with its wait, and the final look. */
    method StopProcesses(name: Name, pid: Pid, start: nat, groups: map<Pid, nat>) returns (ok: bool)
      requires Valid() && name in records && records[name].pid == pid && records[name].start == start
      modifies this
      ensures Valid() && NoneNew(old(live), live) && crashes >= old(crashes)
      ensures if ok then !Supervised(live, name) && records == old(records) - {name} else records == old(records)
      ensures crashes == old(crashes) ==> OthersStay(old(live), live, pid, start)
      ensures ok <==> !Alive(live, pid, start) && forall c :: c in groups ==> !Alive(live, c, groups[c])
      ensures failures == old(failures)
    {
      Signal(pid, start);
      ghost var waited := AwaitExit(pid, start, groups, STOP_ROUNDS);
      KillGroups(groups);
      Signal(pid, start);
      waited := AwaitExit(pid, start, groups, KILL_ROUNDS);
      ok := !Alive(live, pid, start) && forall c :: c in groups ==> !Alive(live, c, groups[c]);
      if ok {
        Forget(name);
      }
    }

    /** The state file of a name whose recorded process is gone is removed. */
    method Forget(name: Name)
      requires Valid() && name in records && !Alive(live, records[name].pid, records[name].start)
      modifies this`records
      ensures Valid() && records == old(records) - {name} && !Supervised(live, name)
    {
      GoneUnsupervised(live, records, name);
      FewerRecords(live, records, name);
      records := records - {name};
    }

    // ---- Starting ------------------------------------------------------------------------

    /** _start_one. A process is forked; if it can be looked at and its record written, it is
        given time to become the supervisor of the name. Every other exit ends the process and
        waits for it. It comes back with a recorded current supervisor or without any. */
    method StartOne(name: Name, fingerprint: string, s: Settings) returns (ok: bool)
      requires Valid() && !Supervised(live, name)
      modifies this
      ensures Valid() && crashes >= old(crashes)
      ensures if ok then Current(live, records, name, fingerprint, s) else !Supervised(live, name)
      ensures failures == if ok || s.helper == "" then old(failures) else old(failures) + 1
      ensures ok ==> s.helper != ""
      ensures forall n :: n != name ==>
        (n in records <==> n in old(records)) && (n in records ==> records[n] == old(records)[n])
      ensures NoneNewBut(old(live), live, name)
      ensures crashes == old(crashes) ==>
        forall q :: q in old(live) && old(live)[q].job.Some? ==> q in live && live[q] == old(live)[q]
    {
      ok := false;
      var pid: Pid, self: Pid := *, *;
      if s.helper == "" {
        return;
      }
      if pid in live {
        failures := failures + 1;
        return;
      }
      var start := clock;
      live, clock := live[pid := Process(start, None, self, self)], clock + 1;
      FewerRecorded(old(live), live, records);
      NoneNewUnsupervised(old(live), live, name);
      var seen, written := *, *;
      if !seen || !written {
        End(pid, start);
        NoneNewUnsupervised(old(live), live, name);
        failures := failures + 1;
        return;
      }
      ok := Supervise(name, Record(pid, start, fingerprint, s.helper, s.logDir, s.delay));
    }

    /** The record is written, and the process becomes the supervisor or is ended. */
    method Supervise(name: Name, record: Record) returns (ok: bool)
      requires Valid() && !Supervised(live, name)
      requires Alive(live, record.pid, record.start) && live[record.pid].job.None?
      modifies this
      ensures Valid() && crashes >= old(crashes)
      ensures if ok then name in records && records[name] == record && Matches(live, record, name)
        else !Supervised(live, name)
      ensures failures == if ok then old(failures) else old(failures) + 1
      ensures forall n :: n != name ==>
        (n in records <==> n in old(records)) && (n in records ==> records[n] == old(records)[n])
      ensures NoneNewBut(old(live), live, name)
      ensures crashes == old(crashes) ==> OthersStay(old(live), live, record.pid, record.start)
    {
      OneMoreRecorded(live, records, name, record);
      records := records[name := record];
      ghost var looked;
      ok, looked := AwaitStart(name, record.pid, record.start);
      if !ok {
        End(record.pid, record.start);
        Forget(name);
        failures := failures + 1;
      }
    }

    /** TERM and wait: comes back when the process is gone. */
    method End(pid: Pid, start: nat)
      requires Valid()
      modifies this`live
      ensures Valid() && !Alive(live, pid, start)
      ensures live == if Alive(old(live), pid, start) then old(live) - {pid} else old(live)
    {
      if Alive(live, pid, start) {
        live := live - {pid};
        FewerRecorded(old(live), live, records);
      }
    }

    /** Rounds of looking whether the recorded process has become the supervisor, until it has,
        or has exited, or the rounds are over. */
    method AwaitStart(name: Name, pid: Pid, start: nat) returns (ok: bool, ghost looked: nat)
      requires Valid() && name in records && records[name].pid == pid && records[name].start == start
      requires start < clock && (Alive(live, pid, start) ==> live[pid].job.None?) && !Supervised(live, name)
      modifies this`live, this`crashes, this`clock
      ensures Valid() && crashes >= old(crashes)
      ensures ok <==> Matches(live, records[name], name)
      ensures !ok ==> !Alive(live, pid, start) || looked == START_ROUNDS
      ensures NoneNewBut(old(live), live, name)
      ensures crashes == old(crashes) ==> OthersStay(old(live), live, pid, start)
    {
      var record := records[name];
      looked := 0;
      for attempt := 0 to START_ROUNDS
        invariant looked == attempt
        invariant Valid() && crashes >= old(crashes) && start < clock
        invariant Alive(live, pid, start) ==> live[pid].job.None?
        invariant !Supervised(live, name)
        invariant forall q :: q in live && live[q].job.Some? ==> q in old(live) && live[q] == old(live)[q]
        invariant crashes == old(crashes) ==> OthersStay(old(live), live, pid, start)
      {
        var execs := *;
        if execs && Alive(live, pid, start) {
          ghost var before := live;
          live := live[pid := live[pid].(job := Some(Job(name, record.helper, record.logDir, record.delay)))];
          BecomesSupervisor(before, records, name, live);
          return true, looked;
        }
        if !Alive(live, pid, start) {
          return false, looked;
        }
        Meanwhile();
        looked := looked + 1;
      }
      ok := false;
    }

    /** The names of the state files, or of any set of names, in some order. */
    method List(names: set<Name>) returns (listed: seq<Name>)
      ensures forall n :: n in listed <==> n in names
    {
      listed := [];
      var left := names;
      while left != {}
        invariant left <= names && forall n :: n in listed <==> n in names - left
      {
        var n :| n in left;
        listed, left := listed + [n], left - {n};
      }
    }

    /** One name of the first loop. */
    method StopOrKeep(name: Name, desired: map<Name, string>, s: Option<Settings>) returns (ok: bool)
      requires Valid()
      modifies this
      ensures Valid() && crashes >= old(crashes) && NoneNew(old(live), live)
      ensures failures == if ok then old(failures) else old(failures) + 1
      ensures records == old(records) || records == old(records) - {name}
      ensures ok && name !in desired ==> name !in records
      ensures ok && name in desired && s.Some? ==> Fit(live, records, name, desired[name], s.value)
      ensures s.Some? ==>
        forall n :: n in desired && n != name && old(Fit(live, records, n, desired[n], s.value)) ==>
          Fit(live, records, n, desired[n], s.value)
      ensures s.Some? && name in desired && old(Current(live, records, name, desired[name], s.value)) ==>
        crashes == old(crashes) ==>
        ok && records == old(records) && SameSupervisors(old(live), live)
      ensures crashes == old(crashes) && s.None? ==> Keeps(old(live), live, desired.Keys)
    {
      Meanwhile();
      ok := true;
      if name !in desired || (s.Some? && !Current(live, records, name, desired[name], s.value)) {
        ok := StopOne(name);
      }
      if s.Some? {
        forall n | n in desired && n != name && old(Fit(live, records, n, desired[n], s.value))
          ensures Fit(live, records, n, desired[n], s.value)
        {
          StaysFit(old(live), live, old(records), records, n, desired[n], s.value);
        }
      }
    }

    /** The first loop: what is recorded but not desired is stopped, and so is what is desired
        but not current, unless there is no helper to start it again with. */
    method StopObsolete(desired: map<Name, string>, s: Option<Settings>) returns (failed: bool, stopFailed: set<Name>)
      requires Valid()
      modifies this
      ensures Valid() && crashes >= old(crashes) && NoneNew(old(live), live)
      ensures failures >= old(failures) && (failed <==> failures > old(failures))
      ensures stopFailed != {} ==> failed
      ensures forall n :: n in records ==> n in old(records) && records[n] == old(records)[n]
      ensures !failed ==> records.Keys <= desired.Keys
      ensures s.Some? ==> AllFit(live, records, desired, stopFailed, s.value)
      ensures crashes == old(crashes) && s.Some? && old(Converged(live, records, desired, s.value)) ==>
        !failed && records == old(records) && SameSupervisors(old(live), live)
      ensures crashes == old(crashes) && s.None? ==> Keeps(old(live), live, desired.Keys)
    {
      failed, stopFailed := false, {};
      var names := List(records.Keys);
      for k := 0 to |names|
        invariant Valid() && crashes >= old(crashes) && NoneNew(old(live), live)
        invariant failures >= old(failures) && (failed <==> failures > old(failures))
        invariant stopFailed != {} ==> failed
        invariant forall n :: n in records ==> n in old(records) && records[n] == old(records)[n]
        invariant !failed ==> forall i :: 0 <= i < k && names[i] in records ==> names[i] in desired
        invariant crashes == old(crashes) && s.Some? && old(Converged(live, records, desired, s.value)) ==>
          !failed && records == old(records) && SameSupervisors(old(live), live)
        invariant crashes == old(crashes) && s.None? ==> Keeps(old(live), live, desired.Keys)
        invariant s.Some? ==>
          forall i :: 0 <= i < k && names[i] in desired && names[i] !in stopFailed ==>
            Fit(live, records, names[i], desired[names[i]], s.value)
      {
        var ok := StopOrKeep(names[k], desired, s);
        if !ok {
          failed := true;
          if names[k] in desired {
            stopFailed := stopFailed + {names[k]};
          }
        }
      }
      if s.Some? {
        forall n | n in desired && n !in stopFailed ensures Fit(live, records, n, desired[n], s.value) {
          if Supervised(live, n) {
            FitOrMatching(live, records, n);
          }
        }
      }
    }

    /** One name of the second loop. */
    method StartIfMissing(name: Name, desired: map<Name, string>, s: Settings) returns (ok: bool)
      requires Valid() && name in desired && Fit(live, records, name, desired[name], s)
      modifies this
      ensures Valid() && crashes >= old(crashes)
      ensures records.Keys <= old(records).Keys + {name}
      ensures failures >= old(failures) && (s.helper != "" ==> (ok <==> failures == old(failures)))
      ensures ok && crashes == old(crashes) ==> Current(live, records, name, desired[name], s)
      ensures forall n :: n in desired && (n == name || old(Fit(live, records, n, desired[n], s))) ==>
        Fit(live, records, n, desired[n], s)
      ensures crashes == old(crashes) ==>
        forall n :: n in desired && old(Current(live, records, n, desired[n], s)) ==>
          Current(live, records, n, desired[n], s)
      ensures crashes == old(crashes) && old(Current(live, records, name, desired[name], s)) ==>
        ok && records == old(records) && SameSupervisors(old(live), live)
    {
      Meanwhile();
      label looked:
      StaysFit(old(live), live, old(records), records, name, desired[name], s);
      ok := true;
      if !Current(live, records, name, desired[name], s) {
        ok := StartOne(name, desired[name], s);
      }
      forall n | n in desired && n != name && old(Fit(live, records, n, desired[n], s))
        ensures Fit(live, records, n, desired[n], s)
      {
        StaysFit(old(live), old@looked(live), old(records), old(records), n, desired[n], s);
        StaysFit(old@looked(live), live, old(records), records, n, desired[n], s);
      }
    }

    /** The second loop: every desired service that is not current is started, but those whose
        old supervisor could not be stopped. */
    method StartMissing(desired: map<Name, string>, s: Settings, stopFailed: set<Name>) returns (failed: bool)
      requires Valid() && AllFit(live, records, desired, stopFailed, s)
      modifies this
      ensures Valid() && crashes >= old(crashes)
      ensures records.Keys <= old(records).Keys + desired.Keys
      ensures failures >= old(failures) && (s.helper != "" ==> (failed <==> failures > old(failures)))
      ensures !failed && crashes == old(crashes) && stopFailed == {} ==> AllCurrent(live, records, desired, s)
      ensures crashes == old(crashes) && old(Converged(live, records, desired, s)) ==>
        !failed && records == old(records) && SameSupervisors(old(live), live)
    {
      failed := false;
      var names := List(desired.Keys);
      for k := 0 to |names|
        invariant Valid() && crashes >= old(crashes) && AllFit(live, records, desired, stopFailed, s)
        invariant records.Keys <= old(records).Keys + desired.Keys
        invariant failures >= old(failures) && (s.helper != "" ==> (failed <==> failures > old(failures)))
        invariant !failed && crashes == old(crashes) ==>
          forall i :: 0 <= i < k && names[i] !in stopFailed ==> Current(live, records, names[i], desired[names[i]], s)
        invariant crashes == old(crashes) && old(Converged(live, records, desired, s)) ==>
          !failed && records == old(records) && SameSupervisors(old(live), live)
      {
        if names[k] !in stopFailed {
          var ok := StartIfMissing(names[k], desired, s);
          failed := failed || !ok;
        }
      }
    }

    /** _reconcile_locked. There is never an unrecorded supervisor, whatever fails or crashes.
        When it succeeds, unquiesced and without a crash meanwhile, exactly the desired services
        run as they are defined now; quiesced, it starts nothing, and its success leaves nothing
        of an undesired or outdated service. With a helper it succeeds exactly when no stop or
        start fails; run again with nothing changed, it starts and stops nothing; and without a
        helper no desired service is stopped. */
    method ReconcileLocked(definitions: seq<Definition>, helper: Option<string>, logDir: string, delay: string,
        quiesced: bool)
      returns (ok: bool)
      requires Valid()
      modifies this
      ensures Valid() && crashes >= old(crashes)
      ensures ok && Desired(definitions) != map[] ==> helper.Some?
      ensures failures >= old(failures)
      ensures helper.Some? && helper.value != "" ==> (ok <==> failures == old(failures))
      ensures helper.None? ==> (ok <==> failures == old(failures) && Desired(definitions) == map[])
      ensures quiesced || helper.None? ==>
        NoneNew(old(live), live) && forall n :: n in records ==> n in old(records) && records[n] == old(records)[n]
      ensures ok && quiesced && helper.Some? ==>
        && (forall n :: n !in Desired(definitions) ==> n !in records && !Supervised(live, n))
        && AllFit(live, records, Desired(definitions), {}, Settings(helper.value, logDir, delay))
      ensures ok && helper.Some? && !quiesced && crashes == old(crashes) ==>
        Converged(live, records, Desired(definitions), Settings(helper.value, logDir, delay))
      ensures ok && Desired(definitions) == map[] ==> records == map[] && forall n :: !Supervised(live, n)
      ensures helper.Some? && crashes == old(crashes) ==>
        old(Converged(live, records, Desired(definitions), Settings(helper.value, logDir, delay))) ==>
        ok && records == old(records) && SameSupervisors(old(live), live)
      ensures helper.None? && crashes == old(crashes) ==> Keeps(old(live), live, Desired(definitions).Keys)
    {
      var desired := CollectDesired(definitions);
      var s := if helper.Some? then Some(Settings(helper.value, logDir, delay)) else None;
      var failed, stopFailed := StopObsolete(desired, s);
      failed := failed || (desired != map[] && helper.None?);
      if !quiesced && s.Some? {
        var startFailed := StartMissing(desired, s.value, stopFailed);
        failed := failed || startFailed;
      }
      ok := !failed;
      NothingUnrecorded(live, records);
      forall n | n !in records ensures !Supervised(live, n) {
        NoRecordNone(live, records, n);
      }
    }

    method CollectDesired(definitions: seq<Definition>) returns (desired: map<Name, string>)
      ensures desired == Desired(definitions)
    {
      desired := map[];
      for k := 0 to |definitions|
        invariant desired == Desired(definitions[..k])
      {
        assert definitions[..k + 1][..k] == definitions[..k];
        var d := definitions[k];
        if d.executable && SafeName(d.name) && d.fingerprint.Some? {
          desired := desired[d.name := d.fingerprint.value];
        }
      }
      assert definitions[..|definitions|] == definitions;
    }

    /** _stop_all_locked: when it succeeds, no supervisor is left. */
    method StopAllLocked() returns (ok: bool)
      requires Valid()
      modifies this
      ensures Valid() && crashes >= old(crashes) && NoneNew(old(live), live)
      ensures failures >= old(failures) && (ok <==> failures == old(failures))
      ensures ok ==> records == map[] && forall n :: !Supervised(live, n)
    {
      ok := true;
      var names := List(records.Keys);
      for k := 0 to |names|
        invariant Valid() && crashes >= old(crashes) && NoneNew(old(live), live)
        invariant failures >= old(failures) && (ok <==> failures == old(failures))
        invariant forall n :: n in records ==> n in names
        invariant ok ==> forall i :: 0 <= i < k ==> names[i] !in records
      {
        Meanwhile();
        var stopped := StopOne(names[k]);
        ok := ok && stopped;
      }
      NothingUnrecorded(live, records);
    }
  }

  lemma NoRecordNone(live: map<Pid, Process>, records: map<Name, Record>, name: Name)
    requires Recorded(live, records) && name !in records
    ensures !Supervised(live, name)
  {
    if Supervised(live, name) {
      FitOrMatching(live, records, name);
    }
  }

  lemma NothingUnrecorded(live: map<Pid, Process>, records: map<Name, Record>)
    requires Recorded(live, records)
    ensures records == map[] ==> forall n :: !Supervised(live, n)
  {
    forall n | Supervised(live, n) ensures records != map[] {
      FitOrMatching(live, records, n);
    }
  }
}
