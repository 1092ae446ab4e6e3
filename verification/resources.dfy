/** The resource settings of a box, kept in its env file beside other settings. */
module Resources {
  import opened Options
  import opened Text
  import opened Decimal
  import EnvFile

  type int64 = x: int | -MAX_INT64 - 1 <= x <= MAX_INT64

  datatype Limits = Limits(nanoCpus: int64, memoryBytes: int64)
  datatype Settings = Settings(agent: Limits, executor: Limits, agentBudget: int64, executorBudget: int64)

  const AGENT_CPUS := "TX9_AGENT_NANO_CPUS"
  const AGENT_MEMORY := "TX9_AGENT_MEMORY_BYTES"
  const EXECUTOR_CPUS := "TX9_EXECUTOR_NANO_CPUS"
  const EXECUTOR_MEMORY := "TX9_EXECUTOR_MEMORY_BYTES"
  const AGENT_BUDGET := "TX9_AGENT_VOLUME_BUDGET_BYTES"
  const EXECUTOR_BUDGET := "TX9_EXECUTOR_VOLUME_BUDGET_BYTES"

  const MINIMUM_MEMORY := 6 * 1024 * 1024
  const GIB := 1024 * 1024 * 1024

  const DEFAULTS := Settings(Limits(4_000_000_000, 8 * GIB), Limits(2_000_000_000, 2 * GIB), 0, 0)

  predicate ValidLimits(l: Limits) {
    l.nanoCpus >= 0 && (l.memoryBytes == 0 || MINIMUM_MEMORY <= l.memoryBytes <= MAX_INT64 / 2)
  }

  /** What Docker can apply; zero means unlimited. */
  predicate Valid(r: Settings) {
    ValidLimits(r.agent) && ValidLimits(r.executor) && r.agentBudget >= 0 && r.executorBudget >= 0
  }

  /** The six keys, in the order they are read. */
  function Keys(): seq<string> {
    [AGENT_CPUS, AGENT_MEMORY, EXECUTOR_CPUS, EXECUTOR_MEMORY, AGENT_BUDGET, EXECUTOR_BUDGET]
  }

  function Values(r: Settings): seq<int64> {
    [
      r.agent.nanoCpus, r.agent.memoryBytes, r.executor.nanoCpus, r.executor.memoryBytes,
      r.agentBudget, r.executorBudget
    ]
  }

  function FromValues(v: seq<int64>): Settings
    requires |v| == 6
  {
    Settings(Limits(v[0], v[1]), Limits(v[2], v[3]), v[4], v[5])
  }

  // ---- Loading ---------------------------------------------------------------------------

  /** One stored value, if it is there and can be read. */
  function Field(env: EnvFile.Env, key: string, default: int64): Option<int64> {
    if key !in env then Some(default)
    else
      match ParseInt(TrimSpace(env[key]))
      case None => None
      case Some(value) => if 0 <= value <= MAX_INT64 then Some(value) else None
  }

  predicate Readable(env: EnvFile.Env) {
    forall i :: 0 <= i < 6 ==> Field(env, Keys()[i], Values(DEFAULTS)[i]).Some?
  }

  function Fields(env: EnvFile.Env): seq<int64>
    requires Readable(env)
  {
    seq(6, i requires 0 <= i < 6 => Field(env, Keys()[i], Values(DEFAULTS)[i]).value)
  }

  /** The settings an env file holds. */
  function Stored(env: EnvFile.Env): Option<Settings> {
    if Readable(env) && Valid(FromValues(Fields(env))) then Some(FromValues(Fields(env))) else None
  }

  /** Reading the file may fail; otherwise the settings are exactly what the file holds. */
  method LoadResources(state: EnvFile.BoxState) returns (read: bool, r: Option<Settings>)
    ensures if read then r == Stored(state.Settings()) else r.None?
  {
    var env;
    read, env := state.ReadBoxEnv();
    r := None;
    if !read {
      return;
    }
    var values := Values(DEFAULTS);
    for k := 0 to 6
      invariant |values| == 6
      invariant forall i :: 0 <= i < k ==> Field(env, Keys()[i], Values(DEFAULTS)[i]) == Some(values[i])
      invariant forall i :: k <= i < 6 ==> values[i] == Values(DEFAULTS)[i]
    {
      if Keys()[k] in env {
        var value := ParseInt(TrimSpace(env[Keys()[k]]));
        if value.None? || value.value < 0 || value.value > MAX_INT64 {
          assert Field(env, Keys()[k], Values(DEFAULTS)[k]).None?;
          return;
        }
        values := values[k := value.value];
      }
    }
    assert values == Fields(env);
    r := if Valid(FromValues(values)) then Some(FromValues(values)) else None;
  }

  // ---- Saving ------------------------------------------------------------------------------

  /** The settings with the first k resource keys set. */
  function WithFields(env: EnvFile.Env, r: Settings, k: nat): EnvFile.Env
    requires k <= 6
  {
    if k == 0 then env else WithFields(env, r, k - 1)[Keys()[k - 1] := FormatInt(Values(r)[k - 1])]
  }

  function Cleared(env: EnvFile.Env): EnvFile.Env {
    map k | k in env && k !in Keys() :: env[k]
  }

  lemma NumberClean(n: int)
    ensures EnvFile.Durable(FormatInt(n)) && TrimSpace(FormatInt(n)) == FormatInt(n)
    ensures EnvFile.Chomp(FormatInt(n)) == FormatInt(n)
  {
    var s := FormatInt(n);
    forall i | 0 <= i < |s| ensures IsDigit(s[i]) || s[i] == '-' {
      if n < 0 {
        assert s[i] == if i == 0 then '-' else FormatNat(-n)[i - 1];
      }
    }
    assert s != "";
    TrimSpaceFixes(s);
  }

  lemma KeysLegal(i: nat)
    requires i < 6
    ensures EnvFile.LegalKey(Keys()[i])
  {
    var k := Keys()[i];
    forall c | c in k ensures c != '=' && c != '\n' {
    }
  }

  lemma KeysDistinct(i: nat, j: nat)
    requires i < j < 6
    ensures Keys()[i] != Keys()[j]
  {
    // The keys differ in length or in a character: TX9_A..., TX9_E..., and what follows.
    var a, b := Keys()[i], Keys()[j];
    assert |a| != |b| || a[4] != b[4];
  }

  lemma {:induction false} FieldsSet(env: EnvFile.Env, r: Settings, k: nat)
    requires k <= 6
    ensures forall i :: 0 <= i < k ==>
      Keys()[i] in WithFields(env, r, k) && WithFields(env, r, k)[Keys()[i]] == FormatInt(Values(r)[i])
    ensures forall key :: key !in Keys()[..k] ==> (key in WithFields(env, r, k) <==> key in env)
    ensures forall key :: key !in Keys()[..k] && key in env ==> WithFields(env, r, k)[key] == env[key]
  {
    if k > 0 {
      FieldsSet(env, r, k - 1);
      assert Keys()[..k] == Keys()[..k - 1] + [Keys()[k - 1]];
      forall i | 0 <= i < k - 1 ensures Keys()[i] != Keys()[k - 1] {
        KeysDistinct(i, k - 1);
      }
    }
  }

  /** What remains of the other settings: their values, each without one trailing carriage
      return. */
  ghost predicate OthersChomped(before: EnvFile.Env, after: EnvFile.Env) {
    && (forall k :: k !in Keys() ==> (k in after <==> k in before))
    && (forall k :: k !in Keys() && k in before ==> after[k] == EnvFile.Chomp(before[k]))
  }

  ghost predicate OthersKept(before: EnvFile.Env, after: EnvFile.Env) {
    && (forall k :: k !in Keys() ==> (k in after <==> k in before))
    && (forall k :: k !in Keys() && k in before ==> after[k] == before[k])
  }

  /** The other settings are kept exactly when none of their values ends in a carriage
      return. */
  lemma OthersKeptExactly(before: EnvFile.Env, after: EnvFile.Env)
    requires EnvFile.Clean(before) && OthersChomped(before, after)
    ensures OthersKept(before, after) <==> forall k :: k in before && k !in Keys() ==> EnvFile.Durable(before[k])
  {
    forall k | k in before && k !in Keys() ensures after[k] == before[k] <==> EnvFile.Durable(before[k]) {
      EnvFile.ChompFixes(before[k]);
    }
  }

  lemma StaysClean(env: EnvFile.Env, r: Settings)
    requires EnvFile.Clean(env)
    ensures EnvFile.Clean(WithFields(env, r, 6))
  {
    var after := WithFields(env, r, 6);
    FieldsSet(env, r, 6);
    assert Keys()[..6] == Keys();
    forall k | k in after ensures EnvFile.LegalKey(k) && Free(after[k], '\n') {
      if k in Keys() {
        var i :| 0 <= i < 6 && Keys()[i] == k;
        KeysLegal(i);
        NumberClean(Values(r)[i]);
      }
    }
  }

  lemma NumberField(env: EnvFile.Env, key: string, default: int64, n: int64)
    requires n >= 0 && key in env && env[key] == FormatInt(n)
    ensures Field(env, key, default) == Some(n)
  {
    NumberClean(n);
    ParseFormat(n);
  }

  lemma FieldsStored(env: EnvFile.Env, r: Settings)
    requires Valid(r) && forall i :: 0 <= i < 6 ==> Keys()[i] in env && env[Keys()[i]] == FormatInt(Values(r)[i])
    ensures Stored(env) == Some(r)
  {
    forall i | 0 <= i < 6 ensures Field(env, Keys()[i], Values(DEFAULTS)[i]) == Some(Values(r)[i]) {
      NumberField(env, Keys()[i], Values(DEFAULTS)[i], Values(r)[i]);
    }
    assert Fields(env) == Values(r);
  }

  /** Writing a box's settings and reading the file again gives them back. */
  lemma SavedLoads(env: EnvFile.Env, r: Settings, back: EnvFile.Env)
    requires EnvFile.Clean(env) && Valid(r) && back == EnvFile.Parse(EnvFile.Written(WithFields(env, r, 6)))
    ensures Stored(back) == Some(r) && OthersChomped(env, back)
  {
    var after := WithFields(env, r, 6);
    StaysClean(env, r);
    EnvFile.WrittenReadBack(after, Sorted(after.Keys));
    ChompedFields(env, r, after, back);
    FieldsStored(back, r);
  }

  lemma ChompedFields(env: EnvFile.Env, r: Settings, after: EnvFile.Env, back: EnvFile.Env)
    requires after == WithFields(env, r, 6) && back == map k | k in after :: EnvFile.Chomp(after[k])
    ensures forall i :: 0 <= i < 6 ==> Keys()[i] in back && back[Keys()[i]] == FormatInt(Values(r)[i])
    ensures OthersChomped(env, back)
  {
    FieldsSet(env, r, 6);
    assert Keys()[..6] == Keys();
    forall i | 0 <= i < 6 ensures Keys()[i] in back && back[Keys()[i]] == FormatInt(Values(r)[i]) {
      NumberClean(Values(r)[i]);
    }
  }

  /** Clearing the settings and reading the file again gives the defaults. */
  lemma ClearedLoads(env: EnvFile.Env, back: EnvFile.Env)
    requires EnvFile.Clean(env) && back == EnvFile.Parse(EnvFile.Written(Cleared(env)))
    ensures Stored(back) == Some(DEFAULTS) && OthersChomped(env, back)
  {
    EnvFile.WrittenReadBack(Cleared(env), Sorted(Cleared(env).Keys));
    forall i | 0 <= i < 6 ensures Field(back, Keys()[i], Values(DEFAULTS)[i]) == Some(Values(DEFAULTS)[i]) {
      assert Keys()[i] in Keys();
    }
    assert Fields(back) == Values(DEFAULTS);
  }

  /** After a successful save, loading gives exactly what was saved; nothing else is lost but
      one trailing carriage return of a value; a failure changes nothing. */
  method SaveResources(state: EnvFile.BoxState, r: Settings) returns (ok: bool)
    modifies state
    ensures ok ==>
      Valid(r) && Stored(state.Settings()) == Some(r) && OthersChomped(old(state.Settings()), state.Settings())
    ensures !ok ==> state.file == old(state.file)
  {
    if !Valid(r) {
      return false;
    }
    var read, env := state.ReadBoxEnv();
    if !read {
      return false;
    }
    SettingsClean(state);
    ghost var before := env;
    for k := 0 to 6
      invariant env == WithFields(before, r, k)
    {
      env := env[Keys()[k] := FormatInt(Values(r)[k])];
    }
    ok := state.WriteBoxEnv(env);
    if ok {
      SavedLoads(before, r, state.Settings());
    }
  }

  /** After a successful reset, loading gives the defaults, and the other settings are there. */
  method ResetResources(state: EnvFile.BoxState) returns (ok: bool)
    modifies state
    ensures ok ==> Stored(state.Settings()) == Some(DEFAULTS) && OthersChomped(old(state.Settings()), state.Settings())
    ensures !ok ==> state.file == old(state.file)
  {
    var read, env := state.ReadBoxEnv();
    if !read {
      return false;
    }
    SettingsClean(state);
    ghost var before := env;
    for k := 0 to 6
      invariant env == map key | key in before && key !in Keys()[..k] :: before[key]
    {
      env := env - {Keys()[k]};
      assert Keys()[..k + 1] == Keys()[..k] + [Keys()[k]];
    }
    assert Keys()[..6] == Keys();
    ok := state.WriteBoxEnv(env);
    if ok {
      ClearedLoads(before, state.Settings());
    }
  }

  /** Whatever the file holds, what is read from it can be written back. */
  lemma SettingsClean(state: EnvFile.BoxState)
    ensures EnvFile.Clean(state.Settings())
  {
    if state.file.Some? {
      EnvFile.ParseClean(state.file.value);
    }
  }
}
