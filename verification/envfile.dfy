/** The KEY=VALUE file that keeps a box's token and settings: reading it, writing it back, and
    exactly which settings survive. */
module EnvFile {
  import opened Options
  import opened Text

  type Env = map<string, string>

  // ---- Reading --------------------------------------------------------------------------

  /** A line without one trailing carriage return. */
  function Chomp(s: string): string {
    if s != "" && s[|s| - 1] == '\r' then s[..|s| - 1] else s
  }

  /** Blank lines, comments and lines without an equals sign say nothing. */
  predicate Says(line: string) {
    var trimmed := TrimSpace(line);
    trimmed != "" && trimmed[0] != '#' && IndexOf(line, '=') < |line|
  }

  function KeyIn(line: string): string {
    TrimSpace(line[..IndexOf(line, '=')])
  }

  function ValueIn(line: string): string
    requires Says(line)
  {
    line[IndexOf(line, '=') + 1..]
  }

  function Enter(env: Env, line: string): Env {
    var chomped := Chomp(line);
    if Says(chomped) then env[KeyIn(chomped) := ValueIn(chomped)] else env
  }

  function ParseLines(lines: seq<string>): Env {
    if lines == [] then map[] else Enter(ParseLines(lines[..|lines| - 1]), lines[|lines| - 1])
  }

  /** What a file says. */
  function Parse(contents: string): Env {
    ParseLines(Split(contents, '\n'))
  }

  // ---- Writing ----------------------------------------------------------------------------

  function Line(env: Env, k: string): string
    requires k in env
  {
    k + "=" + env[k]
  }

  function Format(env: Env, keys: seq<string>): string
    requires forall k :: k in keys ==> k in env
  {
    if keys == [] then "" else Format(env, keys[..|keys| - 1]) + Line(env, keys[|keys| - 1]) + "\n"
  }

  ghost function Written(env: Env): string {
    FormatSorted(env, Sorted(env.Keys))
  }

  ghost function FormatSorted(env: Env, keys: seq<string>): string
    requires Elements(keys) == env.Keys
  {
    AllThere(env, keys);
    Format(env, keys)
  }

  lemma AllThere(env: Env, keys: seq<string>)
    requires Elements(keys) == env.Keys
    ensures forall k :: k in keys <==> k in env
  {
    assert forall k :: k in keys <==> k in Elements(keys);
  }

  // ---- What a file can say ------------------------------------------------------------------

  /** A key that a line can carry. */
  predicate LegalKey(k: string) {
    Free(k, '=') && Free(k, '\n') && Trimmed(k) && (k != "" ==> k[0] != '#')
  }

  lemma PieceFree(s: string, i: nat, j: nat, c: char)
    requires Free(s, c) && i <= j <= |s|
    ensures Free(s[i..j], c)
  {
  }

  lemma TrimPiece(s: string, c: char)
    requires Free(s, c)
    ensures Free(TrimSpace(s), c)
  {
    var t := TrimLeft(s);
    TrimLeftFacts(s, t);
    TrimRightFacts(t, TrimRight(t));
    PieceFree(s, |s| - |t|, |s|, c);
    PieceFree(t, 0, |TrimRight(t)|, c);
  }

  lemma TrimLeftCons(c: char, s: string)
    ensures TrimLeft([c] + s) == if IsSpace(c) then TrimLeft(s) else [c] + s
  {
    assert ([c] + s)[1..] == s;
  }

  /** A key's first character is the line's, if it has one. */
  lemma {:induction false} TrimLeftPrefix(s: string, t: string)
    requires TrimLeft(s) != ""
    ensures TrimLeft(s + t) == TrimLeft(s) + t
  {
    assert s == [s[0]] + s[1..];
    assert s + t == [s[0]] + (s[1..] + t);
    TrimLeftCons(s[0], s[1..]);
    TrimLeftCons(s[0], s[1..] + t);
    if IsSpace(s[0]) {
      TrimLeftPrefix(s[1..], t);
    }
  }

  lemma TrimFirst(s: string)
    requires TrimLeft(s) != ""
    ensures TrimSpace(s) != "" && TrimSpace(s)[0] == TrimLeft(s)[0]
  {
    TrimLeftFacts(s, TrimLeft(s));
    KeepsFirst(TrimLeft(s));
  }

  lemma {:induction false} KeepsFirst(s: string)
    requires s != "" && !IsSpace(s[0])
    ensures TrimRight(s) != "" && TrimRight(s)[0] == s[0]
  {
    if IsSpace(s[|s| - 1]) {
      KeepsFirst(s[..|s| - 1]);
    }
  }

  lemma LineLegal(line: string, k: string)
    requires Free(line, '\n') && Says(line) && k == line[..IndexOf(line, '=')]
    ensures LegalKey(TrimSpace(k)) && Free(ValueIn(line), '\n')
  {
    var i := IndexOf(line, '=');
    PieceFree(line, 0, i, '\n');
    PieceFree(line, i + 1, |line|, '\n');
    TrimPiece(k, '\n');
    TrimPiece(k, '=');
    TrimSpaceFixes(k);
    if TrimSpace(k) != "" {
      FirstOfLine(line, k, line[i..]);
    }
  }

  lemma FirstOfLine(line: string, k: string, rest: string)
    requires line == k + rest && TrimSpace(k) != ""
    ensures TrimSpace(line) != "" && TrimSpace(line)[0] == TrimSpace(k)[0]
  {
    assert TrimRight("") == "";
    TrimLeftPrefix(k, rest);
    TrimFirst(line);
    TrimFirst(k);
  }

  ghost predicate Clean(env: Env) {
    forall k :: k in env ==> LegalKey(k) && Free(env[k], '\n')
  }

  lemma {:induction false} LinesClean(lines: seq<string>)
    requires AllFree(lines, '\n')
    ensures Clean(ParseLines(lines))
  {
    if lines != [] {
      var last := lines[|lines| - 1];
      LinesClean(lines[..|lines| - 1]);
      PieceFree(last, 0, |Chomp(last)|, '\n');
      assert Chomp(last) == last[..|Chomp(last)|];
      if Says(Chomp(last)) {
        LineLegal(Chomp(last), Chomp(last)[..IndexOf(Chomp(last), '=')]);
      }
    }
  }

  /** Whatever a file contains, only legal keys and single-line values are read from it. */
  lemma ParseClean(contents: string)
    ensures Clean(Parse(contents))
  {
    LinesClean(Split(contents, '\n'));
  }

  // ---- Reading back what was written -----------------------------------------------------------

  function Lines(env: Env, keys: seq<string>): seq<string>
    requires forall k :: k in keys ==> k in env
  {
    if keys == [] then [] else Lines(env, keys[..|keys| - 1]) + [Line(env, keys[|keys| - 1])]
  }

  /** A written file is its lines, each with its newline. */
  lemma {:induction false} FormatIsJoin(env: Env, keys: seq<string>)
    requires forall k :: k in keys ==> k in env
    ensures Format(env, keys) == Join(Lines(env, keys) + [""], '\n')
  {
    if keys != [] {
      var init, last := Lines(env, keys[..|keys| - 1]), Line(env, keys[|keys| - 1]);
      FormatIsJoin(env, keys[..|keys| - 1]);
      JoinAppend(init + [last], "", '\n');
      if init == [] {
        assert [] + [last] == [last] && init + [""] == [""];
      } else {
        JoinAppend(init, last, '\n');
        JoinAppend(init, "", '\n');
      }
    }
  }

  lemma {:induction false} LinesFree(env: Env, keys: seq<string>)
    requires Clean(env) && forall k :: k in keys ==> k in env
    ensures AllFree(Lines(env, keys), '\n')
  {
    if keys != [] {
      LinesFree(env, keys[..|keys| - 1]);
    }
  }

  lemma SaysItself(k: string, v: string, line: string)
    requires LegalKey(k) && line == k + "=" + v
    ensures Says(line) && KeyIn(line) == k && ValueIn(line) == v
  {
    IndexOfPrefix(k, '=', v);
    assert line == k + ['='] + v;
    assert line[..|k|] == k && line[|k| + 1..] == v;
    TrimSpaceFixes(k);
    assert line[0] == if k == "" then '=' else k[0];
    TrimLeftFacts(line, TrimLeft(line));
    KeepsFirst(line);
  }

  lemma ChompLine(k: string, v: string)
    ensures Chomp(k + "=" + v) == k + "=" + Chomp(v)
  {
    var line := k + "=" + v;
    if v != "" {
      assert line[..|line| - 1] == k + "=" + v[..|v| - 1];
    }
  }

  /** The settings that come back: each value without one trailing carriage return. */
  function Chomped(env: Env, keys: seq<string>): Env {
    map k | k in env && k in keys :: Chomp(env[k])
  }

  lemma EntersItself(before: Env, k: string, v: string, line: string)
    requires LegalKey(k) && line == k + "=" + v
    ensures Enter(before, line) == before[k := Chomp(v)]
  {
    ChompLine(k, v);
    SaysItself(k, Chomp(v), k + "=" + Chomp(v));
  }

  lemma ChompedNext(env: Env, keys: seq<string>, k: string)
    requires k in env
    ensures Chomped(env, keys + [k]) == Chomped(env, keys)[k := Chomp(env[k])]
  {
  }

  lemma {:induction false} LinesReadBack(env: Env, keys: seq<string>)
    requires Clean(env) && forall k :: k in keys ==> k in env
    ensures ParseLines(Lines(env, keys)) == Chomped(env, keys)
  {
    if keys != [] {
      var init, k := keys[..|keys| - 1], keys[|keys| - 1];
      assert keys == init + [k];
      LinesReadBack(env, init);
      EntersItself(Chomped(env, init), k, env[k], Line(env, k));
      ChompedNext(env, init, k);
      assert Lines(env, keys)[..|Lines(env, init)|] == Lines(env, init);
    }
  }

  lemma ReadBackBy(env: Env, keys: seq<string>, contents: string)
    requires Clean(env) && (forall k :: k in keys ==> k in env) && contents == Format(env, keys)
    ensures Parse(contents) == Chomped(env, keys)
  {
    var lines := Lines(env, keys);
    FormatIsJoin(env, keys);
    LinesFree(env, keys);
    SplitJoin(lines + [""], '\n');
    LinesReadBack(env, keys);
    NothingFromBlank(lines);
  }

  lemma WrittenReadBack(env: Env, keys: seq<string>)
    requires Clean(env) && keys == Sorted(env.Keys)
    ensures Parse(Written(env)) == map k | k in env :: Chomp(env[k])
  {
    AllThere(env, keys);
    ReadBackBy(env, keys, Written(env));
  }

  lemma NothingFromBlank(lines: seq<string>)
    ensures ParseLines(lines + [""]) == ParseLines(lines)
  {
    assert (lines + [""])[..|lines|] == lines;
    assert TrimLeft("") == "" && TrimRight("") == "";
    assert !Says(Chomp(""));
  }

  predicate Durable(v: string) {
    Free(v, '\n') && (v != "" ==> v[|v| - 1] != '\r')
  }

  lemma ChompFixes(v: string)
    requires Free(v, '\n')
    ensures Chomp(v) == v <==> Durable(v)
  {
    assert Chomp(v) != v ==> |Chomp(v)| < |v|;
  }

  /** Settings that survive: legal keys, single-line values that do not end in a carriage
      return. */
  predicate AllDurable(env: Env) {
    forall k :: k in env ==> LegalKey(k) && Durable(env[k])
  }

  lemma ChompedSame(env: Env, back: Env)
    requires Clean(env) && back == map k | k in env :: Chomp(env[k])
    ensures back == env <==> AllDurable(env)
  {
    forall k | k in env ensures back[k] == env[k] <==> Durable(env[k]) {
      ChompFixes(env[k]);
    }
    if AllDurable(env) {
      assert back.Keys == env.Keys;
    }
  }

  /** Reading undoes writing exactly for the settings that survive. */
  lemma ReadsBackExactly(env: Env)
    ensures Parse(Written(env)) == env <==> AllDurable(env)
  {
    if Clean(env) {
      WrittenReadBack(env, Sorted(env.Keys));
      ChompedSame(env, Parse(Written(env)));
    } else {
      ParseClean(Written(env));
    }
  }

  // ---- The file ---------------------------------------------------------------------------------

  method Render(env: Env, keys: seq<string>) returns (contents: string)
    requires forall k :: k in keys ==> k in env
    ensures contents == Format(env, keys)
  {
    contents := "";
    for k := 0 to |keys|
      invariant contents == Format(env, keys[..k])
    {
      assert keys[..k + 1][..k] == keys[..k];
      contents := contents + Line(env, keys[k]) + "\n";
    }
    assert keys[..|keys|] == keys;
  }

  class BoxState {
    /** The env file's content, if there is one. */
    var file: Option<string>

    /** What a reader sees: no file says nothing. */
    ghost function Settings(): Env
      reads this
    {
      if file.Some? then Parse(file.value) else map[]
    }

    method ReadBoxEnv() returns (ok: bool, env: Env)
      ensures ok ==> env == Settings()
    {
      env := map[];
      ok := *;
      if ok && file.Some? {
        var lines := Split(file.value, '\n');
        for k := 0 to |lines|
          invariant env == ParseLines(lines[..k])
        {
          assert lines[..k + 1][..k] == lines[..k];
          var line := Chomp(lines[k]);
          if Says(line) {
            env := env[KeyIn(line) := ValueIn(line)];
          }
        }
        assert lines[..|lines|] == lines;
      }
    }

    /** The file is replaced as a whole or stays as it was. */
    method WriteBoxEnv(env: Env) returns (ok: bool)
      modifies this
      ensures file == if ok then Some(Written(env)) else old(file)
    {
      var keys := SortedSet(env.Keys);
      AllThere(env, keys);
      var contents := Render(env, keys);
      ok := *;
      if ok {
        file := Some(contents);
      }
    }

    method RemoveBoxEnv() returns (ok: bool)
      modifies this
      ensures file == if ok then None else old(file)
    {
      ok := *;
      if ok {
        file := None;
      }
    }
  }
}
