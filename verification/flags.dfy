/** Flags before and after positional arguments: the reordering in front of the standard flag
    parser, against a parser that takes the arguments as they come. */
module Flags {
  import opened Text

  datatype FlagError =
    | BadSyntax(arg: string)
    | Undefined(name: string)
    | Help
    | NeedsArgument(name: string)
    | InvalidValue(name: string, value: string)

  /** The flags of a command: which take no value, and which values a flag accepts. */
  datatype FlagSet = FlagSet(boolean: map<string, bool>, accepts: (string, string) -> bool)

  datatype Setting = Setting(name: string, value: string)

  /** The settings made, in order, and either the positional arguments or the first error. */
  datatype Outcome =
    | Parsed(settings: seq<Setting>, positionals: seq<string>)
    | Failed(settings: seq<Setting>, error: FlagError)

  datatype One = Takes(setting: Setting, used: nat) | Fails(error: FlagError)

  // ---- The standard parser -----------------------------------------------------------------

  predicate FlagLike(a: string) {
    |a| >= 2 && a[0] == '-'
  }

  /** A flag's name and value, without its one or two dashes. */
  function Body(a: string): string
    requires FlagLike(a)
  {
    if a[1] == '-' then a[2..] else a[1..]
  }

  /** The next flag of the arguments, which is not the delimiter. */
  function ParseOne(fs: FlagSet, args: seq<string>): (one: One)
    requires args != [] && FlagLike(args[0])
    ensures one.Takes? ==> 1 <= one.used <= |args|
  {
    var body := Body(args[0]);
    if body == "" || body[0] == '-' || body[0] == '=' then Fails(BadSyntax(args[0]))
    else
      var eq := IndexOf(body, '=');
      var name, given := body[..eq], eq < |body|;
      var value := if given then body[eq + 1..] else "";
      if name !in fs.boolean then Fails(if name == "help" || name == "h" then Help else Undefined(name))
      else if fs.boolean[name] then Accept(fs, name, if given then value else "true", 1)
      else if given then Accept(fs, name, value, 1)
      else if |args| > 1 then Accept(fs, name, args[1], 2)
      else Fails(NeedsArgument(name))
  }

  function Accept(fs: FlagSet, name: string, value: string, used: nat): (one: One)
    ensures one.Takes? ==> one.used == used
  {
    if fs.accepts(name, value) then Takes(Setting(name, value), used) else Fails(InvalidValue(name, value))
  }

  function After(setting: Setting, o: Outcome): Outcome {
    o.(settings := [setting] + o.settings)
  }

  /** The standard parser: flags, until the first other argument or the delimiter. */
  function Parse(fs: FlagSet, args: seq<string>): Outcome
    decreases |args|
  {
    if args == [] then Parsed([], [])
    else if !FlagLike(args[0]) then Parsed([], args)
    else if args[0] == "--" then Parsed([], args[1..])
    else
      match ParseOne(fs, args)
      case Fails(error) => Failed([], error)
      case Takes(setting, used) => After(setting, Parse(fs, args[used..]))
  }

  /** A flag given a value, if it accepts that. */
  function Taken(fs: FlagSet, name: string, value: string, used: nat): One {
    if fs.accepts(name, value) then Takes(Setting(name, value), used) else Fails(InvalidValue(name, value))
  }

  /** The forms in which a flag is given: with one dash or two, its value behind "=" or in the next
      argument, and a boolean one by its name alone. What has no name is no flag. */
  lemma FlagForms(fs: FlagSet, name: string, value: string, dashes: string, rest: seq<string>)
    requires name != "" && name[0] != '-' && Free(name, '=') && name in fs.boolean && dashes in {"-", "--"}
    ensures ParseOne(fs, [dashes + name + "=" + value] + rest) == Taken(fs, name, value, 1)
    ensures !fs.boolean[name] ==> ParseOne(fs, [dashes + name, value] + rest) == Taken(fs, name, value, 2)
    ensures !fs.boolean[name] ==> ParseOne(fs, [dashes + name]) == Fails(NeedsArgument(name))
    ensures fs.boolean[name] ==> ParseOne(fs, [dashes + name] + rest) == Taken(fs, name, "true", 1)
    ensures ParseOne(fs, ["--=" + value] + rest) == Fails(BadSyntax("--=" + value))
    ensures ParseOne(fs, ["---" + value] + rest) == Fails(BadSyntax("---" + value))
  {
    GivenForm(fs, name, value, dashes, dashes + name + "=" + value);
    assert name[0] in name;
    assert Body(dashes + name) == name;
    assert IndexOf(name, '=') == |name| && name[..|name|] == name;
    assert ([dashes + name, value] + rest)[1] == value;
    assert Body("--=" + value)[0] == '=' && Body("---" + value)[0] == '-';
  }

  lemma GivenForm(fs: FlagSet, name: string, value: string, dashes: string, arg: string)
    requires name != "" && name[0] != '-' && Free(name, '=') && dashes in {"-", "--"}
    requires arg == dashes + name + "=" + value
    ensures FlagLike(arg) && Body(arg) == name + "=" + value && IndexOf(Body(arg), '=') == |name|
    ensures Body(arg)[..|name|] == name && Body(arg)[|name| + 1..] == value && Body(arg)[0] == name[0]
  {
    assert name[0] in name;
    assert Body(arg) == name + "=" + value;
    IndexOfPrefix(name, '=', value);
  }

  // ---- Flags anywhere, as they come ----------------------------------------------------------

  function Before(positional: string, o: Outcome): Outcome {
    if o.Parsed? then o.(positionals := [positional] + o.positionals) else o
  }

  /** Every argument in its turn: a positional, a flag with its value, or the delimiter, after
      which all are positionals. */
  function Interleaved(fs: FlagSet, args: seq<string>): Outcome
    decreases |args|
  {
    if args == [] then Parsed([], [])
    else if !FlagLike(args[0]) then Before(args[0], Interleaved(fs, args[1..]))
    else if args[0] == "--" then Parsed([], args[1..])
    else
      match ParseOne(fs, args)
      case Fails(error) => Failed([], error)
      case Takes(setting, used) => After(setting, Interleaved(fs, args[used..]))
  }

  // ---- What the reordering sees --------------------------------------------------------------

  function TrimDashes(a: string): string {
    if a != "" && a[0] == '-' then TrimDashes(a[1..]) else a
  }

  /** How many arguments the reordering takes for a flag. */
  function Arity(fs: FlagSet, a: string): nat {
    var name := TrimDashes(a);
    if IndexOf(name, '=') == |name| && name in fs.boolean && !fs.boolean[name] then 2 else 1
  }

  predicate Flag(a: string) {
    FlagLike(a) && a != "--"
  }

  /** Whole flags only, each with its value. */
  predicate Complete(fs: FlagSet, flags: seq<string>)
    decreases |flags|
  {
    flags == [] || (Flag(flags[0]) && Arity(fs, flags[0]) <= |flags| && Complete(fs, flags[Arity(fs, flags[0])..]))
  }

  /** The parser takes what the reordering took, whatever follows. */
  lemma TakesArity(fs: FlagSet, args: seq<string>, more: seq<string>)
    requires args != [] && Flag(args[0]) && Arity(fs, args[0]) <= |args|
    ensures ParseOne(fs, args + more) == ParseOne(fs, args)
    ensures ParseOne(fs, args).Takes? ==> ParseOne(fs, args).used == Arity(fs, args[0])
  {
    var a := args[0];
    assert (args + more)[0] == a;
    if |args| > 1 {
      assert (args + more)[1] == args[1];
    }
    var body := Body(a);
    if body != "" && body[0] != '-' {
      assert TrimDashes(body) == body;
      assert TrimDashes(a[1..]) == body;
      assert TrimDashes(a) == body;
      if IndexOf(body, '=') == |body| {
        assert body[..|body|] == body;
      }
    }
  }

  /** What parsing whole flags makes of what follows. */
  function Then(first: Outcome, rest: Outcome): Outcome {
    if first.Failed? then first else rest.(settings := first.settings + rest.settings)
  }

  /** Parsing one flag and then the others. */
  lemma ParsesFlag(fs: FlagSet, args: seq<string>, one: One)
    requires args != [] && Flag(args[0]) && one == ParseOne(fs, args)
    ensures Parse(fs, args) == if one.Fails? then Failed([], one.error)
      else After(one.setting, Parse(fs, args[one.used..]))
    ensures Interleaved(fs, args) == if one.Fails? then Failed([], one.error)
      else After(one.setting, Interleaved(fs, args[one.used..]))
  {
  }

  lemma AfterThen(setting: Setting, first: Outcome, rest: Outcome)
    ensures After(setting, Then(first, rest)) == Then(After(setting, first), rest)
  {
    if first.Parsed? {
      assert [setting] + (first.settings + rest.settings) == [setting] + first.settings + rest.settings;
    }
  }

  lemma ThenThen(a: Outcome, b: Outcome, c: Outcome)
    ensures Then(Then(a, b), c) == Then(a, Then(b, c))
  {
    if a.Parsed? && b.Parsed? {
      assert a.settings + (b.settings + c.settings) == a.settings + b.settings + c.settings;
    }
  }

  lemma {:induction false} ParseComplete(fs: FlagSet, flags: seq<string>, more: seq<string>)
    requires Complete(fs, flags)
    ensures Parse(fs, flags).Parsed? ==> Parse(fs, flags).positionals == []
    ensures Parse(fs, flags + more) == Then(Parse(fs, flags), Parse(fs, more))
    decreases |flags|
  {
    if flags == [] {
      assert flags + more == more;
    } else {
      var one, n := ParseOne(fs, flags), Arity(fs, flags[0]);
      TakesArity(fs, flags, more);
      FirstOf(flags, more, n);
      ParsesFlag(fs, flags, one);
      ParsesFlag(fs, flags + more, one);
      if one.Takes? {
        ParseComplete(fs, flags[n..], more);
        AfterThen(one.setting, Parse(fs, flags[n..]), Parse(fs, more));
      }
    }
  }

  lemma FirstOf(a: seq<string>, b: seq<string>, n: nat)
    requires a != [] && n <= |a|
    ensures (a + b)[0] == a[0] && (a + b)[n..] == a[n..] + b
  {
  }

  lemma {:induction false} CompleteThen(fs: FlagSet, flags: seq<string>, more: seq<string>)
    requires Complete(fs, flags) && Complete(fs, more)
    ensures Complete(fs, flags + more)
    decreases |flags|
  {
    if flags == [] {
      assert flags + more == more;
    } else {
      var n := Arity(fs, flags[0]);
      assert (flags + more)[0] == flags[0] && (flags + more)[n..] == flags[n..] + more;
      CompleteThen(fs, flags[n..], more);
    }
  }

  // ---- The reordering --------------------------------------------------------------------------

  /** What is left to find out: the flags and positionals so far, then the other arguments. */
  function Resume(fs: FlagSet, flags: seq<string>, positionals: seq<string>, rest: Outcome): Outcome {
    var o := Then(Parse(fs, flags), rest);
    if o.Parsed? then o.(positionals := positionals + o.positionals) else o
  }

  /** A positional argument moves behind the flags. */
  lemma MovesPositional(fs: FlagSet, flags: seq<string>, positionals: seq<string>, a: string, rest: Outcome)
    ensures Resume(fs, flags, positionals, Before(a, rest)) == Resume(fs, flags, positionals + [a], rest)
  {
    if rest.Parsed? {
      assert positionals + ([a] + rest.positionals) == positionals + [a] + rest.positionals;
    }
  }

  lemma ThenAfter(setting: Setting, o: Outcome)
    ensures Then(Parsed([setting], []), o) == After(setting, o)
  {
  }

  lemma FlagAlone(fs: FlagSet, chunk: seq<string>, one: One)
    requires chunk != [] && Flag(chunk[0]) && |chunk| == Arity(fs, chunk[0]) && one == ParseOne(fs, chunk)
    ensures Parse(fs, chunk) == if one.Fails? then Failed([], one.error) else Parsed([one.setting], [])
  {
    TakesArity(fs, chunk, []);
    ParsesFlag(fs, chunk, one);
    assert chunk[|chunk|..] == [];
  }

  lemma FlagFirst(fs: FlagSet, chunk: seq<string>, rest: seq<string>, one: One)
    requires chunk != [] && Flag(chunk[0]) && |chunk| == Arity(fs, chunk[0]) && one == ParseOne(fs, chunk)
    ensures Interleaved(fs, chunk + rest) == if one.Fails? then Failed([], one.error)
      else After(one.setting, Interleaved(fs, rest))
  {
    TakesArity(fs, chunk, rest);
    FirstOf(chunk, rest, |chunk|);
    ParsesFlag(fs, chunk + rest, one);
    assert chunk[|chunk|..] == [] && [] + rest == rest;
  }

  /** A whole flag, taken in its turn. */
  lemma FlagInTurn(fs: FlagSet, chunk: seq<string>, rest: seq<string>)
    requires chunk != [] && Flag(chunk[0]) && |chunk| == Arity(fs, chunk[0])
    ensures Interleaved(fs, chunk + rest) == Then(Parse(fs, chunk), Interleaved(fs, rest))
  {
    var one := ParseOne(fs, chunk);
    FlagAlone(fs, chunk, one);
    FlagFirst(fs, chunk, rest, one);
    if one.Takes? {
      ThenAfter(one.setting, Interleaved(fs, rest));
    }
  }

  /** A whole flag moves in front. */
  lemma MovesFlag(fs: FlagSet, flags: seq<string>, positionals: seq<string>, chunk: seq<string>, rest: seq<string>)
    requires Complete(fs, flags) && chunk != [] && Flag(chunk[0]) && |chunk| == Arity(fs, chunk[0])
    ensures Complete(fs, flags + chunk)
    ensures Resume(fs, flags, positionals, Interleaved(fs, chunk + rest)) ==
      Resume(fs, flags + chunk, positionals, Interleaved(fs, rest))
  {
    assert chunk[|chunk|..] == [] && Complete(fs, []);
    CompleteThen(fs, flags, chunk);
    ParseComplete(fs, flags, chunk);
    FlagInTurn(fs, chunk, rest);
    ThenThen(Parse(fs, flags), Parse(fs, chunk), Interleaved(fs, rest));
  }

  /** Without anything left, the delimiter keeps the positionals from being parsed. */
  lemma ParsesAll(fs: FlagSet, flags: seq<string>, positionals: seq<string>, delimited: seq<string>)
    requires Complete(fs, flags)
    requires delimited == if positionals == [] then flags else flags + ["--"]
    ensures Parse(fs, delimited + positionals) == Resume(fs, flags, positionals, Parsed([], []))
  {
    ParseComplete(fs, flags, if positionals == [] then [] else ["--"] + positionals);
    if positionals == [] {
      assert delimited + positionals == flags + [];
    } else {
      assert delimited + positionals == flags + (["--"] + positionals);
      assert (["--"] + positionals)[1..] == positionals;
    }
  }

  /** A flag without its value fails as it would in its turn. */
  lemma MissingValue(fs: FlagSet, flags: seq<string>, positionals: seq<string>, a: string)
    requires Complete(fs, flags) && Flag(a) && Arity(fs, a) == 2
    ensures Parse(fs, flags + [a]) == Resume(fs, flags, positionals, Interleaved(fs, [a]))
  {
    ParseComplete(fs, flags, [a]);
    var body := Body(a);
    if body != "" && body[0] != '-' {
      assert TrimDashes(a[1..]) == body && TrimDashes(a) == body;
      assert body[..|body|] == body;
    }
    assert ParseOne(fs, [a]).Fails?;
  }

  /** The outcome is what the arguments looked at and those still to come make of it. */
  ghost predicate OnTrack(fs: FlagSet, args: seq<string>, flags: seq<string>, positionals: seq<string>, rest: bool,
      left: seq<string>)
  {
    && Complete(fs, flags)
    && Interleaved(fs, args) == Resume(fs, flags, positionals, if rest then Parsed([], left) else Interleaved(fs, left))
  }

  lemma TakePositional(fs: FlagSet, args: seq<string>, flags: seq<string>, positionals: seq<string>, rest: bool,
      a: string, left: seq<string>)
    requires OnTrack(fs, args, flags, positionals, rest, [a] + left) && (rest || !FlagLike(a))
    ensures OnTrack(fs, args, flags, positionals + [a], rest, left)
  {
    var o := if rest then Parsed([], left) else Interleaved(fs, left);
    assert ([a] + left)[1..] == left;
    assert Before(a, o) == if rest then Parsed([], [a] + left) else Interleaved(fs, [a] + left);
    MovesPositional(fs, flags, positionals, a, o);
  }

  lemma TakeDelimiter(fs: FlagSet, args: seq<string>, flags: seq<string>, positionals: seq<string>, left: seq<string>)
    requires OnTrack(fs, args, flags, positionals, false, ["--"] + left)
    ensures OnTrack(fs, args, flags, positionals, true, left)
  {
    assert (["--"] + left)[1..] == left;
  }

  lemma TakeFlag(fs: FlagSet, args: seq<string>, flags: seq<string>, positionals: seq<string>, chunk: seq<string>,
      left: seq<string>)
    requires chunk != [] && Flag(chunk[0]) && |chunk| == Arity(fs, chunk[0])
    requires OnTrack(fs, args, flags, positionals, false, chunk + left)
    ensures OnTrack(fs, args, flags + chunk, positionals, false, left)
  {
    MovesFlag(fs, flags, positionals, chunk, left);
  }

  /** parseFlagsAnywhere has the outcome of a parser that takes the arguments as they come. */
  method ParseFlagsAnywhere(fs: FlagSet, args: seq<string>) returns (o: Outcome)
    ensures o == Interleaved(fs, args)
  {
    var flags: seq<string>, positionals: seq<string> := [], [];
    var rest := false;
    var i := 0;
    ghost var left := args;
    Untouched(fs, args);
    while i < |args|
      invariant i <= |args| && left == args[i..] && OnTrack(fs, args, flags, positionals, rest, left)
    {
      var a := args[i];
      if rest || !FlagLike(a) {
        PositionalAt(fs, args, flags, positionals, rest, i);
        left := args[i + 1..];
        positionals := positionals + [a];
      } else if a == "--" {
        DelimiterAt(fs, args, flags, positionals, i);
        left := args[i + 1..];
        rest := true;
      } else {
        var n := Arity(fs, a);
        if i + n > |args| {
          MissingAt(fs, args, flags, positionals, i);
          o := Parse(fs, flags + [a]);
          return;
        }
        FlagAt(fs, args, flags, positionals, i, n);
        left := args[i + n..];
        flags := flags + args[i..i + n];
        i := i + n - 1;
      }
      i := i + 1;
    }
    assert left == [];
    var delimited := if positionals == [] then flags else flags + ["--"];
    ParsesAll(fs, flags, positionals, delimited);
    o := Parse(fs, delimited + positionals);
  }

  lemma PositionalAt(fs: FlagSet, args: seq<string>, flags: seq<string>, positionals: seq<string>, rest: bool, i: nat)
    requires i < |args| && OnTrack(fs, args, flags, positionals, rest, args[i..]) && (rest || !FlagLike(args[i]))
    ensures OnTrack(fs, args, flags, positionals + [args[i]], rest, args[i + 1..])
  {
    Slices(args, i, 1);
    TakePositional(fs, args, flags, positionals, rest, args[i], args[i + 1..]);
  }

  lemma DelimiterAt(fs: FlagSet, args: seq<string>, flags: seq<string>, positionals: seq<string>, i: nat)
    requires i < |args| && OnTrack(fs, args, flags, positionals, false, args[i..]) && args[i] == "--"
    ensures OnTrack(fs, args, flags, positionals, true, args[i + 1..])
  {
    Slices(args, i, 1);
    TakeDelimiter(fs, args, flags, positionals, args[i + 1..]);
  }

  lemma FlagAt(fs: FlagSet, args: seq<string>, flags: seq<string>, positionals: seq<string>, i: nat, n: nat)
    requires i < |args| && OnTrack(fs, args, flags, positionals, false, args[i..])
    requires Flag(args[i]) && n == Arity(fs, args[i]) && i + n <= |args|
    ensures OnTrack(fs, args, flags + args[i..i + n], positionals, false, args[i + n..])
  {
    Slices(args, i, n);
    TakeFlag(fs, args, flags, positionals, args[i..i + n], args[i + n..]);
  }

  lemma MissingAt(fs: FlagSet, args: seq<string>, flags: seq<string>, positionals: seq<string>, i: nat)
    requires i < |args| && OnTrack(fs, args, flags, positionals, false, args[i..])
    requires Flag(args[i]) && i + Arity(fs, args[i]) > |args|
    ensures Parse(fs, flags + [args[i]]) == Interleaved(fs, args)
  {
    Slices(args, i, 1);
    assert args[i..] == [args[i]];
    MissingValue(fs, flags, positionals, args[i]);
  }

  lemma Slices(args: seq<string>, i: nat, n: nat)
    requires i < |args| && 0 < n && i + n <= |args|
    ensures args[i..] == args[i..i + n] + args[i + n..] && args[i..i + n][0] == args[i]
    ensures n == 1 ==> args[i..i + n] == [args[i]]
  {
  }

  lemma Untouched(fs: FlagSet, args: seq<string>)
    ensures OnTrack(fs, args, [], [], false, args[0..])
  {
    assert args[0..] == args;
    var o := Interleaved(fs, args);
    assert [] + o.settings == o.settings;
    if o.Parsed? {
      assert [] + o.positionals == o.positionals;
    }
  }

  // ---- Where arguments stand ------------------------------------------------------------------

  /** Whole flags, taken in their turn, are parsed as if they stood alone. */
  lemma {:induction false} FlagsInTurn(fs: FlagSet, flags: seq<string>, rest: seq<string>)
    requires Complete(fs, flags)
    ensures Interleaved(fs, flags + rest) == Then(Parse(fs, flags), Interleaved(fs, rest))
    decreases |flags|
  {
    if flags == [] {
      assert flags + rest == rest;
      ThenNothing(Interleaved(fs, rest));
    } else {
      var n := Arity(fs, flags[0]);
      var chunk, others := flags[..n], flags[n..];
      assert flags == chunk + others && flags + rest == chunk + (others + rest);
      assert chunk[n..] == [] && Complete(fs, []);
      FlagInTurn(fs, chunk, others + rest);
      FlagsInTurn(fs, others, rest);
      ParseComplete(fs, chunk, others);
      ThenThen(Parse(fs, chunk), Parse(fs, others), Interleaved(fs, rest));
    }
  }

  lemma ThenNothing(o: Outcome)
    ensures Then(Parsed([], []), o) == o
  {
    assert [] + o.settings == o.settings;
  }

  /** A positional argument may stand before or behind any whole flags. */
  lemma PositionalAnywhere(fs: FlagSet, flags: seq<string>, positional: string, rest: seq<string>)
    requires Complete(fs, flags) && !FlagLike(positional)
    ensures Interleaved(fs, [positional] + (flags + rest)) == Interleaved(fs, flags + ([positional] + rest))
  {
    FlagsInTurn(fs, flags, rest);
    FlagsInTurn(fs, flags, [positional] + rest);
    assert ([positional] + (flags + rest))[1..] == flags + rest && ([positional] + rest)[1..] == rest;
    assert Before(positional, Then(Parse(fs, flags), Interleaved(fs, rest)))
      == Then(Parse(fs, flags), Before(positional, Interleaved(fs, rest)));
  }

  /** Behind the delimiter everything is positional, however it looks. */
  lemma DelimiterKeeps(fs: FlagSet, flags: seq<string>, rest: seq<string>)
    requires Complete(fs, flags)
    ensures Interleaved(fs, flags + (["--"] + rest)) == Then(Parse(fs, flags), Parsed([], rest))
  {
    FlagsInTurn(fs, flags, ["--"] + rest);
    assert (["--"] + rest)[1..] == rest;
  }
}
