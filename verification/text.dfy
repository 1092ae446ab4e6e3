/** Strings as the Go, Python and shell sources use them: splitting and joining on a
    separator, the byte order their sorts use, and blank trimming. */
module Text {

  // ---- Splitting and joining -------------------------------------------------

  predicate Free(s: string, c: char) {
    c !in s
  }

  predicate AllFree(parts: seq<string>, c: char) {
    forall i :: 0 <= i < |parts| ==> Free(parts[i], c)
  }

  /** Position of the first c in s, or |s| when there is none. */
  function IndexOf(s: string, c: char): (i: nat)
    ensures i <= |s| && Free(s[..i], c) && (i < |s| ==> s[i] == c)
    ensures i == |s| <==> Free(s, c)
  {
    if s == "" then 0
    else if s[0] == c then 0
    else
      var j := IndexOf(s[1..], c);
      assert s[..j + 1] == [s[0]] + s[1..][..j];
      assert s == [s[0]] + s[1..];
      j + 1
  }

  /** Go's strings.Split on a one-character separator: never the empty list. */
  function Split(s: string, c: char): (parts: seq<string>)
    ensures |parts| >= 1 && AllFree(parts, c)
    decreases |s|
  {
    var i := IndexOf(s, c);
    if i == |s| then [s] else [s[..i]] + Split(s[i + 1..], c)
  }

  /** Go's strings.Join with a one-character separator. */
  function Join(parts: seq<string>, c: char): string {
    if parts == [] then ""
    else if |parts| == 1 then parts[0]
    else parts[0] + [c] + Join(parts[1..], c)
  }

  lemma IndexOfPrefix(p: string, c: char, rest: string)
    requires Free(p, c)
    ensures IndexOf(p + [c] + rest, c) == |p|
  {
    var s := p + [c] + rest;
    assert s[|p|] == c;
    assert forall k :: 0 <= k < |p| ==> s[k] == p[k] && p[k] in p;
    FirstAt(s, c, |p|);
  }

  lemma FirstAt(s: string, c: char, i: nat)
    requires i < |s| && s[i] == c && forall k :: 0 <= k < i ==> s[k] != c
    ensures IndexOf(s, c) == i
  {
    var j := IndexOf(s, c);
    assert j < |s|;
    assert forall k :: 0 <= k < j ==> s[k] == s[..j][k] && s[k] != c;
  }

  /** Splitting undoes joining for every non-empty list of separator-free parts. */
  lemma {:induction false} SplitJoin(parts: seq<string>, c: char)
    requires parts != [] && AllFree(parts, c)
    ensures Split(Join(parts, c), c) == parts
  {
    if |parts| > 1 {
      var s := Join(parts, c);
      IndexOfPrefix(parts[0], c, Join(parts[1..], c));
      assert s[..|parts[0]|] == parts[0];
      assert s[|parts[0]| + 1..] == Join(parts[1..], c);
      SplitJoin(parts[1..], c);
    }
  }

  lemma JoinCons(head: string, parts: seq<string>, c: char)
    requires parts != []
    ensures Join([head] + parts, c) == head + [c] + Join(parts, c)
  {
    assert ([head] + parts)[1..] == parts;
  }

  lemma CutAt(s: string, i: nat)
    requires i < |s|
    ensures s == s[..i] + [s[i]] + s[i + 1..]
  {
  }

  /** Joining undoes splitting for every string. */
  lemma {:induction false} JoinSplit(s: string, c: char)
    ensures Join(Split(s, c), c) == s
    decreases |s|
  {
    var i := IndexOf(s, c);
    if i < |s| {
      JoinSplit(s[i + 1..], c);
      JoinCons(s[..i], Split(s[i + 1..], c), c);
      CutAt(s, i);
    }
  }

  lemma JoinInjective(a: seq<string>, b: seq<string>, c: char)
    requires a != [] && b != [] && AllFree(a, c) && AllFree(b, c)
    requires Join(a, c) == Join(b, c)
    ensures a == b
  {
    SplitJoin(a, c);
    SplitJoin(b, c);
  }

  /** A join holds exactly the characters of its parts and, between them, the separator. */
  lemma {:induction false} JoinFree(parts: seq<string>, c: char, d: char)
    requires AllFree(parts, d) && c != d
    ensures Free(Join(parts, c), d)
  {
    if |parts| > 1 {
      JoinFree(parts[1..], c, d);
    }
  }

  lemma {:induction false} SplitPartsFree(s: string, c: char, d: char)
    requires Free(s, d)
    ensures AllFree(Split(s, c), d)
    decreases |s|
  {
    var i := IndexOf(s, c);
    if i < |s| {
      SplitPartsFree(s[i + 1..], c, d);
      var parts := Split(s, c);
      forall k | 0 <= k < |parts| ensures Free(parts[k], d) {
        if k > 0 {
          assert parts[k] == Split(s[i + 1..], c)[k - 1];
        }
      }
    }
  }

  lemma {:induction false} JoinAppend(a: seq<string>, last: string, c: char)
    requires a != []
    ensures Join(a + [last], c) == Join(a, c) + [c] + last
  {
    if |a| == 1 {
      assert (a + [last])[1..] == [last];
    } else {
      JoinAppend(a[1..], last, c);
      assert (a + [last])[1..] == a[1..] + [last];
    }
  }

  /** Go's strings.LastIndex for one character. */
  function LastIndexOf(s: string, c: char): (i: int)
    ensures -1 <= i < |s|
  {
    if s == "" then -1 else if s[|s| - 1] == c then |s| - 1 else LastIndexOf(s[..|s| - 1], c)
  }

  lemma {:induction false} LastAt(a: string, c: char, b: string)
    requires Free(b, c)
    ensures LastIndexOf(a + [c] + b, c) == |a|
  {
    var s := a + [c] + b;
    if b != "" {
      assert s[|s| - 1] == b[|b| - 1] && b[|b| - 1] in b;
      assert s[..|s| - 1] == a + [c] + b[..|b| - 1];
      LastAt(a, c, b[..|b| - 1]);
    }
  }

  lemma {:induction false} NoLast(s: string, c: char)
    requires Free(s, c)
    ensures LastIndexOf(s, c) == -1
  {
    if s != "" {
      assert s[|s| - 1] in s;
      NoLast(s[..|s| - 1], c);
    }
  }

  /** What stands before the last separator is all parts but the last. */
  lemma BeforeLast(s: string, c: char, init: seq<string>)
    requires init == Split(s, c)[..|Split(s, c)| - 1]
    ensures (if LastIndexOf(s, c) >= 0 then s[..LastIndexOf(s, c)] else "") == Join(init, c)
  {
    var parts := Split(s, c);
    var last := parts[|parts| - 1];
    JoinSplit(s, c);
    assert parts == init + [last];
    if init == [] {
      NoLast(s, c);
    } else {
      JoinAppend(init, last, c);
      LastAt(Join(init, c), c, last);
      assert s[..|Join(init, c)|] == Join(init, c);
    }
  }

  // ---- The order of sort.Strings and of Python's str -------------------------

  /** Lexicographic order on characters. */
  predicate Before(a: string, b: string) {
    if b == "" then false
    else if a == "" then true
    else a[0] < b[0] || (a[0] == b[0] && Before(a[1..], b[1..]))
  }

  lemma {:induction false} BeforeTotal(a: string, b: string)
    ensures (Before(a, b) && a != b && !Before(b, a)) || (Before(b, a) && a != b && !Before(a, b))
      || (a == b && !Before(a, b))
  {
    if a != "" && b != "" && a[0] == b[0] {
      BeforeTotal(a[1..], b[1..]);
      assert a == [a[0]] + a[1..] && b == [b[0]] + b[1..];
    }
  }

  lemma {:induction false} BeforeTransitive(a: string, b: string, c: string)
    requires Before(a, b) && Before(b, c)
    ensures Before(a, c)
  {
    if a != "" && a[0] == b[0] && b[0] == c[0] {
      BeforeTransitive(a[1..], b[1..], c[1..]);
    }
  }

  predicate StrictlySorted(s: seq<string>) {
    forall i, j :: 0 <= i < j < |s| ==> Before(s[i], s[j])
  }

  ghost function Elements(s: seq<string>): set<string> {
    set x | x in s
  }

  ghost predicate IsLeast(m: string, xs: set<string>) {
    m in xs && forall x :: x in xs && x != m ==> Before(m, x)
  }

  lemma {:induction false} LeastExists(xs: set<string>)
    requires xs != {}
    ensures exists m :: IsLeast(m, xs)
  {
    var y :| y in xs;
    if xs == {y} {
      assert IsLeast(y, xs);
    } else {
      var rest := xs - {y};
      LeastExists(rest);
      var n :| IsLeast(n, rest);
      BeforeTotal(y, n);
      var m := if Before(y, n) then y else n;
      forall x | x in xs && x != m ensures Before(m, x) {
        if m == y && x != n {
          BeforeTransitive(y, n, x);
        }
      }
      assert IsLeast(m, xs);
    }
  }

  /** The elements of a finite set in increasing order. */
  ghost function Sorted(xs: set<string>): (s: seq<string>)
    ensures Elements(s) == xs && StrictlySorted(s) && |s| == |xs|
  {
    if xs == {} then []
    else
      LeastExists(xs);
      var m :| IsLeast(m, xs);
      var tail := Sorted(xs - {m});
      ConsSorted(m, xs, tail);
      [m] + tail
  }

  lemma ConsSorted(m: string, xs: set<string>, tail: seq<string>)
    requires IsLeast(m, xs) && Elements(tail) == xs - {m} && StrictlySorted(tail)
    ensures Elements([m] + tail) == xs && StrictlySorted([m] + tail)
  {
    var s := [m] + tail;
    forall i, j | 0 <= i < j < |s| ensures Before(s[i], s[j]) {
      assert s[j] == tail[j - 1] && tail[j - 1] in Elements(tail);
      if i > 0 {
        assert s[i] == tail[i - 1];
      }
    }
    forall x ensures x in Elements(s) <==> x in xs {
      assert x in s <==> x == m || x in tail;
      assert x in tail <==> x in Elements(tail);
    }
  }

  /** A strictly sorted list is determined by its elements. */
  lemma {:induction false} SortedUnique(a: seq<string>, b: seq<string>)
    requires StrictlySorted(a) && StrictlySorted(b) && Elements(a) == Elements(b)
    ensures a == b
  {
    assert a != [] ==> a[0] in Elements(a);
    assert b != [] ==> b[0] in Elements(b);
    if a != [] {
      var i :| 0 <= i < |b| && b[i] == a[0];
      var j :| 0 <= j < |a| && a[j] == b[0];
      if i > 0 && j > 0 {
        BeforeTotal(a[0], b[0]);
      }
      if i == 0 && j > 0 { BeforeTotal(a[0], a[j]); }
      if j == 0 && i > 0 { BeforeTotal(b[0], b[i]); }
      assert a[0] == b[0];
      forall x ensures x in Elements(a[1..]) <==> x in Elements(b[1..]) {
        TailElements(a, x);
        TailElements(b, x);
        assert x in Elements(a) <==> x in Elements(b);
      }
      SortedUnique(a[1..], b[1..]);
      assert a == [a[0]] + a[1..] && b == [b[0]] + b[1..];
    }
  }

  lemma TailElements(a: seq<string>, x: string)
    requires a != [] && StrictlySorted(a)
    ensures x in a[1..] <==> x in a && x != a[0]
  {
    if x in a[1..] {
      var k :| 0 <= k < |a[1..]| && a[1..][k] == x;
      assert Before(a[0], a[k + 1]);
      BeforeTotal(a[0], a[k + 1]);
    }
    if x in a && x != a[0] {
      var k :| 0 <= k < |a| && a[k] == x;
      assert a[1..][k - 1] == x;
    }
  }

  /** The elements of a set in increasing order, by taking out the least again and again. */
  method SortedSet(xs: set<string>) returns (s: seq<string>)
    ensures s == Sorted(xs)
  {
    s := [];
    var rest := xs;
    while rest != {}
      invariant Elements(s) + rest == xs && StrictlySorted(s) && AllBefore(s, rest)
    {
      LeastExists(rest);
      var m :| m in rest && forall x :: x in rest && x != m ==> Before(m, x);
      NextLeast(s, rest, m);
      s, rest := s + [m], rest - {m};
    }
    SortedUnique(s, Sorted(xs));
  }

  ghost predicate AllBefore(s: seq<string>, rest: set<string>) {
    forall i, y :: 0 <= i < |s| && y in rest ==> Before(s[i], y)
  }

  lemma NextLeast(s: seq<string>, rest: set<string>, m: string)
    requires StrictlySorted(s) && AllBefore(s, rest) && IsLeast(m, rest)
    ensures StrictlySorted(s + [m]) && AllBefore(s + [m], rest - {m})
    ensures Elements(s + [m]) + (rest - {m}) == Elements(s) + rest
  {
  }

  // ---- Blanks ----------------------------------------------------------------

  /** The characters unicode.IsSpace accepts. */
  predicate IsSpace(c: char) {
    '\t' <= c <= '\r' || c == ' ' || c == '\U{85}' || c == '\U{A0}' || c == '\U{1680}'
    || '\U{2000}' <= c <= '\U{200A}' || c == '\U{2028}' || c == '\U{2029}' || c == '\U{202F}'
    || c == '\U{205F}' || c == '\U{3000}'
  }

  function TrimLeft(s: string): string {
    if s == "" then ""
    else if IsSpace(s[0]) then TrimLeft(s[1..])
    else s
  }

  function TrimRight(s: string): string {
    if s == "" then ""
    else if IsSpace(s[|s| - 1]) then TrimRight(s[..|s| - 1])
    else s
  }

  /** Trimming on the left takes away nothing but leading blanks. */
  lemma {:induction false} TrimLeftFacts(s: string, t: string)
    requires t == TrimLeft(s)
    ensures |t| <= |s| && t == s[|s| - |t|..] && (t != "" ==> !IsSpace(t[0])) && (t == s <==> s == "" || !IsSpace(s[0]))
  {
    if s != "" && IsSpace(s[0]) {
      TrimLeftFacts(s[1..], t);
    }
  }

  lemma {:induction false} TrimRightFacts(s: string, t: string)
    requires t == TrimRight(s)
    ensures |t| <= |s| && t == s[..|t|] && (t != "" ==> !IsSpace(t[|t| - 1]))
    ensures t == s <==> s == "" || !IsSpace(s[|s| - 1])
  {
    if s != "" && IsSpace(s[|s| - 1]) {
      TrimRightFacts(s[..|s| - 1], t);
    }
  }

  /** Go's strings.TrimSpace. */
  function TrimSpace(s: string): string {
    TrimRight(TrimLeft(s))
  }

  predicate Trimmed(s: string) {
    s == "" || (!IsSpace(s[0]) && !IsSpace(s[|s| - 1]))
  }

  /** TrimSpace leaves a string alone exactly when it has no blank at either end. */
  lemma TrimSpaceFixes(s: string)
    ensures Trimmed(TrimSpace(s)) && (Trimmed(s) <==> TrimSpace(s) == s)
  {
    var t := TrimLeft(s);
    var u := TrimRight(t);
    TrimLeftFacts(s, t);
    TrimRightFacts(t, u);
    if u != "" {
      assert u[0] == t[0];
    }
  }
}
