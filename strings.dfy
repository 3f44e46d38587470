/**
 * The JavaScript string operations the core relies on: `String.prototype.split`
 * with a non-empty string separator, `startsWith`, `replace` with a string
 * pattern (first occurrence only) and `trim`; and `Join`, the inverse of
 * `split` that the round-trip properties are stated with.
 */
module Strings {
  import opened Wrappers

  /** `sep` occurs in `s` at index `i`. */
  predicate MatchAt(s: string, sep: string, i: nat) {
    i + |sep| <= |s| && s[i..i + |sep|] == sep
  }

  /** No occurrence of `sep` in `s` starts before index `n`. */
  predicate NoMatchBefore(s: string, sep: string, n: nat) {
    forall k: nat :: k < n ==> !MatchAt(s, sep, k)
  }

  /** `sep` does not occur anywhere in `s`. */
  predicate Free(s: string, sep: string) {
    NoMatchBefore(s, sep, |s| + 1)
  }

  /** The index of the first occurrence of `sep` in `s` at or after `i`. */
  function FindFrom(s: string, sep: string, i: nat): (r: Option<nat>)
    requires i <= |s|
    ensures r.Some? ==> i <= r.value && MatchAt(s, sep, r.value)
    ensures r.Some? ==> forall k: nat :: i <= k < r.value ==> !MatchAt(s, sep, k)
    ensures r.None? ==> forall k: nat :: i <= k ==> !MatchAt(s, sep, k)
    decreases |s| - i
  {
    if i + |sep| > |s| then None
    else if MatchAt(s, sep, i) then Some(i)
    else FindFrom(s, sep, i + 1)
  }

  /**
   * `s.split(sep)`: scan left to right, cut at each occurrence of `sep` that
   * does not overlap an earlier one. The result is never empty.
   */
  function Split(s: string, sep: string): (r: seq<string>)
    requires |sep| > 0
    ensures |r| >= 1
    decreases |s|
  {
    match FindFrom(s, sep, 0)
    case None => [s]
    case Some(k) => [s[..k]] + Split(s[k + |sep|..], sep)
  }

  /** `parts.join(sep)`. */
  function Join(parts: seq<string>, sep: string): string
    decreases |parts|
  {
    if |parts| == 0 then []
    else if |parts| == 1 then parts[0]
    else parts[0] + sep + Join(parts[1..], sep)
  }

  /**
   * The pieces a left-to-right split would produce: none but the last is
   * followed by an occurrence of `sep` that starts inside it, and the last
   * holds no occurrence at all.
   */
  predicate SplitShaped(parts: seq<string>, sep: string) {
    && |parts| >= 1
    && (forall i :: 0 <= i < |parts| - 1 ==> NoMatchBefore(parts[i] + sep, sep, |parts[i]|))
    && Free(parts[|parts| - 1], sep)
  }

  /** The first occurrence of `sep` in `a + sep + b` is the one right after `a`. */
  lemma FindAfterPrefix(a: string, sep: string, b: string)
    requires |sep| > 0
    requires NoMatchBefore(a + sep, sep, |a|)
    ensures FindFrom(a + sep + b, sep, 0) == Some(|a|)
  {
    var s := a + sep + b;
    assert s[|a|..|a| + |sep|] == sep;
    assert MatchAt(s, sep, |a|);
    var r := FindFrom(s, sep, 0);
    if r.value < |a| {
      var v := r.value;
      assert s[v..v + |sep|] == (a + sep)[v..v + |sep|];
      assert MatchAt(a + sep, sep, v);
      assert false;
    }
  }

  /** Splitting `a + sep + b` cuts right after `a` when nothing earlier matches. */
  lemma SplitCons(a: string, sep: string, b: string)
    requires |sep| > 0
    requires NoMatchBefore(a + sep, sep, |a|)
    ensures Split(a + sep + b, sep) == [a] + Split(b, sep)
  {
    var s := a + sep + b;
    FindAfterPrefix(a, sep, b);
    assert s[..|a|] == a;
    assert s[|a| + |sep|..] == b;
  }

  /** A string without the separator splits into itself alone. */
  lemma SplitFree(s: string, sep: string)
    requires |sep| > 0
    requires Free(s, sep)
    ensures Split(s, sep) == [s]
  {
    var r := FindFrom(s, sep, 0);
    assert r == None;
  }

  /** Joining a first piece onto at least one more puts the separator between them. */
  lemma JoinCons(a: string, r: seq<string>, sep: string)
    requires |r| >= 1
    ensures Join([a] + r, sep) == a + sep + Join(r, sep)
  {
    assert ([a] + r)[1..] == r;
  }

  /** Cutting `s` around an occurrence of `sep` and gluing it back gives `s`. */
  lemma CutAround(s: string, sep: string, k: nat)
    requires MatchAt(s, sep, k)
    ensures s[..k] + sep + s[k + |sep|..] == s
  {
    assert s == s[..k] + s[k..k + |sep|] + s[k + |sep|..];
  }

  /** A split cuts at the first occurrence of the separator, then splits the rest. */
  lemma SplitAtFirst(s: string, sep: string)
    requires |sep| > 0 && FindFrom(s, sep, 0).Some?
    ensures var k := FindFrom(s, sep, 0).value;
            Split(s, sep) == [s[..k]] + Split(s[k + |sep|..], sep)
  {
  }

  /** Joining the pieces of a split with the same separator gives back the string. */
  lemma {:induction false} JoinSplit(s: string, sep: string)
    requires |sep| > 0
    ensures Join(Split(s, sep), sep) == s
    decreases |s|
  {
    var f := FindFrom(s, sep, 0);
    if f.Some? {
      var k := f.value;
      var rest := s[k + |sep|..];
      JoinSplit(rest, sep);
      SplitAtFirst(s, sep);
      JoinCons(s[..k], Split(rest, sep), sep);
      CutAround(s, sep, k);
    }
  }

  /** Every split is shaped as SplitShaped says; in particular no piece holds the separator. */
  lemma {:induction false} SplitIsShaped(s: string, sep: string)
    requires |sep| > 0
    ensures SplitShaped(Split(s, sep), sep)
    decreases |s|
  {
    match FindFrom(s, sep, 0)
    case None =>
      forall k: nat | k < |s| + 1
        ensures !MatchAt(s, sep, k)
      {
      }
    case Some(k) =>
      var rest := s[k + |sep|..];
      SplitIsShaped(rest, sep);
      var head := s[..k];
      forall j: nat | j < |head|
        ensures !MatchAt(head + sep, sep, j)
      {
        assert head + sep == s[..k + |sep|];
        assert !MatchAt(s, sep, j);
        assert (head + sep)[j..j + |sep|] == s[j..j + |sep|];
      }
      var r := Split(rest, sep);
      assert Split(s, sep) == [head] + r;
  }

  /** Each piece of a split is free of the separator. */
  lemma SplitPieceFree(s: string, sep: string, i: nat)
    requires |sep| > 0
    requires i < |Split(s, sep)|
    ensures Free(Split(s, sep)[i], sep)
  {
    var p := Split(s, sep);
    SplitIsShaped(s, sep);
    if i < |p| - 1 {
      forall k: nat | k < |p[i]| + 1
        ensures !MatchAt(p[i], sep, k)
      {
        if MatchAt(p[i], sep, k) {
          assert (p[i] + sep)[k..k + |sep|] == p[i][k..k + |sep|];
          assert MatchAt(p[i] + sep, sep, k);
        }
      }
    }
  }

  /**
   * The split is the only separator-shaped decomposition of the string:
   * `Split(s, sep) == parts` exactly when `parts` is shaped as a
   * left-to-right split and joins back to `s`.
   */
  lemma SplitCharacterized(s: string, sep: string, parts: seq<string>)
    requires |sep| > 0
    ensures Split(s, sep) == parts <==> SplitShaped(parts, sep) && Join(parts, sep) == s
  {
    SplitIsShaped(s, sep);
    JoinSplit(s, sep);
    if SplitShaped(parts, sep) && Join(parts, sep) == s {
      SplitUnique(s, sep, parts);
    }
  }

  /** Dropping the first piece of a shaped decomposition leaves a shaped one. */
  lemma ShapedTail(parts: seq<string>, sep: string)
    requires SplitShaped(parts, sep) && |parts| >= 2
    ensures SplitShaped(parts[1..], sep)
  {
    var tail := parts[1..];
    forall i | 0 <= i < |tail| - 1
      ensures NoMatchBefore(tail[i] + sep, sep, |tail[i]|)
    {
      assert tail[i] == parts[i + 1];
    }
  }

  /** A shaped decomposition that joins back to `s` is its split. */
  lemma {:induction false} SplitUnique(s: string, sep: string, parts: seq<string>)
    requires |sep| > 0
    requires SplitShaped(parts, sep) && Join(parts, sep) == s
    ensures Split(s, sep) == parts
    decreases |parts|
  {
    if |parts| == 1 {
      SplitFree(s, sep);
    } else {
      var tail := parts[1..];
      ShapedTail(parts, sep);
      SplitUnique(Join(tail, sep), sep, tail);
      JoinCons(parts[0], tail, sep);
      assert parts == [parts[0]] + tail;
      SplitCons(parts[0], sep, Join(tail, sep));
    }
  }

  /** A line without a line feed, followed by one, is the first piece of a split on line feeds. */
  lemma SplitFirstLine(line: string, rest: string)
    requires '\n' !in line
    ensures Split(line + "\n" + rest, "\n") == [line] + Split(rest, "\n")
  {
    forall k: nat | k < |line|
      ensures !MatchAt(line + "\n", "\n", k)
    {
      assert (line + "\n")[k] == line[k];
    }
    SplitCons(line, "\n", rest);
  }

  /** A line without a line feed splits into itself. */
  lemma SplitLastLine(line: string)
    requires '\n' !in line
    ensures Split(line, "\n") == [line]
  {
    forall k: nat | k < |line| + 1
      ensures !MatchAt(line, "\n", k)
    {
      if k < |line| {
        assert line[k] != '\n';
      }
    }
    SplitFree(line, "\n");
  }

  /** `t` occurs somewhere in `s`. */
  predicate Contains(s: string, t: string) {
    exists i: nat :: i <= |s| && MatchAt(s, t, i)
  }

  lemma ContainsMiddle(a: string, t: string, b: string)
    ensures Contains(a + t + b, t)
  {
    assert (a + t + b)[|a|..|a| + |t|] == t;
    assert MatchAt(a + t + b, t, |a|);
  }

  /** Lines joined by line feeds split back into the same lines when none holds a line feed. */
  lemma {:induction false} SplitJoinedLines(lines: seq<string>)
    requires |lines| >= 1
    requires forall i :: 0 <= i < |lines| ==> '\n' !in lines[i]
    ensures Split(Join(lines, "\n"), "\n") == lines
    decreases |lines|
  {
    if |lines| == 1 {
      SplitLastLine(lines[0]);
    } else {
      SplitJoinedLines(lines[1..]);
      SplitFirstLine(lines[0], Join(lines[1..], "\n"));
      assert lines == [lines[0]] + lines[1..];
    }
  }

  /** Each joined piece occurs in the joined text. */
  lemma {:induction false} JoinContainsPart(parts: seq<string>, sep: string, i: nat)
    requires i < |parts|
    ensures Contains(Join(parts, sep), parts[i])
    decreases |parts|
  {
    if |parts| == 1 {
      ContainsMiddle([], parts[0], []);
      assert [] + parts[0] + [] == parts[0];
    } else if i == 0 {
      ContainsMiddle([], parts[0], sep + Join(parts[1..], sep));
      assert [] + parts[0] + (sep + Join(parts[1..], sep)) == Join(parts, sep);
    } else {
      JoinContainsPart(parts[1..], sep, i - 1);
      var tail := Join(parts[1..], sep);
      var k: nat :| k <= |tail| && MatchAt(tail, parts[i], k);
      var whole := parts[0] + sep + tail;
      assert whole[|parts[0] + sep| + k..|parts[0] + sep| + k + |parts[i]|] == tail[k..k + |parts[i]|];
      assert MatchAt(whole, parts[i], |parts[0] + sep| + k);
    }
  }

  lemma ContainsTransitive(s: string, u: string, t: string)
    requires Contains(s, u) && Contains(u, t)
    ensures Contains(s, t)
  {
    var i: nat :| i <= |s| && MatchAt(s, u, i);
    var j: nat :| j <= |u| && MatchAt(u, t, j);
    forall m | 0 <= m < |t|
      ensures s[i + j + m] == t[m]
    {
      assert s[i..i + |u|][j + m] == s[i + j + m];
      assert u[j..j + |t|][m] == u[j + m];
    }
    assert s[i + j..i + j + |t|] == t;
    assert MatchAt(s, t, i + j);
  }

  /** `s.startsWith(c)` for a one-character prefix. */
  predicate StartsWith(s: string, c: char) {
    |s| > 0 && s[0] == c
  }

  /** `s.replace(c, '')` with a one-character string pattern: only the first occurrence goes. */
  function RemoveFirst(s: string, c: char): (r: string)
    ensures c in s ==> |r| == |s| - 1
    ensures c !in s ==> r == s
    ensures StartsWith(s, c) ==> r == s[1..]
    decreases |s|
  {
    if |s| == 0 then s
    else if s[0] == c then s[1..]
    else [s[0]] + RemoveFirst(s[1..], c)
  }

  /** `replace` cuts out exactly the first occurrence of `c`, at whatever index it sits. */
  lemma {:induction false} RemoveFirstCutsFirst(s: string, c: char, i: nat)
    requires i < |s| && s[i] == c && c !in s[..i]
    ensures RemoveFirst(s, c) == s[..i] + s[i + 1..]
  {
    if i == 0 {
      assert s[..0] + s[1..] == s[1..];
    } else {
      var t := s[1..];
      assert s[0] == s[..i][0];
      assert t[..i - 1] == s[1..i];
      RemoveFirstCutsFirst(t, c, i - 1);
      assert s[..i] == [s[0]] + t[..i - 1];
      assert s[i + 1..] == t[i..];
    }
  }

  /**
   * The characters `trim` removes: the ECMAScript WhiteSpace (tab, vertical
   * tab, form feed, space, no-break space, byte order mark and the Unicode
   * space separators) and LineTerminator (line feed, carriage return, line and
   * paragraph separators) sets.
   */
  predicate IsWhitespace(c: char) {
    || c == '\t' || c == '\n' || c == '\U{B}' || c == '\U{C}' || c == '\r' || c == ' '
    || c == '\U{A0}' || c == '\U{1680}' || ('\U{2000}' <= c <= '\U{200A}')
    || c == '\U{2028}' || c == '\U{2029}' || c == '\U{202F}' || c == '\U{205F}'
    || c == '\U{3000}' || c == '\U{FEFF}'
  }

  /** Drops leading whitespace. */
  function TrimStart(s: string): string
    decreases |s|
  {
    if |s| > 0 && IsWhitespace(s[0]) then TrimStart(s[1..]) else s
  }

  /** Drops trailing whitespace. */
  function TrimEnd(s: string): string
    decreases |s|
  {
    if |s| > 0 && IsWhitespace(s[|s| - 1]) then TrimEnd(s[..|s| - 1]) else s
  }

  /** `trimStart` keeps the suffix of `s` after its leading run of whitespace. */
  lemma {:induction false} TrimStartSuffix(s: string)
    ensures var r := TrimStart(s);
            && |r| <= |s| && r == s[|s| - |r|..]
            && (forall k :: 0 <= k < |s| - |r| ==> IsWhitespace(s[k]))
            && (r == [] || !IsWhitespace(r[0]))
    decreases |s|
  {
    if |s| > 0 && IsWhitespace(s[0]) {
      TrimStartSuffix(s[1..]);
      var r := TrimStart(s[1..]);
      assert s[1..][|s| - 1 - |r|..] == s[|s| - |r|..];
      forall k | 1 <= k < |s| - |r|
        ensures IsWhitespace(s[k])
      {
        assert s[k] == s[1..][k - 1];
      }
    }
  }

  /** `trimEnd` keeps the prefix of `s` before its trailing run of whitespace. */
  lemma {:induction false} TrimEndPrefix(s: string)
    ensures var r := TrimEnd(s);
            && |r| <= |s| && r == s[..|r|]
            && (forall k :: |r| <= k < |s| ==> IsWhitespace(s[k]))
            && (r == [] || !IsWhitespace(r[|r| - 1]))
    decreases |s|
  {
    if |s| > 0 && IsWhitespace(s[|s| - 1]) {
      TrimEndPrefix(s[..|s| - 1]);
      var r := TrimEnd(s[..|s| - 1]);
      assert s[..|s| - 1][..|r|] == s[..|r|];
      forall k | |r| <= k < |s| - 1
        ensures IsWhitespace(s[k])
      {
        assert s[k] == s[..|s| - 1][k];
      }
    }
  }

  /** `s.trim()`. */
  function Trim(s: string): string {
    TrimEnd(TrimStart(s))
  }

  /**
   * `trim` cuts `s` down to a middle slice whose both ends are not whitespace,
   * removing only whitespace on either side; trimming twice changes nothing.
   */
  lemma TrimSlice(s: string)
    ensures exists i, j ::
              && 0 <= i <= j <= |s| && Trim(s) == s[i..j]
              && (forall k :: 0 <= k < i ==> IsWhitespace(s[k]))
              && (forall k :: j <= k < |s| ==> IsWhitespace(s[k]))
    ensures Trim(s) == [] || (!IsWhitespace(Trim(s)[0]) && !IsWhitespace(Trim(s)[|Trim(s)| - 1]))
    ensures Trim(Trim(s)) == Trim(s)
  {
    var t := TrimStart(s);
    var r := TrimEnd(t);
    TrimStartSuffix(s);
    TrimEndPrefix(t);
    var i := |s| - |t|;
    assert r == s[i..i + |r|];
    forall k | i + |r| <= k < |s|
      ensures IsWhitespace(s[k])
    {
      assert s[k] == t[k - i];
    }
    if r != [] {
      assert r[0] == t[0];
    }
  }
}
