/**
 * The Python `str` operations the script applies to paths and names:
 * `split`, `join`, `rstrip`, `replace(old, "")` and `lower`.
 * A string is a `seq<char>`.
 */
module PyStrings {

  /** `s` does not contain any character of `chars`. */
  predicate Avoids(s: string, chars: set<char>) {
    forall j :: 0 <= j < |s| ==> s[j] !in chars
  }

  /** `s` starts with `prefix` (Python's `s.startswith(prefix)`). */
  predicate StartsWith(s: string, prefix: string) {
    |prefix| <= |s| && s[..|prefix|] == prefix
  }

  /** `sub` occurs in `s` at position `i`. */
  predicate OccursAt(s: string, sub: string, i: int) {
    0 <= i && i + |sub| <= |s| && s[i..i + |sub|] == sub
  }

  /**
   * `s.split(c)` for a one-character separator `c`, generalised to a set of
   * separator characters (`ntpath` treats both `\` and `/` as separators).
   * There is always at least one part, and no part holds a separator.
   */
  function Split(s: string, seps: set<char>): (parts: seq<string>)
    ensures |parts| >= 1
    ensures forall k :: 0 <= k < |parts| ==> Avoids(parts[k], seps)
  {
    if s == [] then [""]
    else
      var rest := Split(s[1..], seps);
      if s[0] in seps then [""] + rest
      else [[s[0]] + rest[0]] + rest[1..]
  }

  /** A string splits into one part exactly when it holds no separator, and that part is the string. */
  lemma {:induction false} SplitSingle(s: string, seps: set<char>)
    ensures |Split(s, seps)| == 1 <==> Avoids(s, seps)
    ensures Avoids(s, seps) ==> Split(s, seps) == [s]
  {
    if s != [] {
      SplitSingle(s[1..], seps);
      if Avoids(s, seps) {
        assert Avoids(s[1..], seps) by {
          forall j | 0 <= j < |s[1..]| ensures s[1..][j] !in seps { assert s[1..][j] == s[j + 1]; }
        }
        assert [s[0]] + s[1..] == s;
      }
    }
  }

  /** The first part of a split is a prefix of the string, the last part a suffix. */
  lemma {:induction false} SplitEnds(s: string, seps: set<char>)
    ensures var parts := Split(s, seps);
      && |parts[0]| <= |s| && parts[0] == s[..|parts[0]|]
      && |Last(parts)| <= |s| && Last(parts) == s[|s| - |Last(parts)|..]
  {
    if s != [] {
      SplitEnds(s[1..], seps);
      SplitSingle(s[1..], seps);
    }
  }

  /** `sep.join(parts)` for a one-character separator. */
  function Join(parts: seq<string>, sep: char): string {
    if |parts| == 0 then ""
    else if |parts| == 1 then parts[0]
    else parts[0] + [sep] + Join(parts[1..], sep)
  }

  /** The last element of a non-empty sequence (Python's `xs[-1]`). */
  function Last<T>(xs: seq<T>): T
    requires |xs| > 0
  {
    xs[|xs| - 1]
  }

  /** Python's `xs[-n:]`: the last `n` elements, or all of them when there are fewer. */
  function LastN<T>(xs: seq<T>, n: nat): seq<T> {
    if |xs| < n then xs else xs[|xs| - n..]
  }

  /** Splitting at a separator splits both sides independently. */
  lemma {:induction false} SplitAppend(a: string, c: char, b: string, seps: set<char>)
    requires c in seps
    ensures Split(a + [c] + b, seps) == Split(a, seps) + Split(b, seps)
  {
    if a == [] {
      assert a + [c] + b == [c] + b;
      assert ([c] + b)[1..] == b;
    } else {
      assert (a + [c] + b)[0] == a[0];
      assert (a + [c] + b)[1..] == a[1..] + [c] + b;
      SplitAppend(a[1..], c, b, seps);
    }
  }

  /** Joining the parts of a split with the only separator that occurs restores the string. */
  lemma {:induction false} JoinSplit(s: string, seps: set<char>, c: char)
    requires c in seps
    requires forall j :: 0 <= j < |s| && s[j] in seps ==> s[j] == c
    ensures Join(Split(s, seps), c) == s
  {
    if s != [] {
      JoinSplit(s[1..], seps, c);
      var rest := Split(s[1..], seps);
      if s[0] in seps {
        assert ([""] + rest)[1..] == rest;
      } else if |rest| > 1 {
        assert ([[s[0]] + rest[0]] + rest[1..])[1..] == rest[1..];
        assert Join(rest, c) == rest[0] + [c] + Join(rest[1..], c);
      }
    }
  }

  /** Splitting a join of separator-free parts gives the parts back. */
  lemma {:induction false} SplitJoin(parts: seq<string>, c: char, seps: set<char>)
    requires c in seps && |parts| >= 1
    requires forall k :: 0 <= k < |parts| ==> Avoids(parts[k], seps)
    ensures Split(Join(parts, c), seps) == parts
  {
    if |parts| == 1 {
      SplitSingle(parts[0], seps);
    } else {
      SplitSingle(parts[0], seps);
      SplitJoin(parts[1..], c, seps);
      SplitAppend(parts[0], c, Join(parts[1..], c), seps);
      assert [parts[0]] + parts[1..] == parts;
    }
  }

  /** A character outside `seps` and the separator does not appear in a join of parts that avoid it. */
  lemma {:induction false} JoinAvoids(parts: seq<string>, c: char, x: char)
    requires x != c
    requires forall k :: 0 <= k < |parts| ==> Avoids(parts[k], {x})
    ensures Avoids(Join(parts, c), {x})
  {
    if |parts| > 1 {
      JoinAvoids(parts[1..], c, x);
    }
  }

  /**
   * `s.split(sub)[0]` for a non-empty `sub` (Python raises ValueError on an
   * empty separator): the part of `s` before the first occurrence of `sub`,
   * or all of `s` when it does not occur.
   */
  function Before(s: string, sub: string): (r: string)
    requires |sub| > 0
    ensures |r| <= |s| && r == s[..|r|]
    ensures forall i :: 0 <= i < |r| ==> !OccursAt(s, sub, i)
    ensures |r| < |s| ==> OccursAt(s, sub, |r|)
  {
    if |s| < |sub| then s
    else if s[..|sub|] == sub then ""
    else
      var r := [s[0]] + Before(s[1..], sub);
      assert !OccursAt(s, sub, 0);
      forall i | 1 <= i <= |s| - |sub|
        ensures OccursAt(s, sub, i) == OccursAt(s[1..], sub, i - 1)
      {
        assert s[i..i + |sub|] == s[1..][i - 1..i - 1 + |sub|];
      }
      r
  }

  /** `s.rstrip(chars)`: `s` without its trailing run of characters from `chars`. */
  function RStrip(s: string, chars: set<char>): (r: string)
    ensures |r| <= |s| && r == s[..|r|]
    ensures forall j :: |r| <= j < |s| ==> s[j] in chars
    ensures r == [] || r[|r| - 1] !in chars
  {
    if s == [] then s
    else if s[|s| - 1] in chars then RStrip(s[..|s| - 1], chars)
    else s
  }

  /** `s.replace(pat, "")`: every non-overlapping occurrence of `pat`, scanned left to right, removed. */
  function RemoveAll(s: string, pat: string): string
    decreases |s|
  {
    if |pat| == 0 || |s| < |pat| then s
    else if s[..|pat|] == pat then RemoveAll(s[|pat|..], pat)
    else [s[0]] + RemoveAll(s[1..], pat)
  }

  /** Removing `pat` from `dir + pat` leaves `dir` when `pat` does not occur earlier. */
  lemma {:induction false} RemoveAllSuffix(dir: string, pat: string)
    requires |pat| > 0
    requires forall i :: 0 <= i < |dir| ==> !OccursAt(dir + pat, pat, i)
    ensures RemoveAll(dir + pat, pat) == dir
  {
    var s := dir + pat;
    if dir == [] {
      assert s[..|pat|] == pat;
      assert s[|pat|..] == [];
    } else {
      assert !OccursAt(s, pat, 0);
      assert s[1..] == dir[1..] + pat;
      forall i | 0 <= i < |dir[1..]|
        ensures !OccursAt(dir[1..] + pat, pat, i)
      {
        assert !OccursAt(s, pat, i + 1);
        assert (dir[1..] + pat)[i..i + |pat|] == s[i + 1..i + 1 + |pat|];
      }
      RemoveAllSuffix(dir[1..], pat);
    }
  }

  /** Python's `c.lower()` restricted to ASCII letters. */
  function LowerChar(c: char): char {
    if 'A' <= c <= 'Z' then (c as int + 32) as char else c
  }

  predicate IsUpper(c: char) {
    'A' <= c <= 'Z'
  }

  /** `s.lower()` for ASCII text: same length, every letter lower-cased, no upper-case letter left. */
  function Lower(s: string): (r: string)
    ensures |r| == |s|
    ensures forall i :: 0 <= i < |s| ==> r[i] == LowerChar(s[i])
    ensures forall i :: 0 <= i < |r| ==> !IsUpper(r[i])
  {
    seq(|s|, i requires 0 <= i < |s| => LowerChar(s[i]))
  }

  /** Lower-casing is idempotent, and leaves text without upper-case letters unchanged. */
  lemma LowerIdempotent(s: string)
    ensures Lower(Lower(s)) == Lower(s)
    ensures (forall i :: 0 <= i < |s| ==> !IsUpper(s[i])) ==> Lower(s) == s
  {
  }
}
