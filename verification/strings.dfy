/** String operations of JavaScript's `String.prototype` that the application relies on. */
module Strings {

  /** `s.startsWith(prefix)` */
  predicate StartsWith(s: string, prefix: string) {
    |prefix| <= |s| && s[..|prefix|] == prefix
  }

  /** `s.endsWith(suffix)` */
  predicate EndsWith(s: string, suffix: string) {
    |suffix| <= |s| && s[|s| - |suffix|..] == suffix
  }

  /** `t` occurs in `s` starting at position `i`. */
  predicate OccursAt(s: string, t: string, i: int) {
    0 <= i <= |s| - |t| && s[i..i + |t|] == t
  }

  /** `s.includes(t)`: `t` occurs in `s` at some position. */
  predicate Contains(s: string, t: string) {
    exists i | 0 <= i <= |s| :: OccursAt(s, t, i)
  }

  /** The number of characters of `s` that belong to `seps`. */
  function CountIn(s: string, seps: set<char>): nat {
    if |s| == 0 then 0
    else (if s[0] in seps then 1 else 0) + CountIn(s[1..], seps)
  }

  /** No character of `s` belongs to `seps`. */
  predicate FreeOf(s: string, seps: set<char>) {
    forall i :: 0 <= i < |s| ==> s[i] !in seps
  }

  /**
   * `s.split(sep)` where `sep` matches exactly one character of `seps`: the pieces
   * between separator characters, including empty ones at either end.
   */
  function Split(s: string, seps: set<char>): (r: seq<string>)
    ensures |r| == CountIn(s, seps) + 1
    ensures forall k :: 0 <= k < |r| ==> FreeOf(r[k], seps)
  {
    if |s| == 0 then [""]
    else
      var rest := Split(s[1..], seps);
      if s[0] in seps then [""] + rest
      else [[s[0]] + rest[0]] + rest[1..]
  }

  /** `xs.join(sep)` */
  function Join(xs: seq<string>, sep: string): string {
    if |xs| == 0 then ""
    else if |xs| == 1 then xs[0]
    else xs[0] + sep + Join(xs[1..], sep)
  }

  /** `s` with every character of `seps` replaced by `c`. */
  function ReplaceIn(s: string, seps: set<char>, c: char): (r: string)
    ensures |r| == |s|
    ensures forall i :: 0 <= i < |s| ==> r[i] == (if s[i] in seps then c else s[i])
  {
    if |s| == 0 then ""
    else [if s[0] in seps then c else s[0]] + ReplaceIn(s[1..], seps, c)
  }

  /** Joining the pieces of a split with `c` puts `c` where each separator was. */
  lemma {:induction false} JoinSplit(s: string, seps: set<char>, c: char)
    ensures Join(Split(s, seps), [c]) == ReplaceIn(s, seps, c)
  {
    if |s| > 0 {
      var rest := Split(s[1..], seps);
      JoinSplit(s[1..], seps, c);
      if s[0] in seps {
        assert Split(s, seps) == [""] + rest;
        assert Join([""] + rest, [c]) == "" + [c] + Join(rest, [c]);
      } else {
        assert Split(s, seps) == [[s[0]] + rest[0]] + rest[1..];
        JoinConsFirst(s[0], rest, [c]);
      }
    }
  }

  /** Prepending a character to the first piece prepends it to the joined text. */
  lemma JoinConsFirst(ch: char, xs: seq<string>, sep: string)
    requires |xs| >= 1
    ensures Join([[ch] + xs[0]] + xs[1..], sep) == [ch] + Join(xs, sep)
  {
    var ys := [[ch] + xs[0]] + xs[1..];
    assert ys[1..] == xs[1..];
  }

  /** Splitting a join on a separator, when no piece holds any separator, gives the pieces back. */
  lemma {:induction false} SplitJoin(xs: seq<string>, seps: set<char>, c: char)
    requires c in seps
    requires |xs| >= 1
    requires forall k :: 0 <= k < |xs| ==> FreeOf(xs[k], seps)
    ensures Split(Join(xs, [c]), seps) == xs
  {
    if |xs| == 1 {
      SplitFree(xs[0], seps);
    } else {
      SplitJoin(xs[1..], seps, c);
      SplitPrefix(xs[0], Join(xs[1..], [c]), seps, c);
      assert [xs[0]] + xs[1..] == xs;
    }
  }

  /** A text free of separators splits into itself alone. */
  lemma {:induction false} SplitFree(s: string, seps: set<char>)
    requires FreeOf(s, seps)
    ensures Split(s, seps) == [s]
  {
    if |s| > 0 {
      SplitFree(s[1..], seps);
      assert [s[0]] + s[1..] == s;
    }
  }

  /** Splitting `a + c + b`, with `a` free of separators and `c` one, yields `a` followed by the pieces of `b`. */
  lemma {:induction false} SplitPrefix(a: string, b: string, seps: set<char>, c: char)
    requires c in seps
    requires FreeOf(a, seps)
    ensures Split(a + [c] + b, seps) == [a] + Split(b, seps)
  {
    if |a| == 0 {
      assert a + [c] + b == [c] + b;
      assert ([c] + b)[1..] == b;
    } else {
      SplitPrefix(a[1..], b, seps, c);
      assert (a + [c] + b)[1..] == a[1..] + [c] + b;
      assert [a[0]] + a[1..] == a;
    }
  }

  /** The character for a decimal digit. */
  function DigitChar(d: nat): char
    requires d < 10
  {
    "0123456789"[d]
  }

  /** `String(n)` for a non-negative integer: its decimal digits, without leading zeros. */
  function NatToString(n: nat): (r: string)
    ensures |r| >= 1
    ensures forall i :: 0 <= i < |r| ==> '0' <= r[i] <= '9'
  {
    if n < 10 then [DigitChar(n)] else NatToString(n / 10) + [DigitChar(n % 10)]
  }
}
