/**
 * The few JavaScript string operations the streaming code and the pages rely on:
 * `trim`, `startsWith`, `indexOf`, `split`, `join` and `slice(0, n)`.
 * Strings are sequences of code points.
 */
module Text {

  /** The code points JavaScript's `String.prototype.trim` removes: WhiteSpace and LineTerminator. */
  predicate IsWhitespace(c: char) {
    || c == '\t' || c == '\n' || c == '\U{B}' || c == '\U{C}' || c == '\r' || c == ' '
    || c == '\U{A0}' || c == '\U{1680}' || ('\U{2000}' <= c <= '\U{200A}')
    || c == '\U{2028}' || c == '\U{2029}' || c == '\U{202F}' || c == '\U{205F}'
    || c == '\U{3000}' || c == '\U{FEFF}'
  }

  predicate AllWhitespace(s: string) {
    forall i | 0 <= i < |s| :: IsWhitespace(s[i])
  }

  function TrimStart(s: string): (r: string)
    ensures |r| <= |s| && r == s[|s| - |r|..]
    ensures r == "" <==> AllWhitespace(s)
    ensures r != "" ==> !IsWhitespace(r[0])
  {
    if |s| > 0 && IsWhitespace(s[0]) then TrimStart(s[1..]) else s
  }

  function TrimEnd(s: string): (r: string)
    ensures |r| <= |s| && r == s[..|r|]
    ensures r == "" <==> AllWhitespace(s)
    ensures r != "" ==> !IsWhitespace(r[|r| - 1])
  {
    if |s| > 0 && IsWhitespace(s[|s| - 1]) then TrimEnd(s[..|s| - 1]) else s
  }

  /**
   * `s.trim()`: `s` with its leading and trailing whitespace cut off, so a substring
   * of `s` with no whitespace at either end; empty exactly for blank `s`.
   */
  function Trim(s: string): (r: string)
    ensures exists i, j | 0 <= i <= j <= |s| :: r == s[i..j] && AllWhitespace(s[..i]) && AllWhitespace(s[j..])
    ensures r == "" <==> AllWhitespace(s)
    ensures r != "" ==> !IsWhitespace(r[0]) && !IsWhitespace(r[|r| - 1])
  {
    var u := TrimStart(s);
    TrimStartCuts(s);
    TrimEndCuts(u);
    InnerSlice(s, u, TrimEnd(u));
    TrimEnd(u)
  }

  /** What `TrimStart` cuts off is whitespace. */
  lemma {:induction false} TrimStartCuts(s: string)
    ensures AllWhitespace(s[..|s| - |TrimStart(s)|])
  {
    if |s| > 0 && IsWhitespace(s[0]) {
      TrimStartCuts(s[1..]);
      var k := |s[1..]| - |TrimStart(s[1..])|;
      assert s[..k + 1] == [s[0]] + s[1..][..k];
    }
  }

  /** What `TrimEnd` cuts off is whitespace. */
  lemma {:induction false} TrimEndCuts(s: string)
    ensures AllWhitespace(s[|TrimEnd(s)|..])
  {
    if |s| > 0 && IsWhitespace(s[|s| - 1]) {
      var init := s[..|s| - 1];
      TrimEndCuts(init);
      var k := |TrimEnd(init)|;
      assert s[k..] == init[k..] + [s[|s| - 1]];
    }
  }

  /** A prefix `r` of a suffix `u` of `s`, with whitespace cut off around it, is a slice of `s`. */
  lemma InnerSlice(s: string, u: string, r: string)
    requires |u| <= |s| && u == s[|s| - |u|..] && AllWhitespace(s[..|s| - |u|])
    requires |r| <= |u| && r == u[..|r|] && AllWhitespace(u[|r|..])
    ensures var i := |s| - |u|;
            && r == s[i..i + |r|] && AllWhitespace(s[..i]) && AllWhitespace(s[i + |r|..])
  {
    var i := |s| - |u|;
    assert u[|r|..] == s[i + |r|..];
  }

  /** Appending text to a string that is not blank leaves its trimmed start in place. */
  lemma {:induction false} TrimStartAppend(s: string, t: string)
    requires !AllWhitespace(s)
    ensures TrimStart(s + t) == TrimStart(s) + t
  {
    if IsWhitespace(s[0]) {
      assert (s + t)[1..] == s[1..] + t;
      TrimStartAppend(s[1..], t);
    }
  }

  /** A trailing carriage return never survives `trim`. */
  lemma TrimDropsTrailingCr(s: string)
    ensures Trim(s + "\r") == Trim(s)
  {
    if AllWhitespace(s) {
      assert AllWhitespace(s + "\r");
    } else {
      TrimStartAppend(s, "\r");
      var u := TrimStart(s);
      assert (u + "\r")[..|u + "\r"| - 1] == u;
    }
  }

  /** `s.startsWith(p)`. */
  predicate StartsWith(s: string, p: string) {
    |p| <= |s| && s[..|p|] == p
  }

  /** `s.indexOf(c)`: the first position of `c`, or -1 when `c` does not occur. */
  function IndexOf(s: string, c: char): (r: int)
    ensures -1 <= r < |s|
    ensures r == -1 <==> c !in s
    ensures r >= 0 ==> s[r] == c && c !in s[..r]
  {
    if |s| == 0 then -1
    else if s[0] == c then 0
    else
      var k := IndexOf(s[1..], c);
      if k < 0 then -1
      else
        assert s[..k + 1] == [s[0]] + s[1..][..k];
        k + 1
  }

  /** Finding the first `c` is not disturbed by text appended behind it. */
  lemma IndexOfAppend(s: string, t: string, c: char)
    requires c in s
    ensures IndexOf(s + t, c) == IndexOf(s, c)
  {
    var i := IndexOf(s, c);
    assert (s + t)[..i + 1] == s[..i + 1];
  }

  /** A position holding `c` with no `c` before it is what `IndexOf` finds. */
  lemma IndexOfAt(s: string, c: char, i: nat)
    requires i < |s| && s[i] == c && c !in s[..i]
    ensures IndexOf(s, c) == i
  {
    var j := IndexOf(s, c);
    assert forall k | 0 <= k < i :: s[k] != c by {
      forall k | 0 <= k < i ensures s[k] != c { assert s[k] == s[..i][k]; }
    }
    assert forall k | 0 <= k < j :: s[k] != c by {
      forall k | 0 <= k < j ensures s[k] != c { assert s[k] == s[..j][k]; }
    }
  }

  /** `s.split(c)` for a one-character separator: the pieces between the separators. */
  function Split(s: string, c: char): (r: seq<string>)
    ensures |r| > 0
    decreases |s|
  {
    var i := IndexOf(s, c);
    if i < 0 then [s] else [s[..i]] + Split(s[i + 1..], c)
  }

  /** No piece of a split contains the separator: the string is cut at every occurrence. */
  lemma {:induction false} SplitCutsEverySeparator(s: string, c: char)
    ensures forall k | 0 <= k < |Split(s, c)| :: c !in Split(s, c)[k]
    decreases |s|
  {
    var i := IndexOf(s, c);
    if i >= 0 {
      SplitCutsEverySeparator(s[i + 1..], c);
    }
  }

  /** `parts.join(sep)`. */
  function Join(parts: seq<string>, sep: string): string {
    if |parts| == 0 then ""
    else if |parts| == 1 then parts[0]
    else parts[0] + sep + Join(parts[1..], sep)
  }

  /** The pieces of a split, joined again, are the original string. */
  lemma {:induction false} JoinSplit(s: string, c: char)
    ensures Join(Split(s, c), [c]) == s
    decreases |s|
  {
    var i := IndexOf(s, c);
    if i >= 0 {
      var tail := Split(s[i + 1..], c);
      JoinCons(s[..i], tail, [c]);
      JoinSplit(s[i + 1..], c);
      SliceAround(s, i);
    }
  }

  lemma JoinCons(head: string, tail: seq<string>, sep: string)
    requires |tail| > 0
    ensures Join([head] + tail, sep) == head + sep + Join(tail, sep)
  {
    assert ([head] + tail)[1..] == tail;
  }

  lemma SliceAround(s: string, i: nat)
    requires i < |s|
    ensures s == s[..i] + [s[i]] + s[i + 1..]
  {
  }

  lemma SplitAtFirst(a: string, b: string, c: char)
    requires c !in a
    ensures Split(a + [c] + b, c) == [a] + Split(b, c)
  {
    var s := a + [c] + b;
    assert s[..|a|] == a;
    IndexOfAt(s, c, |a|);
    assert s[|a| + 1..] == b;
  }

  /** Splitting at a separator the caller put in splits the two sides independently. */
  lemma {:induction false} SplitAround(a: string, b: string, c: char)
    ensures Split(a + [c] + b, c) == Split(a, c) + Split(b, c)
    decreases |a|
  {
    var s := a + [c] + b;
    var i := IndexOf(a, c);
    if i < 0 {
      SplitAtFirst(a, b, c);
    } else {
      IndexOfAppend(a, [c] + b, c);
      assert s == a + ([c] + b);
      assert IndexOf(s, c) == i;
      assert s[..i] == a[..i];
      assert s[i + 1..] == a[i + 1..] + [c] + b;
      SplitAround(a[i + 1..], b, c);
      assert Split(s, c) == [a[..i]] + Split(a[i + 1..] + [c] + b, c);
      AppendAssoc([a[..i]], Split(a[i + 1..], c), Split(b, c));
    }
  }

  /** The concatenation of a list of strings. */
  function Concat(parts: seq<string>): string {
    if |parts| == 0 then "" else parts[0] + Concat(parts[1..])
  }

  lemma {:induction false} ConcatAppend(xs: seq<string>, ys: seq<string>)
    ensures Concat(xs + ys) == Concat(xs) + Concat(ys)
  {
    if |xs| > 0 {
      assert (xs + ys)[1..] == xs[1..] + ys;
      ConcatAppend(xs[1..], ys);
    } else {
      assert xs + ys == ys;
    }
  }

  /** `s.slice(0, n)` for a non-negative `n`. */
  function Take<T>(s: seq<T>, n: nat): (r: seq<T>)
    ensures |r| == if n <= |s| then n else |s|
    ensures r == s[..|r|]
  {
    if n <= |s| then s[..n] else s
  }

  lemma AppendAssoc<T>(a: seq<T>, b: seq<T>, c: seq<T>)
    ensures a + (b + c) == (a + b) + c
  {
  }

  lemma AppendNil<T>(a: seq<T>)
    ensures a + [] == a
  {
  }

  /** A non-empty sequence is its head followed by its tail, with or without one more element. */
  lemma HeadTail<T>(xs: seq<T>, x: T)
    requires |xs| > 0
    ensures xs == [xs[0]] + xs[1..]
    ensures xs + [x] == [xs[0]] + (xs[1..] + [x])
  {
  }
}
