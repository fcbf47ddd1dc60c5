/**
 * String helpers with Python's meaning: clamped slicing, `str.join`,
 * `str.split` on one character and repetition (`c * n`).
 */
module Strings {

  function Min(a: int, b: int): int { if a <= b then a else b }

  /** Python's `s[a:b]` for 0 <= a <= b: bounds past the end are clamped. */
  function Slice(s: string, a: nat, b: nat): (r: string)
    requires a <= b
    ensures |r| == Min(b, |s|) - Min(a, |s|)
    ensures b <= |s| ==> r == s[a..b]
  {
    s[Min(a, |s|)..Min(b, |s|)]
  }

  /** Consecutive clamped slices put back together give the clamped prefix. */
  lemma SlicesConcat(s: string, a: nat, b: nat, c: nat)
    requires a <= b <= c
    ensures Slice(s, a, b) + Slice(s, b, c) == Slice(s, a, c)
  {
  }

  /** Cutting `s` at `i` and `j` and putting the three parts back gives `s`. */
  lemma Reassemble(s: string, i: nat, j: nat, x: string, y: string)
    requires i <= j <= |s| && x + y == s[j..]
    ensures s[..i] + s[i..j] + x + y == s
  {
    assert s[..i] + s[i..j] + x + y == s[..i] + s[i..j] + (x + y);
    assert s[..i] + s[i..j] == s[..j];
  }

  lemma AppendAssoc<T>(a: seq<T>, b: seq<T>, c: seq<T>)
    ensures a + b + c == a + (b + c)
  {
  }

  /** Associativity when one more element is appended after `c`. */
  lemma AppendAssocLast<T>(a: seq<T>, b: seq<T>, c: seq<T>, x: T)
    ensures a + b + c + [x] == a + (b + c + [x])
  {
  }

  /** Appending five elements one at a time is appending them together. */
  lemma AppendOneByOne5<T>(p: seq<T>, a: T, b: T, c: T, d: T, e: T)
    ensures p + [a] + [b] + [c] + [d] + [e] == p + [a, b, c, d, e]
  {
  }

  /** Appending six elements one at a time is appending them together. */
  lemma AppendOneByOne6<T>(p: seq<T>, a: T, b: T, c: T, d: T, e: T, f: T)
    ensures p + [a] + [b] + [c] + [d] + [e] + [f] == p + [a, b, c, d, e, f]
  {
  }

  /** An index into `a` picks the same element of `a + b`. */
  lemma PrefixIndex<T>(a: seq<T>, b: seq<T>, k: nat)
    requires k < |a|
    ensures k < |a + b| && (a + b)[k] == a[k]
  {
  }

  /** `s` with every character of `drop` deleted. */
  function Without(s: string, drop: set<char>): (r: string)
    ensures |r| <= |s|
    ensures forall k :: 0 <= k < |r| ==> r[k] !in drop
  {
    if s == [] then "" else (if s[0] in drop then "" else [s[0]]) + Without(s[1..], drop)
  }

  lemma {:induction false} WithoutAppend(a: string, b: string, drop: set<char>)
    ensures Without(a + b, drop) == Without(a, drop) + Without(b, drop)
    decreases |a|
  {
    if a != [] {
      assert (a + b)[1..] == a[1..] + b;
      WithoutAppend(a[1..], b, drop);
    } else {
      assert a + b == b;
    }
  }

  /** Deleting characters that do not occur changes nothing. */
  lemma {:induction false} WithoutNone(s: string, drop: set<char>)
    requires forall k :: 0 <= k < |s| ==> s[k] !in drop
    ensures Without(s, drop) == s
    decreases |s|
  {
    if s != [] {
      WithoutNone(s[1..], drop);
      assert [s[0]] + s[1..] == s;
    }
  }

  /** Python's `c * n` for a one-character string `c`. */
  function Repeat(c: char, n: nat): (r: string)
    ensures |r| == n
    ensures forall k :: 0 <= k < n ==> r[k] == c
  {
    if n == 0 then "" else [c] + Repeat(c, n - 1)
  }

  /** Python's `sep.join(xs)`. */
  function Join(sep: string, xs: seq<string>): (r: string)
    ensures |xs| == 0 ==> r == ""
    ensures |xs| == 1 ==> r == xs[0]
  {
    if |xs| == 0 then ""
    else if |xs| == 1 then xs[0]
    else xs[0] + sep + Join(sep, xs[1..])
  }

  /** A non-empty join begins with its first element. */
  lemma JoinFirst(sep: string, xs: seq<string>)
    requires |xs| > 0
    ensures xs[0] <= Join(sep, xs)
  {
  }

  /** Joining two non-empty lists puts one separator between the two joins. */
  lemma {:induction false} JoinAppend(sep: string, xs: seq<string>, ys: seq<string>)
    requires |xs| > 0 && |ys| > 0
    ensures Join(sep, xs + ys) == Join(sep, xs) + sep + Join(sep, ys)
    decreases |xs|
  {
    if |xs| == 1 {
      assert (xs + ys)[1..] == ys;
    } else {
      assert (xs + ys)[1..] == xs[1..] + ys;
      JoinAppend(sep, xs[1..], ys);
    }
  }

  /** Python's `s.split(sep)` for a one-character separator: never empty. Used to read printed text back as lines. */
  function Split(s: string, sep: char): (r: seq<string>)
    ensures |r| >= 1
    decreases |s|
  {
    if |s| == 0 then [""]
    else
      var tail := Split(s[1..], sep);
      if s[0] == sep then [""] + tail
      else [[s[0]] + tail[0]] + tail[1..]
  }

  /** A piece without the separator is split into itself. */
  lemma {:induction false} SplitNoSeparator(a: string, sep: char)
    requires sep !in a
    ensures Split(a, sep) == [a]
    decreases |a|
  {
    if |a| > 0 {
      SplitNoSeparator(a[1..], sep);
      assert [a[0]] + a[1..] == a;
    }
  }

  /** Splitting at the first separator peels off the text before it. */
  lemma {:induction false} SplitFirst(a: string, sep: char, b: string)
    requires sep !in a
    ensures Split(a + [sep] + b, sep) == [a] + Split(b, sep)
    decreases |a|
  {
    var s := a + [sep] + b;
    if |a| == 0 {
      assert s[1..] == b;
    } else {
      assert s[1..] == a[1..] + [sep] + b;
      SplitFirst(a[1..], sep, b);
      assert [a[0]] + a[1..] == a;
    }
  }

  /** `split` undoes `join` when no piece holds the separator. */
  lemma {:induction false} SplitJoin(xs: seq<string>, sep: char)
    requires |xs| > 0
    requires forall k :: 0 <= k < |xs| ==> sep !in xs[k]
    ensures Split(Join([sep], xs), sep) == xs
    decreases |xs|
  {
    if |xs| == 1 {
      SplitNoSeparator(xs[0], sep);
    } else {
      SplitJoin(xs[1..], sep);
      SplitFirst(xs[0], sep, Join([sep], xs[1..]));
      assert [xs[0]] + xs[1..] == xs;
    }
  }
}
