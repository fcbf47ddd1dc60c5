/**
 * A hand-written matcher for the one pattern the renderer searches free text
 * with, `https?://[A-Za-z0-9_/.-]*[A-Za-z0-9_/-]`, with the semantics of
 * Python's `re.search`: the leftmost match, and at that position the longest
 * one (both quantifiers are greedy and the pattern has no other choice).
 */
module UrlPattern {
  import opened Wrappers

  /** The character class `[A-Za-z0-9_/.-]`. */
  predicate IsUrlChar(c: char) {
    ('A' <= c <= 'Z') || ('a' <= c <= 'z') || ('0' <= c <= '9') || c == '_' || c == '/' || c == '.' || c == '-'
  }

  /** The character class of the last character, `[A-Za-z0-9_/-]`. */
  predicate IsUrlEndChar(c: char) {
    IsUrlChar(c) && c != '.'
  }

  const Http: string := "http://"
  const Https: string := "https://"

  /** What follows the scheme: at least one URL character, the last one not '.'. */
  predicate IsUrlBody(b: string) {
    |b| > 0 && (forall k :: 0 <= k < |b| ==> IsUrlChar(b[k])) && IsUrlEndChar(b[|b| - 1])
  }

  /** The language of the pattern, stated directly. */
  predicate IsUrl(w: string) {
    (|w| >= 8 && w[..8] == Https && IsUrlBody(w[8..])) || (|w| >= 7 && w[..7] == Http && IsUrlBody(w[7..]))
  }

  /** No substring of `s` is a match of the pattern. */
  predicate NoUrl(s: string) {
    forall a, b {:trigger IsUrl(s[a..b])} :: 0 <= a <= b <= |s| ==> !IsUrl(s[a..b])
  }

  /** Length of the scheme that begins at `i`: 8 for "https://", 7 for "http://", 0 for none. */
  function SchemeAt(s: string, i: nat): (n: nat)
    requires i <= |s|
    ensures n == 0 || n == 7 || n == 8
  {
    if i + 4 <= |s| && s[i] == 'h' && s[i + 1] == 't' && s[i + 2] == 't' && s[i + 3] == 'p' then
      if i + 8 <= |s| && s[i + 4] == 's' && s[i + 5] == ':' && s[i + 6] == '/' && s[i + 7] == '/' then 8
      else if i + 7 <= |s| && s[i + 4] == ':' && s[i + 5] == '/' && s[i + 6] == '/' then 7
      else 0
    else 0
  }

  /** `SchemeAt` recognises exactly the two schemes of the pattern. */
  lemma SchemeAtCorrect(s: string, i: nat)
    requires i <= |s|
    ensures SchemeAt(s, i) == 8 <==> i + 8 <= |s| && s[i..i + 8] == Https
    ensures SchemeAt(s, i) == 7 <==> i + 7 <= |s| && s[i..i + 7] == Http
  {
    if i + 8 <= |s| && s[i..i + 8] == Https {
      var w := s[i..i + 8];
      assert w[0] == 'h' && w[1] == 't' && w[2] == 't' && w[3] == 'p';
      assert w[4] == 's' && w[5] == ':' && w[6] == '/' && w[7] == '/';
    }
    if i + 7 <= |s| && s[i..i + 7] == Http {
      var w := s[i..i + 7];
      assert w[0] == 'h' && w[1] == 't' && w[2] == 't' && w[3] == 'p';
      assert w[4] == ':' && w[5] == '/' && w[6] == '/';
    }
    if SchemeAt(s, i) == 8 {
      assert s[i..i + 8] == Https;
    }
    if SchemeAt(s, i) == 7 {
      assert s[i..i + 7] == Http;
    }
  }

  /** The shape of a match from `i` to `j`, in terms of the matcher's own steps. */
  predicate MatchShape(s: string, i: nat, j: nat)
    requires i <= j <= |s|
  {
    var n := SchemeAt(s, i);
    n > 0 && i + n < j && (forall m :: i + n <= m < j ==> IsUrlChar(s[m])) && IsUrlEndChar(s[j - 1])
  }

  /** A body cut out of `s` is a body exactly when its characters are. */
  lemma BodyIff(s: string, lo: nat, hi: nat)
    requires lo <= hi <= |s|
    ensures IsUrlBody(s[lo..hi]) <==> lo < hi && (forall m :: lo <= m < hi ==> IsUrlChar(s[m])) && IsUrlEndChar(s[hi - 1])
  {
    var b := s[lo..hi];
    assert forall k :: 0 <= k < |b| ==> b[k] == s[lo + k];
    if lo < hi {
      assert b[|b| - 1] == s[hi - 1];
      if forall m :: lo <= m < hi ==> IsUrlChar(s[m]) {
        assert forall k :: 0 <= k < |b| ==> IsUrlChar(b[k]);
      }
    }
  }

  lemma SliceOfSlice(s: string, i: nat, j: nat, k: nat)
    requires i + k <= j <= |s|
    ensures s[i..j][..k] == s[i..i + k]
    ensures s[i..j][k..] == s[i + k..j]
  {
  }

  /** The substring from `i` to `j` is a match exactly when it has that shape. */
  lemma UrlIffShape(s: string, i: nat, j: nat)
    requires i <= j <= |s|
    ensures IsUrl(s[i..j]) <==> MatchShape(s, i, j)
  {
    var n := SchemeAt(s, i);
    SchemeAtCorrect(s, i);
    if i + 8 <= j {
      SliceOfSlice(s, i, j, 8);
      BodyIff(s, i + 8, j);
    }
    if i + 7 <= j {
      SliceOfSlice(s, i, j, 7);
      BodyIff(s, i + 7, j);
    }
  }

  /** The end of the longest run of URL characters that begins at `k`. */
  function RunEnd(s: string, k: nat): (e: nat)
    requires k <= |s|
    ensures k <= e <= |s|
    decreases |s| - k
  {
    if k == |s| || !IsUrlChar(s[k]) then k else RunEnd(s, k + 1)
  }

  /** The run is made of URL characters and cannot be extended. */
  lemma {:induction false} RunEndCorrect(s: string, k: nat)
    requires k <= |s|
    ensures forall m :: k <= m < RunEnd(s, k) ==> IsUrlChar(s[m])
    ensures RunEnd(s, k) == |s| || !IsUrlChar(s[RunEnd(s, k)])
    decreases |s| - k
  {
    if k < |s| && IsUrlChar(s[k]) {
      RunEndCorrect(s, k + 1);
    }
  }

  /** One past the last end character in `s[lo..hi]`, if there is one. */
  function LastEnd(s: string, lo: nat, hi: nat): (r: Option<nat>)
    requires lo <= hi <= |s|
    ensures r.Some? ==> lo < r.value <= hi
    decreases hi - lo
  {
    if lo == hi then None
    else if IsUrlEndChar(s[hi - 1]) then Some(hi)
    else LastEnd(s, lo, hi - 1)
  }

  /** `LastEnd` finds the last end character, and finds none only when there is none. */
  lemma {:induction false} LastEndCorrect(s: string, lo: nat, hi: nat)
    requires lo <= hi <= |s|
    ensures LastEnd(s, lo, hi).Some? ==> IsUrlEndChar(s[LastEnd(s, lo, hi).value - 1])
    ensures LastEnd(s, lo, hi).Some? ==> forall m :: LastEnd(s, lo, hi).value <= m < hi ==> !IsUrlEndChar(s[m])
    ensures LastEnd(s, lo, hi).None? ==> forall m :: lo <= m < hi ==> !IsUrlEndChar(s[m])
    decreases hi - lo
  {
    if lo < hi && !IsUrlEndChar(s[hi - 1]) {
      LastEndCorrect(s, lo, hi - 1);
    }
  }

  /**
   * The end of the match that begins at `i`, if any: the scheme, then the
   * longest run of URL characters, cut back to its last end character.
   */
  function MatchAt(s: string, i: nat): (r: Option<nat>)
    requires i <= |s|
    ensures r.Some? ==> i < r.value <= |s|
  {
    var n := SchemeAt(s, i);
    if n == 0 then None
    else LastEnd(s, i + n, RunEnd(s, i + n))
  }

  /** Any match from `i` ends within the run, at or before the run's last end character. */
  lemma ShapeWithinRun(s: string, i: nat, j: nat)
    requires i <= j <= |s| && MatchShape(s, i, j)
    ensures LastEnd(s, i + SchemeAt(s, i), RunEnd(s, i + SchemeAt(s, i))).Some?
    ensures j <= LastEnd(s, i + SchemeAt(s, i), RunEnd(s, i + SchemeAt(s, i))).value
  {
    var n := SchemeAt(s, i);
    var e := RunEnd(s, i + n);
    RunEndCorrect(s, i + n);
    LastEndCorrect(s, i + n, e);
    assert j <= e;
  }

  /** `MatchAt` finds a match exactly when one begins at `i`, and the longest one. */
  lemma MatchAtCorrect(s: string, i: nat)
    requires i <= |s|
    ensures MatchAt(s, i).Some? ==> IsUrl(s[i..MatchAt(s, i).value])
    ensures MatchAt(s, i).Some? ==> forall j {:trigger IsUrl(s[i..j])} :: MatchAt(s, i).value < j <= |s| ==> !IsUrl(s[i..j])
    ensures MatchAt(s, i).None? ==> forall j {:trigger IsUrl(s[i..j])} :: i <= j <= |s| ==> !IsUrl(s[i..j])
  {
    var r := MatchAt(s, i);
    if r.Some? {
      var n := SchemeAt(s, i);
      RunEndCorrect(s, i + n);
      LastEndCorrect(s, i + n, RunEnd(s, i + n));
      UrlIffShape(s, i, r.value);
    }
    forall j | i <= j <= |s| && (r.None? || r.value < j)
      ensures !IsUrl(s[i..j])
    {
      NotBeyondMatch(s, i, j);
    }
  }

  /** No match from `i` ends past where `MatchAt` stops, or exists when it finds none. */
  lemma NotBeyondMatch(s: string, i: nat, j: nat)
    requires i <= j <= |s|
    requires MatchAt(s, i).None? || MatchAt(s, i).value < j
    ensures !IsUrl(s[i..j])
  {
    UrlIffShape(s, i, j);
    if MatchShape(s, i, j) {
      ShapeWithinRun(s, i, j);
    }
  }

  /** The leftmost position at or after `k` where a match begins, with its end. */
  function SearchFrom(s: string, k: nat): (r: Option<(nat, nat)>)
    requires k <= |s|
    ensures r.Some? ==> k <= r.value.0 < r.value.1 <= |s| && MatchAt(s, r.value.0) == Some(r.value.1)
    ensures r.Some? ==> forall a :: k <= a < r.value.0 ==> MatchAt(s, a).None?
    ensures r.None? ==> forall a :: k <= a <= |s| ==> MatchAt(s, a).None?
    decreases |s| - k
  {
    match MatchAt(s, k)
    case Some(e) => Some((k, e))
    case None => if k == |s| then None else SearchFrom(s, k + 1)
  }

  /** `url_regex.search(s)`, as the pair (start, end) of the match it returns. */
  function Search(s: string): (r: Option<(nat, nat)>)
    ensures r.Some? ==> r.value.0 < r.value.1 <= |s|
  {
    SearchFrom(s, 0)
  }

  /**
   * What `Search` returns is the leftmost match and, at its start, the
   * longest; there is none exactly when the text holds no match, and the text
   * before the match holds none.
   */
  lemma SearchCorrect(s: string)
    ensures Search(s).None? <==> NoUrl(s)
    ensures Search(s).Some? ==> IsUrl(s[Search(s).value.0..Search(s).value.1])
    ensures Search(s).Some? ==> forall j {:trigger IsUrl(s[Search(s).value.0..j])} :: Search(s).value.1 < j <= |s| ==> !IsUrl(s[Search(s).value.0..j])
    ensures Search(s).Some? ==> forall a, b {:trigger IsUrl(s[a..b])} :: 0 <= a < Search(s).value.0 && a <= b <= |s| ==> !IsUrl(s[a..b])
    ensures Search(s).Some? ==> NoUrl(s[..Search(s).value.0])
  {
    var r := Search(s);
    if r.None? {
      forall a, b | 0 <= a <= b <= |s|
        ensures !IsUrl(s[a..b])
      {
        MatchAtCorrect(s, a);
      }
    } else {
      var i, j := r.value.0, r.value.1;
      MatchAtCorrect(s, i);
      forall a, b | 0 <= a < i && a <= b <= |s|
        ensures !IsUrl(s[a..b])
      {
        MatchAtCorrect(s, a);
      }
      forall a, b | 0 <= a <= b <= i
        ensures !IsUrl(s[..i][a..b])
      {
        assert s[..i][a..b] == s[a..b];
        if a < i {
          MatchAtCorrect(s, a);
        }
      }
    }
  }
}
