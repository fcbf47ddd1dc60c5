/**
 * `Outputter.format_all_urls`: every match of the URL pattern in a text is
 * replaced by what the renderer's `format_url` makes of it, scanning left to
 * right without overlap; the rest of the text is kept as it is.
 */
module Urls {
  import opened Wrappers
  import opened Strings
  import opened UrlPattern

  /** One step of the scan: the text kept before a match, and the match. */
  datatype Piece = Piece(before: string, url: string)

  /** The scanned text put back together. */
  function Joined(pieces: seq<Piece>): string
  {
    if pieces == [] then "" else pieces[0].before + pieces[0].url + Joined(pieces[1..])
  }

  /** The scanned text with each match passed through `formatUrl`. */
  function Replaced(formatUrl: string -> string, pieces: seq<Piece>): string
  {
    if pieces == [] then "" else pieces[0].before + formatUrl(pieces[0].url) + Replaced(formatUrl, pieces[1..])
  }

  /**
   * The leftmost non-overlapping matches of `text`, in order, and the text
   * after the last one; nothing is lost or repeated.
   */
  function Scan(text: string): (r: (seq<Piece>, string))
    ensures Joined(r.0) + r.1 == text
    decreases |text|
  {
    match Search(text)
    case None => ([], text)
    case Some((i, j)) =>
      var tail := Scan(text[j..]);
      var p := Piece(text[..i], text[i..j]);
      assert ([p] + tail.0)[1..] == tail.0;
      Reassemble(text, i, j, Joined(tail.0), tail.1);
      ([p] + tail.0, tail.1)
  }

  /**
   * Every substring the scan hands to `format_url` is a match of the
   * pattern, and the text it keeps as it is holds no match.
   */
  lemma {:induction false} ScanMatches(text: string)
    ensures forall k :: 0 <= k < |Scan(text).0| ==> IsUrl(Scan(text).0[k].url) && NoUrl(Scan(text).0[k].before)
    ensures NoUrl(Scan(text).1)
    decreases |text|
  {
    SearchCorrect(text);
    match Search(text)
    case None =>
    case Some((i, j)) =>
      ScanMatches(text[j..]);
      var tail := Scan(text[j..]);
      var p := Piece(text[..i], text[i..j]);
      assert Scan(text) == ([p] + tail.0, tail.1);
      assert forall k :: 0 < k < |Scan(text).0| ==> Scan(text).0[k] == tail.0[k - 1];
  }

  /** The scanned text that follows piece `k`: the later pieces and the rest. */
  function After(r: (seq<Piece>, string), k: nat): string
    requires k < |r.0|
  {
    Joined(r.0[k + 1..]) + r.1
  }

  /**
   * Seen from the start of `p`, with `after` following it: no match begins
   * inside `p.before`, and no match at the start of `p.url` runs past its end.
   */
  predicate LeftmostLongest(p: Piece, after: string)
  {
    var t := p.before + p.url + after;
    (forall a, b {:trigger IsUrl(t[a..b])} :: 0 <= a < |p.before| && a <= b <= |t| ==> !IsUrl(t[a..b])) &&
    (forall b {:trigger IsUrl(t[|p.before|..b])} :: |p.before| + |p.url| < b <= |t| ==> !IsUrl(t[|p.before|..b]))
  }

  /** The match `Search` finds is the leftmost one, and the longest at its start. */
  lemma SearchLeftmostLongest(text: string, i: nat, j: nat)
    requires Search(text) == Some((i, j))
    ensures i <= j <= |text| && LeftmostLongest(Piece(text[..i], text[i..j]), text[j..])
  {
    SearchCorrect(text);
    var p := Piece(text[..i], text[i..j]);
    var t := p.before + p.url + text[j..];
    assert t == text;
  }

  /** The first match the scan takes is the one `Search` finds. */
  lemma FirstLeftmostLongest(text: string)
    requires Search(text).Some?
    ensures |Scan(text).0| > 0 && LeftmostLongest(Scan(text).0[0], After(Scan(text), 0))
  {
    var (i, j) := Search(text).value;
    SearchLeftmostLongest(text, i, j);
    var tail := Scan(text[j..]);
    var p := Piece(text[..i], text[i..j]);
    assert Scan(text) == ([p] + tail.0, tail.1);
    assert ([p] + tail.0)[1..] == tail.0;
    assert After(Scan(text), 0) == text[j..];
  }

  /** Piece `k` of a scan that took `p` first is piece `k - 1` of the scan that follows. */
  lemma AfterShift(p: Piece, tail: (seq<Piece>, string), k: nat)
    requires 1 <= k < 1 + |tail.0|
    ensures ([p] + tail.0)[k] == tail.0[k - 1]
    ensures After(([p] + tail.0, tail.1), k) == After(tail, k - 1)
  {
    assert ([p] + tail.0)[k + 1..] == tail.0[k..];
  }

  /** Each match the scan takes is the leftmost one left, and the longest at its start. */
  lemma {:induction false} ScanLeftmostLongest(text: string)
    ensures forall k :: 0 <= k < |Scan(text).0| ==> LeftmostLongest(Scan(text).0[k], After(Scan(text), k))
    decreases |text|
  {
    match Search(text)
    case None =>
    case Some((i, j)) =>
      FirstLeftmostLongest(text);
      ScanLeftmostLongest(text[j..]);
      var tail := Scan(text[j..]);
      var p := Piece(text[..i], text[i..j]);
      assert Scan(text) == ([p] + tail.0, tail.1);
      forall k | 1 <= k < |Scan(text).0|
        ensures LeftmostLongest(Scan(text).0[k], After(Scan(text), k))
      {
        AfterShift(p, tail, k);
      }
  }

  /** What `format_all_urls` returns for `text` when the renderer's `format_url` is `formatUrl`. */
  function AllUrlsFormatted(formatUrl: string -> string, text: string): string
  {
    var (pieces, rest) := Scan(text);
    Replaced(formatUrl, pieces) + rest
  }

  /** `map(self.format_all_urls, items)`: each item formatted on its own, in order. */
  function EachFormatted(formatUrl: string -> string, items: seq<string>): (r: seq<string>)
    ensures |r| == |items|
    ensures forall k :: 0 <= k < |items| ==> r[k] == AllUrlsFormatted(formatUrl, items[k])
  {
    seq(|items|, k requires 0 <= k < |items| => AllUrlsFormatted(formatUrl, items[k]))
  }

  /** The first leftmost match is formatted and the scan resumes after it. */
  lemma {:induction false} AllUrlsFormattedStep(formatUrl: string -> string, text: string)
    ensures Search(text).None? ==> AllUrlsFormatted(formatUrl, text) == text
    ensures Search(text).Some? ==>
      var (i, j) := Search(text).value;
      AllUrlsFormatted(formatUrl, text) == text[..i] + formatUrl(text[i..j]) + AllUrlsFormatted(formatUrl, text[j..])
  {
    match Search(text)
    case None =>
    case Some((i, j)) =>
      var tail := Scan(text[j..]);
      var p := Piece(text[..i], text[i..j]);
      assert Scan(text) == ([p] + tail.0, tail.1);
      assert ([p] + tail.0)[1..] == tail.0;
  }

  /**
   * The loop of `format_all_urls`: append the text before the next match and
   * the formatted match, drop both, search again; then append what is left.
   */
  method FormatAllUrls(formatUrl: string -> string, text: string) returns (newText: string)
    ensures newText == AllUrlsFormatted(formatUrl, text)
  {
    newText := "";
    var rest := text;
    var found := Search(rest);
    while found.Some?
      invariant found == Search(rest)
      invariant newText + AllUrlsFormatted(formatUrl, rest) == AllUrlsFormatted(formatUrl, text)
      decreases |rest|
    {
      var (i, j) := found.value;
      AllUrlsFormattedStep(formatUrl, rest);
      ghost var after := AllUrlsFormatted(formatUrl, rest[j..]);
      AppendAssoc(newText, rest[..i] + formatUrl(rest[i..j]), after);
      newText := newText + (rest[..i] + formatUrl(rest[i..j]));
      rest := rest[j..];
      found := Search(rest);
    }
    AllUrlsFormattedStep(formatUrl, rest);
    newText := newText + rest;
  }

  /** Text that holds no match comes back unchanged, whatever `formatUrl` does. */
  lemma NoUrlUnchanged(formatUrl: string -> string, text: string)
    requires NoUrl(text)
    ensures AllUrlsFormatted(formatUrl, text) == text
  {
    SearchCorrect(text);
    AllUrlsFormattedStep(formatUrl, text);
  }

  /** Text with one match: the part before, the formatted match, the part after. */
  lemma OneUrl(formatUrl: string -> string, text: string, i: nat, j: nat)
    requires Search(text) == Some((i, j))
    requires NoUrl(text[j..])
    ensures AllUrlsFormatted(formatUrl, text) == text[..i] + formatUrl(text[i..j]) + text[j..]
  {
    SearchCorrect(text[j..]);
    AllUrlsFormattedStep(formatUrl, text);
    AllUrlsFormattedStep(formatUrl, text[j..]);
  }

  lemma {:induction false} ReplacedIdentity(formatUrl: string -> string, pieces: seq<Piece>)
    requires forall u :: formatUrl(u) == u
    ensures Replaced(formatUrl, pieces) == Joined(pieces)
    decreases |pieces|
  {
    if pieces != [] {
      ReplacedIdentity(formatUrl, pieces[1..]);
    }
  }

  /** A `formatUrl` that leaves every URL alone leaves every text alone. */
  lemma IdentityUnchanged(formatUrl: string -> string, text: string)
    requires forall u :: formatUrl(u) == u
    ensures AllUrlsFormatted(formatUrl, text) == text
  {
    ReplacedIdentity(formatUrl, Scan(text).0);
  }

  /** Each match costs `formatUrl` a fixed number of extra characters. */
  lemma {:induction false} ReplacedLength(formatUrl: string -> string, pieces: seq<Piece>, extra: nat)
    requires forall u :: |formatUrl(u)| == |u| + extra
    ensures |Replaced(formatUrl, pieces)| == |Joined(pieces)| + extra * |pieces|
    decreases |pieces|
  {
    if pieces != [] {
      ReplacedLength(formatUrl, pieces[1..], extra);
      assert extra * |pieces| == extra * |pieces[1..]| + extra;
    }
  }

  /** With a wrapper that adds `extra` characters, the text grows by `extra` per match. */
  lemma AllUrlsLength(formatUrl: string -> string, text: string, extra: nat)
    requires forall u :: |formatUrl(u)| == |u| + extra
    ensures |AllUrlsFormatted(formatUrl, text)| == |text| + extra * |Scan(text).0|
  {
    ReplacedLength(formatUrl, Scan(text).0, extra);
  }
}
