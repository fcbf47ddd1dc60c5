/**
 * The formatting primitives and entry layouts of the LaTeX renderer.
 * Nothing is escaped: every argument is copied into the markup verbatim.
 */
module Latex {
  import opened Wrappers
  import opened Strings
  import opened TextWrap
  import opened UrlPattern
  import opened Records
  import Urls

  /** An en-dash between the two dates. */
  function FormatDateRange(start: string, end: string): (r: string)
    ensures |r| == |start| + 2 + |end|
    ensures r[..|start|] == start && r[|start|..|start| + 2] == "--" && r[|start| + 2..] == end
  {
    start + "--" + end
  }

  /** A `mailto:` link whose visible text is the address itself. */
  function FormatEmail(email: string): (r: string)
    ensures |r| == 2 * |email| + 16
    ensures r[..13] == "\\href{mailto:" && r[13..13 + |email|] == email
    ensures r[13 + |email|..15 + |email|] == "}{" && r[15 + |email|..|r| - 1] == email
    ensures r[|r| - 1] == '}'
  {
    "\\href{mailto:" + email + "}{" + email + "}"
  }

  /** An unnumbered section at level 1, bold text at every other level. */
  function FormatHeading(heading: string, level: int): (r: string)
    ensures var open := if level == 1 then "\\section*{" else "\\textbf{";
      |r| == |open| + |heading| + 1 && r[..|open|] == open && r[|open|..|r| - 1] == heading && r[|r| - 1] == '}'
  {
    if level == 1 then "\\section*{" + heading + "}" else "\\textbf{" + heading + "}"
  }

  const BeginItemize := "\\begin{itemize}"
  const EndItemize := "\\end{itemize}"

  /** An itemize environment holding one wrapped `\item` block per item. */
  function FormatList(fill: Fill, items: seq<string>): (r: string)
    ensures items == [] ==> r == "\\begin{itemize}\n\n\\end{itemize}"
  {
    BeginItemize + "\n" + Join("\n", Bulleted(fill, "\\item ", items)) + "\n" + EndItemize
  }

  /**
   * When no wrapped block spans several lines, the list's lines are the
   * environment's opening, one line per item in order, and its closing.
   */
  lemma ListLines(fill: Fill, items: seq<string>)
    requires |items| > 0
    requires forall k :: 0 <= k < |items| ==> '\n' !in fill(ListItemWrap, "\\item " + items[k])
    ensures Split(FormatList(fill, items), '\n') == [BeginItemize] + Bulleted(fill, "\\item ", items) + [EndItemize]
  {
    var blocks := Bulleted(fill, "\\item ", items);
    JoinAppend("\n", [BeginItemize], blocks);
    JoinAppend("\n", [BeginItemize] + blocks, [EndItemize]);
    assert FormatList(fill, items) == Join("\n", [BeginItemize] + blocks + [EndItemize]);
    SplitJoin([BeginItemize] + blocks + [EndItemize], '\n');
  }

  /** The name set large and bold, as the letterhead shows it. */
  function FormatName(name: string): (r: string)
    ensures |r| == |name| + 18
    ensures r[..17] == "{\\Large\\bfseries " && r[17..|r| - 1] == name && r[|r| - 1] == '}'
  {
    "{\\Large\\bfseries " + name + "}"
  }

  /** The visible text of a phone link: area code, exchange and line number, clamped like Python slices. */
  function PhoneText(phone: string): (r: string)
    ensures |phone| >= 10 ==> r == "(" + phone[..3] + ") " + phone[3..6] + "--" + phone[6..10]
  {
    "(" + Slice(phone, 0, 3) + ") " + Slice(phone, 3, 6) + "--" + Slice(phone, 6, 10)
  }

  /** A `tel:` link to the whole number with country code 1, showing the first ten characters grouped. */
  function FormatPhone(phone: string): (r: string)
    ensures |phone| >= 10 ==>
      r == "\\href{tel:+1" + phone + "}{(" + phone[..3] + ") " + phone[3..6] + "--" + phone[6..10] + "}"
  {
    "\\href{" + ("tel:+1" + phone) + "}{" + PhoneText(phone) + "}"
  }

  /** A ten-digit number links to `tel:+1` followed by the number and shows it grouped. */
  lemma PhoneExample()
    ensures FormatPhone("5551234567") == "\\href{tel:+15551234567}{(555) 123--4567}"
  {
    var p := "5551234567";
    assert p[..3] == "555" && p[3..6] == "123" && p[6..10] == "4567";
  }

  /** A bare `\url` for a URL. */
  function FormatUrl(url: string): (r: string)
    ensures |r| == |url| + 6
    ensures r[..5] == "\\url{" && r[5..|r| - 1] == url && r[|r| - 1] == '}'
  {
    "\\url{" + url + "}"
  }

  /** Marking up adds exactly the six characters of `\url{}` around each URL the scanner finds. */
  lemma UrlsLength(text: string)
    ensures |Urls.AllUrlsFormatted(FormatUrl, text)| == |text| + 6 * |Urls.Scan(text).0|
  {
    Urls.AllUrlsLength(FormatUrl, text, 6);
  }

  /** The summary with its URLs marked up, filled to 80 columns. */
  function FormatSummary(fill: Fill, summary: string): (r: string)
    ensures NoUrl(summary) ==> r == fill(SummaryWrap, summary)
  {
    assert NoUrl(summary) ==> Urls.AllUrlsFormatted(FormatUrl, summary) == summary by {
      if NoUrl(summary) {
        Urls.NoUrlUnchanged(FormatUrl, summary);
      }
    }
    fill(SummaryWrap, Urls.AllUrlsFormatted(FormatUrl, summary))
  }

  /** The characters the phone layout inserts. */
  const PhonePunctuation: set<char> := {'(', ')', ' ', '-'}

  /** Deleting the inserted punctuation from the link text gives back the first ten characters. */
  lemma PhoneTextDigits(phone: string)
    requires forall k :: 0 <= k < |phone| ==> phone[k] !in PhonePunctuation
    ensures Without(PhoneText(phone), PhonePunctuation) == phone[..Min(|phone|, 10)]
  {
    var a, b, c := Slice(phone, 0, 3), Slice(phone, 3, 6), Slice(phone, 6, 10);
    SlicesConcat(phone, 0, 3, 6);
    SlicesConcat(phone, 0, 6, 10);
    assert a + b + c == phone[..Min(|phone|, 10)];
    WithoutNone(a, PhonePunctuation);
    WithoutNone(b, PhonePunctuation);
    WithoutNone(c, PhonePunctuation);
    var t1 := "(" + a;
    WithoutAppend("(", a, PhonePunctuation);
    assert Without(t1, PhonePunctuation) == a;
    var t2 := t1 + ") ";
    WithoutAppend(t1, ") ", PhonePunctuation);
    assert Without(t2, PhonePunctuation) == a;
    var t3 := t2 + b;
    WithoutAppend(t2, b, PhonePunctuation);
    var t4 := t3 + "--";
    WithoutAppend(t3, "--", PhonePunctuation);
    assert Without(t4, PhonePunctuation) == a + b;
    WithoutAppend(t4, c, PhonePunctuation);
  }

  /** One `\entry` macro call with its four arguments on separate lines. */
  function Entry(a: string, b: string, c: string, d: string): string
  {
    "\\entry{" + a + "}\n{" + b + "}\n{" + c + "}\n{" + d + "}"
  }

  /** The centred letterhead: name large and bold, then address, phone link and e-mail link. */
  function HeaderLines(profile: Profile): seq<string>
  {
    ["\\begin{center}\n  " + FormatName(profile.name) + " \\\\\n  " + profile.address + " \\\\\n  "
     + FormatPhone(profile.phone) + " \\\\\n  " + FormatEmail(profile.email) + "\n\\end{center}\n"]
  }

  function JobLines(fill: Fill, job: Job): seq<string>
  {
    [Entry(job.title, FormatDateRange(job.start, job.end), job.organization, job.location),
     FormatList(fill, Urls.EachFormatted(FormatUrl, job.experiences))]
  }

  function ReferenceLines(reference: Reference): seq<string>
  {
    ["\\reference{" + reference.name + "}\n{" + reference.relationship + "}\n{"
     + FormatEmail(reference.email) + "}\n{" + FormatPhone(reference.phone) + "}"]
  }

  function SchoolLines(fill: Fill, school: School): seq<string>
  {
    [Entry(school.name, school.graduated, school.degree, "Overall G.P.A.: " + school.gpa),
     FormatList(fill, Urls.EachFormatted(FormatUrl, school.awards))]
  }

  const DocumentClass := "\\documentclass[10pt]{article}\n\\input{common_preamble.tex}"
  const BeginDocument := "\\begin{document}"
  const EndDocument := "\\end{document}"

  /** The four PDF fields `print_preamble` may set, in the order it inserts them. */
  const PdfKeys: seq<string> := ["pdfauthor", "pdftitle", "pdfsubject", "pdfkeywords"]

  /** The position of a PDF field in `PdfKeys`. */
  function KeyRank(key: string): (r: nat)
    requires key in PdfKeys
    ensures r < |PdfKeys| && PdfKeys[r] == key
  {
    if key == "pdfauthor" then 0
    else if key == "pdftitle" then 1
    else if key == "pdfsubject" then 2
    else 3
  }

  /** The `hypersetup` entries, in insertion order: author, title, subject, keywords. */
  function Hypersetup(metadata: Option<Metadata>): (r: seq<(string, string)>)
    ensures |r| <= 4
    ensures metadata.None? ==> r == []
  {
    if metadata.None? then []
    else
      var m := metadata.value;
      Field("pdfauthor", m.author)
      + Field("pdftitle", m.title)
      + Field("pdfsubject", m.subject)
      + Field("pdfkeywords", if m.keywords.Some? then Some(Join(", ", m.keywords.value)) else None)
  }

  /** The entry `key={value}` when the metadata has a value for it, and nothing otherwise. */
  function Field(key: string, value: Option<string>): seq<(string, string)>
  {
    if value.Some? then [(key, value.value)] else []
  }

  /**
   * Every entry is one of the first `top` PDF fields, and the fields appear in
   * strictly increasing `PdfKeys` order, none twice.
   */
  predicate Ranked(r: seq<(string, string)>, top: nat)
  {
    (forall k :: 0 <= k < |r| ==> r[k].0 in PdfKeys && KeyRank(r[k].0) < top) &&
    (forall i, j :: 0 <= i < j < |r| ==> r[i].0 in PdfKeys && r[j].0 in PdfKeys && KeyRank(r[i].0) < KeyRank(r[j].0))
  }

  /** Appending the entry for field `top`, if any, to a list `Ranked` below `top` keeps it ranked. */
  lemma RankedField(a: seq<(string, string)>, top: nat, value: Option<string>)
    requires top < |PdfKeys| && Ranked(a, top)
    ensures Ranked(a + Field(PdfKeys[top], value), top + 1)
  {
  }

  /** Building the entries field by field keeps them `Ranked`. */
  lemma HypersetupRanked(metadata: Option<Metadata>)
    ensures Ranked(Hypersetup(metadata), |PdfKeys|)
  {
    if metadata.Some? {
      var m := metadata.value;
      var keywords := if m.keywords.Some? then Some(Join(", ", m.keywords.value)) else None;
      var a := Field(PdfKeys[0], m.author);
      var t := Field(PdfKeys[1], m.title);
      var s := Field(PdfKeys[2], m.subject);
      var k := Field(PdfKeys[3], keywords);
      assert Hypersetup(metadata) == a + t + s + k;
      assert Ranked(a, 1) by {
        assert [] + a == a;
        RankedField([], 0, m.author);
      }
      assert Ranked(a + t, 2) by {
        RankedField(a, 1, m.title);
      }
      assert Ranked(a + t + s, 3) by {
        RankedField(a + t, 2, m.subject);
      }
      RankedField(a + t + s, 3, keywords);
    }
  }

  /** The `hypersetup` entries hold only the four PDF fields, in insertion order, none twice. */
  lemma HypersetupKeys(metadata: Option<Metadata>)
    ensures var r := Hypersetup(metadata);
      forall k :: 0 <= k < |r| ==> r[k].0 in PdfKeys
    ensures var r := Hypersetup(metadata);
      forall i, j :: 0 <= i < j < |r| ==> r[i].0 in PdfKeys && r[j].0 in PdfKeys && KeyRank(r[i].0) < KeyRank(r[j].0)
  {
    HypersetupRanked(metadata);
  }

  /** The value stored under `key` in an association list, the first one if several. */
  function Lookup(pairs: seq<(string, string)>, key: string): (r: Option<string>)
    ensures r.Some? <==> exists k :: 0 <= k < |pairs| && pairs[k].0 == key
  {
    if pairs == [] then None
    else if pairs[0].0 == key then Some(pairs[0].1)
    else
      var r := Lookup(pairs[1..], key);
      assert forall k :: 1 <= k < |pairs| ==> pairs[k] == pairs[1..][k - 1];
      r
  }

  lemma {:induction false} LookupAppend(a: seq<(string, string)>, b: seq<(string, string)>, key: string)
    ensures Lookup(a + b, key) == if Lookup(a, key).Some? then Lookup(a, key) else Lookup(b, key)
    decreases |a|
  {
    if a == [] {
      assert a + b == b;
    } else {
      assert (a + b)[0] == a[0];
      assert (a + b)[1..] == a[1..] + b;
      LookupAppend(a[1..], b, key);
    }
  }

  /** Each PDF field is set exactly when the metadata has the corresponding key, to that value. */
  lemma HypersetupLookup(m: Metadata)
    ensures Lookup(Hypersetup(Some(m)), "pdfauthor") == m.author
    ensures Lookup(Hypersetup(Some(m)), "pdftitle") == m.title
    ensures Lookup(Hypersetup(Some(m)), "pdfsubject") == m.subject
    ensures Lookup(Hypersetup(Some(m)), "pdfkeywords") == if m.keywords.Some? then Some(Join(", ", m.keywords.value)) else None
  {
    var a := if m.author.Some? then [("pdfauthor", m.author.value)] else [];
    var t := if m.title.Some? then [("pdftitle", m.title.value)] else [];
    var s := if m.subject.Some? then [("pdfsubject", m.subject.value)] else [];
    var k := if m.keywords.Some? then [("pdfkeywords", Join(", ", m.keywords.value))] else [];
    assert Hypersetup(Some(m)) == a + t + s + k;
    LookupKeys(a + t + s, k, "pdfauthor", "pdftitle", "pdfsubject", "pdfkeywords");
    LookupKeys(a + t, s, "pdfauthor", "pdftitle", "pdfsubject", "pdfkeywords");
    LookupKeys(a, t, "pdfauthor", "pdftitle", "pdfsubject", "pdfkeywords");
  }

  lemma LookupKeys(a: seq<(string, string)>, b: seq<(string, string)>, k1: string, k2: string, k3: string, k4: string)
    ensures Lookup(a + b, k1) == if Lookup(a, k1).Some? then Lookup(a, k1) else Lookup(b, k1)
    ensures Lookup(a + b, k2) == if Lookup(a, k2).Some? then Lookup(a, k2) else Lookup(b, k2)
    ensures Lookup(a + b, k3) == if Lookup(a, k3).Some? then Lookup(a, k3) else Lookup(b, k3)
    ensures Lookup(a + b, k4) == if Lookup(a, k4).Some? then Lookup(a, k4) else Lookup(b, k4)
  {
    LookupAppend(a, b, k1);
    LookupAppend(a, b, k2);
    LookupAppend(a, b, k3);
    LookupAppend(a, b, k4);
  }

  /** The block is present unless there is no metadata or every field is absent. */
  lemma HypersetupEmpty(metadata: Option<Metadata>)
    ensures Hypersetup(metadata) == [] <==> metadata.None? || metadata.value == NoMetadata
  {
  }

  function Tags(pairs: seq<(string, string)>): (r: seq<string>)
    ensures |r| == |pairs|
    ensures forall k :: 0 <= k < |pairs| ==> r[k] == pairs[k].0 + "={" + pairs[k].1 + "}"
  {
    seq(|pairs|, k requires 0 <= k < |pairs| => pairs[k].0 + "={" + pairs[k].1 + "}")
  }

  /** The `\hypersetup` block, one `key={value}` per line. */
  function HypersetupBlock(pairs: seq<(string, string)>): string
  {
    "\\hypersetup{\n  " + Join(",\n  ", Tags(pairs)) + "\n}"
  }

  /** The preamble: document class, the `hypersetup` block when there is anything to set, `\begin{document}`. */
  function PreambleLines(metadata: Option<Metadata>): (r: seq<string>)
    ensures |r| == if Hypersetup(metadata) == [] then 2 else 3
    ensures r[0] == DocumentClass && r[|r| - 1] == BeginDocument
    ensures Hypersetup(metadata) != [] ==> r[1] == HypersetupBlock(Hypersetup(metadata))
  {
    var pairs := Hypersetup(metadata);
    [DocumentClass] + (if pairs == [] then [] else [HypersetupBlock(pairs)]) + [BeginDocument]
  }

  function PostambleLines(): seq<string>
  {
    [EndDocument]
  }
}
