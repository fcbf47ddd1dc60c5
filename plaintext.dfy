/** The formatting primitives and entry layouts of the plain-text renderer. */
module Plaintext {
  import opened Wrappers
  import opened Strings
  import opened TextWrap
  import opened Records
  import Urls

  /** A spaced hyphen between the two dates. */
  function FormatDateRange(start: string, end: string): (r: string)
    ensures |r| == |start| + 3 + |end|
    ensures r[..|start|] == start && r[|start|..|start| + 3] == " - " && r[|start| + 3..] == end
  {
    start + " - " + end
  }

  /** Plain text has no links: an address is shown as it is. */
  function FormatEmail(email: string): (r: string)
    ensures r == email
  {
    email
  }

  /** The heading over an underline of the same length: `=` at level 1, `-` at every other level. */
  function FormatHeading(heading: string, level: int): (r: string)
    ensures |r| == 2 * |heading| + 1
    ensures r[..|heading|] == heading && r[|heading|] == '\n'
    ensures forall k :: |heading| < k < |r| ==> r[k] == if level == 1 then '=' else '-'
  {
    var underline := if level == 1 then '=' else '-';
    heading + "\n" + Repeat(underline, |heading|)
  }

  /** A one-line heading reads back as two lines: the heading and its underline. */
  lemma HeadingLines(heading: string, level: int)
    requires '\n' !in heading
    ensures Split(FormatHeading(heading, level), '\n') == [heading, Repeat(if level == 1 then '=' else '-', |heading|)]
  {
    var underline := Repeat(if level == 1 then '=' else '-', |heading|);
    assert FormatHeading(heading, level) == heading + ['\n'] + underline;
    SplitFirst(heading, '\n', underline);
    SplitNoSeparator(underline, '\n');
  }

  /** One wrapped `* ` block per item, separated by newlines. */
  function FormatList(fill: Fill, items: seq<string>): (r: string)
    ensures items == [] ==> r == ""
    ensures |items| == 1 ==> r == fill(ListItemWrap, "* " + items[0])
  {
    Join("\n", Bulleted(fill, "* ", items))
  }

  /** When no wrapped block spans several lines, the list's lines are the items' blocks in order. */
  lemma ListLines(fill: Fill, items: seq<string>)
    requires |items| > 0
    requires forall k :: 0 <= k < |items| ==> '\n' !in fill(ListItemWrap, "* " + items[k])
    ensures Split(FormatList(fill, items), '\n') == Bulleted(fill, "* ", items)
  {
    SplitJoin(Bulleted(fill, "* ", items), '\n');
  }

  /** Area code in parentheses, then exchange and line number joined by a hyphen, clamped like Python slices. */
  function FormatPhone(phone: string): (r: string)
    ensures |r| == 3 + Min(|phone|, 10)
    ensures |phone| >= 10 ==> r == "(" + phone[..3] + ")" + phone[3..6] + "-" + phone[6..10]
  {
    "(" + Slice(phone, 0, 3) + ")" + Slice(phone, 3, 6) + "-" + Slice(phone, 6, 10)
  }

  const PhonePunctuation: set<char> := {'(', ')', '-'}

  /** Deleting the inserted punctuation gives back the first ten characters of the number. */
  lemma PhoneDigits(phone: string)
    requires forall k :: 0 <= k < |phone| ==> phone[k] !in PhonePunctuation
    ensures Without(FormatPhone(phone), PhonePunctuation) == phone[..Min(|phone|, 10)]
  {
    var a, b, c := Slice(phone, 0, 3), Slice(phone, 3, 6), Slice(phone, 6, 10);
    SlicesConcat(phone, 0, 3, 6);
    SlicesConcat(phone, 0, 6, 10);
    assert a + b + c == phone[..Min(|phone|, 10)];
    WithoutNone(a, PhonePunctuation);
    WithoutNone(b, PhonePunctuation);
    WithoutNone(c, PhonePunctuation);
    var t1 := "(" + a;
    WithoutAppend("(", a, PhonePunctuation);
    assert Without(t1, PhonePunctuation) == a;
    var t2 := t1 + ")";
    WithoutAppend(t1, ")", PhonePunctuation);
    assert Without(t2, PhonePunctuation) == a;
    var t3 := t2 + b;
    WithoutAppend(t2, b, PhonePunctuation);
    var t4 := t3 + "-";
    WithoutAppend(t3, "-", PhonePunctuation);
    assert Without(t4, PhonePunctuation) == a + b;
    WithoutAppend(t4, c, PhonePunctuation);
  }

  /** A ten-digit number in the usual North American grouping. */
  lemma PhoneExample()
    ensures FormatPhone("5551234567") == "(555)123-4567"
    ensures |FormatPhone("5551234567")| == 13
  {
    var p := "5551234567";
    assert p[..3] == "555" && p[3..6] == "123" && p[6..10] == "4567";
  }

  /** Plain text has no links: a URL is shown as it is. */
  function FormatUrl(url: string): (r: string)
    ensures r == url
  {
    url
  }

  /** URL formatting is the identity here, so every text passes through unchanged. */
  lemma AllUrlsUnchanged(text: string)
    ensures Urls.AllUrlsFormatted(FormatUrl, text) == text
  {
    Urls.IdentityUnchanged(FormatUrl, text);
  }

  /** The summary filled to 80 columns; it has no markup to add. */
  function FormatSummary(fill: Fill, summary: string): (r: string)
    ensures r == fill(SummaryWrap, summary)
  {
    AllUrlsUnchanged(summary);
    fill(SummaryWrap, Urls.AllUrlsFormatted(FormatUrl, summary))
  }

  /** Name, labelled address, phone and e-mail, then a blank line. */
  function HeaderLines(profile: Profile): seq<string>
  {
    [profile.name, "Address: " + profile.address, "Phone: " + FormatPhone(profile.phone),
     "Email: " + FormatEmail(profile.email), ""]
  }

  function JobLines(fill: Fill, job: Job): seq<string>
  {
    [FormatHeading(job.title + " (" + FormatDateRange(job.start, job.end) + ")", 2),
     "Organization: " + job.organization,
     "Location: " + job.location,
     FormatList(fill, job.experiences)]
  }

  function ReferenceLines(reference: Reference): seq<string>
  {
    [FormatHeading(reference.name, 2),
     "Relationship: " + reference.relationship,
     "Email: " + FormatEmail(reference.email),
     "Phone: " + FormatPhone(reference.phone)]
  }

  function SchoolLines(fill: Fill, school: School): seq<string>
  {
    [FormatHeading(school.name, 2),
     "Graduated: " + school.graduated,
     "Degree: " + school.degree,
     "Overall G.P.A.: " + school.gpa,
     "Awards and designations:",
     FormatList(fill, school.awards)]
  }

  /** Plain text needs nothing before or after the body. */
  function PreambleLines(metadata: Option<Metadata>): seq<string>
  {
    []
  }

  function PostambleLines(): seq<string>
  {
    []
  }
}
