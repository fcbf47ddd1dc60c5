/**
 * The document traversal shared by both renderers: which chunks each
 * `print_*` operation writes, in which order, and the outputter whose sink
 * every `Print` appends to.
 */
module Document {
  import opened Wrappers
  import Strings
  import opened TextWrap
  import opened Records
  import Urls
  import Latex
  import Plaintext

  /** The two concrete renderers. */
  datatype Format = LatexFormat | PlaintextFormat

  function FormatHeading(format: Format, heading: string, level: int): string
  {
    match format
    case LatexFormat => Latex.FormatHeading(heading, level)
    case PlaintextFormat => Plaintext.FormatHeading(heading, level)
  }

  function FormatList(format: Format, fill: Fill, items: seq<string>): string
  {
    match format
    case LatexFormat => Latex.FormatList(fill, items)
    case PlaintextFormat => Plaintext.FormatList(fill, items)
  }

  function FormatSummary(format: Format, fill: Fill, summary: string): string
  {
    match format
    case LatexFormat => Latex.FormatSummary(fill, summary)
    case PlaintextFormat => Plaintext.FormatSummary(fill, summary)
  }

  function FormatUrl(format: Format): string -> string
  {
    match format
    case LatexFormat => Latex.FormatUrl
    case PlaintextFormat => Plaintext.FormatUrl
  }

  function HeaderLines(format: Format, profile: Profile): seq<string>
  {
    match format
    case LatexFormat => Latex.HeaderLines(profile)
    case PlaintextFormat => Plaintext.HeaderLines(profile)
  }

  function JobLines(format: Format, fill: Fill, job: Job): seq<string>
  {
    match format
    case LatexFormat => Latex.JobLines(fill, job)
    case PlaintextFormat => Plaintext.JobLines(fill, job)
  }

  function SchoolLines(format: Format, fill: Fill, school: School): seq<string>
  {
    match format
    case LatexFormat => Latex.SchoolLines(fill, school)
    case PlaintextFormat => Plaintext.SchoolLines(fill, school)
  }

  function ReferenceLines(format: Format, reference: Reference): seq<string>
  {
    match format
    case LatexFormat => Latex.ReferenceLines(reference)
    case PlaintextFormat => Plaintext.ReferenceLines(reference)
  }

  function PreambleLines(format: Format, metadata: Option<Metadata>): seq<string>
  {
    match format
    case LatexFormat => Latex.PreambleLines(metadata)
    case PlaintextFormat => Plaintext.PreambleLines(metadata)
  }

  function PostambleLines(format: Format): seq<string>
  {
    match format
    case LatexFormat => Latex.PostambleLines()
    case PlaintextFormat => Plaintext.PostambleLines()
  }

  /** A skill: a level-2 heading over the list of its notes, URLs formatted. */
  function SkillLines(format: Format, fill: Fill, skill: Skill): seq<string>
  {
    [FormatHeading(format, skill.name, 2), FormatList(format, fill, Urls.EachFormatted(FormatUrl(format), skill.notes))]
  }

  function SummaryLines(format: Format, fill: Fill, summary: string): seq<string>
  {
    [FormatHeading(format, "Summary", 1), FormatSummary(format, fill, summary), ""]
  }

  /** Each publication as its title followed by its formatted URL in parentheses. */
  function PublicationItems(format: Format, publications: seq<Publication>): (r: seq<string>)
    ensures |r| == |publications|
    ensures forall k :: 0 <= k < |publications| ==>
      r[k] == publications[k].title + " (" + FormatUrl(format)(publications[k].url) + ")"
  {
    seq(|publications|, k requires 0 <= k < |publications| =>
      publications[k].title + " (" + FormatUrl(format)(publications[k].url) + ")")
  }

  function PublicationsLines(format: Format, fill: Fill, publications: seq<Publication>): seq<string>
  {
    [FormatHeading(format, "Publications and presentations", 1),
     FormatList(format, fill, PublicationItems(format, publications)), ""]
  }

  /** The entries of the education section in input order, each followed by one blank line. */
  function SchoolsEntries(format: Format, fill: Fill, education: seq<School>): seq<string>
    decreases |education|
  {
    if education == [] then []
    else SchoolsEntries(format, fill, education[..|education| - 1]) + SchoolLines(format, fill, education[|education| - 1]) + [""]
  }

  /** The entries of two lists printed one after the other are the entries of the joined list. */
  lemma {:induction false} SchoolsEntriesAppend(format: Format, fill: Fill, a: seq<School>, b: seq<School>)
    ensures SchoolsEntries(format, fill, a + b) == SchoolsEntries(format, fill, a) + SchoolsEntries(format, fill, b)
    decreases |b|
  {
    if b == [] {
      assert a + b == a;
    } else {
      var front := b[..|b| - 1];
      assert (a + b)[..|a + b| - 1] == a + front;
      assert (a + b)[|a + b| - 1] == b[|b| - 1];
      SchoolsEntriesAppend(format, fill, a, front);
      Strings.AppendAssocLast(SchoolsEntries(format, fill, a), SchoolsEntries(format, fill, front), SchoolLines(format, fill, b[|b| - 1]), "");
    }
  }

  function EducationLines(format: Format, fill: Fill, education: seq<School>): seq<string>
  {
    [FormatHeading(format, "Education", 1)] + SchoolsEntries(format, fill, education)
  }

  /** The entries of the experience section in input order, each followed by one blank line. */
  function JobsEntries(format: Format, fill: Fill, experience: seq<Job>): seq<string>
    decreases |experience|
  {
    if experience == [] then []
    else JobsEntries(format, fill, experience[..|experience| - 1]) + JobLines(format, fill, experience[|experience| - 1]) + [""]
  }

  /** The entries of two lists printed one after the other are the entries of the joined list. */
  lemma {:induction false} JobsEntriesAppend(format: Format, fill: Fill, a: seq<Job>, b: seq<Job>)
    ensures JobsEntries(format, fill, a + b) == JobsEntries(format, fill, a) + JobsEntries(format, fill, b)
    decreases |b|
  {
    if b == [] {
      assert a + b == a;
    } else {
      var front := b[..|b| - 1];
      assert (a + b)[..|a + b| - 1] == a + front;
      assert (a + b)[|a + b| - 1] == b[|b| - 1];
      JobsEntriesAppend(format, fill, a, front);
      Strings.AppendAssocLast(JobsEntries(format, fill, a), JobsEntries(format, fill, front), JobLines(format, fill, b[|b| - 1]), "");
    }
  }

  function ExperienceLines(format: Format, fill: Fill, experience: seq<Job>): seq<string>
  {
    [FormatHeading(format, "Experience", 1)] + JobsEntries(format, fill, experience)
  }

  /** The entries of the skills section in input order, each followed by one blank line. */
  function SkillsEntries(format: Format, fill: Fill, skills: seq<Skill>): seq<string>
    decreases |skills|
  {
    if skills == [] then []
    else SkillsEntries(format, fill, skills[..|skills| - 1]) + SkillLines(format, fill, skills[|skills| - 1]) + [""]
  }

  /** The entries of two lists printed one after the other are the entries of the joined list. */
  lemma {:induction false} SkillsEntriesAppend(format: Format, fill: Fill, a: seq<Skill>, b: seq<Skill>)
    ensures SkillsEntries(format, fill, a + b) == SkillsEntries(format, fill, a) + SkillsEntries(format, fill, b)
    decreases |b|
  {
    if b == [] {
      assert a + b == a;
    } else {
      var front := b[..|b| - 1];
      assert (a + b)[..|a + b| - 1] == a + front;
      assert (a + b)[|a + b| - 1] == b[|b| - 1];
      SkillsEntriesAppend(format, fill, a, front);
      Strings.AppendAssocLast(SkillsEntries(format, fill, a), SkillsEntries(format, fill, front), SkillLines(format, fill, b[|b| - 1]), "");
    }
  }

  function SkillsLines(format: Format, fill: Fill, skills: seq<Skill>): seq<string>
  {
    [FormatHeading(format, "Skills", 1)] + SkillsEntries(format, fill, skills)
  }

  /** The entries of the references section in input order, each followed by one blank line. */
  function ReferencesEntries(format: Format, references: seq<Reference>): seq<string>
    decreases |references|
  {
    if references == [] then []
    else ReferencesEntries(format, references[..|references| - 1]) + ReferenceLines(format, references[|references| - 1]) + [""]
  }

  /** The entries of two lists printed one after the other are the entries of the joined list. */
  lemma {:induction false} ReferencesEntriesAppend(format: Format, a: seq<Reference>, b: seq<Reference>)
    ensures ReferencesEntries(format, a + b) == ReferencesEntries(format, a) + ReferencesEntries(format, b)
    decreases |b|
  {
    if b == [] {
      assert a + b == a;
    } else {
      var front := b[..|b| - 1];
      assert (a + b)[..|a + b| - 1] == a + front;
      assert (a + b)[|a + b| - 1] == b[|b| - 1];
      ReferencesEntriesAppend(format, a, front);
      Strings.AppendAssocLast(ReferencesEntries(format, a), ReferencesEntries(format, front), ReferenceLines(format, b[|b| - 1]), "");
    }
  }

  function ReferencesLines(format: Format, references: seq<Reference>): seq<string>
  {
    [FormatHeading(format, "References", 1)] + ReferencesEntries(format, references)
  }

  /** The metadata the résumé's preamble receives. */
  function ResumeMetadata(resume: Resume): Metadata
  {
    WithDefaultAuthor(resume.metadata, resume.profile.name)
  }

  function SheetMetadata(sheet: ReferenceSheet): Metadata
  {
    WithDefaultAuthor(sheet.metadata, sheet.profile.name)
  }

  /** A résumé: preamble, header, summary, education, experience, skills, publications, postamble. */
  function ResumeLines(format: Format, fill: Fill, resume: Resume): seq<string>
  {
    PreambleLines(format, Some(ResumeMetadata(resume)))
    + HeaderLines(format, resume.profile)
    + SummaryLines(format, fill, resume.summary)
    + EducationLines(format, fill, resume.education)
    + ExperienceLines(format, fill, resume.experience)
    + SkillsLines(format, fill, resume.skills)
    + PublicationsLines(format, fill, resume.publications)
    + PostambleLines(format)
  }

  /** A reference sheet: preamble, header, the references section, postamble. */
  function SheetLines(format: Format, sheet: ReferenceSheet): seq<string>
  {
    PreambleLines(format, Some(SheetMetadata(sheet)))
    + HeaderLines(format, sheet.profile)
    + ReferencesLines(format, sheet.references)
    + PostambleLines(format)
  }

  /** A letter template: preamble without metadata, header, postamble. */
  function LetterLines(format: Format, profile: Profile): seq<string>
  {
    PreambleLines(format, None) + HeaderLines(format, profile) + PostambleLines(format)
  }

  /** What the sink holds after printing `chunks`: each chunk followed by a newline. */
  function Emit(chunks: seq<string>): string
  {
    if chunks == [] then "" else chunks[0] + "\n" + Emit(chunks[1..])
  }

  lemma {:induction false} EmitAppend(a: seq<string>, b: seq<string>)
    ensures Emit(a + b) == Emit(a) + Emit(b)
    decreases |a|
  {
    if a == [] {
      assert a + b == b;
    } else {
      assert (a + b)[0] == a[0];
      assert (a + b)[1..] == a[1..] + b;
      EmitAppend(a[1..], b);
    }
  }

  /**
   * An outputter of one format writing to an in-memory sink. `printed` is
   * the log of every text passed to `Print`, from which the sink's contents
   * follow.
   */
  class Outputter {
    const format: Format
    const fill: Fill
    var output: string
    ghost var printed: seq<string>

    ghost predicate Valid()
      reads this
    {
      output == Emit(printed)
    }

    constructor(format: Format, fill: Fill)
      ensures this.format == format && this.fill == fill
      ensures output == "" && printed == [] && Valid()
    {
      this.format := format;
      this.fill := fill;
      output := "";
      printed := [];
    }

    /** Appends the text and a newline to the sink. */
    method Print(text: string)
      requires Valid()
      modifies this
      ensures Valid() && printed == old(printed) + [text]
      ensures output == old(output) + text + "\n"
    {
      output := output + text + "\n";
      printed := printed + [text];
      EmitAppend(old(printed), [text]);
    }

    /** Every URL in the text formatted for this outputter's format. */
    method FormatAllUrls(text: string) returns (newText: string)
      ensures newText == Urls.AllUrlsFormatted(FormatUrl(format), text)
    {
      newText := Urls.FormatAllUrls(FormatUrl(format), text);
    }

    method PrintHeader(profile: Profile)
      requires Valid()
      modifies this
      ensures Valid() && printed == old(printed) + HeaderLines(format, profile)
      ensures output == old(output) + Emit(HeaderLines(format, profile))
    {
      match format
      case LatexFormat =>
        Print(Latex.HeaderLines(profile)[0]);
      case PlaintextFormat =>
        ghost var start := printed;
        var address := "Address: " + profile.address;
        var phone := "Phone: " + Plaintext.FormatPhone(profile.phone);
        var email := "Email: " + Plaintext.FormatEmail(profile.email);
        Print(profile.name);
        Print(address);
        Print(phone);
        Print(email);
        Print("");
        Strings.AppendOneByOne5(start, profile.name, address, phone, email, "");
      EmitAppend(old(printed), HeaderLines(format, profile));
    }

    method PrintJob(job: Job)
      requires Valid()
      modifies this
      ensures Valid() && printed == old(printed) + JobLines(format, fill, job)
    {
      match format
      case LatexFormat =>
        Print(Latex.Entry(job.title, Latex.FormatDateRange(job.start, job.end), job.organization, job.location));
        Print(Latex.FormatList(fill, Urls.EachFormatted(Latex.FormatUrl, job.experiences)));
      case PlaintextFormat =>
        var heading := job.title + " (" + Plaintext.FormatDateRange(job.start, job.end) + ")";
        Print(Plaintext.FormatHeading(heading, 2));
        Print("Organization: " + job.organization);
        Print("Location: " + job.location);
        Print(Plaintext.FormatList(fill, job.experiences));
    }

    method PrintSchool(school: School)
      requires Valid()
      modifies this
      ensures Valid() && printed == old(printed) + SchoolLines(format, fill, school)
    {
      match format
      case LatexFormat =>
        Print(Latex.Entry(school.name, school.graduated, school.degree, "Overall G.P.A.: " + school.gpa));
        Print(Latex.FormatList(fill, Urls.EachFormatted(Latex.FormatUrl, school.awards)));
      case PlaintextFormat =>
        ghost var start := printed;
        var heading := Plaintext.FormatHeading(school.name, 2);
        var graduated := "Graduated: " + school.graduated;
        var degree := "Degree: " + school.degree;
        var gpa := "Overall G.P.A.: " + school.gpa;
        var awards := Plaintext.FormatList(fill, school.awards);
        Print(heading);
        Print(graduated);
        Print(degree);
        Print(gpa);
        Print("Awards and designations:");
        Print(awards);
        Strings.AppendOneByOne6(start, heading, graduated, degree, gpa, "Awards and designations:", awards);
    }

    method PrintReference(reference: Reference)
      requires Valid()
      modifies this
      ensures Valid() && printed == old(printed) + ReferenceLines(format, reference)
    {
      match format
      case LatexFormat =>
        Print(Latex.ReferenceLines(reference)[0]);
      case PlaintextFormat =>
        Print(Plaintext.FormatHeading(reference.name, 2));
        Print("Relationship: " + reference.relationship);
        Print("Email: " + Plaintext.FormatEmail(reference.email));
        Print("Phone: " + Plaintext.FormatPhone(reference.phone));
    }

    method PrintSkill(skill: Skill)
      requires Valid()
      modifies this
      ensures Valid() && printed == old(printed) + SkillLines(format, fill, skill)
    {
      Print(FormatHeading(format, skill.name, 2));
      Print(FormatList(format, fill, Urls.EachFormatted(FormatUrl(format), skill.notes)));
    }

    /** Builds the `hypersetup` entries one key at a time, in insertion order. */
    method PrintPreamble(metadata: Option<Metadata>)
      requires Valid()
      modifies this
      ensures Valid() && printed == old(printed) + PreambleLines(format, metadata)
    {
      match format
      case LatexFormat =>
        ghost var start := printed;
        Print(Latex.DocumentClass);
        var hypersetup: seq<(string, string)> := [];
        if metadata.Some? {
          var m := metadata.value;
          if m.author.Some? {
            hypersetup := hypersetup + [("pdfauthor", m.author.value)];
          }
          if m.title.Some? {
            hypersetup := hypersetup + [("pdftitle", m.title.value)];
          }
          if m.subject.Some? {
            hypersetup := hypersetup + [("pdfsubject", m.subject.value)];
          }
          if m.keywords.Some? {
            hypersetup := hypersetup + [("pdfkeywords", Strings.Join(", ", m.keywords.value))];
          }
        }
        assert hypersetup == Latex.Hypersetup(metadata);
        ghost var middle: seq<string> := [];
        if hypersetup != [] {
          Print(Latex.HypersetupBlock(hypersetup));
          middle := [Latex.HypersetupBlock(hypersetup)];
          Strings.AppendAssoc(start, [Latex.DocumentClass], middle);
        }
        Print(Latex.BeginDocument);
        Strings.AppendAssoc(start, [Latex.DocumentClass] + middle, [Latex.BeginDocument]);
      case PlaintextFormat =>
    }

    method PrintPostamble()
      requires Valid()
      modifies this
      ensures Valid() && printed == old(printed) + PostambleLines(format)
    {
      match format
      case LatexFormat =>
        Print(Latex.EndDocument);
      case PlaintextFormat =>
    }

    method PrintSummary(summary: string)
      requires Valid()
      modifies this
      ensures Valid() && printed == old(printed) + SummaryLines(format, fill, summary)
    {
      Print(FormatHeading(format, "Summary", 1));
      Print(FormatSummary(format, fill, summary));
      Print("");
    }

    method PrintPublications(publications: seq<Publication>)
      requires Valid()
      modifies this
      ensures Valid() && printed == old(printed) + PublicationsLines(format, fill, publications)
    {
      Print(FormatHeading(format, "Publications and presentations", 1));
      Print(FormatList(format, fill, PublicationItems(format, publications)));
      Print("");
    }

    method PrintEducation(education: seq<School>)
      requires Valid()
      modifies this
      ensures Valid() && printed == old(printed) + EducationLines(format, fill, education)
    {
      var heading := FormatHeading(format, "Education", 1);
      Print(heading);
      for k := 0 to |education|
        invariant Valid()
        invariant printed == old(printed) + [heading] + SchoolsEntries(format, fill, education[..k])
      {
        PrintSchool(education[k]);
        Print("");
        assert education[..k + 1][..k] == education[..k];
        Strings.AppendAssocLast(old(printed) + [heading], SchoolsEntries(format, fill, education[..k]), SchoolLines(format, fill, education[k]), "");
      }
      assert education[..|education|] == education;
      Strings.AppendAssoc(old(printed), [heading], SchoolsEntries(format, fill, education));
    }

    method PrintExperience(experience: seq<Job>)
      requires Valid()
      modifies this
      ensures Valid() && printed == old(printed) + ExperienceLines(format, fill, experience)
    {
      var heading := FormatHeading(format, "Experience", 1);
      Print(heading);
      for k := 0 to |experience|
        invariant Valid()
        invariant printed == old(printed) + [heading] + JobsEntries(format, fill, experience[..k])
      {
        PrintJob(experience[k]);
        Print("");
        assert experience[..k + 1][..k] == experience[..k];
        Strings.AppendAssocLast(old(printed) + [heading], JobsEntries(format, fill, experience[..k]), JobLines(format, fill, experience[k]), "");
      }
      assert experience[..|experience|] == experience;
      Strings.AppendAssoc(old(printed), [heading], JobsEntries(format, fill, experience));
    }

    method PrintSkills(skills: seq<Skill>)
      requires Valid()
      modifies this
      ensures Valid() && printed == old(printed) + SkillsLines(format, fill, skills)
    {
      var heading := FormatHeading(format, "Skills", 1);
      Print(heading);
      for k := 0 to |skills|
        invariant Valid()
        invariant printed == old(printed) + [heading] + SkillsEntries(format, fill, skills[..k])
      {
        PrintSkill(skills[k]);
        Print("");
        assert skills[..k + 1][..k] == skills[..k];
        Strings.AppendAssocLast(old(printed) + [heading], SkillsEntries(format, fill, skills[..k]), SkillLines(format, fill, skills[k]), "");
      }
      assert skills[..|skills|] == skills;
      Strings.AppendAssoc(old(printed), [heading], SkillsEntries(format, fill, skills));
    }

    method PrintReferenceList(references: seq<Reference>)
      requires Valid()
      modifies this
      ensures Valid() && printed == old(printed) + ReferencesLines(format, references)
    {
      var heading := FormatHeading(format, "References", 1);
      Print(heading);
      for k := 0 to |references|
        invariant Valid()
        invariant printed == old(printed) + [heading] + ReferencesEntries(format, references[..k])
      {
        PrintReference(references[k]);
        Print("");
        assert references[..k + 1][..k] == references[..k];
        Strings.AppendAssocLast(old(printed) + [heading], ReferencesEntries(format, references[..k]), ReferenceLines(format, references[k]), "");
      }
      assert references[..|references|] == references;
      Strings.AppendAssoc(old(printed), [heading], ReferencesEntries(format, references));
    }

    method PrintLetter(profile: Profile)
      requires Valid()
      modifies this
      ensures Valid() && printed == old(printed) + LetterLines(format, profile)
      ensures output == old(output) + Emit(LetterLines(format, profile))
    {
      ghost var start := printed;
      PrintPreamble(None);
      ghost var done := PreambleLines(format, None);
      PrintHeader(profile);
      Strings.AppendAssoc(start, done, HeaderLines(format, profile));
      done := done + HeaderLines(format, profile);
      PrintPostamble();
      Strings.AppendAssoc(start, done, PostambleLines(format));
      done := done + PostambleLines(format);
      EmitAppend(old(printed), LetterLines(format, profile));
    }

    /** The author defaults to the sheet's name before the preamble is written. */
    method PrintReferences(sheet: ReferenceSheet)
      requires Valid()
      modifies this
      ensures Valid() && printed == old(printed) + SheetLines(format, sheet)
      ensures output == old(output) + Emit(SheetLines(format, sheet))
    {
      var metadata := sheet.metadata;
      if metadata.author.None? {
        metadata := metadata.(author := Some(sheet.profile.name));
      }
      assert metadata == SheetMetadata(sheet);
      ghost var start := printed;
      PrintPreamble(Some(metadata));
      ghost var done := PreambleLines(format, Some(metadata));
      PrintHeader(sheet.profile);
      Strings.AppendAssoc(start, done, HeaderLines(format, sheet.profile));
      done := done + HeaderLines(format, sheet.profile);
      PrintReferenceList(sheet.references);
      Strings.AppendAssoc(start, done, ReferencesLines(format, sheet.references));
      done := done + ReferencesLines(format, sheet.references);
      PrintPostamble();
      Strings.AppendAssoc(start, done, PostambleLines(format));
      done := done + PostambleLines(format);
      EmitAppend(old(printed), SheetLines(format, sheet));
    }

    /** The author defaults to the résumé's name before the preamble is written. */
    method PrintResume(resume: Resume)
      requires Valid()
      modifies this
      ensures Valid() && printed == old(printed) + ResumeLines(format, fill, resume)
      ensures output == old(output) + Emit(ResumeLines(format, fill, resume))
    {
      var metadata := resume.metadata;
      if metadata.author.None? {
        metadata := metadata.(author := Some(resume.profile.name));
      }
      assert metadata == ResumeMetadata(resume);
      ghost var start := printed;
      PrintPreamble(Some(metadata));
      ghost var done := PreambleLines(format, Some(metadata));
      PrintHeader(resume.profile);
      Strings.AppendAssoc(start, done, HeaderLines(format, resume.profile));
      done := done + HeaderLines(format, resume.profile);
      PrintSummary(resume.summary);
      Strings.AppendAssoc(start, done, SummaryLines(format, fill, resume.summary));
      done := done + SummaryLines(format, fill, resume.summary);
      PrintEducation(resume.education);
      Strings.AppendAssoc(start, done, EducationLines(format, fill, resume.education));
      done := done + EducationLines(format, fill, resume.education);
      PrintExperience(resume.experience);
      Strings.AppendAssoc(start, done, ExperienceLines(format, fill, resume.experience));
      done := done + ExperienceLines(format, fill, resume.experience);
      PrintSkills(resume.skills);
      Strings.AppendAssoc(start, done, SkillsLines(format, fill, resume.skills));
      done := done + SkillsLines(format, fill, resume.skills);
      PrintPublications(resume.publications);
      Strings.AppendAssoc(start, done, PublicationsLines(format, fill, resume.publications));
      done := done + PublicationsLines(format, fill, resume.publications);
      PrintPostamble();
      Strings.AppendAssoc(start, done, PostambleLines(format));
      done := done + PostambleLines(format);
      EmitAppend(old(printed), ResumeLines(format, fill, resume));
    }
  }

  /** The sink begins with the first chunk and ends with the last, each with its newline. */
  lemma EmitEnds(chunks: seq<string>)
    requires |chunks| > 0
    ensures chunks[0] + "\n" <= Emit(chunks)
    ensures var out, last := Emit(chunks), chunks[|chunks| - 1];
      |out| >= |last| + 1 && out[|out| - |last| - 1..] == last + "\n"
  {
    var n := |chunks|;
    assert chunks == chunks[..n - 1] + [chunks[n - 1]];
    EmitAppend(chunks[..n - 1], [chunks[n - 1]]);
    assert Emit([chunks[n - 1]]) == chunks[n - 1] + "\n" + Emit([]);
  }

  /** A document that opens with the preamble and closes with the postamble. */
  predicate Framed(lines: seq<string>)
  {
    |lines| > 0 && lines[0] == Latex.DocumentClass && lines[|lines| - 1] == Latex.EndDocument
  }

  /** So framed, the sink opens with the document class and closes with `\end{document}`. */
  lemma FramedOutput(lines: seq<string>)
    requires Framed(lines)
    ensures var out := Emit(lines);
      Latex.DocumentClass + "\n" <= out && |out| >= 15 && out[|out| - 15..] == Latex.EndDocument + "\n"
  {
    EmitEnds(lines);
  }

  /** Every LaTeX résumé, whatever its data, is framed by the preamble and the postamble. */
  lemma ResumeFramed(fill: Fill, resume: Resume)
    ensures Framed(ResumeLines(LatexFormat, fill, resume))
  {
    var l0 := PreambleLines(LatexFormat, Some(ResumeMetadata(resume)));
    var l1 := l0 + HeaderLines(LatexFormat, resume.profile);
    var l2 := l1 + SummaryLines(LatexFormat, fill, resume.summary);
    var l3 := l2 + EducationLines(LatexFormat, fill, resume.education);
    var l4 := l3 + ExperienceLines(LatexFormat, fill, resume.experience);
    var l5 := l4 + SkillsLines(LatexFormat, fill, resume.skills);
    var l6 := l5 + PublicationsLines(LatexFormat, fill, resume.publications);
    Strings.PrefixIndex(l0, HeaderLines(LatexFormat, resume.profile), 0);
    Strings.PrefixIndex(l1, SummaryLines(LatexFormat, fill, resume.summary), 0);
    Strings.PrefixIndex(l2, EducationLines(LatexFormat, fill, resume.education), 0);
    Strings.PrefixIndex(l3, ExperienceLines(LatexFormat, fill, resume.experience), 0);
    Strings.PrefixIndex(l4, SkillsLines(LatexFormat, fill, resume.skills), 0);
    Strings.PrefixIndex(l5, PublicationsLines(LatexFormat, fill, resume.publications), 0);
    Strings.PrefixIndex(l6, PostambleLines(LatexFormat), 0);
  }

  /** Every LaTeX reference sheet is framed the same way. */
  lemma SheetFramed(sheet: ReferenceSheet)
    ensures Framed(SheetLines(LatexFormat, sheet))
  {
    var l0 := PreambleLines(LatexFormat, Some(SheetMetadata(sheet)));
    var l1 := l0 + HeaderLines(LatexFormat, sheet.profile);
    var l2 := l1 + ReferencesLines(LatexFormat, sheet.references);
    Strings.PrefixIndex(l0, HeaderLines(LatexFormat, sheet.profile), 0);
    Strings.PrefixIndex(l1, ReferencesLines(LatexFormat, sheet.references), 0);
    Strings.PrefixIndex(l2, PostambleLines(LatexFormat), 0);
  }

  /** The first `hypersetup` entry sets the PDF author whenever an author is known. */
  lemma AuthorTagFirst(m: Metadata)
    requires m.author.Some?
    ensures var pairs := Latex.Hypersetup(Some(m));
      |pairs| > 0 && ("\\hypersetup{\n  pdfauthor={" + m.author.value + "}") <= Latex.HypersetupBlock(pairs)
  {
    var pairs := Latex.Hypersetup(Some(m));
    var tags := Latex.Tags(pairs);
    assert pairs[0] == ("pdfauthor", m.author.value);
    Strings.JoinFirst(",\n  ", tags);
    assert "\\hypersetup{\n  pdfauthor={" + m.author.value + "}" == "\\hypersetup{\n  " + tags[0];
  }

  /**
   * A LaTeX résumé always carries a `hypersetup` block whose first entry is
   * the author: the metadata's own when given, the résumé's name otherwise.
   */
  lemma ResumeAuthor(fill: Fill, resume: Resume)
    ensures var lines := ResumeLines(LatexFormat, fill, resume);
      var author := if resume.metadata.author.Some? then resume.metadata.author.value else resume.profile.name;
      |lines| > 1 && ("\\hypersetup{\n  pdfauthor={" + author + "}") <= lines[1]
  {
    var m := ResumeMetadata(resume);
    AuthorTagFirst(m);
    var l0 := PreambleLines(LatexFormat, Some(m));
    assert l0[1] == Latex.HypersetupBlock(Latex.Hypersetup(Some(m)));
    var l1 := l0 + HeaderLines(LatexFormat, resume.profile);
    var l2 := l1 + SummaryLines(LatexFormat, fill, resume.summary);
    var l3 := l2 + EducationLines(LatexFormat, fill, resume.education);
    var l4 := l3 + ExperienceLines(LatexFormat, fill, resume.experience);
    var l5 := l4 + SkillsLines(LatexFormat, fill, resume.skills);
    var l6 := l5 + PublicationsLines(LatexFormat, fill, resume.publications);
    Strings.PrefixIndex(l0, HeaderLines(LatexFormat, resume.profile), 1);
    Strings.PrefixIndex(l1, SummaryLines(LatexFormat, fill, resume.summary), 1);
    Strings.PrefixIndex(l2, EducationLines(LatexFormat, fill, resume.education), 1);
    Strings.PrefixIndex(l3, ExperienceLines(LatexFormat, fill, resume.experience), 1);
    Strings.PrefixIndex(l4, SkillsLines(LatexFormat, fill, resume.skills), 1);
    Strings.PrefixIndex(l5, PublicationsLines(LatexFormat, fill, resume.publications), 1);
    Strings.PrefixIndex(l6, PostambleLines(LatexFormat), 1);
  }

  /** The same defaulting for a reference sheet. */
  lemma SheetAuthor(sheet: ReferenceSheet)
    ensures var lines := SheetLines(LatexFormat, sheet);
      var author := if sheet.metadata.author.Some? then sheet.metadata.author.value else sheet.profile.name;
      |lines| > 1 && ("\\hypersetup{\n  pdfauthor={" + author + "}") <= lines[1]
  {
    var m := SheetMetadata(sheet);
    AuthorTagFirst(m);
    var l0 := PreambleLines(LatexFormat, Some(m));
    assert l0[1] == Latex.HypersetupBlock(Latex.Hypersetup(Some(m)));
    var l1 := l0 + HeaderLines(LatexFormat, sheet.profile);
    var l2 := l1 + ReferencesLines(LatexFormat, sheet.references);
    Strings.PrefixIndex(l0, HeaderLines(LatexFormat, sheet.profile), 1);
    Strings.PrefixIndex(l1, ReferencesLines(LatexFormat, sheet.references), 1);
    Strings.PrefixIndex(l2, PostambleLines(LatexFormat), 1);
  }

  /** A letter has no metadata, so no `hypersetup` block; in plain text it is the letterhead alone. */
  lemma LetterContents(profile: Profile)
    ensures LetterLines(LatexFormat, profile) == [Latex.DocumentClass, Latex.BeginDocument] + Latex.HeaderLines(profile) + [Latex.EndDocument]
    ensures LetterLines(PlaintextFormat, profile) == Plaintext.HeaderLines(profile)
    ensures Framed(LetterLines(LatexFormat, profile))
  {
    assert Latex.PreambleLines(None) == [Latex.DocumentClass, Latex.BeginDocument];
  }

  /** A plain-text résumé starts with its five letterhead lines. */
  lemma PlaintextResumeStart(fill: Fill, resume: Resume)
    ensures var lines := ResumeLines(PlaintextFormat, fill, resume);
      |lines| >= 5 && lines[..5] == Plaintext.HeaderLines(resume.profile)
  {
    var lines := ResumeLines(PlaintextFormat, fill, resume);
    var header := Plaintext.HeaderLines(resume.profile);
    forall k | 0 <= k < 5
      ensures lines[k] == header[k]
    {
    }
  }

  /** Plain-text skill notes are listed exactly as written. */
  lemma PlaintextSkillNotes(fill: Fill, skill: Skill)
    ensures SkillLines(PlaintextFormat, fill, skill) == [Plaintext.FormatHeading(skill.name, 2), Plaintext.FormatList(fill, skill.notes)]
  {
    var notes := Urls.EachFormatted(Plaintext.FormatUrl, skill.notes);
    forall k | 0 <= k < |notes|
      ensures notes[k] == skill.notes[k]
    {
      Plaintext.AllUrlsUnchanged(skill.notes[k]);
    }
    assert notes == skill.notes;
  }

}
