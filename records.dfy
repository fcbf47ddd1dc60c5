/**
 * The records the renderer reads from the résumé and reference-sheet data.
 * Every field the traversal looks up is present; metadata fields are optional.
 */
module Records {
  import opened Wrappers

  datatype School = School(name: string, graduated: string, degree: string, gpa: string, awards: seq<string>)

  datatype Job = Job(title: string, start: string, end: string, organization: string, location: string, experiences: seq<string>)

  datatype Skill = Skill(name: string, notes: seq<string>)

  datatype Publication = Publication(title: string, url: string)

  datatype Reference = Reference(name: string, relationship: string, email: string, phone: string)

  /** The optional `metadata` object; an absent one reads as every field absent. */
  datatype Metadata = Metadata(author: Option<string>, title: Option<string>, subject: Option<string>, keywords: Option<seq<string>>)

  const NoMetadata := Metadata(None, None, None, None)

  /** The fields every document's letterhead reads. */
  datatype Profile = Profile(name: string, address: string, phone: string, email: string)

  datatype Resume = Resume(
    profile: Profile,
    summary: string,
    education: seq<School>,
    experience: seq<Job>,
    skills: seq<Skill>,
    publications: seq<Publication>,
    metadata: Metadata)

  datatype ReferenceSheet = ReferenceSheet(profile: Profile, references: seq<Reference>, metadata: Metadata)

  /**
   * The metadata handed to the preamble: the author defaults to the
   * document's name; an author already given, and every other field, is kept.
   */
  function WithDefaultAuthor(metadata: Metadata, name: string): (r: Metadata)
    ensures r.author.Some?
    ensures metadata.author.Some? ==> r == metadata
    ensures metadata.author.None? ==> r.author == Some(name)
    ensures r.title == metadata.title && r.subject == metadata.subject && r.keywords == metadata.keywords
  {
    if metadata.author.None? then metadata.(author := Some(name)) else metadata
  }
}
