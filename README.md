# Résumé renderer (generate.py) in Dafny

`generate.py` turns résumé or reference-sheet data into a LaTeX document or
into plain text. An outputter of one of the two formats walks the data and
writes each chunk it produces, followed by a newline, to its output stream.
Three layers do the work:

- **The URL scanner.** `format_all_urls` finds, left to right, the
  non-overlapping matches of `https?://[A-Za-z0-9_/.-]*[A-Za-z0-9_/-]` and
  replaces each one with the renderer's `format_url` of it.
- **The formatting primitives of the two renderers.** `format_phone`,
  `format_heading`, `format_list` and their siblings are single string
  expressions.
- **The document traversal.** `print_resume`, `print_references`,
  `print_letter` and the section and entry printers emit a fixed sequence of
  chunks.

The model is organised as follows:

- `UrlPattern` is a hand-written matcher for that one pattern.
  - `IsUrl` is the reference definition of "a match of the pattern".
  - `MatchAt` is the match at one start: the scheme, then the longest run of
    URL characters, cut back to its last character that is not `.`.
  - `Search` is Python's `re.search`: the leftmost start, with the longest
    match there.
- `Urls` holds the scanner.
  - `Scan` cuts a text into (text before a match, match) pieces and a
    remainder.
  - `AllUrlsFormatted` is the specification of `format_all_urls`.
  - `FormatAllUrls` is the source's `while` loop, proved against that
    specification.
- `Latex` and `Plaintext` hold each renderer's primitives.
  - They also hold its entry layouts (`HeaderLines`, `JobLines`,
    `SchoolLines`, `ReferenceLines`, `PreambleLines`, `PostambleLines`).
  - These are the chunks each `print_*` method passes to `print`.
- `Document` holds the traversal.
  - `Format` selects the renderer.
  - Functions such as `ResumeLines`, `SheetLines`, `LetterLines`,
    `EducationLines` and `SchoolsEntries` state, as a list of chunks, what
    each printing operation writes.
  - The class `Document.Outputter` keeps the sink `output` and a ghost log
    `printed` of every chunk passed to `Print`. Its invariant `Valid()` says
    the sink is `Emit(printed)`: each chunk followed by a newline.
  - Every `Print…` method extends `printed` by exactly the chunks its
    layout function names.
- `Records` holds the input records.
  - Metadata is four optional fields.
  - `WithDefaultAuthor` gives the author defaulting done before the
    preamble.
- `Strings` models Python string behaviour on `seq<char>`:
  - clamped slicing (`Slice`);
  - `sep.join` (`Join`);
  - `c * n` (`Repeat`);
  - `str.split` on one character (`Split`). The renderer never splits a
    string. `Split` only reads the printed text back as lines, in
    `Latex.ListLines`, `Plaintext.ListLines` and `Plaintext.HeadingLines`.
- `TextWrap` represents `textwrap.fill` by a parameter `fill` of type
  `Fill`. `fill` is applied to a `WrapOptions` value holding the keyword
  arguments of each call site.

## Model

| member | source | states |
|---|---|---|
| `Strings.Slice` | generate.py:212 | Python's clamped slice `s[a:b]`: its length is `min(b,len)-min(a,len)`, and it is `s[a..b]` when `b` is within the string |
| `Strings.SlicesConcat` | generate.py:306 | adjacent clamped slices `[a:b]` and `[b:c]` concatenate to `[a:c]`, so the three phone groups are the first ten characters |
| `Strings.Join` | generate.py:300-303 | `sep.join`: an empty list joins to `""` and a one-element list to that element |
| `Strings.JoinAppend` | generate.py:270 | joining two non-empty lists puts exactly one separator between the two joins |
| `Strings.SplitJoin` | generate.py:202-205 | splitting a newline join of newline-free chunks gives back exactly those chunks |
| `Strings.Repeat` | generate.py:297 | `c * n` has length `n` and every character is `c` |
| `Strings.WithoutAppend` | generate.py:306 | deleting a set of characters distributes over concatenation |
| `Strings.WithoutNone` | generate.py:306 | deleting characters that do not occur leaves the text unchanged |
| `TextWrap.Bulleted` | generate.py:202-205 | one wrapped block per item, in order: block `k` is `fill` of the bullet followed by item `k` |
| `UrlPattern.IsUrl` | generate.py:15 | (definition, no contract) a match of `https?://[A-Za-z0-9_/.-]*[A-Za-z0-9_/-]`: `http://` or `https://`, then URL characters, the last of them not `.` |
| `UrlPattern.SchemeAt` | generate.py:15 | the scheme length at a position is 0, 7 or 8 |
| `UrlPattern.SchemeAtCorrect` | generate.py:15 | 8 exactly when `https://` starts there, 7 exactly when `http://` does |
| `UrlPattern.UrlIffShape` | generate.py:15 | a substring matches the pattern iff it has the scheme, a non-empty body of `[A-Za-z0-9_/.-]`, and a last character other than `.` |
| `UrlPattern.RunEnd` | generate.py:15 | the end of the run of URL characters lies between its start and the end of the text |
| `UrlPattern.RunEndCorrect` | generate.py:15 | every character of the run is a URL character, and the run is maximal |
| `UrlPattern.LastEnd` | generate.py:15 | a found end lies strictly after `lo` and at most at `hi` |
| `UrlPattern.LastEndCorrect` | generate.py:15 | it is the last position in the range whose character is not `.`; none is found only when every character is `.` |
| `UrlPattern.MatchAt` | generate.py:15 | a match at `i` is non-empty and ends within the text |
| `UrlPattern.MatchAtCorrect` | generate.py:15 | the match at `i` matches the pattern and no longer substring from `i` does; with no match, no substring from `i` matches |
| `UrlPattern.SearchFrom` | generate.py:34 | the first start at or after `k` with a match, and that match; none when no start has one |
| `UrlPattern.Search` | generate.py:34 | a found match is a non-empty range of the text |
| `UrlPattern.SearchCorrect` | generate.py:34 | there is no match iff no substring matches; a found match matches the pattern, is the longest at its start, and no substring to its left matches (leftmost) |
| `Urls.Scan` | generate.py:33-40 | the pieces and the remainder concatenate back to the text, so no character is lost or duplicated |
| `Urls.ScanMatches` | generate.py:33-40 | every piece's URL matches the pattern, and no match lies wholly in the text between URLs or in the remainder |
| `Urls.SearchLeftmostLongest` | generate.py:34 | seen from the start of the text, the match `search` finds has no match beginning to its left and none at its start running past its end |
| `Urls.FirstLeftmostLongest` | generate.py:34-36 | the first piece the scan takes is that match |
| `Urls.ScanLeftmostLongest` | generate.py:34-38 | every piece the scan takes is the leftmost match in the text that follows the previous one, and the longest at its start, so the cut into pieces is the one the loop makes |
| `Urls.AllUrlsFormatted` | generate.py:32-40 | (definition, no contract) the scanned pieces with each URL passed through `format_url`, then the remainder |
| `Urls.AllUrlsFormattedStep` | generate.py:35-39 | with no match the text is returned; otherwise the result is the text before the first match, the formatted match, then the result on the rest |
| `Urls.FormatAllUrls` | generate.py:32-40 | the loop returns `AllUrlsFormatted` of its input, and it terminates because each match is non-empty |
| `Urls.EachFormatted` | generate.py:166-167 | `map(format_all_urls, items)`: the same length, with each item formatted on its own |
| `Urls.NoUrlUnchanged` | generate.py:32-40 | a text with no match is returned unchanged |
| `Urls.OneUrl` | generate.py:36-39 | a text with one match is rebuilt from the text before it, the formatted match and the text after it |
| `Urls.ReplacedIdentity` | generate.py:36 | with an identity `format_url`, the spliced pieces are the original pieces |
| `Urls.IdentityUnchanged` | generate.py:32-40 | with an identity `format_url`, every text is returned unchanged |
| `Urls.ReplacedLength` | generate.py:36 | if `format_url` adds `extra` characters to every URL, each piece grows by exactly `extra` |
| `Urls.AllUrlsLength` | generate.py:32-40 | the result is `extra` characters longer per match found |
| `Records.WithDefaultAuthor` | generate.py:145-147 | the author is always present afterwards; a given author is kept; a missing one becomes the name; title, subject and keywords are unchanged |
| `Latex.FormatDateRange` | generate.py:188-189 | start, then the en-dash `--`, then end |
| `Latex.FormatEmail` | generate.py:191-192 | a `\href{mailto:…}` link whose target and visible text are both the address |
| `Latex.FormatHeading` | generate.py:194-198 | `\section*{h}` at level 1 and `\textbf{h}` at every other level, with `h` verbatim inside |
| `Latex.FormatList` | generate.py:200-206 | the empty list gives `\begin{itemize}`, an empty line, `\end{itemize}` |
| `Latex.ListLines` | generate.py:200-206 | when no block wraps onto several lines, the lines are `\begin{itemize}`, the `\item ` blocks in item order, and `\end{itemize}` |
| `Latex.FormatName` | generate.py:208-209 | the name verbatim inside `{\Large\bfseries …}` |
| `Latex.PhoneText` | generate.py:212 | for ten or more characters: `(` the first three `) ` the next three `--` the next four |
| `Latex.FormatPhone` | generate.py:211-214 | for ten or more characters: a link to `tel:+1` and the whole string, showing the grouped text |
| `Latex.PhoneTextDigits` | generate.py:212 | deleting the inserted punctuation from the link text gives back the first ten characters (all of a shorter string) |
| `Latex.PhoneExample` | generate.py:211-214 | `5551234567` becomes `\href{tel:+15551234567}{(555) 123--4567}` |
| `Latex.FormatUrl` | generate.py:219-220 | the URL verbatim inside `\url{…}` |
| `Latex.UrlsLength` | generate.py:216-220 | marking up URLs adds exactly six characters per URL the scanner finds |
| `Latex.FormatSummary` | generate.py:216-217 | a summary with no URL is passed to `fill` with 80 columns unchanged |
| `Latex.Entry` | generate.py:236 | (definition, no contract) the four-field `\entry{…}{…}{…}{…}` chunk, fields separated by newlines |
| `Latex.HeaderLines` | generate.py:222-233 | (definition, no contract) one chunk: the `center` block with the bold large name, the address, the phone link and the e-mail link, each line ending in `\\` but the last |
| `Latex.JobLines` | generate.py:235-242 | (definition, no contract) the job's `\entry` of title, date range, organisation and location, then the list of its URL-formatted experiences |
| `Latex.ReferenceLines` | generate.py:244-249 | (definition, no contract) one `\reference` chunk of name, relationship, e-mail link and phone link |
| `Latex.SchoolLines` | generate.py:273-280 | (definition, no contract) the school's `\entry` of name, graduation, degree and `Overall G.P.A.: ` with the GPA, then the list of its URL-formatted awards |
| `Latex.PostambleLines` | generate.py:251-252 | (definition, no contract) the single chunk `\end{document}` |
| `Latex.Hypersetup` | generate.py:257-266 | at most four entries, and none without metadata; which entries and in what order is stated by `Latex.HypersetupKeys` and `Latex.HypersetupLookup` |
| `Latex.HypersetupKeys` | generate.py:257-266 | every entry is one of `pdfauthor`, `pdftitle`, `pdfsubject`, `pdfkeywords`, and they appear in that insertion order with none twice; with `HypersetupLookup` this fixes the whole entry list |
| `Latex.Lookup` | generate.py:259-266 | a key has a value iff some entry carries that key |
| `Latex.HypersetupLookup` | generate.py:257-266 | `pdfauthor`, `pdftitle` and `pdfsubject` are set exactly when the metadata has the key, to its value; `pdfkeywords` is set to the keywords joined by `, ` |
| `Latex.HypersetupEmpty` | generate.py:267 | the block is left out exactly when there is no metadata or it has none of the four keys |
| `Latex.Tags` | generate.py:268-269 | one `key={value}` tag per entry, in entry order |
| `Latex.HypersetupBlock` | generate.py:270 | (definition, no contract) `\hypersetup{`, a newline and two spaces, the tags joined by a comma, newline and two spaces, then a newline and `}` |
| `Latex.PreambleLines` | generate.py:254-271 | the document class first and `\begin{document}` last, with the `hypersetup` block of the metadata's entries between them exactly when it has an entry |
| `Plaintext.FormatDateRange` | generate.py:286-287 | start, then ` - `, then end |
| `Plaintext.FormatEmail` | generate.py:289-290 | the address unchanged |
| `Plaintext.FormatHeading` | generate.py:292-297 | the heading, a newline, then an underline as long as the heading: `=` at level 1 and `-` at every other level |
| `Plaintext.HeadingLines` | generate.py:292-297 | a one-line heading reads back as two lines, the heading and its underline |
| `Plaintext.FormatList` | generate.py:299-303 | the empty list gives `""`; one item gives its single `* ` block |
| `Plaintext.ListLines` | generate.py:299-303 | when no block wraps onto several lines, the lines are the `* ` blocks in item order |
| `Plaintext.FormatPhone` | generate.py:305-306 | the length is three plus the first ten characters' count; for ten or more characters: `(` three `)` three `-` four |
| `Plaintext.PhoneDigits` | generate.py:305-306 | deleting `(`, `)` and `-` gives back the first ten characters (all of a shorter string) |
| `Plaintext.PhoneExample` | generate.py:305-306 | `5551234567` becomes `(555)123-4567`, 13 characters |
| `Plaintext.FormatUrl` | generate.py:311-312 | the URL unchanged |
| `Plaintext.AllUrlsUnchanged` | generate.py:311-312 | plain-text URL formatting returns every text unchanged |
| `Plaintext.FormatSummary` | generate.py:308-309 | the summary is passed to `fill` with 80 columns as written |
| `Plaintext.HeaderLines` | generate.py:314-319 | (definition, no contract) five chunks: the name, `Address: `, `Phone: ` with the formatted phone, `Email: `, and an empty line |
| `Plaintext.JobLines` | generate.py:321-327 | (definition, no contract) a level-2 heading of the title and the date range in parentheses, `Organization: `, `Location: `, then the list of experiences with no URL formatting |
| `Plaintext.ReferenceLines` | generate.py:333-337 | (definition, no contract) a level-2 heading of the name, then `Relationship: `, `Email: ` and `Phone: ` lines |
| `Plaintext.SchoolLines` | generate.py:339-345 | (definition, no contract) a level-2 heading of the name, `Graduated: `, `Degree: `, `Overall G.P.A.: `, `Awards and designations:`, then the list of awards with no URL formatting |
| `Plaintext.PreambleLines` | generate.py:331 | (definition, no contract) no chunks |
| `Plaintext.PostambleLines` | generate.py:329 | (definition, no contract) no chunks |
| `Document.SkillLines` | generate.py:164-167 | (definition, no contract) a level-2 heading of the skill's name, then the list of its URL-formatted notes |
| `Document.SummaryLines` | generate.py:177-180 | (definition, no contract) the `Summary` heading, the formatted summary and an empty line |
| `Document.PublicationItems` | generate.py:121-122 | one item per publication: its title, then its formatted URL in parentheses |
| `Document.PublicationsLines` | generate.py:119-124 | (definition, no contract) the `Publications and presentations` heading, the list of publication items and an empty line |
| `Document.SchoolsEntries` | generate.py:79-81 | (definition, no contract) each school's chunks in input order, each followed by one empty line |
| `Document.EducationLines` | generate.py:77-81 | (definition, no contract) the `Education` heading, then the school entries |
| `Document.JobsEntries` | generate.py:86-88 | (definition, no contract) each job's chunks in input order, each followed by one empty line |
| `Document.ExperienceLines` | generate.py:84-88 | (definition, no contract) the `Experience` heading, then the job entries |
| `Document.SkillsEntries` | generate.py:172-174 | (definition, no contract) each skill's chunks in input order, each followed by one empty line |
| `Document.SkillsLines` | generate.py:170-174 | (definition, no contract) the `Skills` heading, then the skill entries |
| `Document.ReferencesEntries` | generate.py:138-140 | (definition, no contract) each reference's chunks in input order, each followed by one empty line |
| `Document.ReferencesLines` | generate.py:137-140 | (definition, no contract) the `References` heading, then the reference entries |
| `Document.ResumeLines` | generate.py:144-155 | (definition, no contract) preamble with the defaulted metadata, letterhead, summary, education, experience, skills, publications and postamble, in that order |
| `Document.SheetLines` | generate.py:131-141 | (definition, no contract) preamble with the defaulted metadata, letterhead, references section and postamble |
| `Document.LetterLines` | generate.py:101-104 | (definition, no contract) preamble without metadata, letterhead and postamble |
| `Document.Emit` | generate.py:73-74 | (definition, no contract) the sink after printing a list of chunks: each chunk followed by a newline |
| `Document.SchoolsEntriesAppend` | generate.py:79-81 | the education entries of two lists printed one after the other are those of the joined list, so each school's chunks appear in input order |
| `Document.JobsEntriesAppend` | generate.py:86-88 | the same for the experience entries |
| `Document.SkillsEntriesAppend` | generate.py:172-174 | the same for the skill entries |
| `Document.ReferencesEntriesAppend` | generate.py:138-140 | the same for the references |
| `Document.EmitAppend` | generate.py:73-74 | printing two lists of chunks one after the other writes the two outputs one after the other |
| `Document.EmitEnds` | generate.py:73-74 | the sink begins with the first chunk and ends with the last, each followed by its newline |
| `Document.FramedOutput` | generate.py:251-256 | a framed document's output starts with the document class line and ends with `\end{document}` and a newline |
| `Document.ResumeFramed` | generate.py:144-155 | every LaTeX résumé opens with the document class and closes with `\end{document}` |
| `Document.SheetFramed` | generate.py:131-141 | every LaTeX reference sheet is framed the same way |
| `Document.AuthorTagFirst` | generate.py:257-270 | when an author is known, the `hypersetup` block begins with `pdfauthor={author}` |
| `Document.ResumeAuthor` | generate.py:145-148 | a LaTeX résumé's second chunk is a `hypersetup` block led by the metadata's author, or by the résumé's name when none is given |
| `Document.SheetAuthor` | generate.py:132-135 | the same defaulting for a reference sheet |
| `Document.LetterContents` | generate.py:101-104 | a letter has no `hypersetup` block: LaTeX gives the document class, `\begin{document}`, the letterhead and `\end{document}`; plain text gives the letterhead alone |
| `Document.PlaintextResumeStart` | generate.py:144-149 | a plain-text résumé's first five chunks are the letterhead: name, address, phone, e-mail and a blank line |
| `Document.PlaintextSkillNotes` | generate.py:164-167 | plain-text skill notes are listed exactly as written |
| `Document.Outputter.constructor` | generate.py:28-29 | a new outputter has an empty sink and an empty log |
| `Document.Outputter.Print` | generate.py:73-74 | appends exactly the text and a newline to the sink, logs the text, and changes nothing else |
| `Document.Outputter.FormatAllUrls` | generate.py:32-40 | the scanner with this outputter's `format_url` |
| `Document.Outputter.PrintHeader` | generate.py:222-233 | logs the letterhead chunks (the LaTeX centre block, or the five plain-text lines of generate.py:314-319), and the sink grows by their output |
| `Document.Outputter.PrintJob` | generate.py:235-242 | logs the job's chunks: for LaTeX the `\entry` and the list of URL-formatted experiences; in plain text (generate.py:321-327) the heading, organisation, location and list |
| `Document.Outputter.PrintSchool` | generate.py:273-280 | logs the school's chunks: for LaTeX the `\entry` and the list of URL-formatted awards; in plain text (generate.py:339-345) the six lines |
| `Document.Outputter.PrintReference` | generate.py:244-249 | logs the reference's chunks: for LaTeX one `\reference`; in plain text (generate.py:333-337) four lines |
| `Document.Outputter.PrintSkill` | generate.py:164-167 | logs a level-2 heading and the list of URL-formatted notes |
| `Document.Outputter.PrintPreamble` | generate.py:254-271 | builds the `hypersetup` entries key by key and logs `PreambleLines`; nothing in plain text (generate.py:331) |
| `Document.Outputter.PrintPostamble` | generate.py:251-252 | logs `\end{document}` for LaTeX; nothing in plain text (generate.py:329) |
| `Document.Outputter.PrintSummary` | generate.py:177-180 | logs the `Summary` heading, the formatted summary and a blank line |
| `Document.Outputter.PrintPublications` | generate.py:119-124 | logs the heading, the list of publication items and a blank line |
| `Document.Outputter.PrintEducation` | generate.py:77-81 | logs the `Education` heading, then each school's chunks in input order, each followed by one blank line |
| `Document.Outputter.PrintExperience` | generate.py:84-88 | the same for `Experience` and the jobs |
| `Document.Outputter.PrintSkills` | generate.py:170-174 | the same for `Skills` and the skills |
| `Document.Outputter.PrintReferenceList` | generate.py:137-140 | the same for `References` and the references |
| `Document.Outputter.PrintLetter` | generate.py:101-104 | logs the preamble without metadata, the letterhead and the postamble; the sink grows by their output |
| `Document.Outputter.PrintReferences` | generate.py:131-141 | defaults the author to the sheet's name, then logs preamble, letterhead, references section and postamble; the sink grows by their output |
| `Document.Outputter.PrintResume` | generate.py:144-155 | defaults the author to the résumé's name, then logs preamble, letterhead, summary, education, experience, skills, publications and postamble in that order; the sink grows by their output |

## Left out

- The command line is not modelled. This covers `die`, the `ArgumentParser` subclass and the `__main__` block (generate.py:348-394): argument parsing, stderr and the process exit status. The caller picks the format and the operation.
- File and stream I/O and JSON parsing are not modelled. The output stream given to the outputter's constructor is an in-memory string, `output`, and the input data arrives as records.
- `textwrap.fill` is a parameter. The model does not say how a block is wrapped, only with which options it is called. So it cannot state that each list block starts with `* ` or `\item `: that depends on wrapping.
- No LaTeX special characters are escaped, exactly as in the source. Every field is copied into the markup verbatim.
- Missing keys (`KeyError`) are not modelled, and neither are JSON `null` values: every record field the traversal reads is present. A metadata field is either absent or a string, or a list of strings for keywords.
- `print_resume` and `print_references` add the author to the input's metadata dictionary in place, which the caller can see afterwards. The model defaults the author on a copy (`WithDefaultAuthor`), so it does not capture this side effect on the caller's data.
- Python dictionary order in general is not modelled. The `hypersetup` entries keep the insertion order author, title, subject, keywords.
- `Latex.format_name` (generate.py:208-209) is never called by the source. The LaTeX letterhead spells out the same text inline; the model's `Latex.HeaderLines` uses `Latex.FormatName`, which produces identical text.
- Characters are Dafny `char`s, which are Unicode scalar values. A Python `str` can also hold lone surrogate code points; a Dafny `char` cannot.
