# Resume optimiser: the path from a resume record to its renderings

This project models, in Dafny, the deterministic core of a browser-extension
resume optimiser. A resume record (`ResumeData`) is edited in a live preview,
exported as a Word document and as a PDF, and rewritten by two language-model
agents whose replies are sanitised before use. The model covers:

- **Types** (`types.dfy`): the resume record, the analysis/optimisation
  records, the template configuration and the enumerations with their string
  keys. Colours are stored as six hex digits without '#'.
- **Template registry** (`templates.dfy`): the three templates `classic`,
  `modern` and `minimalist`, plus the section titles and the default template.
- **Editor** (`editor.dfy`):
  - the path-addressed update `handleUpdate`, as a persistent update over a
    typed `Path`;
  - the skills line, joined for display and split again on commit on the
    preview's own three-character glyph;
  - the preview's contact row and LinkedIn link;
  - the plain-text reconstruction used by the diff view;
  - the progress-step counter;
  - `updateParsedData`.
- **DOCX exporter** (`docx.dfy`): the paragraphs and runs `generate` builds:
  - the header and the contact line;
  - the section headings;
  - summary, skills, experience and education;
  - the body order, title and page margin.

  The loops that push paragraphs are methods proved equal to their
  specification functions.
- **PDF exporter** (`pdf.dfy`): the vertical layout as a class
  `PdfLayout`. It holds a mutable cursor `y`, a page count and the titles
  drawn so far. Each drawing step is a method proved against a pure layout
  function over a `Cursor`. Text measurement is an input: the page height and
  the number of lines a text wraps to. The contact line and the width
  computed to centre it are modelled too.
- **Model-reply sanitising** (`gemini.dfy`): `cleanJSON`, the raw-text
  fallback record, the merge of the writer's reply, the analyst's fallback
  reply, the scores and the final result.
- **Cross-renderer facts** (`consistency.dfy`):
  - the two exporters agree on the contact fields, their order and links;
  - the two exporters use the same separator glyph, and the preview shows
    it only on the classic template;
  - the preview always draws two separators;
  - the PDF's section titles are a subsequence of the DOCX headings.
- **String helpers** (`text.dfy`): `trim`, `split` on one character and on
  a longer separator, `join`, literal
  `replace(/p/g, "")`, ASCII case mapping, `startsWith`/`includes`, and the
  LinkedIn URL rule shared by all renderers.

## Model

| member | source | states |
|---|---|---|
| Types.KeysRoundTrip | types.ts:59-78 | each enumeration value's string key parses back to that value: four app states, three template ids, two alignments, three heading styles |
| Types.ParseTemplateId | types.ts:66 | a key parses iff it is one of "classic", "modern", "minimalist", and parsing inverts the key function |
| Types.ParseAppState | types.ts:59-64 | a key parses iff it is one of SETUP, IDLE, OPTIMIZING, COMPLETED |
| Types.ParseAlignment | types.ts:77 | a key parses iff it is "left" or "center" |
| Types.ParseHeaderStyle | types.ts:78 | a key parses iff it is "border-bottom", "uppercase-bold" or "shaded" |
| Types.CssColor | components/ExtensionUI.tsx:106-118 | a stored colour (six hex digits, no '#') becomes a CSS colour of seven characters with exactly one '#', in front |
| Templates.Registry | services/docxGenerator.ts:17-72 | each entry's id is its key; classic is the only centred template; no entry uses the shaded style; every colour is bare hex |
| Editor.Apply | components/ExtensionUI.tsx:90-100 | writing value v at a valid path keeps the record's shape and makes the addressed leaf read v |
| Editor.ApplyFrame | components/ExtensionUI.tsx:90-100 | every other leaf of the record is unchanged by the write |
| Editor.ApplyIdempotent | components/ExtensionUI.tsx:90-100 | writing the same value at the same path twice equals writing it once |
| Editor.ApplyUnchangedValue | components/ExtensionUI.tsx:90-100 | writing back the value a leaf already holds returns the record unchanged |
| Editor.ApplyGet | components/ExtensionUI.tsx:90-100 | reading any valid path after a write gives v at the written path and the old value elsewhere |
| Editor.ApplyValid | components/ExtensionUI.tsx:90-100 | a write neither creates nor removes valid paths |
| Editor.ApplyCommutes | components/ExtensionUI.tsx:90-100 | writes to two different paths commute |
| Editor.CommutesAt | components/ExtensionUI.tsx:90-100 | after writes at two different paths, in either order, every valid path reads the same |
| Editor.PathExtensionality | components/ExtensionUI.tsx:90-100 | two records of the same shape that agree at every valid path are equal |
| Editor.SameShapeValid | components/ExtensionUI.tsx:90-100 | records of the same shape have the same valid paths |
| Editor.SameShapeTrans | components/ExtensionUI.tsx:90-100 | having the same shape is transitive and symmetric |
| Editor.HandleUpdate | components/ExtensionUI.tsx:90-100 | no record is produced iff there is no update callback; otherwise the copy holds v at the path and the input's values at every other path |
| Editor.ParseSkillsLine | components/ExtensionUI.tsx:225 | splitting the line on the three-character glyph and trimming gives at least one piece, each trimmed and free of the glyph |
| Editor.SkillsRoundTrip | components/ExtensionUI.tsx:224-225 | joining a non-empty list of trimmed, glyph-free skills for display and committing the line gives the list back |
| Editor.EmptySkillsRoundTrip | components/ExtensionUI.tsx:224-225 | an empty skills list comes back from display and commit as [""] |
| Editor.SkillsCommitStable | components/ExtensionUI.tsx:224-225 | committing a line, showing the result and committing again changes nothing |
| Editor.CommitSkills | components/ExtensionUI.tsx:225 | committing a line sets the skills to the parsed line and leaves every other field as it was |
| Editor.TrimAllClean | components/ExtensionUI.tsx:225 | trimming pieces free of the glyph gives trimmed pieces still free of it |
| Editor.PreviewHref | components/ExtensionUI.tsx:183 | the preview's link always starts with "http": a present value is normalised, a missing one gives "https://undefined" |
| Editor.PreviewContactShape | components/ExtensionUI.tsx:162-193 | the preview's contact row has five items, two of them separators, whatever is empty; its last item is the "LinkedIn" label, and no editable item edits the LinkedIn value |
| Editor.PreviewContact | components/ExtensionUI.tsx:138-193 | phone, separator, email, separator, the "LinkedIn" link; both separators are the same, and the glyph is a bar iff the template is classic |
| Editor.ExperienceTexts | components/ExtensionUI.tsx:405 | one text "role at company (period)" plus bullets per entry, in order |
| Editor.EducationTexts | components/ExtensionUI.tsx:411 | one text "degree, institution (period)" per entry, in order |
| Editor.ReconstructText | components/ExtensionUI.tsx:396-413 | the text has no surrounding whitespace and is the template with only whitespace trimmed from both ends |
| Editor.ReconstructIgnoresLinkedin | components/ExtensionUI.tsx:396-413 | the reconstructed text does not depend on the LinkedIn value |
| Editor.ReconstructLines | components/ExtensionUI.tsx:396-413 | for single-line fields, the lines are: name; contact line; the four headings; experience entries in order, each heading followed by its bullets, entries separated by a blank line; skills joined by ", "; one education line per entry |
| Editor.EntryLinesSplit | components/ExtensionUI.tsx:405 | an experience entry's text splits into its heading line followed by its bullets |
| Editor.ExperienceLinesSplit | components/ExtensionUI.tsx:405 | the joined experience block splits into the entries' lines with one blank line between entries |
| Editor.EducationLinesSplit | components/ExtensionUI.tsx:411 | the joined education block splits into one line per entry |
| Editor.SplitDouble | components/ExtensionUI.tsx:405 | a double newline between two texts yields one empty line between their lines |
| Editor.NextStep | components/ExtensionUI.tsx:349 | a tick raises the step by at most one, never past the last label (4), and changes it iff it is below the last |
| Editor.TicksCapped | components/ExtensionUI.tsx:345-355 | k ticks from a shown step give min(step + k, 4) |
| Editor.OnProcessingChange | components/ExtensionUI.tsx:345-355 | when processing stops the step resets to 0; when it starts the step is kept for the interval to advance |
| Editor.RestartedRun | components/ExtensionUI.tsx:345-355 | after a stop and a restart, k ticks show label min(k, 4) |
| Editor.StatusPartition | components/ExtensionUI.tsx:734-737 | for a shown step, exactly one label is active, the earlier ones are done and the later ones pending |
| Editor.UpdateParsedData | components/ExtensionUI.tsx:490-497 | there is a result iff a resume was parsed; the named top-level field gets the value, every other top-level field and the three lists are kept |
| Docx.DisplayName | services/docxGenerator.ts:163 | the name line is "YOUR NAME" for an empty name, otherwise the name upper-cased; it holds no lower-case ASCII letter |
| Docx.ContactSeparator | services/docxGenerator.ts:176 | the separator is three characters: a space, a bar (centred template) or the bullet, a space |
| Docx.CreateContactRuns | services/docxGenerator.ts:176-221 | the pushed runs are the present fields (phone, email, LinkedIn), with a separator between each two neighbours |
| Docx.ContactRunsShape | services/docxGenerator.ts:180-221 | k present fields give 2k−1 runs, so k−1 separators, and no runs when k = 0 |
| Docx.ContactLinks | services/docxGenerator.ts:190-221 | some run links to "mailto:"+email iff there is an email; a present LinkedIn gives the last run, reading "LinkedIn" and linking to the normalised URL; with no LinkedIn only phone and email runs occur |
| Docx.SectionHeading | services/docxGenerator.ts:241-275 | a heading has one bold, all-caps run with the title; it has a bottom border iff the style is border-bottom, and shading iff it is shaded |
| Docx.RegisteredHeadings | services/docxGenerator.ts:17-72 | with the registered templates no heading is shaded; headings have a border except on the modern template |
| Docx.CreateSummary | services/docxGenerator.ts:277-288 | the summary is one justified body paragraph whose only run is the summary text in the body font |
| Docx.CreateSkills | services/docxGenerator.ts:290-306 | skills are one paragraph of one run whose text is the skills joined by " • " (the bullet with one space on either side), centred iff the template is centred |
| Docx.SkillsReadBack | services/docxGenerator.ts:290-306 | splitting the run's text on the bullet and trimming gives the skills back when they are trimmed and bullet-free; no skills give "" |
| Docx.SkillsExample | services/docxGenerator.ts:290-306 | ["Go", "Rust", "SQL"] renders as "Go • Rust • SQL" |
| Docx.BulletParagraphs | services/docxGenerator.ts:352-365 | one bullet paragraph per description item, in order |
| Docx.ExperienceCount | services/docxGenerator.ts:308-368 | the experience yields Σ(1 + number of bullets) paragraphs |
| Docx.CountPrefix | services/docxGenerator.ts:308-368 | the paragraphs of the first i entries, plus entry i's, fit within the total |
| Docx.ExperiencePrefix | services/docxGenerator.ts:308-368 | the paragraphs of the first i entries are a prefix of the whole list |
| Docx.ExperienceEntryAt | services/docxGenerator.ts:308-368 | entry i starts at the count of the entries before it, with its heading (company in capitals, spacing before 0 for the first entry and 100 after), followed by its bullets in order |
| Docx.CreateExperience | services/docxGenerator.ts:308-368 | the nested loops push exactly the specified paragraph list |
| Docx.EducationParagraphs | services/docxGenerator.ts:370-416 | one paragraph per education entry, in order, with institution and degree, spacing before 0 for the first and 60 after |
| Docx.CreateEducation | services/docxGenerator.ts:370-416 | the loop pushes exactly the specified paragraph list |
| Docx.BodyLayout | services/docxGenerator.ts:132-146 | the body holds name, contact, then heading + summary, heading + skills, heading + experience, heading + education, for 8 + Σ(1+bullets) + entries paragraphs |
| Docx.DocumentTitle | services/docxGenerator.ts:83 | the document title is the full name when it is non-empty, and exactly "Resume" when it is empty |
| Docx.Generate | services/docxGenerator.ts:78-152 | the document has the specified title, 720-twip margins and the specified body for the registry's template |
| Pdf.Break | services/pdfGenerator.ts:24-29 | the page-break guard either changes nothing (iff the block fits above the bottom margin) or adds one page and puts y at 45; afterwards a block no taller than a page fits |
| Pdf.Down | services/pdfGenerator.ts:42-263 | a plain advance by dy keeps the page and moves y down by exactly dy |
| Pdf.HeaderEnd | services/pdfGenerator.ts:17-110 | y starts at 35 and the header moves it to 81 on page 1 |
| Pdf.ContactSeparator | services/pdfGenerator.ts:49 | the separator is five characters: two spaces, a bar (centred template) or a bullet, two spaces |
| Pdf.ContactRow | services/pdfGenerator.ts:73-102 | the contact line drawn by the conditionals is the present fields (phone, email with mailto link, "LinkedIn" with normalised link) with a separator between each two neighbours |
| Pdf.ContactRowShape | services/pdfGenerator.ts:73-102 | a separator precedes the email iff there is a phone, and precedes LinkedIn iff there is a phone or an email |
| Pdf.PlannedWidth | services/pdfGenerator.ts:58-66 | the width computed ahead is at least the widths of the present fields and at most that plus two separators |
| Pdf.PlannedWidthMatches | services/pdfGenerator.ts:61-64 | the width computed ahead to centre the line equals the width of what is drawn, when a present phone and email measure more than zero |
| Pdf.RowWidthAppend | services/pdfGenerator.ts:61-64 | widths of consecutive pieces add up |
| Pdf.SectionHead | services/pdfGenerator.ts:113-130 | a section heading checks 40 first and never moves the cursor backwards |
| Pdf.TextBlock | services/pdfGenerator.ts:143-146 | an n-line block adds at most one page, and none iff n×13 fits; y ends n×13 below where it was, or below 45 after a break; a block that fits a page ends above the bottom margin |
| Pdf.BulletStep | services/pdfGenerator.ts:217-223 | a bullet adds at most one page, and none iff n×13 fits; y ends n×13 + 3 below where it was, or below 45 after a break; one that fits a page ends at most 3 below the bottom margin |
| Pdf.DocumentLayout | services/pdfGenerator.ts:136-266 | the layout ends on page 1 or later, never before where the header ended |
| Pdf.SummarySection | services/pdfGenerator.ts:137-148 | an empty summary draws nothing |
| Pdf.SkillsSection | services/pdfGenerator.ts:151-168 | an empty skills list draws nothing |
| Pdf.ExperienceSection | services/pdfGenerator.ts:171-227 | an empty experience list draws nothing |
| Pdf.EducationSection | services/pdfGenerator.ts:230-266 | an empty education list draws nothing |
| Pdf.SectionsWhenNonEmpty | services/pdfGenerator.ts:137-230 | a section's title is drawn iff it has content: a non-empty summary, or a non-empty skills, experience or education list |
| Pdf.OneLineBulletStaysWithHeading | services/pdfGenerator.ts:174-218 | the 40 checked before an entry heading leaves room for a first bullet of one line |
| Pdf.TwoLineBulletCanLeaveHeading | services/pdfGenerator.ts:174-218 | on an 841-point page an entry heading checked at 776 stays on page 1 while a two-line first bullet goes to page 2 |
| Pdf.ProgressedTrans | services/pdfGenerator.ts:24-263 | the cursor's forward order is transitive |
| Pdf.TitleUpper | services/pdfGenerator.ts:121 | upper-casing the four section titles leaves them unchanged |
| Pdf.PdfLayout.CheckPageBreak | services/pdfGenerator.ts:24-29 | the method moves the cursor as the guard function says |
| Pdf.PdfLayout.DrawHeader | services/pdfGenerator.ts:42-110 | the header moves the cursor from 35 to 81 on page 1 |
| Pdf.PdfLayout.BeginSection | services/pdfGenerator.ts:113-130 | the heading moves the cursor as the heading function says and records the upper-cased title |
| Pdf.PdfLayout.EndSection | services/pdfGenerator.ts:133 | the section end adds 14 |
| Pdf.PdfLayout.DrawBlock | services/pdfGenerator.ts:143-146 | a text block moves the cursor as the block function says |
| Pdf.PdfLayout.DrawEntries | services/pdfGenerator.ts:173-225 | the nested loops over entries and bullets move the cursor as the entries function says |
| Pdf.PdfLayout.DrawSchools | services/pdfGenerator.ts:232-264 | the loop over education entries moves the cursor as the schools function says |
| Pdf.PdfLayout.DrawSummary | services/pdfGenerator.ts:137-148 | the summary section is drawn and its title recorded only when the summary is non-empty |
| Pdf.PdfLayout.DrawSkills | services/pdfGenerator.ts:151-168 | the skills section is drawn and its title recorded only when there are skills |
| Pdf.PdfLayout.DrawExperience | services/pdfGenerator.ts:171-227 | the experience section is drawn and its title recorded only when there are entries |
| Pdf.PdfLayout.DrawEducation | services/pdfGenerator.ts:230-266 | the education section is drawn and its title recorded only when there are entries |
| Pdf.PdfLayout.constructor | services/pdfGenerator.ts:14-17 | a new layout starts at y = 35 on page 1 with no titles |
| Pdf.Generate | services/pdfGenerator.ts:7-269 | generating ends at the specified final cursor and draws exactly the titles of the non-empty sections, in order |
| Gemini.CleanJson | services/geminiService.ts:6-10 | an empty reply gives "{}"; a reply without backticks is only trimmed; any result contains no "```" fence and has no surrounding whitespace |
| Gemini.CleanFenced | services/geminiService.ts:9 | a backtick-free body wrapped in "```json" and "```" is cleaned to the trimmed body |
| Gemini.NoFenceAfterRemove | services/geminiService.ts:9 | deleting every "```" left to right leaves no "```" |
| Gemini.RemoveAllAbsent | services/geminiService.ts:9 | deleting a pattern that does not occur changes nothing |
| Gemini.CleanJsonIdempotent | services/geminiService.ts:6-10 | cleaning a non-empty cleaned reply changes nothing |
| Gemini.FallbackRecord | services/geminiService.ts:110-125 | name "Candidate", empty contact fields; the summary is the first 300 characters (all of them for a shorter text) followed by "..."; one experience entry holding the whole text; no skills or education |
| Gemini.InputRecord | services/geminiService.ts:106-126 | the parsed resume when the input parses, the fallback record otherwise |
| Gemini.FirstTruthy | services/geminiService.ts:287-292 | the JavaScript or-chain over strings: the reply's value when non-empty, else the original's when non-empty, else the default |
| Gemini.MergeReply | services/geminiService.ts:281-296 | the LinkedIn value is the reply's when it is usable, else the original's; the name is never empty, and it is the reply's, else the original's, else "Candidate"; summary, email, phone and location are the reply's, else the original's, else ""; the three lists are the reply's arrays or [] |
| Gemini.UsableLinkedin | services/geminiService.ts:281-283 | usable means present, longer than five characters, and with no "linkedin url" inside its lower-cased text; so a usable value is non-empty and not the placeholder in any letter case |
| Gemini.WriterResult | services/geminiService.ts:276-301 | a reply that does not parse returns the resume unchanged |
| Gemini.EchoMerge | services/geminiService.ts:281-296 | a reply echoing the resume gives the resume back, except that an empty name becomes "Candidate" |
| Gemini.MergeIdempotent | services/geminiService.ts:281-296 | merging the same reply twice equals merging it once |
| Gemini.ArraysNotRestored | services/geminiService.ts:293-295 | a reply without arrays empties experience, skills and education, whatever the resume held |
| Gemini.PlaceholderRefused | services/geminiService.ts:281 | a value of five characters or fewer is refused, and so is any value whose lower-cased text holds "linkedin url", the placeholder in any letter case included |
| Gemini.AnalystResult | services/geminiService.ts:197-215 | a reply that does not parse gives the fixed fallback analysis: score 50, gaps "Analysis Failed" and "Please try again", its two messages and a breakdown of 50s |
| Gemini.OriginalScore | services/geminiService.ts:138 | the original score is the analyst's score, or 50 when that is missing or 0 |
| Gemini.OptimizedScore | services/geminiService.ts:139 | the promised score is the original + 25 when the original is at most 73, and 98 otherwise, so never above 98 |
| Gemini.ScoresOrdered | services/geminiService.ts:138-139 | the promised score is at least the original iff the original is at most 98; a missing score gives 50 and 75 |
| Gemini.BuildResult | services/geminiService.ts:137-155 | the result carries both scores, the hard-skill gaps as keyword gaps and the soft-skill gaps as weaknesses (each [] when missing), no strengths, the two suggestions with their defaults, the breakdown or an all-zero one, and the rewritten resume |
| Gemini.FailedAnalysisResult | services/geminiService.ts:137-214 | with a failed analysis the result shows 50 and 75, the fallback gaps, and its two messages as suggestions |
| Gemini.OptimizeResume | services/geminiService.ts:100-156 | the optimised resume is the writer's merge into the input record (the input record itself when the reply does not parse); the scores come from the analyst's reply or its fallback, 50 and 75 when it does not parse, and never above 98 |
| Consistency.ExportersAgreeOnContact | services/docxGenerator.ts:180-221 | the DOCX runs and the PDF pieces of the contact line have the same texts and link targets, in the same order |
| Consistency.SameSeparatorGlyph | services/docxGenerator.ts:176 | the DOCX separator (3 characters) and the PDF one (5) trim to the same glyph: a bar when centred, a bullet otherwise |
| Consistency.PreviewGlyphDiffers | components/ExtensionUI.tsx:138 | the preview's contact separator is the exporters' glyph iff the template is classic; elsewhere its three-character glyph differs from the DOCX and PDF bullet |
| Consistency.ExportSeparators | services/pdfGenerator.ts:73-102 | the exporters draw at most two separators |
| Consistency.SeparatorCounts | components/ExtensionUI.tsx:162-166 | both exporters draw one separator fewer than the present fields; the preview always draws two, and the counts agree iff phone, email and LinkedIn are all present |
| Consistency.DocxHeadings | services/docxGenerator.ts:132-146 | the DOCX body has exactly the four headings, in order, even for empty sections |
| Consistency.PdfTitlesWithinDocx | services/pdfGenerator.ts:136-266 | the PDF's titles are a subsequence of the DOCX headings, and equal to them iff every section has content |
| Consistency.DrawnTitles | services/pdfGenerator.ts:136-266 | the titles of the drawn sections are a subsequence of the four, and all four iff every section is drawn |
| Consistency.LayoutHeadings | services/docxGenerator.ts:132-146 | the headings of a body laid out as the DOCX body are its four heading titles |
| Consistency.ExperienceHasNoHeading | services/docxGenerator.ts:308-368 | the experience paragraphs contain no heading |
| Text.NormalizeUrl | components/ExtensionUI.tsx:183 | a value starting with "http" is kept, anything else gets "https://" in front; the result always starts with "http" |
| Text.NormalizeIdempotent | services/docxGenerator.ts:219 | normalising a normalised URL changes nothing |
| Text.JoinSplitTrim | services/docxGenerator.ts:292-296 | joining trimmed, bullet-free items with space-padded bullets, splitting on the bullet and trimming gives the items back |
| Text.SplitOn | components/ExtensionUI.tsx:225 | a split on a longer separator gives at least one piece, the first a prefix of the text, and a single piece is the whole text |
| Text.SplitOnWithout | components/ExtensionUI.tsx:225 | no piece of a split holds the separator |
| Text.JoinSplitOnTrim | components/ExtensionUI.tsx:224-225 | joining trimmed, separator-free items with a space-padded separator, splitting on it and trimming gives the items back |
| Text.SplitOnChar | components/ExtensionUI.tsx:225 | splitting on a one-character string is the one-character split |
| Text.Split | components/ExtensionUI.tsx:225 | a split gives at least one piece and no piece holds the separator |
| Text.Trim | components/ExtensionUI.tsx:412 | a trimmed text has no surrounding whitespace |
| Text.TrimSlice | components/ExtensionUI.tsx:412 | trim returns a slice of its argument with only whitespace cut from both ends |
| Text.ToUpper | services/docxGenerator.ts:163 | upper-casing keeps the length and maps every character |
| Text.ToLower | services/geminiService.ts:281 | lower-casing keeps the length and maps every character |
| Text.Intersperse | services/docxGenerator.ts:178-221 | k > 0 items with separators give 2k−1 elements; none give none |
| Text.IntersperseAt | services/docxGenerator.ts:178-221 | even positions hold the items in order, odd positions the separator |
| Text.IntersperseSnoc | services/docxGenerator.ts:190-221 | pushing a field pushes a separator first exactly when something is already there |

## Left out

- React rendering, styling, editable-text blur events, hover and focus state,
  and the LinkedIn edit-mode toggle are user interface and are not modelled.
  The preview is modelled only through its contact row, its link target and
  its separator.
- File reading, the mammoth parser and the UTF-8/base64 helper are I/O or
  foreign calls and are left out. So are the print window, the interval and
  timeout timing, and the download through object URLs. Only the step rule
  and its reset are kept.
- The `docx` library and `Packer.toBlob`: paragraphs and runs are a datatype.
  Only the properties read by the model are kept: text, link, bold, italics,
  all-caps, size, font, colour, alignment, spacing, border, shading, tab stop.
  The named paragraph styles of the document are not modelled.
- jsPDF drawing, font selection, colours and x-coordinates are left out,
  including the centred x position, which is a float.
  - `getTextWidth` is a width function passed as an input.
  - `splitTextToSize` line counts are inputs.
  - The page height is an integer parameter, whereas A4 is about 841.89
    points.
- The model calls, their prompts and response schemas, and `JSON.parse` are
  left out. A reply is an `Option`: `None` stands for text that does not
  parse. `parseResume` is only a call plus `cleanJSON`, so it is not modelled
  beyond `Gemini.CleanJson`.
- The diff view (a wrapper over a word-diff library), the mock job-board
  page, the build configuration and the browser-extension background script
  are not part of this model.
- `toUpperCase`/`toLowerCase` are ASCII-only here. Unicode case mapping is
  not modelled.
- The exporters' bullet is the single character U+2022 (`Text.BulletChar`).
  The preview's glyph is the three characters U+00E2, U+20AC, U+00A2, as the
  mis-encoded source text reads when decoded; other decodings of the file
  are not modelled.
- Text.Trim: only ASCII whitespace is removed. JavaScript's `trim` also
  removes non-ASCII whitespace such as U+00A0 and U+2028, which the model
  keeps.
- Gemini.FallbackRecord, Gemini.UsableLinkedin: JavaScript's `slice(0, 300)`
  and `length > 5` count UTF-16 code units, while the model counts
  characters. Text with characters outside the Basic Multilingual Plane is
  cut at a different place and measured differently.
- Docx.CreateSkills: records with missing fields are not modelled. The DOCX
  exporter writes "" for a missing skills list and treats missing
  experience, description and education lists as empty, and `createSummary`
  writes "" for a missing summary. The PDF exporter skips sections whose
  list is missing, but throws on an experience entry without a description.
  `ResumeData` always holds every field, so none of these cases arise.
- Gemini.InputRecord: an empty resume text is cleaned to "{}", which parses
  to a record with every field missing rather than reaching the fallback.
  Such a record cannot be expressed, so the model's `parsed` argument is
  always a complete record.
- Scores are integers. A non-integer score from the model is not modelled.
- Editor.Apply: `handleUpdate` walks the path with a loop over string keys
  and assigns into a deep copy. The model uses a typed `Path` with in-range
  indices and a value of the leaf's type, and returns a new record. Paths the
  interface never builds (out of range, wrong type) are excluded by the
  precondition rather than modelled as JavaScript would run them.
- Pdf.SectionHead, Pdf.Bullets, Pdf.Entry, Pdf.Entries, Pdf.School,
  Pdf.Schools: these functions only promise that the cursor moves forward.
  Their exact arithmetic is what the class methods are proved against.
- Pdf.PlannedWidthMatches: requires a non-empty phone and email to have
  positive width. When one measures zero, the planned width leaves out a
  separator the drawing code still draws.
- Gemini.MergeReply: a reply field of a non-string type, or a null list
  element, is not modelled. Reply strings are `Option<string>` and lists are
  either arrays or not.

### Where the renderers differ (modelled as written)

- Title size: 20pt in the preview, 28 half-points (14pt) in the DOCX, 12pt in
  the PDF. Margins: 12.7mm, 720 twips (0.5in) and 25pt.
- Contact separators: the preview always draws two, even for empty fields.
  The exporters draw one fewer than the present fields
  (`Consistency.SeparatorCounts`).
- The skills separator is U+2022 with two spaces on either side in the PDF,
  and with one space on either side in the DOCX (`Docx.CreateSkills`). The
  preview joins with its mis-encoded three-character bullet (U+00E2 U+20AC
  U+00A2), with two spaces on either side (`Editor.SkillsRoundTrip`).
- The preview's LinkedIn link for a missing value is "https://undefined"
  (`Editor.PreviewHref`).
- The DOCX writes all four headings even for empty sections. The PDF skips
  empty sections (`Consistency.PdfTitlesWithinDocx`).
- The PDF's 40-point check before an entry heading keeps a one-line first
  bullet with its heading. A longer first bullet can go to the next page
  without it (`Pdf.TwoLineBulletCanLeaveHeading`).
- The contact separator of the preview is the mis-encoded three-character
  bullet on the modern and minimalist templates, where both exporters draw
  U+2022. Only the classic template's bar is shared by all three
  (`Consistency.PreviewGlyphDiffers`). The preview's skills line uses the
  same three characters.
