/** The structure of the Word document the DOCX exporter builds: the paragraph
    and run sequence of the document body, with the text, links, emphasis,
    sizes (in half-points) and spacing (in twentieths of a point) it sets.
    The library objects themselves are replaced by the datatypes below. */
module Docx {
  import opened Types
  import opened Text
  import opened Templates

  /** A text run, or a run wrapped in an external hyperlink when `link` is
      present. Unset fonts and colours come from the paragraph style. */
  datatype Run = Run(
    text: string,
    link: Option<string>,
    bold: bool,
    italics: bool,
    allCaps: bool,
    size: nat,
    font: Option<string>,
    color: Option<string>)

  datatype Alignment = AlignLeft | AlignCenter | Justified | StyleDefault

  datatype Border = Border(color: string, space: nat, size: nat)

  datatype ParagraphKind = Body | Heading2 | BulletItem

  /** A paragraph. Spacing that the source leaves unset is 0, which is also
      what the bullet style sets. */
  datatype Paragraph = Paragraph(
    kind: ParagraphKind,
    runs: seq<Run>,
    alignment: Alignment,
    spacingBefore: nat,
    spacingAfter: nat,
    bottomBorder: Option<Border>,
    shading: Option<string>,
    rightTab: bool)

  /** Page margins are the same on all four sides. */
  datatype Document = Document(title: string, margin: nat, body: seq<Paragraph>)

  function TextRun(text: string, size: nat, font: Option<string>, color: Option<string>): Run {
    Run(text, None, false, false, false, size, font, color)
  }

  function HeaderAlign(cfg: TemplateConfig): Alignment {
    if cfg.layout.headerAlignment == Center then AlignCenter else AlignLeft
  }

  // ---------------------------------------------------------------------------
  // Header
  // ---------------------------------------------------------------------------

  /** The name shown at the top: `(fullName || "YOUR NAME").toUpperCase()`. */
  function DisplayName(fullName: string): (r: string)
    ensures fullName != "" ==> r == ToUpper(fullName)
    ensures |fullName| > 0 ==> |r| == |fullName|
    ensures fullName == "" ==> r == "YOUR NAME"
    ensures forall i :: 0 <= i < |r| ==> !('a' <= r[i] <= 'z')
  {
    ToUpper(if fullName == "" then "YOUR NAME" else fullName)
  }

  function NameParagraph(d: ResumeData, cfg: TemplateConfig): Paragraph {
    Paragraph(Body,
      [Run(DisplayName(d.fullName), None, true, false, false, 28, Some(cfg.fonts.heading), Some(cfg.colors.primary))],
      HeaderAlign(cfg), 0, 40, None, None, false)
  }

  /** " | " for a centred header, " • " otherwise. */
  function ContactSeparator(cfg: TemplateConfig): (r: string)
    ensures |r| == 3 && r[0] == ' ' && r[2] == ' '
    ensures r[1] == (if cfg.layout.headerAlignment == Center then '|' else BulletChar)
  {
    if cfg.layout.headerAlignment == Center then " | " else " " + [BulletChar] + " "
  }

  function SeparatorRun(cfg: TemplateConfig): Run {
    TextRun(ContactSeparator(cfg), 19, None, Some(cfg.colors.secondary))
  }

  function PhoneRun(d: ResumeData, cfg: TemplateConfig): Run {
    TextRun(d.phone, 19, None, Some(cfg.colors.secondary))
  }

  function EmailRun(d: ResumeData, cfg: TemplateConfig): Run {
    Run(d.email, Some("mailto:" + d.email), false, false, false, 19, None, Some(cfg.colors.primary))
  }

  function LinkedinRun(d: ResumeData, cfg: TemplateConfig): Run
    requires HasLinkedin(d)
  {
    Run("LinkedIn", Some(NormalizeUrl(d.linkedin.value)), false, false, false, 19, None, Some(cfg.colors.primary))
  }

  /** The runs of the fields that are present, in the order phone, email, LinkedIn. */
  function ContactFields(d: ResumeData, cfg: TemplateConfig): seq<Run> {
    (if d.phone != "" then [PhoneRun(d, cfg)] else [])
    + (if d.email != "" then [EmailRun(d, cfg)] else [])
    + (if HasLinkedin(d) then [LinkedinRun(d, cfg)] else [])
  }

  /** The contact runs of `createHeader`: each present field is pushed, with a
      separator pushed first whenever something is already there. */
  method CreateContactRuns(d: ResumeData, cfg: TemplateConfig) returns (children: seq<Run>)
    ensures children == Intersperse(ContactFields(d, cfg), SeparatorRun(cfg))
  {
    var sep := SeparatorRun(cfg);
    ghost var present: seq<Run> := [];
    children := [];
    if d.phone != "" {
      IntersperseSnoc(present, PhoneRun(d, cfg), sep);
      children := children + [PhoneRun(d, cfg)];
      present := present + [PhoneRun(d, cfg)];
    }
    assert children == Intersperse(present, sep) && |children| == |present|;
    if d.email != "" {
      IntersperseSnoc(present, EmailRun(d, cfg), sep);
      if |children| > 0 {
        children := children + [sep];
      }
      children := children + [EmailRun(d, cfg)];
      present := present + [EmailRun(d, cfg)];
    }
    assert children == Intersperse(present, sep) && (|children| == 0 <==> |present| == 0);
    if HasLinkedin(d) {
      IntersperseSnoc(present, LinkedinRun(d, cfg), sep);
      if |children| > 0 {
        children := children + [sep];
      }
      children := children + [LinkedinRun(d, cfg)];
      present := present + [LinkedinRun(d, cfg)];
    }
    assert present == ContactFields(d, cfg);
  }

  /** k present fields give k runs and k - 1 separators, and the separators
      sit exactly between them. */
  lemma ContactRunsShape(d: ResumeData, cfg: TemplateConfig)
    ensures var k := |ContactFields(d, cfg)|;
      && k == (if d.phone != "" then 1 else 0) + (if d.email != "" then 1 else 0) + (if HasLinkedin(d) then 1 else 0)
      && |Intersperse(ContactFields(d, cfg), SeparatorRun(cfg))| == (if k == 0 then 0 else 2 * k - 1)
  {
  }

  /** The email run, when there is one, links to "mailto:" + email; the
      LinkedIn run, last when there is one, always reads "LinkedIn" and links
      to the normalised address; when the value is absent or empty only
      phone and email runs remain. */
  lemma ContactLinks(d: ResumeData, cfg: TemplateConfig)
    ensures var fields := ContactFields(d, cfg);
      && (d.email != "" <==> exists i :: 0 <= i < |fields| && fields[i].link == Some("mailto:" + d.email))
      && (HasLinkedin(d) ==>
            |fields| > 0 && fields[|fields| - 1].text == "LinkedIn"
            && fields[|fields| - 1].link == Some(NormalizeUrl(d.linkedin.value)))
      && (!HasLinkedin(d) ==> forall i :: 0 <= i < |fields| ==> fields[i] in {PhoneRun(d, cfg), EmailRun(d, cfg)})
  {
    var fields := ContactFields(d, cfg);
    if d.email != "" {
      var i := if d.phone != "" then 1 else 0;
      assert fields[i] == EmailRun(d, cfg);
    }
    if HasLinkedin(d) {
      var u := NormalizeUrl(d.linkedin.value);
      assert u[0] == 'h';
      assert ("mailto:" + d.email)[0] == 'm';
      assert u != "mailto:" + d.email;
    }
  }

  function ContactParagraph(runs: seq<Run>, cfg: TemplateConfig): Paragraph {
    Paragraph(Body, runs, HeaderAlign(cfg), 0, 80, Some(Border("E2E8F0", 4, 2)), None, false)
  }

  // ---------------------------------------------------------------------------
  // Section headings, summary and skills
  // ---------------------------------------------------------------------------

  /** `createSectionHeading`: one level-2 heading paragraph, bold and in
      capitals, with a bottom rule exactly for the border-bottom style and
      shading exactly for the shaded style. */
  function SectionHeading(text: string, cfg: TemplateConfig): (r: Paragraph)
    ensures r.kind == Heading2 && |r.runs| == 1 && r.runs[0].text == text
    ensures r.runs[0].bold && r.runs[0].allCaps
    ensures r.bottomBorder.Some? <==> cfg.layout.sectionHeaderStyle == BorderBottom
    ensures r.shading.Some? <==> cfg.layout.sectionHeaderStyle == Shaded
  {
    var border := if cfg.layout.sectionHeaderStyle == BorderBottom then Some(Border(cfg.colors.primary, 1, 4)) else None;
    var shading := if cfg.layout.sectionHeaderStyle == Shaded then Some("F3F4F6") else None;
    Paragraph(Heading2,
      [Run(text, None, true, false, true, 22, Some(cfg.fonts.heading), Some(cfg.colors.primary))],
      StyleDefault, 80, 40, border, shading, false)
  }

  /** No registered template produces a shaded heading, and only the classic
      and minimalist ones draw the rule under it. */
  lemma RegisteredHeadings(id: TemplateId, text: string)
    ensures SectionHeading(text, Registry(id)).shading.None?
    ensures SectionHeading(text, Registry(id)).bottomBorder.Some? <==> id != Modern
  {
  }

  /** `createSummary`: one justified paragraph holding the summary as its only
      run, in the body font. */
  function CreateSummary(summary: string, cfg: TemplateConfig): (r: Paragraph)
    ensures |r.runs| == 1 && r.runs[0].text == summary && r.runs[0].font == Some(cfg.fonts.body)
    ensures r.alignment == Justified && r.kind == Body
  {
    Paragraph(Body, [TextRun(summary, 20, Some(cfg.fonts.body), None)], Justified, 0, 80, None, None, false)
  }

  /** The separator between skills: the bullet with one space on either side. */
  const SkillsSeparator: string := " " + [BulletChar] + " "

  /** `createSkills`: one paragraph holding one run, the skills joined by " • ". */
  function CreateSkills(skills: seq<string>, cfg: TemplateConfig): (r: Paragraph)
    ensures |r.runs| == 1
    ensures r.runs[0].text == Join(skills, SkillsSeparator)
    ensures r.alignment == AlignCenter <==> cfg.layout.headerAlignment == Center
  {
    Paragraph(Body, [TextRun(Join(skills, SkillsSeparator), 20, Some(cfg.fonts.body), None)],
      HeaderAlign(cfg), 0, 80, None, None, false)
  }

  /** The skills can be read back from the paragraph: splitting its text on
      the bullet and trimming gives the list, when it is non-empty and its
      items are trimmed and bullet-free. An empty list gives an empty text. */
  lemma SkillsReadBack(skills: seq<string>, cfg: TemplateConfig)
    requires TrimmedWithout(skills, BulletChar)
    ensures |skills| > 0 ==> TrimAll(Split(CreateSkills(skills, cfg).runs[0].text, BulletChar)) == skills
    ensures |skills| == 0 ==> CreateSkills(skills, cfg).runs[0].text == ""
  {
    if |skills| > 0 {
      assert AllSpace(" ");
      JoinSplitTrim(skills, " ", BulletChar);
    }
  }

  /** Three skills on the modern template. */
  lemma SkillsExample()
    ensures CreateSkills(["Go", "Rust", "SQL"], Registry(Modern)).runs[0].text
      == "Go " + [BulletChar] + " Rust " + [BulletChar] + " SQL"
  {
  }

  // ---------------------------------------------------------------------------
  // Experience
  // ---------------------------------------------------------------------------

  /** The heading paragraph of the experience entry at `index`: company in
      capitals, " | ", role, then a tab and the period against a right tab stop. */
  function ExperienceHeading(e: Experience, index: nat, cfg: TemplateConfig): Paragraph {
    Paragraph(Body,
      [Run(ToUpper(e.company), None, true, false, false, 20, Some(cfg.fonts.heading), Some(cfg.colors.primary)),
       TextRun(" | ", 20, Some(cfg.fonts.body), Some(cfg.colors.secondary)),
       Run(e.role, None, true, false, false, 20, Some(cfg.fonts.body), None),
       Run("\t" + e.period, None, true, false, false, 18, Some(cfg.fonts.body), None)],
      StyleDefault, if index == 0 then 0 else 100, 40, None, None, true)
  }

  function BulletParagraph(text: string, cfg: TemplateConfig): Paragraph {
    Paragraph(BulletItem, [TextRun(text, 20, Some(cfg.fonts.body), None)], StyleDefault, 0, 0, None, None, false)
  }

  function BulletParagraphs(items: seq<string>, cfg: TemplateConfig): (r: seq<Paragraph>)
    ensures |r| == |items|
    ensures forall j :: 0 <= j < |items| ==> r[j] == BulletParagraph(items[j], cfg)
  {
    seq(|items|, j requires 0 <= j < |items| => BulletParagraph(items[j], cfg))
  }

  function EntryParagraphs(e: Experience, index: nat, cfg: TemplateConfig): seq<Paragraph> {
    [ExperienceHeading(e, index, cfg)] + BulletParagraphs(e.description, cfg)
  }

  /** The paragraphs of the experience entries, entry by entry. */
  function ExperienceParagraphs(exps: seq<Experience>, cfg: TemplateConfig): seq<Paragraph>
    decreases |exps|
  {
    if |exps| == 0 then []
    else ExperienceParagraphs(exps[..|exps| - 1], cfg) + EntryParagraphs(exps[|exps| - 1], |exps| - 1, cfg)
  }

  /** Σ (1 + |description|): one heading plus one bullet per item, per entry. */
  function ParagraphCount(exps: seq<Experience>): nat
    decreases |exps|
  {
    if |exps| == 0 then 0 else ParagraphCount(exps[..|exps| - 1]) + 1 + |exps[|exps| - 1].description|
  }

  lemma {:induction false} ExperienceCount(exps: seq<Experience>, cfg: TemplateConfig)
    ensures |ExperienceParagraphs(exps, cfg)| == ParagraphCount(exps)
    decreases |exps|
  {
    if |exps| > 0 {
      ExperienceCount(exps[..|exps| - 1], cfg);
    }
  }

  lemma {:induction false} CountPrefix(exps: seq<Experience>, i: nat)
    requires i <= |exps|
    ensures ParagraphCount(exps[..i]) <= ParagraphCount(exps)
    ensures i < |exps| ==> ParagraphCount(exps[..i]) + 1 + |exps[i].description| <= ParagraphCount(exps)
    decreases |exps| - i
  {
    if i < |exps| {
      CountPrefix(exps, i + 1);
      assert exps[..i + 1][..i] == exps[..i];
    } else {
      assert exps[..i] == exps;
    }
  }

  lemma ExperiencePrefix(exps: seq<Experience>, i: nat, cfg: TemplateConfig)
    requires i <= |exps|
    ensures ParagraphCount(exps[..i]) <= |ExperienceParagraphs(exps, cfg)|
    ensures ExperienceParagraphs(exps[..i], cfg) == ExperienceParagraphs(exps, cfg)[..ParagraphCount(exps[..i])]
    decreases |exps| - i
  {
    ExperienceCount(exps[..i], cfg);
    ExperienceCount(exps, cfg);
    CountPrefix(exps, i);
    if i < |exps| {
      ExperiencePrefix(exps, i + 1, cfg);
      assert exps[..i + 1][..i] == exps[..i];
      ExperienceCount(exps[..i + 1], cfg);
    } else {
      assert exps[..i] == exps;
    }
  }

  /** Entry `i` of the experience list starts at position
      ParagraphCount(exps[..i]) with its heading paragraph (company in capitals,
      spacing before 0 for the first entry and 100 for the others), followed
      by its bullets in order. */
  lemma ExperienceEntryAt(exps: seq<Experience>, i: nat, cfg: TemplateConfig)
    requires i < |exps|
    ensures var ps, at := ExperienceParagraphs(exps, cfg), ParagraphCount(exps[..i]);
      && at + 1 + |exps[i].description| <= |ps|
      && ps[at] == ExperienceHeading(exps[i], i, cfg)
      && ps[at].runs[0].text == ToUpper(exps[i].company)
      && ps[at].spacingBefore == (if i == 0 then 0 else 100)
      && forall j :: 0 <= j < |exps[i].description| ==> ps[at + 1 + j] == BulletParagraph(exps[i].description[j], cfg)
  {
    var ps := ExperienceParagraphs(exps, cfg);
    ExperienceCount(exps[..i + 1], cfg);
    ExperienceCount(exps[..i], cfg);
    CountPrefix(exps, i + 1);
    ExperiencePrefix(exps, i + 1, cfg);
    assert exps[..i + 1][..i] == exps[..i];
    var upto := ExperienceParagraphs(exps[..i + 1], cfg);
    assert upto == ExperienceParagraphs(exps[..i], cfg) + EntryParagraphs(exps[i], i, cfg);
  }

  /** `createExperience`: for each entry, push its heading paragraph, then one
      bullet paragraph per description item. */
  method CreateExperience(exps: seq<Experience>, cfg: TemplateConfig) returns (paragraphs: seq<Paragraph>)
    ensures paragraphs == ExperienceParagraphs(exps, cfg)
  {
    paragraphs := [];
    for i := 0 to |exps|
      invariant paragraphs == ExperienceParagraphs(exps[..i], cfg)
    {
      var e := exps[i];
      paragraphs := paragraphs + [ExperienceHeading(e, i, cfg)];
      for j := 0 to |e.description|
        invariant paragraphs == ExperienceParagraphs(exps[..i], cfg) + [ExperienceHeading(e, i, cfg)] + BulletParagraphs(e.description[..j], cfg)
      {
        assert BulletParagraphs(e.description[..j + 1], cfg) == BulletParagraphs(e.description[..j], cfg) + [BulletParagraph(e.description[j], cfg)];
        paragraphs := paragraphs + [BulletParagraph(e.description[j], cfg)];
      }
      assert e.description[..|e.description|] == e.description;
      assert exps[..i + 1][..i] == exps[..i];
    }
    assert exps[..|exps|] == exps;
  }

  // ---------------------------------------------------------------------------
  // Education
  // ---------------------------------------------------------------------------

  /** The paragraph of the education entry at `index`: institution, " | ",
      degree in italics, then a tab and the period. */
  function EducationParagraph(e: Education, index: nat, cfg: TemplateConfig): Paragraph {
    Paragraph(Body,
      [Run(e.institution, None, true, false, false, 20, Some(cfg.fonts.heading), Some(cfg.colors.primary)),
       TextRun(" | ", 20, Some(cfg.fonts.body), Some(cfg.colors.secondary)),
       Run(e.degree, None, false, true, false, 20, Some(cfg.fonts.body), None),
       Run("\t" + e.period, None, true, false, false, 18, Some(cfg.fonts.body), None)],
      StyleDefault, if index == 0 then 0 else 60, 30, None, None, true)
  }

  /** Exactly one paragraph per education entry, in order: spacing before 0
      for the first and 60 for the others, the institution first. */
  function EducationParagraphs(edus: seq<Education>, cfg: TemplateConfig): (r: seq<Paragraph>)
    ensures |r| == |edus|
    ensures forall i :: 0 <= i < |edus| ==> |r[i].runs| == 4 && r[i].runs[0].text == edus[i].institution && r[i].runs[2].text == edus[i].degree
    ensures forall i :: 0 <= i < |edus| ==> r[i].spacingBefore == (if i == 0 then 0 else 60)
  {
    seq(|edus|, i requires 0 <= i < |edus| => EducationParagraph(edus[i], i, cfg))
  }

  /** `createEducation`: one paragraph pushed per entry. */
  method CreateEducation(edus: seq<Education>, cfg: TemplateConfig) returns (paragraphs: seq<Paragraph>)
    ensures paragraphs == EducationParagraphs(edus, cfg)
  {
    paragraphs := [];
    for i := 0 to |edus|
      invariant paragraphs == EducationParagraphs(edus[..i], cfg)
    {
      paragraphs := paragraphs + [EducationParagraph(edus[i], i, cfg)];
    }
    assert edus[..|edus|] == edus;
  }

  // ---------------------------------------------------------------------------
  // The document
  // ---------------------------------------------------------------------------

  /** The document body `generate` builds, in order. */
  function DocumentBody(d: ResumeData, cfg: TemplateConfig): seq<Paragraph> {
    [NameParagraph(d, cfg), ContactParagraph(Intersperse(ContactFields(d, cfg), SeparatorRun(cfg)), cfg)]
    + [SectionHeading(SummaryTitle, cfg), CreateSummary(d.summary, cfg)]
    + [SectionHeading(SkillsTitle, cfg), CreateSkills(d.skills, cfg)]
    + [SectionHeading(ExperienceTitle, cfg)] + ExperienceParagraphs(d.experience, cfg)
    + [SectionHeading(EducationTitle, cfg)] + EducationParagraphs(d.education, cfg)
  }

  /** The order of the body: the two header paragraphs, then the summary,
      skills, experience and education sections, each opened by its heading
      even when the section is empty. */
  lemma BodyLayout(d: ResumeData, cfg: TemplateConfig)
    ensures var body, n := DocumentBody(d, cfg), ParagraphCount(d.experience);
      && |body| == 8 + n + |d.education|
      && body[0].runs[0].text == DisplayName(d.fullName)
      && body[2] == SectionHeading(SummaryTitle, cfg) && body[3].runs[0].text == d.summary
      && body[4] == SectionHeading(SkillsTitle, cfg) && body[5] == CreateSkills(d.skills, cfg)
      && body[6] == SectionHeading(ExperienceTitle, cfg)
      && body[7..7 + n] == ExperienceParagraphs(d.experience, cfg)
      && body[7 + n] == SectionHeading(EducationTitle, cfg)
      && body[8 + n..] == EducationParagraphs(d.education, cfg)
  {
    ExperienceCount(d.experience, cfg);
    LayoutPositions(
      NameParagraph(d, cfg), ContactParagraph(Intersperse(ContactFields(d, cfg), SeparatorRun(cfg)), cfg),
      SectionHeading(SummaryTitle, cfg), CreateSummary(d.summary, cfg),
      SectionHeading(SkillsTitle, cfg), CreateSkills(d.skills, cfg),
      SectionHeading(ExperienceTitle, cfg), ExperienceParagraphs(d.experience, cfg),
      SectionHeading(EducationTitle, cfg), EducationParagraphs(d.education, cfg));
  }

  /** Positions in a sequence laid out as the body is. */
  lemma LayoutPositions<T>(n: T, c: T, h1: T, p1: T, h2: T, p2: T, h3: T, exp: seq<T>, h4: T, edu: seq<T>)
    ensures var body := [n, c] + [h1, p1] + [h2, p2] + [h3] + exp + [h4] + edu;
      && |body| == 8 + |exp| + |edu|
      && body[0] == n && body[2] == h1 && body[3] == p1 && body[4] == h2 && body[5] == p2 && body[6] == h3
      && body[7..7 + |exp|] == exp && body[7 + |exp|] == h4 && body[8 + |exp|..] == edu
  {
    var head := [n, c, h1, p1, h2, p2, h3];
    var body := [n, c] + [h1, p1] + [h2, p2] + [h3] + exp + [h4] + edu;
    assert body == head + exp + [h4] + edu;
  }

  /** The document's title: the full name, or "Resume" when it is empty. */
  function DocumentTitle(fullName: string): (r: string)
    ensures r != ""
    ensures fullName != "" ==> r == fullName
    ensures fullName == "" ==> r == "Resume"
  {
    if fullName == "" then "Resume" else fullName
  }

  /** Half an inch, in twentieths of a point. */
  const PageMargin: nat := 720

  /** `generate(data, templateId)`: the document for the registered template. */
  method Generate(d: ResumeData, id: TemplateId) returns (doc: Document)
    ensures doc.title == DocumentTitle(d.fullName) && doc.margin == PageMargin
    ensures doc.body == DocumentBody(d, Registry(id))
  {
    var cfg := Registry(id);
    var contact := CreateContactRuns(d, cfg);
    var experience := CreateExperience(d.experience, cfg);
    var education := CreateEducation(d.education, cfg);
    var body := [NameParagraph(d, cfg), ContactParagraph(contact, cfg)]
      + [SectionHeading(SummaryTitle, cfg), CreateSummary(d.summary, cfg)]
      + [SectionHeading(SkillsTitle, cfg), CreateSkills(d.skills, cfg)]
      + [SectionHeading(ExperienceTitle, cfg)] + experience
      + [SectionHeading(EducationTitle, cfg)] + education;
    doc := Document(DocumentTitle(d.fullName), PageMargin, body);
  }
}
