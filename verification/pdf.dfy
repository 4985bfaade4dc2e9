/** The vertical layout of the PDF exporter: one cursor `y` (in points, from
    the top of the page) and a page count, advanced by fixed amounts as the
    header, the sections and their entries are drawn, with a page-break guard
    before every block. Text measurement is outside the model: the number of
    lines a text wraps to and the page height are inputs. */
module Pdf {
  import opened Types
  import opened Text
  import opened Templates

  const Margin: int := 25
  const LineHeight: int := 13
  /** Where the cursor starts: the margin plus 10. */
  const StartY: int := 35
  /** Where the cursor restarts on a new page: the margin plus 20. */
  const TopAfterBreak: int := 45

  /** The measurements the drawing library supplies: the page height and the
      number of lines `splitTextToSize` wraps a text to, at the full content
      width and at the indented width of a bullet. */
  datatype Metrics = Metrics(pageHeight: int, wrap: string -> nat, wrapIndented: string -> nat)

  datatype Cursor = Cursor(y: int, pages: nat)

  /** The cursor only moves forward: onto a later page, or down the same page. */
  predicate Progressed(a: Cursor, b: Cursor) {
    b.pages > a.pages || (b.pages == a.pages && b.y >= a.y)
  }

  lemma ProgressedTrans(a: Cursor, b: Cursor, c: Cursor)
    requires Progressed(a, b) && Progressed(b, c)
    ensures Progressed(a, c)
  {
  }

  /** `checkPageBreak(h)`: a block of height `h` that would run past the
      bottom margin goes to a new page, whose cursor is at 45; otherwise
      nothing changes. A block no taller than a page allows fits after it. */
  function Break(c: Cursor, h: int, pageHeight: int): (r: Cursor)
    ensures Progressed(c, r)
    ensures r == c || (r.pages == c.pages + 1 && r.y == TopAfterBreak)
    ensures r == c <==> c.y + h <= pageHeight - Margin
    ensures 0 <= h <= pageHeight - Margin - TopAfterBreak ==> r.y + h <= pageHeight - Margin
  {
    if c.y + h > pageHeight - Margin then Cursor(TopAfterBreak, c.pages + 1) else c
  }

  function Down(c: Cursor, dy: nat): (r: Cursor)
    ensures Progressed(c, r) && r.pages == c.pages
    ensures r.y == c.y + dy
  {
    c.(y := c.y + dy)
  }

  /** The cursor after the header: the name line, the contact line and the
      rule under it, with no page-break check. */
  function HeaderEnd(): (r: Cursor)
    ensures r == Cursor(81, 1)
  {
    Down(Down(Down(Cursor(StartY, 1), 16), 12), 18)
  }

  // ---------------------------------------------------------------------------
  // The contact line
  // ---------------------------------------------------------------------------

  /** A piece of the contact line: plain text, or text that links somewhere. */
  datatype ContactPiece = Plain(text: string) | Linked(text: string, url: string)

  /** The contact separator: a bar for the centred template, a bullet otherwise. */
  function ContactSeparator(cfg: TemplateConfig): (r: string)
    ensures |r| == 5 && r[..2] == "  " && r[3..] == "  "
    ensures r[2] == (if cfg.layout.headerAlignment == Center then '|' else BulletChar)
  {
    if cfg.layout.headerAlignment == Center then "  |  " else "  " + [BulletChar] + "  "
  }

  /** The fields the contact line shows, in order: the phone, the email
      linking to "mailto:" + email, and "LinkedIn" linking to the normalised
      address; each only when its value is non-empty. */
  function ContactPieces(d: ResumeData): seq<ContactPiece> {
    (if d.phone != "" then [Plain(d.phone)] else [])
    + (if d.email != "" then [Linked(d.email, "mailto:" + d.email)] else [])
    + (if HasLinkedin(d) then [Linked("LinkedIn", NormalizeUrl(d.linkedin.value))] else [])
  }

  /** What the header draws on the contact line, as the drawing code decides
      it: the email is preceded by a separator when there is a phone, the
      LinkedIn link when there is a phone or an email. */
  function ContactRow(d: ResumeData, cfg: TemplateConfig): (r: seq<ContactPiece>)
    ensures r == Intersperse(ContactPieces(d), Plain(ContactSeparator(cfg)))
  {
    var sep := Plain(ContactSeparator(cfg));
    var phone := if d.phone != "" then [Plain(d.phone)] else [];
    var email :=
      if d.email != "" then (if d.phone != "" then [sep] else []) + [Linked(d.email, "mailto:" + d.email)]
      else [];
    var linkedin :=
      if HasLinkedin(d) then
        (if d.phone != "" || d.email != "" then [sep] else []) + [Linked("LinkedIn", NormalizeUrl(d.linkedin.value))]
      else [];
    ContactRowShape(d, sep);
    phone + email + linkedin
  }

  lemma ContactRowShape(d: ResumeData, sep: ContactPiece)
    ensures Intersperse(ContactPieces(d), sep)
      == (if d.phone != "" then [Plain(d.phone)] else [])
         + (if d.email != "" then (if d.phone != "" then [sep] else []) + [Linked(d.email, "mailto:" + d.email)] else [])
         + (if HasLinkedin(d) then
              (if d.phone != "" || d.email != "" then [sep] else []) + [Linked("LinkedIn", NormalizeUrl(d.linkedin.value))]
            else [])
  {
    IntersperseThree(
      if d.phone != "" then [Plain(d.phone)] else [],
      if d.email != "" then [Linked(d.email, "mailto:" + d.email)] else [],
      if HasLinkedin(d) then [Linked("LinkedIn", NormalizeUrl(d.linkedin.value))] else [],
      sep);
  }

  /** The sum of the widths of the pieces. */
  function RowWidth(pieces: seq<ContactPiece>, width: string -> nat): nat {
    if pieces == [] then 0 else width(pieces[0].text) + RowWidth(pieces[1..], width)
  }

  /** The width the header computes ahead, to centre the line: a separator is
      counted before the email, and before LinkedIn, when the running total
      is already positive. */
  function PlannedWidth(d: ResumeData, cfg: TemplateConfig, width: string -> nat): (r: nat)
    ensures var fields := (if d.phone != "" then width(d.phone) else 0) + (if d.email != "" then width(d.email) else 0)
        + (if HasLinkedin(d) then width("LinkedIn") else 0);
      fields <= r <= fields + 2 * width(ContactSeparator(cfg))
  {
    var sepWidth := width(ContactSeparator(cfg));
    var t0 := if d.phone != "" then width(d.phone) else 0;
    var t1 := if d.email != "" then t0 + (if t0 > 0 then sepWidth else 0) + width(d.email) else t0;
    if HasLinkedin(d) then t1 + (if t1 > 0 then sepWidth else 0) + width("LinkedIn") else t1
  }

  lemma RowWidthAppend(a: seq<ContactPiece>, b: seq<ContactPiece>, width: string -> nat)
    ensures RowWidth(a + b, width) == RowWidth(a, width) + RowWidth(b, width)
  {
    if a != [] {
      assert (a + b)[1..] == a[1..] + b;
      RowWidthAppend(a[1..], b, width);
    } else {
      assert a + b == b;
    }
  }

  /** The planned width is the width of what is drawn, so the centred line is
      centred, provided a non-empty phone and email measure more than zero
      ("LinkedIn" is counted whatever its measure). */
  lemma PlannedWidthMatches(d: ResumeData, cfg: TemplateConfig, width: string -> nat)
    requires d.phone != "" ==> width(d.phone) > 0
    requires d.email != "" ==> width(d.email) > 0
    ensures PlannedWidth(d, cfg, width) == RowWidth(ContactRow(d, cfg), width)
  {
    var sep := Plain(ContactSeparator(cfg));
    var phone := if d.phone != "" then [Plain(d.phone)] else [];
    var email :=
      if d.email != "" then (if d.phone != "" then [sep] else []) + [Linked(d.email, "mailto:" + d.email)]
      else [];
    var linkedin :=
      if HasLinkedin(d) then
        (if d.phone != "" || d.email != "" then [sep] else []) + [Linked("LinkedIn", NormalizeUrl(d.linkedin.value))]
      else [];
    ContactRowShape(d, sep);
    assert ContactRow(d, cfg) == phone + email + linkedin;
    RowWidthAppend(phone, email, width);
    RowWidthAppend(phone + email, linkedin, width);
    if d.email != "" && d.phone != "" {
      RowWidthAppend([sep], [Linked(d.email, "mailto:" + d.email)], width);
    }
    if HasLinkedin(d) && (d.phone != "" || d.email != "") {
      RowWidthAppend([sep], [Linked("LinkedIn", NormalizeUrl(d.linkedin.value))], width);
    }
  }

  /** `renderSection`'s heading: check 40, draw the title, then 16 below it
      for the border-bottom style (4 to the rule, 12 after it) or 14 otherwise. */
  function SectionHead(c: Cursor, cfg: TemplateConfig, pageHeight: int): (r: Cursor)
    ensures Progressed(c, r)
  {
    var b := Break(c, 40, pageHeight);
    if cfg.layout.sectionHeaderStyle == BorderBottom then Down(Down(b, 4), 12) else Down(b, 14)
  }

  /** The 14 after a section's content. */
  function SectionEnd(c: Cursor): (r: Cursor)
    ensures Progressed(c, r)
  {
    Down(c, 14)
  }

  /** A wrapped block of `n` lines (summary, skills): check its height, then
      advance by it. */
  function TextBlock(c: Cursor, n: nat, pageHeight: int): (r: Cursor)
    ensures Progressed(c, r) && r.pages <= c.pages + 1
    ensures r.pages == c.pages <==> c.y + n * LineHeight <= pageHeight - Margin
    ensures r.y == (if c.y + n * LineHeight <= pageHeight - Margin then c.y else TopAfterBreak) + n * LineHeight
    ensures n * LineHeight <= pageHeight - Margin - TopAfterBreak ==> r.y <= pageHeight - Margin
  {
    Down(Break(c, n * LineHeight, pageHeight), n * LineHeight)
  }

  /** One bullet of `n` lines: check its height, then advance by it plus 3. */
  function BulletStep(c: Cursor, n: nat, pageHeight: int): (r: Cursor)
    ensures Progressed(c, r) && r.pages <= c.pages + 1
    ensures r.pages == c.pages <==> c.y + n * LineHeight <= pageHeight - Margin
    ensures r.y == (if c.y + n * LineHeight <= pageHeight - Margin then c.y else TopAfterBreak) + n * LineHeight + 3
    ensures n * LineHeight <= pageHeight - Margin - TopAfterBreak ==> r.y <= pageHeight - Margin + 3
  {
    Down(Break(c, n * LineHeight, pageHeight), n * LineHeight + 3)
  }

  function Bullets(c: Cursor, items: seq<string>, m: Metrics): (r: Cursor)
    ensures Progressed(c, r)
    decreases |items|
  {
    if |items| == 0 then c
    else
      var prev := Bullets(c, items[..|items| - 1], m);
      ProgressedTrans(c, prev, BulletStep(prev, m.wrapIndented(items[|items| - 1]), m.pageHeight));
      BulletStep(prev, m.wrapIndented(items[|items| - 1]), m.pageHeight)
  }

  /** The heading line of experience entry `i`: check 40, a gap of 12 before
      every entry but the first, then 13 + 2 for the line. */
  function EntryHead(c: Cursor, i: nat, pageHeight: int): (r: Cursor)
    ensures Progressed(c, r)
  {
    Down(Break(c, 40, pageHeight), (if i > 0 then 12 else 0) + LineHeight + 2)
  }

  function Entry(c: Cursor, e: Experience, i: nat, m: Metrics): (r: Cursor)
    ensures Progressed(c, r)
  {
    var h := EntryHead(c, i, m.pageHeight);
    ProgressedTrans(c, h, Bullets(h, e.description, m));
    Bullets(h, e.description, m)
  }

  function Entries(c: Cursor, exps: seq<Experience>, m: Metrics): (r: Cursor)
    ensures Progressed(c, r)
    decreases |exps|
  {
    if |exps| == 0 then c
    else
      var prev := Entries(c, exps[..|exps| - 1], m);
      ProgressedTrans(c, prev, Entry(prev, exps[|exps| - 1], |exps| - 1, m));
      Entry(prev, exps[|exps| - 1], |exps| - 1, m)
  }

  /** Education entry `i`: check 30, a gap of 10 before every entry but the
      first, then 13 + 4 for the line. */
  function School(c: Cursor, i: nat, pageHeight: int): (r: Cursor)
    ensures Progressed(c, r)
  {
    Down(Break(c, 30, pageHeight), (if i > 0 then 10 else 0) + LineHeight + 4)
  }

  function Schools(c: Cursor, n: nat, pageHeight: int): (r: Cursor)
    ensures Progressed(c, r)
    decreases n
  {
    if n == 0 then c
    else
      var prev := Schools(c, n - 1, pageHeight);
      ProgressedTrans(c, prev, School(prev, n - 1, pageHeight));
      School(prev, n - 1, pageHeight)
  }

  /** The skills as the PDF draws them: joined by the bullet with two spaces on either side. */
  function SkillsText(skills: seq<string>): string {
    Join(skills, "  " + [BulletChar] + "  ")
  }

  function SummarySection(c: Cursor, d: ResumeData, cfg: TemplateConfig, m: Metrics): (r: Cursor)
    ensures Progressed(c, r)
    ensures d.summary == "" ==> r == c
  {
    if d.summary == "" then c
    else
      var h := SectionHead(c, cfg, m.pageHeight);
      var b := TextBlock(h, m.wrap(d.summary), m.pageHeight);
      ProgressedTrans(c, h, b);
      ProgressedTrans(c, b, SectionEnd(b));
      SectionEnd(b)
  }

  function SkillsSection(c: Cursor, d: ResumeData, cfg: TemplateConfig, m: Metrics): (r: Cursor)
    ensures Progressed(c, r)
    ensures |d.skills| == 0 ==> r == c
  {
    if |d.skills| == 0 then c
    else
      var h := SectionHead(c, cfg, m.pageHeight);
      var b := TextBlock(h, m.wrap(SkillsText(d.skills)), m.pageHeight);
      ProgressedTrans(c, h, b);
      ProgressedTrans(c, b, SectionEnd(b));
      SectionEnd(b)
  }

  function ExperienceSection(c: Cursor, d: ResumeData, cfg: TemplateConfig, m: Metrics): (r: Cursor)
    ensures Progressed(c, r)
    ensures |d.experience| == 0 ==> r == c
  {
    if |d.experience| == 0 then c
    else
      var h := SectionHead(c, cfg, m.pageHeight);
      var b := Entries(h, d.experience, m);
      ProgressedTrans(c, h, b);
      ProgressedTrans(c, b, SectionEnd(b));
      SectionEnd(b)
  }

  function EducationSection(c: Cursor, d: ResumeData, cfg: TemplateConfig, m: Metrics): (r: Cursor)
    ensures Progressed(c, r)
    ensures |d.education| == 0 ==> r == c
  {
    if |d.education| == 0 then c
    else
      var h := SectionHead(c, cfg, m.pageHeight);
      var b := Schools(h, |d.education|, m.pageHeight);
      ProgressedTrans(c, h, b);
      ProgressedTrans(c, b, SectionEnd(b));
      SectionEnd(b)
  }

  /** Where the cursor ends once the whole resume is laid out. */
  function DocumentLayout(d: ResumeData, cfg: TemplateConfig, m: Metrics): (r: Cursor)
    ensures r.pages >= 1
    ensures Progressed(HeaderEnd(), r)
  {
    var c0 := HeaderEnd();
    var c1 := SummarySection(c0, d, cfg, m);
    var c2 := SkillsSection(c1, d, cfg, m);
    var c3 := ExperienceSection(c2, d, cfg, m);
    var c4 := EducationSection(c3, d, cfg, m);
    ProgressedTrans(c0, c1, c2);
    ProgressedTrans(c0, c2, c3);
    ProgressedTrans(c0, c3, c4);
    c4
  }

  /** The title, when the section is drawn. */
  function When(drawn: bool, title: string): seq<string> {
    if drawn then [title] else []
  }

  /** The section titles drawn, in order. */
  function SectionTitles(d: ResumeData): seq<string> {
    When(d.summary != "", SummaryTitle)
    + When(|d.skills| > 0, SkillsTitle)
    + When(|d.experience| > 0, ExperienceTitle)
    + When(|d.education| > 0, EducationTitle)
  }

  /** A section is drawn exactly when it has content: a non-empty summary, a
      non-empty list of skills, of experience entries, of education entries. */
  lemma SectionsWhenNonEmpty(d: ResumeData)
    ensures |SectionTitles(d)| <= 4
    ensures SummaryTitle in SectionTitles(d) <==> d.summary != ""
    ensures SkillsTitle in SectionTitles(d) <==> |d.skills| > 0
    ensures ExperienceTitle in SectionTitles(d) <==> |d.experience| > 0
    ensures EducationTitle in SectionTitles(d) <==> |d.education| > 0
  {
  }

  /** The 40 checked before an entry heading leaves room for the heading and
      a first bullet of one line: on a page that can hold 40 points below the
      restart position, such a bullet never goes to a new page of its own. */
  lemma OneLineBulletStaysWithHeading(c: Cursor, i: nat, pageHeight: int)
    requires pageHeight >= Margin + TopAfterBreak + 40
    ensures Break(EntryHead(c, i, pageHeight), LineHeight, pageHeight) == EntryHead(c, i, pageHeight)
  {
    var b := Break(c, 40, pageHeight);
    assert b.y + 40 <= pageHeight - Margin;
  }

  /** A first bullet of two lines is not covered by that check: on an A4 page
      (841.89 points, which for whole-point positions acts as 841) an entry
      heading checked at 776 stays on the first page and its first bullet
      starts the second. */
  lemma TwoLineBulletCanLeaveHeading()
    ensures EntryHead(Cursor(776, 1), 1, 841).pages == 1
    ensures Break(EntryHead(Cursor(776, 1), 1, 841), 2 * LineHeight, 841).pages == 2
  {
  }

  // ---------------------------------------------------------------------------
  // The generator's state
  // ---------------------------------------------------------------------------

  /** The mutable state of one `generate` call: the cursor, the page count and
      the section titles drawn so far. */
  class PdfLayout {
    const metrics: Metrics
    const config: TemplateConfig
    var y: int
    var pages: nat
    var titles: seq<string>

    function At(): Cursor
      reads this
    {
      Cursor(y, pages)
    }

    constructor(m: Metrics, cfg: TemplateConfig)
      ensures metrics == m && config == cfg
      ensures At() == Cursor(StartY, 1) && titles == []
    {
      metrics := m;
      config := cfg;
      y := StartY;
      pages := 1;
      titles := [];
    }

    /** `checkPageBreak(h)`. */
    method CheckPageBreak(h: int)
      modifies this
      ensures At() == Break(old(At()), h, metrics.pageHeight)
      ensures titles == old(titles)
    {
      if y + h > metrics.pageHeight - Margin {
        pages := pages + 1;
        y := Margin + 20;
      }
    }

    /** The name line, the contact line and the rule: 16, 12, then 18. */
    method DrawHeader()
      modifies this
      requires At() == Cursor(StartY, 1)
      ensures At() == HeaderEnd() && titles == old(titles)
    {
      y := y + 16;
      y := y + 12;
      y := y + 18;
    }

    /** The first half of `renderSection`: the check, the title, the rule or gap. */
    method BeginSection(title: string)
      modifies this
      ensures At() == SectionHead(old(At()), config, metrics.pageHeight)
      ensures titles == old(titles) + [ToUpper(title)]
    {
      CheckPageBreak(40);
      titles := titles + [ToUpper(title)];
      if config.layout.sectionHeaderStyle == BorderBottom {
        y := y + 4;
        y := y + 12;
      } else {
        y := y + 14;
      }
    }

    method EndSection()
      modifies this
      ensures At() == SectionEnd(old(At())) && titles == old(titles)
    {
      y := y + 14;
    }

    /** A wrapped text block of `n` lines. */
    method DrawBlock(n: nat)
      modifies this
      ensures At() == TextBlock(old(At()), n, metrics.pageHeight) && titles == old(titles)
    {
      CheckPageBreak(n * LineHeight);
      y := y + n * LineHeight;
    }

    /** The experience entries, each with its bullets. */
    method DrawEntries(exps: seq<Experience>)
      modifies this
      ensures At() == Entries(old(At()), exps, metrics) && titles == old(titles)
    {
      ghost var start := At();
      for i := 0 to |exps|
        invariant At() == Entries(start, exps[..i], metrics) && titles == old(titles)
      {
        assert exps[..i + 1][..i] == exps[..i];
        ghost var before := At();
        CheckPageBreak(40);
        if i > 0 {
          y := y + 12;
        }
        y := y + LineHeight + 2;
        var items := exps[i].description;
        ghost var head := At();
        assert head == EntryHead(before, i, metrics.pageHeight);
        for j := 0 to |items|
          invariant At() == Bullets(head, items[..j], metrics) && titles == old(titles)
        {
          assert items[..j + 1][..j] == items[..j];
          var n := metrics.wrapIndented(items[j]);
          CheckPageBreak(n * LineHeight);
          y := y + n * LineHeight + 3;
        }
        assert items[..|items|] == items;
      }
      assert exps[..|exps|] == exps;
    }

    /** The education entries. */
    method DrawSchools(n: nat)
      modifies this
      ensures At() == Schools(old(At()), n, metrics.pageHeight) && titles == old(titles)
    {
      ghost var start := At();
      for i := 0 to n
        invariant At() == Schools(start, i, metrics.pageHeight) && titles == old(titles)
      {
        CheckPageBreak(30);
        if i > 0 {
          y := y + 10;
        }
        y := y + LineHeight + 4;
      }
    }

    /** The summary section, drawn only for a non-empty summary. */
    method DrawSummary(d: ResumeData)
      modifies this
      ensures At() == SummarySection(old(At()), d, config, metrics)
      ensures titles == old(titles) + When(d.summary != "", SummaryTitle)
    {
      if d.summary != "" {
        TitleUpper(SummaryTitle);
        BeginSection(SummaryTitle);
        DrawBlock(metrics.wrap(d.summary));
        EndSection();
      }
    }

    /** The skills section, drawn only for a non-empty list. */
    method DrawSkills(d: ResumeData)
      modifies this
      ensures At() == SkillsSection(old(At()), d, config, metrics)
      ensures titles == old(titles) + When(|d.skills| > 0, SkillsTitle)
    {
      if |d.skills| > 0 {
        TitleUpper(SkillsTitle);
        BeginSection(SkillsTitle);
        DrawBlock(metrics.wrap(SkillsText(d.skills)));
        EndSection();
      }
    }

    /** The experience section, drawn only for a non-empty list. */
    method DrawExperience(d: ResumeData)
      modifies this
      ensures At() == ExperienceSection(old(At()), d, config, metrics)
      ensures titles == old(titles) + When(|d.experience| > 0, ExperienceTitle)
    {
      if |d.experience| > 0 {
        TitleUpper(ExperienceTitle);
        BeginSection(ExperienceTitle);
        DrawEntries(d.experience);
        EndSection();
      }
    }

    /** The education section, drawn only for a non-empty list. */
    method DrawEducation(d: ResumeData)
      modifies this
      ensures At() == EducationSection(old(At()), d, config, metrics)
      ensures titles == old(titles) + When(|d.education| > 0, EducationTitle)
    {
      if |d.education| > 0 {
        TitleUpper(EducationTitle);
        BeginSection(EducationTitle);
        DrawSchools(|d.education|);
        EndSection();
      }
    }
  }

  /** The four section titles are already in capitals. */
  lemma TitleUpper(title: string)
    requires title in [SummaryTitle, SkillsTitle, ExperienceTitle, EducationTitle]
    ensures ToUpper(title) == title
  {
    UpperNoop(title);
  }

  /** `generate(data, templateId)`: the final cursor and the section titles drawn. */
  method Generate(d: ResumeData, id: TemplateId, m: Metrics) returns (final: Cursor, titles: seq<string>)
    ensures final == DocumentLayout(d, Registry(id), m)
    ensures titles == SectionTitles(d)
  {
    var p := new PdfLayout(m, Registry(id));
    p.DrawHeader();
    p.DrawSummary(d);
    p.DrawSkills(d);
    p.DrawExperience(d);
    p.DrawEducation(d);
    assert [] + When(d.summary != "", SummaryTitle) == When(d.summary != "", SummaryTitle);
    final := p.At();
    titles := p.titles;
  }
}
