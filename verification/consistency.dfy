/** What the three renderers of a resume — the editable preview, the DOCX
    exporter and the PDF exporter — agree on, and where they part: the
    contact line (order, links, separator glyph, how many separators) and
    the section headings. */
module Consistency {
  import opened Types
  import opened Text
  import opened Templates
  import Docx
  import Pdf
  import Editor

  // ---------------------------------------------------------------------------
  // The contact line
  // ---------------------------------------------------------------------------

  /** The link target of a PDF contact piece, as a DOCX run would carry it. */
  function LinkOf(p: Pdf.ContactPiece): Option<string> {
    match p
    case Plain(_) => None
    case Linked(_, url) => Some(url)
  }

  /** Both exporters show the same contact fields, in the same order, with
      the same texts and the same link targets. */
  lemma ExportersAgreeOnContact(d: ResumeData, cfg: TemplateConfig)
    ensures var runs, pieces := Docx.ContactFields(d, cfg), Pdf.ContactPieces(d);
      && |runs| == |pieces|
      && forall i :: 0 <= i < |runs| ==> runs[i].text == pieces[i].text && runs[i].link == LinkOf(pieces[i])
  {
    var runs, pieces := Docx.ContactFields(d, cfg), Pdf.ContactPieces(d);
    var rp := if d.phone != "" then [Docx.PhoneRun(d, cfg)] else [];
    var pp := if d.phone != "" then [Pdf.Plain(d.phone)] else [];
    var re := if d.email != "" then [Docx.EmailRun(d, cfg)] else [];
    var pe := if d.email != "" then [Pdf.Linked(d.email, "mailto:" + d.email)] else [];
    var rl := if HasLinkedin(d) then [Docx.LinkedinRun(d, cfg)] else [];
    var pl := if HasLinkedin(d) then [Pdf.Linked("LinkedIn", NormalizeUrl(d.linkedin.value))] else [];
    assert runs == rp + re + rl && pieces == pp + pe + pl;
    forall i | 0 <= i < |runs|
      ensures runs[i].text == pieces[i].text && runs[i].link == LinkOf(pieces[i])
    {
      if i < |rp| {
      } else if i < |rp| + |re| {
        assert runs[i] == re[i - |rp|] && pieces[i] == pe[i - |pp|];
      } else {
        assert runs[i] == rl[i - |rp| - |re|] && pieces[i] == pl[i - |pp| - |pe|];
      }
    }
  }

  /** The DOCX separator is narrower (one space either side, five in all for
      the PDF's two), but both carry the same glyph: a bar for the centred
      template and a bullet for the others. */
  lemma SameSeparatorGlyph(cfg: TemplateConfig)
    ensures Trim(Docx.ContactSeparator(cfg)) == Trim(Pdf.ContactSeparator(cfg))
    ensures Trim(Pdf.ContactSeparator(cfg)) == (if cfg.layout.headerAlignment == Center then "|" else [BulletChar])
    ensures |Docx.ContactSeparator(cfg)| == 3 && |Pdf.ContactSeparator(cfg)| == 5
  {
    var g := if cfg.layout.headerAlignment == Center then "|" else [BulletChar];
    assert NoSurroundingSpace(g);
    assert AllSpace(" ") && AllSpace("  ");
    assert Docx.ContactSeparator(cfg) == " " + g + " ";
    assert Pdf.ContactSeparator(cfg) == "  " + g + "  ";
    TrimPadded(" ", g, " ");
    TrimPadded("  ", g, "  ");
    TrimNoop(g);
  }

  /** The preview shows the exporters' separator glyph only on the classic
      template, whose bar all three share; on the other templates it shows the
      mis-encoded three-character bullet where the exporters draw U+2022. */
  lemma PreviewGlyphDiffers(d: ResumeData, id: TemplateId)
    ensures Editor.PreviewContact(d, id)[1] == Editor.Separator(Trim(Pdf.ContactSeparator(Registry(id)))) <==> id == Classic
    ensures id != Classic ==> Editor.PreviewContact(d, id)[1].glyph != Trim(Docx.ContactSeparator(Registry(id)))
  {
    SameSeparatorGlyph(Registry(id));
    assert |Editor.PreviewGlyph| == 3;
  }

  /** The number of separators the exporters draw between the contact fields. */
  function ExportSeparators(d: ResumeData): (r: nat)
    ensures r <= 2
  {
    var k := |Pdf.ContactPieces(d)|;
    if k == 0 then 0 else k - 1
  }

  /** Both exporters draw one separator fewer than there are fields. The
      preview always draws two, so it agrees with them exactly when phone,
      email and LinkedIn are all present. */
  lemma SeparatorCounts(d: ResumeData, id: TemplateId)
    ensures |Docx.ContactFields(d, Registry(id))| == |Pdf.ContactPieces(d)|
    ensures ExportSeparators(d)
      == |Pdf.ContactRow(d, Registry(id))| - |Pdf.ContactPieces(d)|
      == |Intersperse(Docx.ContactFields(d, Registry(id)), Docx.SeparatorRun(Registry(id)))| - |Docx.ContactFields(d, Registry(id))|
    ensures ExportSeparators(d) == 2 <==> d.phone != "" && d.email != "" && HasLinkedin(d)
    ensures |set i | 0 <= i < 5 && Editor.PreviewContact(d, id)[i].Separator?| == 2
  {
    ExportersAgreeOnContact(d, Registry(id));
    Editor.PreviewContactShape(d, id);
  }

  // ---------------------------------------------------------------------------
  // Section headings
  // ---------------------------------------------------------------------------

  /** The four section titles, in the order every renderer uses. */
  const AllTitles: seq<string> := [SummaryTitle, SkillsTitle, ExperienceTitle, EducationTitle]

  function FirstText(p: Docx.Paragraph): string {
    if |p.runs| > 0 then p.runs[0].text else ""
  }

  /** The titles of the heading paragraphs of a body, in order. */
  function HeadingTitles(ps: seq<Docx.Paragraph>): seq<string> {
    if ps == [] then []
    else (if ps[0].kind == Docx.Heading2 then [FirstText(ps[0])] else []) + HeadingTitles(ps[1..])
  }

  lemma {:induction false} HeadingTitlesAppend(a: seq<Docx.Paragraph>, b: seq<Docx.Paragraph>)
    ensures HeadingTitles(a + b) == HeadingTitles(a) + HeadingTitles(b)
  {
    if a == [] {
      assert a + b == b;
    } else {
      assert (a + b)[1..] == a[1..] + b;
      HeadingTitlesAppend(a[1..], b);
    }
  }

  /** A body with no heading paragraph has no heading titles. */
  lemma {:induction false} NoHeadings(ps: seq<Docx.Paragraph>)
    requires forall i :: 0 <= i < |ps| ==> ps[i].kind != Docx.Heading2
    ensures HeadingTitles(ps) == []
  {
    if ps != [] {
      NoHeadings(ps[1..]);
    }
  }

  lemma {:induction false} ExperienceHasNoHeading(exps: seq<Experience>, cfg: TemplateConfig)
    ensures HeadingTitles(Docx.ExperienceParagraphs(exps, cfg)) == []
    decreases |exps|
  {
    if |exps| > 0 {
      var e := exps[|exps| - 1];
      ExperienceHasNoHeading(exps[..|exps| - 1], cfg);
      NoHeadings(Docx.EntryParagraphs(e, |exps| - 1, cfg));
      HeadingTitlesAppend(Docx.ExperienceParagraphs(exps[..|exps| - 1], cfg), Docx.EntryParagraphs(e, |exps| - 1, cfg));
    }
  }

  /** The headings of a body laid out as the DOCX body is: two header
      paragraphs, then heading, paragraph, heading, paragraph, heading, a run
      of paragraphs, heading, a run of paragraphs. */
  lemma LayoutHeadings(n: Docx.Paragraph, c: Docx.Paragraph, h1: Docx.Paragraph, p1: Docx.Paragraph,
                       h2: Docx.Paragraph, p2: Docx.Paragraph, h3: Docx.Paragraph, exp: seq<Docx.Paragraph>,
                       h4: Docx.Paragraph, edu: seq<Docx.Paragraph>)
    requires n.kind != Docx.Heading2 && c.kind != Docx.Heading2 && p1.kind != Docx.Heading2 && p2.kind != Docx.Heading2
    requires h1.kind == Docx.Heading2 && h2.kind == Docx.Heading2 && h3.kind == Docx.Heading2 && h4.kind == Docx.Heading2
    requires HeadingTitles(exp) == [] && HeadingTitles(edu) == []
    ensures HeadingTitles([n, c] + [h1, p1] + [h2, p2] + [h3] + exp + [h4] + edu)
      == [FirstText(h1), FirstText(h2), FirstText(h3), FirstText(h4)]
  {
    var head := [n, c, h1, p1, h2, p2, h3];
    assert [n, c] + [h1, p1] + [h2, p2] + [h3] == head;
    assert HeadingTitles(head[6..]) == [FirstText(h3)] by {
      assert head[6..][1..] == [];
    }
    assert HeadingTitles(head[5..]) == [FirstText(h3)] by {
      assert head[5..][1..] == head[6..];
    }
    assert HeadingTitles(head[4..]) == [FirstText(h2), FirstText(h3)] by {
      assert head[4..][1..] == head[5..];
    }
    assert HeadingTitles(head[3..]) == [FirstText(h2), FirstText(h3)] by {
      assert head[3..][1..] == head[4..];
    }
    assert HeadingTitles(head[2..]) == [FirstText(h1), FirstText(h2), FirstText(h3)] by {
      assert head[2..][1..] == head[3..];
    }
    assert HeadingTitles(head[1..]) == [FirstText(h1), FirstText(h2), FirstText(h3)] by {
      assert head[1..][1..] == head[2..];
    }
    assert HeadingTitles(head) == [FirstText(h1), FirstText(h2), FirstText(h3)];
    HeadingTitlesAppend(head, exp);
    HeadingTitlesAppend(head + exp, [h4]);
    assert HeadingTitles([h4]) == [FirstText(h4)] by {
      assert [h4][1..] == [];
    }
    HeadingTitlesAppend(head + exp + [h4], edu);
  }

  /** The DOCX exporter writes all four headings, in order, whatever the
      resume holds: an empty section keeps its heading. */
  lemma DocxHeadings(d: ResumeData, cfg: TemplateConfig)
    ensures HeadingTitles(Docx.DocumentBody(d, cfg)) == AllTitles
  {
    ExperienceHasNoHeading(d.experience, cfg);
    NoHeadings(Docx.EducationParagraphs(d.education, cfg));
    LayoutHeadings(
      Docx.NameParagraph(d, cfg), Docx.ContactParagraph(Intersperse(Docx.ContactFields(d, cfg), Docx.SeparatorRun(cfg)), cfg),
      Docx.SectionHeading(SummaryTitle, cfg), Docx.CreateSummary(d.summary, cfg),
      Docx.SectionHeading(SkillsTitle, cfg), Docx.CreateSkills(d.skills, cfg),
      Docx.SectionHeading(ExperienceTitle, cfg), Docx.ExperienceParagraphs(d.experience, cfg),
      Docx.SectionHeading(EducationTitle, cfg), Docx.EducationParagraphs(d.education, cfg));
  }

  /** `a` is `b` with some elements left out, the rest in order. */
  predicate Subsequence(a: seq<string>, b: seq<string>)
    decreases |b|
  {
    if a == [] then true
    else if b == [] then false
    else if a[0] == b[0] then Subsequence(a[1..], b[1..])
    else Subsequence(a, b[1..])
  }

  /** The PDF exporter draws a subsequence of the DOCX headings: the same
      titles in the same order, less those of empty sections. The two lists
      are equal exactly when every section has content. */
  lemma PdfTitlesWithinDocx(d: ResumeData, cfg: TemplateConfig)
    ensures Subsequence(Pdf.SectionTitles(d), HeadingTitles(Docx.DocumentBody(d, cfg)))
    ensures Pdf.SectionTitles(d) == HeadingTitles(Docx.DocumentBody(d, cfg))
      <==> d.summary != "" && |d.skills| > 0 && |d.experience| > 0 && |d.education| > 0
  {
    DocxHeadings(d, cfg);
    DrawnTitles(d.summary != "", |d.skills| > 0, |d.experience| > 0, |d.education| > 0);
  }

  /** The titles of the drawn sections form a subsequence of all four, and
      all four only when every section is drawn. */
  lemma DrawnTitles(s: bool, k: bool, x: bool, e: bool)
    ensures var drawn := Pdf.When(s, SummaryTitle) + Pdf.When(k, SkillsTitle) + Pdf.When(x, ExperienceTitle) + Pdf.When(e, EducationTitle);
      && Subsequence(drawn, AllTitles)
      && (drawn == AllTitles <==> s && k && x && e)
  {
    var a := Pdf.When(s, SummaryTitle);
    var rest := Pdf.When(k, SkillsTitle) + Pdf.When(x, ExperienceTitle) + Pdf.When(e, EducationTitle);
    DrawnTail(k, x, e);
    WhenStep(s, SummaryTitle, rest, AllTitles[1..]);
    assert a + rest == Pdf.When(s, SummaryTitle) + Pdf.When(k, SkillsTitle) + Pdf.When(x, ExperienceTitle) + Pdf.When(e, EducationTitle);
    assert |a + rest| == |a| + |rest|;
  }

  lemma DrawnTail(k: bool, x: bool, e: bool)
    ensures var rest := Pdf.When(k, SkillsTitle) + Pdf.When(x, ExperienceTitle) + Pdf.When(e, EducationTitle);
      && Subsequence(rest, AllTitles[1..])
      && (forall i :: 0 <= i < |rest| ==> rest[i] != SummaryTitle)
      && |rest| == (if k then 1 else 0) + (if x then 1 else 0) + (if e then 1 else 0)
      && (k && x && e ==> rest == AllTitles[1..])
  {
    var b := Pdf.When(k, SkillsTitle);
    var c := Pdf.When(x, ExperienceTitle);
    var f := Pdf.When(e, EducationTitle);
    assert AllTitles[1..][1..] == AllTitles[2..];
    assert AllTitles[2..][1..] == AllTitles[3..];
    assert f + [] == f;
    WhenStep(e, EducationTitle, [], []);
    WhenStep(x, ExperienceTitle, f, AllTitles[3..]);
    assert AllTitles[2..] == [ExperienceTitle] + AllTitles[3..];
    WhenStep(k, SkillsTitle, c + f, AllTitles[2..]);
    assert AllTitles[1..] == [SkillsTitle] + AllTitles[2..];
    assert b + c + f == b + (c + f);
  }

  lemma WhenStep(drawn: bool, t: string, rest: seq<string>, more: seq<string>)
    requires Subsequence(rest, more)
    requires forall i :: 0 <= i < |rest| ==> rest[i] != t
    ensures Subsequence(Pdf.When(drawn, t) + rest, [t] + more)
  {
    if drawn {
      assert ([t] + rest)[1..] == rest;
      assert ([t] + more)[1..] == more;
    } else {
      assert Pdf.When(drawn, t) + rest == rest;
      if rest != [] {
        assert ([t] + more)[1..] == more;
      }
    }
  }
}
