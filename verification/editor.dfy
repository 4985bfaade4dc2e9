/** The editing helpers of the resume preview: the path-addressed update that
    every editable region commits through, the skills line (joined for display,
    re-split on commit), the LinkedIn link target, the plain-text
    reconstruction handed to the diff view, the progress-step rule and the
    edit of the parsed resume's top-level fields. */
module Editor {
  import opened Types
  import opened Text
  import opened Templates

  // ---------------------------------------------------------------------------
  // Path-addressed update
  // ---------------------------------------------------------------------------

  /** The key paths the preview builds: a top-level field, or an indexed field
      of an experience entry, one of its bullets, or an education entry. */
  datatype Path =
    | FullName | Email | Phone | Linkedin | Location | Summary | Skills
    | Company(i: nat) | Role(i: nat) | ExperiencePeriod(i: nat) | Bullet(i: nat, j: nat)
    | Institution(i: nat) | Degree(i: nat) | EducationPeriod(i: nat)

  /** A leaf value: a string, the skills list, or nothing (an absent LinkedIn). */
  datatype Value = Str(s: string) | Strs(items: seq<string>) | Undefined

  /** The indices in the path address existing entries: the preview only builds
      paths from the entries it is rendering. */
  predicate ValidPath(d: ResumeData, p: Path) {
    match p
    case Company(i) => i < |d.experience|
    case Role(i) => i < |d.experience|
    case ExperiencePeriod(i) => i < |d.experience|
    case Bullet(i, j) => i < |d.experience| && j < |d.experience[i].description|
    case Institution(i) => i < |d.education|
    case Degree(i) => i < |d.education|
    case EducationPeriod(i) => i < |d.education|
    case _ => true
  }

  /** The skills path receives a list, every other path a string. */
  predicate Typed(p: Path, v: Value) {
    if p == Skills then v.Strs? else v.Str?
  }

  /** The value stored at a path. */
  function Get(d: ResumeData, p: Path): Value
    requires ValidPath(d, p)
  {
    match p
    case FullName => Str(d.fullName)
    case Email => Str(d.email)
    case Phone => Str(d.phone)
    case Linkedin => if d.linkedin.Some? then Str(d.linkedin.value) else Undefined
    case Location => Str(d.location)
    case Summary => Str(d.summary)
    case Skills => Strs(d.skills)
    case Company(i) => Str(d.experience[i].company)
    case Role(i) => Str(d.experience[i].role)
    case ExperiencePeriod(i) => Str(d.experience[i].period)
    case Bullet(i, j) => Str(d.experience[i].description[j])
    case Institution(i) => Str(d.education[i].institution)
    case Degree(i) => Str(d.education[i].degree)
    case EducationPeriod(i) => Str(d.education[i].period)
  }

  /** Same number of experience entries, of bullets in each, and of education
      entries: the paths valid in one record are the paths valid in the other. */
  predicate SameShape(a: ResumeData, b: ResumeData) {
    && |a.experience| == |b.experience|
    && |a.education| == |b.education|
    && forall i :: 0 <= i < |a.experience| ==> |a.experience[i].description| == |b.experience[i].description|
  }

  /** `handleUpdate(path, val)` on a deep copy: the copy with the leaf at `p`
      replaced by `v`. Records are values, so the record passed in is never
      changed; the leaf reads back as `v` and no entry is added or removed. */
  function Apply(d: ResumeData, p: Path, v: Value): (r: ResumeData)
    requires ValidPath(d, p) && Typed(p, v)
    ensures SameShape(d, r)
    ensures ValidPath(r, p) && Get(r, p) == v
  {
    match p
    case FullName => d.(fullName := v.s)
    case Email => d.(email := v.s)
    case Phone => d.(phone := v.s)
    case Linkedin => d.(linkedin := Some(v.s))
    case Location => d.(location := v.s)
    case Summary => d.(summary := v.s)
    case Skills => d.(skills := v.items)
    case Company(i) => d.(experience := d.experience[i := d.experience[i].(company := v.s)])
    case Role(i) => d.(experience := d.experience[i := d.experience[i].(role := v.s)])
    case ExperiencePeriod(i) => d.(experience := d.experience[i := d.experience[i].(period := v.s)])
    case Bullet(i, j) =>
      var e := d.experience[i];
      d.(experience := d.experience[i := e.(description := e.description[j := v.s])])
    case Institution(i) => d.(education := d.education[i := d.education[i].(institution := v.s)])
    case Degree(i) => d.(education := d.education[i := d.education[i].(degree := v.s)])
    case EducationPeriod(i) => d.(education := d.education[i := d.education[i].(period := v.s)])
  }

  /** Records of the same shape are validated by the same paths. */
  lemma SameShapeValid(a: ResumeData, b: ResumeData, q: Path)
    requires SameShape(a, b)
    ensures ValidPath(a, q) <==> ValidPath(b, q)
  {
    match q
    case Bullet(i, j) =>
      if i < |a.experience| {
        assert |a.experience[i].description| == |b.experience[i].description|;
      }
    case _ =>
  }

  lemma SameShapeTrans(a: ResumeData, b: ResumeData, c: ResumeData)
    requires SameShape(a, b) && SameShape(b, c)
    ensures SameShape(a, c) && SameShape(b, a)
  {
  }

  /** Only the addressed leaf changes: every other path reads the same value
      before and after the update. */
  lemma ApplyFrame(d: ResumeData, p: Path, v: Value, q: Path)
    requires ValidPath(d, p) && Typed(p, v)
    requires ValidPath(d, q) && q != p
    ensures ValidPath(Apply(d, p, v), q)
    ensures Get(Apply(d, p, v), q) == Get(d, q)
  {
    SameShapeValid(d, Apply(d, p, v), q);
  }

  /** A record is determined by its shape and the values at its paths, so
      "equal everywhere except at the leaf" fixes the updated record. */
  lemma PathExtensionality(a: ResumeData, b: ResumeData)
    requires SameShape(a, b)
    requires forall q :: ValidPath(a, q) ==> Get(a, q) == Get(b, q)
    ensures a == b
  {
    assert Get(a, FullName) == Get(b, FullName) && Get(a, Email) == Get(b, Email);
    assert Get(a, Phone) == Get(b, Phone) && Get(a, Linkedin) == Get(b, Linkedin);
    assert Get(a, Location) == Get(b, Location) && Get(a, Summary) == Get(b, Summary);
    assert Get(a, Skills) == Get(b, Skills);
    assert a.experience == b.experience by {
      forall i | 0 <= i < |a.experience|
        ensures a.experience[i] == b.experience[i]
      {
        SameEntry(a, b, i);
      }
    }
    assert a.education == b.education by {
      forall i | 0 <= i < |a.education|
        ensures a.education[i] == b.education[i]
      {
        assert Get(a, Institution(i)) == Get(b, Institution(i));
        assert Get(a, Degree(i)) == Get(b, Degree(i));
        assert Get(a, EducationPeriod(i)) == Get(b, EducationPeriod(i));
      }
    }
  }

  lemma SameEntry(a: ResumeData, b: ResumeData, i: nat)
    requires SameShape(a, b) && i < |a.experience|
    requires forall q :: ValidPath(a, q) ==> Get(a, q) == Get(b, q)
    ensures a.experience[i] == b.experience[i]
  {
    assert Get(a, Company(i)) == Get(b, Company(i));
    assert Get(a, Role(i)) == Get(b, Role(i));
    assert Get(a, ExperiencePeriod(i)) == Get(b, ExperiencePeriod(i));
    assert a.experience[i].description == b.experience[i].description by {
      forall j | 0 <= j < |a.experience[i].description|
        ensures a.experience[i].description[j] == b.experience[i].description[j]
      {
        assert Get(a, Bullet(i, j)) == Get(b, Bullet(i, j));
      }
    }
  }

  /** Applying the same (path, value) twice gives the record applying it once does. */
  lemma ApplyIdempotent(d: ResumeData, p: Path, v: Value)
    requires ValidPath(d, p) && Typed(p, v)
    ensures Apply(Apply(d, p, v), p, v) == Apply(d, p, v)
  {
    var once := Apply(d, p, v);
    var twice := Apply(once, p, v);
    forall q | ValidPath(twice, q)
      ensures Get(twice, q) == Get(once, q)
    {
      SameShapeValid(once, twice, q);
      if q != p {
        ApplyFrame(once, p, v, q);
      }
    }
    PathExtensionality(twice, once);
  }

  /** Committing the value a leaf already holds gives back the same record. */
  lemma ApplyUnchangedValue(d: ResumeData, p: Path)
    requires ValidPath(d, p) && Typed(p, Get(d, p))
    ensures Apply(d, p, Get(d, p)) == d
  {
    var r := Apply(d, p, Get(d, p));
    forall q | ValidPath(r, q)
      ensures Get(r, q) == Get(d, q)
    {
      SameShapeValid(d, r, q);
      if q != p {
        ApplyFrame(d, p, Get(d, p), q);
      }
    }
    PathExtensionality(r, d);
  }

  /** Reading a path after an update: the new value at the updated path, the
      old value everywhere else. */
  lemma ApplyGet(d: ResumeData, p: Path, v: Value, x: Path)
    requires ValidPath(d, p) && Typed(p, v) && ValidPath(d, x)
    ensures ValidPath(Apply(d, p, v), x)
    ensures Get(Apply(d, p, v), x) == if x == p then v else Get(d, x)
  {
    if x != p {
      ApplyFrame(d, p, v, x);
    }
  }

  /** At any one path, the two orders of two updates read the same value. */
  lemma CommutesAt(d: ResumeData, p: Path, v: Value, q: Path, w: Value, x: Path)
    requires ValidPath(d, p) && Typed(p, v)
    requires ValidPath(d, q) && Typed(q, w)
    requires p != q && ValidPath(d, x)
    ensures ValidPath(Apply(d, p, v), q) && ValidPath(Apply(d, q, w), p)
    ensures ValidPath(Apply(Apply(d, p, v), q, w), x) && ValidPath(Apply(Apply(d, q, w), p, v), x)
    ensures Get(Apply(Apply(d, p, v), q, w), x) == Get(Apply(Apply(d, q, w), p, v), x)
  {
    ApplyGet(d, p, v, q);
    ApplyGet(d, q, w, p);
    ApplyGet(d, p, v, x);
    ApplyGet(d, q, w, x);
    ApplyGet(Apply(d, p, v), q, w, x);
    ApplyGet(Apply(d, q, w), p, v, x);
  }

  /** An update adds and removes no entry, so it validates the same paths. */
  lemma ApplyValid(d: ResumeData, p: Path, v: Value, x: Path)
    requires ValidPath(d, p) && Typed(p, v)
    ensures ValidPath(Apply(d, p, v), x) <==> ValidPath(d, x)
  {
    SameShapeValid(d, Apply(d, p, v), x);
  }

  /** Updates at two different paths commute: two edits committed one after
      the other give the same record in either order. */
  lemma ApplyCommutes(d: ResumeData, p: Path, v: Value, q: Path, w: Value)
    requires ValidPath(d, p) && Typed(p, v)
    requires ValidPath(d, q) && Typed(q, w)
    requires p != q
    ensures ValidPath(Apply(d, p, v), q) && ValidPath(Apply(d, q, w), p)
    ensures Apply(Apply(d, p, v), q, w) == Apply(Apply(d, q, w), p, v)
  {
    ApplyValid(d, p, v, q);
    ApplyValid(d, q, w, p);
    var dp, dq := Apply(d, p, v), Apply(d, q, w);
    var left, right := Apply(dp, q, w), Apply(dq, p, v);
    forall x | ValidPath(left, x)
      ensures Get(left, x) == Get(right, x)
    {
      ApplyValid(dp, q, w, x);
      ApplyValid(d, p, v, x);
      CommutesAt(d, p, v, q, w, x);
    }
    SameShapeTrans(d, dp, left);
    SameShapeTrans(d, dq, right);
    SameShapeTrans(left, d, right);
    PathExtensionality(left, right);
  }

  /** `handleUpdate`: the record handed to `onUpdate`, or nothing at all when
      the preview was rendered without an `onUpdate` callback (the print view). */
  function HandleUpdate(d: ResumeData, hasOnUpdate: bool, p: Path, v: Value): (r: Option<ResumeData>)
    requires ValidPath(d, p) && Typed(p, v)
    ensures r.None? <==> !hasOnUpdate
    ensures r.Some? ==> SameShape(d, r.value) && ValidPath(r.value, p) && Get(r.value, p) == v
    ensures r.Some? ==> forall q :: ValidPath(d, q) && q != p ==> ValidPath(r.value, q) && Get(r.value, q) == Get(d, q)
  {
    if !hasOnUpdate then None
    else
      var r := Apply(d, p, v);
      assert forall q :: ValidPath(d, q) && q != p ==> ValidPath(r, q) && Get(r, q) == Get(d, q) by {
        forall q | ValidPath(d, q) && q != p
          ensures ValidPath(r, q) && Get(r, q) == Get(d, q)
        {
          ApplyFrame(d, p, v, q);
        }
      }
      Some(r)
  }

  // ---------------------------------------------------------------------------
  // Skills line
  // ---------------------------------------------------------------------------

  /** The glyph the preview puts between skills and between contact fields.
      The source file holds the bullet mis-encoded as three characters
      (U+00E2, U+20AC, U+00A2), so this is what the preview shows and splits
      on; it is not the exporters' bullet U+2022. */
  const PreviewGlyph: string := "\U{E2}\U{20AC}\U{A2}"

  /** The separator the preview joins skills with: the glyph with two spaces
      on either side. */
  const SkillsLineSeparator: string := "  " + PreviewGlyph + "  "

  /** The skills as the preview displays them, on one editable line. */
  function SkillsLine(skills: seq<string>): string {
    Join(skills, SkillsLineSeparator)
  }

  lemma {:induction false} TrimAllClean(pieces: seq<string>, sep: string)
    requires NoneHold(pieces, sep)
    ensures TrimmedFree(TrimAll(pieces), sep)
    decreases |pieces|
  {
    if |pieces| > 0 {
      TrimAllClean(pieces[1..], sep);
      TrimWithout(pieces[0], sep);
      var r := TrimAll(pieces);
      assert r == [Trim(pieces[0])] + TrimAll(pieces[1..]);
      forall i | 0 <= i < |r|
        ensures !Contains(r[i], sep) && NoSurroundingSpace(r[i])
      {
        if i > 0 {
          assert r[i] == TrimAll(pieces[1..])[i - 1];
        }
      }
    }
  }

  /** The commit of an edited skills line: split on the glyph, trim each piece.
      There is always at least one item, and every item is trimmed and
      glyph-free. */
  function ParseSkillsLine(line: string): (r: seq<string>)
    ensures |r| >= 1
    ensures TrimmedFree(r, PreviewGlyph)
  {
    var pieces := SplitOn(line, PreviewGlyph);
    SplitOnWithout(line, PreviewGlyph);
    TrimAllClean(pieces, PreviewGlyph);
    TrimAll(pieces)
  }

  /** Round trip: a non-empty list whose items are trimmed and glyph-free is
      recovered from its displayed line. */
  lemma SkillsRoundTrip(skills: seq<string>)
    requires |skills| > 0
    requires TrimmedFree(skills, PreviewGlyph)
    ensures ParseSkillsLine(SkillsLine(skills)) == skills
  {
    assert NoSpace(PreviewGlyph) && AllSpace("  ");
    JoinSplitOnTrim(skills, "  ", PreviewGlyph);
  }

  /** The lossy case: an empty skills list comes back as one empty item. */
  lemma EmptySkillsRoundTrip()
    ensures ParseSkillsLine(SkillsLine([])) == [""]
  {
    assert SplitOn("", PreviewGlyph) == [""];
  }

  /** After one commit the skills line is stable: displaying the committed
      list and committing it again changes nothing. */
  lemma SkillsCommitStable(line: string)
    ensures ParseSkillsLine(SkillsLine(ParseSkillsLine(line))) == ParseSkillsLine(line)
  {
    SkillsRoundTrip(ParseSkillsLine(line));
  }

  /** The skills region's blur handler: the parsed list replaces the skills. */
  function CommitSkills(d: ResumeData, line: string): (r: ResumeData)
    ensures r.skills == ParseSkillsLine(line)
    ensures forall q :: ValidPath(d, q) && q != Skills ==> ValidPath(r, q) && Get(r, q) == Get(d, q)
  {
    var r := Apply(d, Skills, Strs(ParseSkillsLine(line)));
    assert forall q :: ValidPath(d, q) && q != Skills ==> ValidPath(r, q) && Get(r, q) == Get(d, q) by {
      forall q | ValidPath(d, q) && q != Skills
        ensures ValidPath(r, q) && Get(r, q) == Get(d, q)
      {
        ApplyFrame(d, Skills, Strs(ParseSkillsLine(line)), q);
      }
    }
    r
  }

  // ---------------------------------------------------------------------------
  // Contact row and LinkedIn link
  // ---------------------------------------------------------------------------

  /** The preview's link target for the LinkedIn label. A missing value goes
      through the template string as the text "undefined". */
  function PreviewHref(linkedin: Option<string>): (r: string)
    ensures StartsWith(r, "http")
    ensures linkedin.Some? ==> r == NormalizeUrl(linkedin.value)
    ensures linkedin.None? ==> r == "https://undefined"
  {
    match linkedin
    case Some(s) => NormalizeUrl(s)
    case None => "https://" + "undefined"
  }

  datatype ContactItem =
    | Editable(path: Path, text: string)
    | Separator(glyph: string)
    | ProfileLink(caption: string, href: string)

  /** The preview's contact row in display mode. */
  function PreviewContact(d: ResumeData, id: TemplateId): (r: seq<ContactItem>)
    ensures |r| == 5 && r[0] == Editable(Phone, d.phone) && r[2] == Editable(Email, d.email)
    ensures r[1] == r[3] && r[1].Separator?
    ensures r[1].glyph == "|" <==> id == Classic
    ensures r[4].ProfileLink? && r[4].caption == "LinkedIn"
  {
    var sep := Separator(if id == Classic then "|" else PreviewGlyph);
    [Editable(Phone, d.phone), sep, Editable(Email, d.email), sep, ProfileLink("LinkedIn", PreviewHref(d.linkedin))]
  }

  /** The preview always draws both separators and the "LinkedIn" label, even
      for empty or missing fields; the label is the only LinkedIn text shown. */
  lemma PreviewContactShape(d: ResumeData, id: TemplateId)
    ensures var row := PreviewContact(d, id);
      && |row| == 5
      && |set i | 0 <= i < 5 && row[i].Separator?| == 2
      && row[4] == ProfileLink("LinkedIn", PreviewHref(d.linkedin))
      && forall i :: 0 <= i < 5 && row[i].Editable? ==> row[i].path != Linkedin
  {
    var row := PreviewContact(d, id);
    assert (set i | 0 <= i < 5 && row[i].Separator?) == {1, 3};
  }

  // ---------------------------------------------------------------------------
  // Plain-text reconstruction for the diff view
  // ---------------------------------------------------------------------------

  /** "role at company (period)". */
  function ExperienceHeading(e: Experience): string {
    e.role + " at " + e.company + " (" + e.period + ")"
  }

  /** An experience entry: its heading, then its bullets one per line. */
  function ExperienceText(e: Experience): string {
    ExperienceHeading(e) + "\n" + Join(e.description, "\n")
  }

  /** "degree, institution (period)". */
  function EducationText(e: Education): string {
    e.degree + ", " + e.institution + " (" + e.period + ")"
  }

  function ExperienceTexts(exps: seq<Experience>): (r: seq<string>)
    ensures |r| == |exps|
    ensures forall i :: 0 <= i < |exps| ==> r[i] == ExperienceText(exps[i])
  {
    seq(|exps|, i requires 0 <= i < |exps| => ExperienceText(exps[i]))
  }

  function EducationTexts(edus: seq<Education>): (r: seq<string>)
    ensures |r| == |edus|
    ensures forall i :: 0 <= i < |edus| ==> r[i] == EducationText(edus[i])
  {
    seq(|edus|, i requires 0 <= i < |edus| => EducationText(edus[i]))
  }

  /** "location | email | phone". */
  function ContactLine(d: ResumeData): string {
    d.location + " | " + d.email + " | " + d.phone
  }

  /** The lines of the multi-line template string, before `.trim()`: it opens
      with an empty line, each list is interpolated as one block, and the
      closing line holds the four spaces of indentation before the backtick. */
  function TemplateLines(d: ResumeData): seq<string> {
    ["", d.fullName, ContactLine(d), "", "SUMMARY", d.summary, "", "EXPERIENCE",
     Join(ExperienceTexts(d.experience), "\n\n"),
     "", "SKILLS", Join(d.skills, ", "), "", "EDUCATION",
     Join(EducationTexts(d.education), "\n"),
     "    "]
  }

  function ReconstructBody(d: ResumeData): string {
    Join(TemplateLines(d), "\n")
  }

  /** `reconstructResumeText`: the text handed to the diff view. It has no
      surrounding whitespace and is what is left of the template string once
      only whitespace is cut from its two ends. */
  function ReconstructText(d: ResumeData): (r: string)
    ensures NoSurroundingSpace(r)
    ensures exists k :: (0 <= k <= |ReconstructBody(d)| - |r| && OccursAt(ReconstructBody(d), r, k)
      && AllSpace(ReconstructBody(d)[..k]) && AllSpace(ReconstructBody(d)[k + |r|..]))
  {
    TrimOccurs(ReconstructBody(d));
    Trim(ReconstructBody(d))
  }

  /** The LinkedIn field takes no part in the reconstructed text. */
  lemma ReconstructIgnoresLinkedin(d: ResumeData, l: Option<string>)
    ensures ReconstructText(d.(linkedin := l)) == ReconstructText(d)
  {
  }

  predicate SingleLine(s: string) {
    '\n' !in s
  }

  predicate EntrySingleLine(e: Experience) {
    && SingleLine(e.company) && SingleLine(e.role) && SingleLine(e.period)
    && forall j :: 0 <= j < |e.description| ==> SingleLine(e.description[j])
  }

  predicate SchoolSingleLine(e: Education) {
    SingleLine(e.institution) && SingleLine(e.degree) && SingleLine(e.period)
  }

  /** No field that the reconstruction prints holds a line break. */
  predicate SingleLineFields(d: ResumeData) {
    && SingleLine(d.fullName) && SingleLine(d.location) && SingleLine(d.email)
    && SingleLine(d.phone) && SingleLine(d.summary)
    && (forall i :: 0 <= i < |d.skills| ==> SingleLine(d.skills[i]))
    && (forall i :: 0 <= i < |d.experience| ==> EntrySingleLine(d.experience[i]))
    && (forall i :: 0 <= i < |d.education| ==> SchoolSingleLine(d.education[i]))
  }

  /** The lines of one experience entry: the heading, then one line per bullet
      (an entry without bullets leaves one empty line). */
  function EntryLines(e: Experience): seq<string> {
    [ExperienceHeading(e)] + (if |e.description| == 0 then [""] else e.description)
  }

  /** The entries' lines in order, a blank line between two entries. */
  function ExperienceLines(exps: seq<Experience>): seq<string>
    decreases |exps|
  {
    if |exps| == 0 then [""]
    else if |exps| == 1 then EntryLines(exps[0])
    else EntryLines(exps[0]) + [""] + ExperienceLines(exps[1..])
  }

  /** One line per education entry, in order. */
  function EducationLines(edus: seq<Education>): seq<string> {
    if |edus| == 0 then [""] else EducationTexts(edus)
  }

  lemma EntryLinesSplit(e: Experience)
    requires EntrySingleLine(e)
    ensures Split(ExperienceText(e), '\n') == EntryLines(e)
  {
    var h := ExperienceHeading(e);
    assert '\n' !in h;
    SplitConcat(h, Join(e.description, "\n"), '\n');
    SplitNone(h, '\n');
    if |e.description| == 0 {
      assert Split("", '\n') == [""];
    } else {
      JoinSplit(e.description, '\n');
    }
  }

  /** Splitting on a doubled separator leaves one empty piece between the two sides. */
  lemma SplitDouble(a: string, b: string, c: char)
    ensures Split(a + [c, c] + b, c) == Split(a, c) + [""] + Split(b, c)
  {
    assert a + [c, c] + b == a + [c] + ("" + [c] + b);
    SplitConcat(a, "" + [c] + b, c);
    SplitConcat("", b, c);
    assert Split("", c) == [""];
  }

  lemma {:induction false} ExperienceLinesSplit(exps: seq<Experience>)
    requires forall i :: 0 <= i < |exps| ==> EntrySingleLine(exps[i])
    ensures Split(Join(ExperienceTexts(exps), "\n\n"), '\n') == ExperienceLines(exps)
    decreases |exps|
  {
    var texts := ExperienceTexts(exps);
    if |exps| == 0 {
      assert Split("", '\n') == [""];
    } else if |exps| == 1 {
      EntryLinesSplit(exps[0]);
    } else {
      assert texts[1..] == ExperienceTexts(exps[1..]);
      ExperienceLinesSplit(exps[1..]);
      EntryLinesSplit(exps[0]);
      SplitDouble(texts[0], Join(texts[1..], "\n\n"), '\n');
      assert "\n\n" == ['\n', '\n'];
    }
  }

  lemma EducationLinesSplit(edus: seq<Education>)
    requires forall i :: 0 <= i < |edus| ==> SchoolSingleLine(edus[i])
    ensures Split(Join(EducationTexts(edus), "\n"), '\n') == EducationLines(edus)
  {
    var texts := EducationTexts(edus);
    if |edus| == 0 {
      assert Split("", '\n') == [""];
    } else {
      forall i | 0 <= i < |texts|
        ensures '\n' !in texts[i]
      {
        assert SchoolSingleLine(edus[i]);
      }
      JoinSplit(texts, '\n');
    }
  }

  /** The line structure of the reconstructed text: name, contact line and
      the four section headings each on a line of their own; the experience
      entries in order, each heading "role at company (period)" followed by
      its bullets one per line, entries separated by a blank line; the skills
      on one line joined by ", "; one line "degree, institution (period)" per
      education entry, in order. */
  lemma ReconstructLines(d: ResumeData)
    requires SingleLineFields(d)
    ensures Split(ReconstructBody(d), '\n') ==
      ["", d.fullName, ContactLine(d), "", "SUMMARY", d.summary, "", "EXPERIENCE"]
      + ExperienceLines(d.experience)
      + ["", "SKILLS", Join(d.skills, ", "), "", "EDUCATION"]
      + EducationLines(d.education)
      + ["    "]
  {
    var pre := ["", d.fullName, ContactLine(d), "", "SUMMARY", d.summary, "", "EXPERIENCE"];
    var exp := Join(ExperienceTexts(d.experience), "\n\n");
    JoinWithout(d.skills, ", ", '\n');
    var mid := ["", "SKILLS", Join(d.skills, ", "), "", "EDUCATION"];
    var edu := Join(EducationTexts(d.education), "\n");
    assert TemplateLines(d) == pre + [exp] + mid + [edu] + ["    "];
    SplitTwoBlocks(pre, exp, mid, edu, ["    "], '\n');
    ExperienceLinesSplit(d.experience);
    EducationLinesSplit(d.education);
  }

  // ---------------------------------------------------------------------------
  // Progress steps
  // ---------------------------------------------------------------------------

  /** The five labels shown while an optimisation runs. */
  const RecruiterSteps: seq<string> := [
    "Running Gap Analysis...",
    "Identifying Key Hard Skills...",
    "Semantic Rewriting of Experience...",
    "Applying Selected Template...",
    "Finalizing Document..."
  ]

  const LastStep: nat := |RecruiterSteps| - 1

  /** One interval tick: advance to the next label, stopping at the last. */
  function NextStep(prev: nat): (r: nat)
    ensures prev <= LastStep ==> r <= LastStep
    ensures prev <= r <= prev + 1
    ensures r == prev <==> prev >= LastStep
  {
    if prev < |RecruiterSteps| - 1 then prev + 1 else prev
  }

  /** The step after `k` ticks. */
  function Ticks(step: nat, k: nat): nat
    decreases k
  {
    if k == 0 then step else Ticks(NextStep(step), k - 1)
  }

  /** From any shown step, `k` ticks raise the step by `k`, capped at the last label. */
  lemma {:induction false} TicksCapped(step: nat, k: nat)
    requires step <= LastStep
    ensures Ticks(step, k) == if step + k <= LastStep then step + k else LastStep
    decreases k
  {
    if k > 0 {
      TicksCapped(NextStep(step), k - 1);
    }
  }

  /** The effect on `isProcessing`: the step is kept while processing (the
      interval then ticks it) and reset to the first label otherwise. */
  function OnProcessingChange(processing: bool, step: nat): (r: nat)
    ensures !processing ==> r == 0
    ensures processing ==> r == step
  {
    if processing then step else 0
  }

  /** A run that stops and then starts again shows the first label, and
      after `k` ticks label min(k, 4): a new run never resumes where the
      previous one was left. */
  lemma RestartedRun(step: nat, k: nat)
    ensures Ticks(OnProcessingChange(true, OnProcessingChange(false, step)), k)
      == if k <= LastStep then k else LastStep
  {
    TicksCapped(0, k);
  }

  datatype StepStatus = Done | Active | Pending

  /** How the progress list draws label `idx` when `current` is the step. */
  function StatusOf(idx: nat, current: nat): StepStatus {
    if idx == current then Active else if idx < current then Done else Pending
  }

  /** While the step is a shown label, exactly that label is active, the ones
      before it are done and the ones after it pending. */
  lemma StatusPartition(current: nat, idx: nat)
    requires current <= LastStep && idx <= LastStep
    ensures StatusOf(idx, current) == Active <==> idx == current
    ensures StatusOf(idx, current) == Done <==> idx < current
    ensures |set i | 0 <= i <= LastStep && StatusOf(i, current) == Active| == 1
  {
    assert (set i | 0 <= i <= LastStep && StatusOf(i, current) == Active) == {current};
  }

  // ---------------------------------------------------------------------------
  // Editing the parsed resume
  // ---------------------------------------------------------------------------

  /** The top-level text fields the review form edits. */
  predicate TopLevelText(p: Path) {
    p.FullName? || p.Email? || p.Phone? || p.Linkedin? || p.Location? || p.Summary?
  }

  /** `updateParsedData(field, value)`: the spread copy with one top-level field
      replaced, or nothing when no resume has been parsed yet. */
  function UpdateParsedData(parsed: Option<ResumeData>, field: Path, value: string): (r: Option<ResumeData>)
    requires TopLevelText(field)
    ensures r.Some? <==> parsed.Some?
    ensures r.Some? ==> Get(r.value, field) == Str(value)
    ensures r.Some? ==> (r.value.experience == parsed.value.experience
      && r.value.skills == parsed.value.skills && r.value.education == parsed.value.education)
    ensures r.Some? ==> forall q :: TopLevelText(q) && q != field ==> Get(r.value, q) == Get(parsed.value, q)
  {
    match parsed
    case None => None
    case Some(d) => Some(Apply(d, field, Str(value)))
  }
}
