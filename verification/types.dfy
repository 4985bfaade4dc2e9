/** The resume record, the template configuration and the application states.
    Every field of a resume is always present except `linkedin`, the one
    optional field. String-literal unions become datatypes, each with the
    literal it stands for and the parse back from that literal. */
module Types {

  datatype Option<+T> = None | Some(value: T)

  datatype Experience = Experience(company: string, role: string, period: string, description: seq<string>)

  datatype Education = Education(institution: string, degree: string, period: string)

  datatype ResumeData = ResumeData(
    fullName: string,
    email: string,
    phone: string,
    linkedin: Option<string>,
    location: string,
    summary: string,
    experience: seq<Experience>,
    skills: seq<string>,
    education: seq<Education>)

  datatype AppState = Setup | Idle | Optimizing | Completed

  datatype TemplateId = Classic | Modern | Minimalist

  datatype HeaderAlignment = Left | Center

  datatype SectionHeaderStyle = BorderBottom | UppercaseBold | Shaded

  datatype Fonts = Fonts(heading: string, body: string)

  datatype Layout = Layout(headerAlignment: HeaderAlignment, sectionHeaderStyle: SectionHeaderStyle)

  /** Colours are six hex digits without a leading '#'. */
  datatype Palette = Palette(primary: string, secondary: string, text: string)

  datatype TemplateConfig = TemplateConfig(
    id: TemplateId,
    name: string,
    description: string,
    fonts: Fonts,
    layout: Layout,
    colors: Palette)

  /** The string value of each enum member. */
  function AppStateKey(s: AppState): string {
    match s
    case Setup => "SETUP"
    case Idle => "IDLE"
    case Optimizing => "OPTIMIZING"
    case Completed => "COMPLETED"
  }

  /** Reading an application state back from its string value: exactly the
      four keys are accepted, each giving the state it was written from. */
  function ParseAppState(key: string): (r: Option<AppState>)
    ensures r.Some? <==> key in {"SETUP", "IDLE", "OPTIMIZING", "COMPLETED"}
    ensures r.Some? ==> AppStateKey(r.value) == key
  {
    if key == "SETUP" then Some(Setup)
    else if key == "IDLE" then Some(Idle)
    else if key == "OPTIMIZING" then Some(Optimizing)
    else if key == "COMPLETED" then Some(Completed)
    else None
  }

  function TemplateKey(t: TemplateId): string {
    match t
    case Classic => "classic"
    case Modern => "modern"
    case Minimalist => "minimalist"
  }

  /** The literal union 'classic' | 'modern' | 'minimalist': exactly three
      strings name a template, each naming the one it was written from. */
  function ParseTemplateId(key: string): (r: Option<TemplateId>)
    ensures r.Some? <==> key in {"classic", "modern", "minimalist"}
    ensures r.Some? ==> TemplateKey(r.value) == key
  {
    if key == "classic" then Some(Classic)
    else if key == "modern" then Some(Modern)
    else if key == "minimalist" then Some(Minimalist)
    else None
  }

  function AlignmentKey(a: HeaderAlignment): string {
    match a
    case Left => "left"
    case Center => "center"
  }

  function ParseAlignment(key: string): (r: Option<HeaderAlignment>)
    ensures r.Some? <==> key in {"left", "center"}
    ensures r.Some? ==> AlignmentKey(r.value) == key
  {
    if key == "left" then Some(Left)
    else if key == "center" then Some(Center)
    else None
  }

  function HeaderStyleKey(s: SectionHeaderStyle): string {
    match s
    case BorderBottom => "border-bottom"
    case UppercaseBold => "uppercase-bold"
    case Shaded => "shaded"
  }

  function ParseHeaderStyle(key: string): (r: Option<SectionHeaderStyle>)
    ensures r.Some? <==> key in {"border-bottom", "uppercase-bold", "shaded"}
    ensures r.Some? ==> HeaderStyleKey(r.value) == key
  {
    if key == "border-bottom" then Some(BorderBottom)
    else if key == "uppercase-bold" then Some(UppercaseBold)
    else if key == "shaded" then Some(Shaded)
    else None
  }

  /** Every member of each union survives the trip to its string and back. */
  lemma KeysRoundTrip(s: AppState, t: TemplateId, a: HeaderAlignment, h: SectionHeaderStyle)
    ensures ParseAppState(AppStateKey(s)) == Some(s)
    ensures ParseTemplateId(TemplateKey(t)) == Some(t)
    ensures ParseAlignment(AlignmentKey(a)) == Some(a)
    ensures ParseHeaderStyle(HeaderStyleKey(h)) == Some(h)
  {
  }

  predicate IsHexDigit(c: char) {
    ('0' <= c <= '9') || ('A' <= c <= 'F') || ('a' <= c <= 'f')
  }

  /** A palette entry as stored: six hex digits and no '#'. */
  predicate IsBareHex(s: string) {
    |s| == 6 && forall i :: 0 <= i < |s| ==> IsHexDigit(s[i])
  }

  /** The colour literal a renderer writes: the stored digits behind one '#'. */
  function CssColor(hex: string): (r: string)
    requires IsBareHex(hex)
    ensures |r| == 7 && r[0] == '#' && r[1..] == hex
    ensures forall i :: 1 <= i < |r| ==> r[i] != '#'
  {
    "#" + hex
  }

  /** The LinkedIn value is truthy: present and non-empty. */
  predicate HasLinkedin(d: ResumeData) {
    d.linkedin.Some? && d.linkedin.value != ""
  }
}
