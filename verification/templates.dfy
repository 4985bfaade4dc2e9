/** The fixed template registry shared by the preview, the DOCX exporter and
    the PDF exporter. No template is ever built anywhere else, so all three
    renderers read the same values for a given id. */
module Templates {
  import opened Types

  /** Registry lookup `TEMPLATES[id]`. Each entry's id is its key, the classic
      template is the only centred one, no entry uses the shaded heading
      style, and every colour is stored as six hex digits without '#'. */
  function Registry(id: TemplateId): (r: TemplateConfig)
    ensures r.id == id
    ensures r.layout.headerAlignment == Center <==> id == Classic
    ensures r.layout.sectionHeaderStyle != Shaded
    ensures IsBareHex(r.colors.primary) && IsBareHex(r.colors.secondary) && IsBareHex(r.colors.text)
  {
    match id
    case Modern =>
      TemplateConfig(
        Modern, "Modern Tech",
        "Clean, sans-serif, left-aligned. Perfect for startups and tech roles.",
        Fonts("Arial", "Arial"),
        Layout(Left, UppercaseBold),
        Palette("2563EB", "64748B", "0F172A"))
    case Classic =>
      TemplateConfig(
        Classic, "Executive Classic",
        "Serif fonts, centered layout. Best for Finance, Law, and C-Suite.",
        Fonts("Times New Roman", "Times New Roman"),
        Layout(Center, BorderBottom),
        Palette("000000", "000000", "000000"))
    case Minimalist =>
      TemplateConfig(
        Minimalist, "Clean Minimalist",
        "High whitespace, efficient. Great for general corporate roles.",
        Fonts("Calibri", "Calibri"),
        Layout(Left, BorderBottom),
        Palette("333333", "666666", "222222"))
  }

  /** The section titles both exporters draw, in this order. */
  const SummaryTitle: string := "PROFESSIONAL SUMMARY"
  const SkillsTitle: string := "CORE COMPETENCIES"
  const ExperienceTitle: string := "PROFESSIONAL EXPERIENCE"
  const EducationTitle: string := "EDUCATION"

  /** The id both exporters fall back to when none is given. */
  const DefaultTemplate: TemplateId := Modern
}
