/**
 * The résumé-context serialiser: the single text block, built from the
 * résumé record, that grounds the chatbot's prompt. Every function here
 * mirrors one part of one template literal: `${…}` is concatenation, a
 * per-entry `.map` callback is a sequence comprehension, and `.join` is
 * `Text.Join`. Each line break of a template is written as its own
 * `"\n"` piece, so that the text reads line by line as the template does.
 */
module ResumeContext {
  import opened Text
  import opened ResumeData

  /** Prefix of every bulleted line: a bullet (U+2022) and a space. */
  const Bullet: string := "\U{2022} "

  /** Separator between experience blocks and between project blocks. */
  const BlockSeparator: string := "\n---\n"

  /** Separator of technology, skill and coursework lists. */
  const ListSeparator: string := ", "

  /** The relocation flag as the template's ternary renders it. */
  function RelocateAnswer(openToRelocate: bool): (r: string)
    ensures r == "Yes" <==> openToRelocate
    ensures r == "No" <==> !openToRelocate
  {
    if openToRelocate then "Yes" else "No"
  }

  /**
   * A possibly absent field interpolated into a template: an absent value
   * becomes the text `undefined`, as JavaScript renders it.
   */
  function Interpolate(field: Option<string>): string
  {
    match field
    case Some(v) => v
    case None => "undefined"
  }

  /** Each item as a bulleted line. */
  function BulletItems(items: seq<string>): seq<string>
  {
    seq(|items|, i requires 0 <= i < |items| => Bullet + items[i])
  }

  /** A highlight or rule list: bulleted lines joined by newlines. */
  function Bullets(items: seq<string>): (r: string)
    ensures items == [] ==> r == ""
  {
    Join("\n", BulletItems(items))
  }

  /** A technology, skill or coursework list. */
  function CommaList(items: seq<string>): (r: string)
    ensures items == [] ==> r == ""
    ensures |items| == 1 ==> r == items[0]
  {
    Join(ListSeparator, items)
  }

  function ExperienceBlock(e: Experience): string
  {
    "\n" + e.role + " at " + e.company
    + "\n" + "Duration: " + e.duration + " | Location: " + e.location
    + "\n" + Bullets(e.highlights)
    + "\n"
  }

  function ExperienceSection(exps: seq<Experience>): string
  {
    Join(BlockSeparator, seq(|exps|, i requires 0 <= i < |exps| => ExperienceBlock(exps[i])))
  }

  function ProjectBlock(p: Project): string
  {
    "\n" + "PROJECT: " + p.name
    + "\n" + "Description: " + p.description
    + "\n" + "Technologies: " + CommaList(p.tech)
    + "\n" + "Highlights:"
    + "\n" + Bullets(p.highlights)
    + "\n"
  }

  function ProjectSection(projs: seq<Project>): string
  {
    Join(BlockSeparator, seq(|projs|, i requires 0 <= i < |projs| => ProjectBlock(projs[i])))
  }

  function EducationBlock(e: Education): string
  {
    "\n" + e.degree
    + "\n" + "Institution: " + e.institution
    + "\n" + "Graduation: " + e.year + " | GPA: " + e.gpa
    + "\n" + "Location: " + Interpolate(e.location)
    + "\n"
  }

  function EducationSection(eds: seq<Education>): string
  {
    Join("\n", seq(|eds|, i requires 0 <= i < |eds| => EducationBlock(eds[i])))
  }

  /** The nine labelled identity and contact lines of the profile section, the relocation answer last. */
  function ProfileText(p: Personal): string
  {
    ("Name: " + p.name)
    + "\n" + ("Role: " + p.role)
    + "\n" + ("Location: " + p.location)
    + "\n" + ("Email: " + p.email)
    + "\n" + ("Phone: " + p.phone)
    + "\n" + ("Portfolio: " + p.portfolio)
    + "\n" + ("GitHub: " + p.github)
    + "\n" + ("LinkedIn: " + p.linkedin)
    + "\n" + ("Open to Relocate: " + RelocateAnswer(p.openToRelocate))
  }

  /** The two lines of the technical-skills section. */
  function SkillsText(s: Skills): string
  {
    ("Programming Languages & Frameworks: " + CommaList(s.programming))
    + "\n" + ("Tools & Platforms: " + CommaList(s.tools))
  }

  /** The whole context block, section by section, in the template's order. */
  function RenderContext(r: Resume): string
  {
    "\n" + "PROFESSIONAL PROFILE:"
    + "\n" + ProfileText(r.personal)
    + "\n"
    + "\n" + "PROFESSIONAL SUMMARY:"
    + "\n" + r.summary
    + "\n"
    + "\n" + "WORK EXPERIENCE:"
    + "\n" + ExperienceSection(r.experience)
    + "\n"
    + "\n" + "PROJECTS:"
    + "\n" + ProjectSection(r.projects)
    + "\n"
    + "\n" + "TECHNICAL SKILLS:"
    + "\n" + SkillsText(r.skills)
    + "\n"
    + "\n" + "EDUCATION:"
    + "\n" + EducationSection(r.education)
    + "\n"
    + "\n" + "COURSEWORK:"
    + "\n" + CommaList(r.coursework)
    + "\n"
    + "\n" + "IMPORTANT RULES:"
    + "\n" + Bullets(r.rules)
    + "\n"
  }
}
