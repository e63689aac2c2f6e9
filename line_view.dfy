/**
 * A second, line-by-line description of the context block: which lines
 * the block consists of, in which order. It restates the templates as lists
 * of lines and reuses the leaf renderers `BulletItems`, `CommaList`,
 * `Interpolate` and `RelocateAnswer` for the text within a line, so what it
 * describes independently is the cutting into lines and the order of the
 * lines. `RenderedLines` proves that the template renders exactly these
 * lines; the remaining lemmas derive the promised properties of the block
 * (separators, bullets, section order, the relocation flag, missing
 * locations) from this view.
 */
module LineView {
  import opened Text
  import opened ResumeData
  import opened ResumeContext

  // ------------------------------------------------------ the line view

  /** A bullet list occupies one line per item; an empty one leaves an empty line. */
  function BulletLines(items: seq<string>): seq<string>
  {
    if items == [] then [""] else BulletItems(items)
  }

  function ExperienceLines(e: Experience): seq<string>
  {
    ["", e.role + " at " + e.company, "Duration: " + e.duration + " | Location: " + e.location]
    + BulletLines(e.highlights)
    + [""]
  }

  function ProjectLines(p: Project): seq<string>
  {
    ["", "PROJECT: " + p.name, "Description: " + p.description,
     "Technologies: " + CommaList(p.tech), "Highlights:"]
    + BulletLines(p.highlights)
    + [""]
  }

  function EducationLines(e: Education): seq<string>
  {
    ["", e.degree, "Institution: " + e.institution,
     "Graduation: " + e.year + " | GPA: " + e.gpa,
     "Location: " + Interpolate(e.location), ""]
  }

  /**
   * Blocks of lines one after the other, with the line `m` between each two
   * neighbours; no blocks at all leave one empty line.
   */
  function Interleave(m: string, bs: seq<seq<string>>): (ls: seq<string>)
    requires forall i :: 0 <= i < |bs| ==> bs[i] != []
    ensures |ls| > 0
    ensures |bs| > 0 ==> |ls| >= |bs[0]| && ls[0] == bs[0][0]
    ensures |bs| > 0 ==> ls[|ls| - 1] == bs[|bs| - 1][|bs[|bs| - 1]| - 1]
  {
    if |bs| == 0 then [""]
    else if |bs| == 1 then bs[0]
    else bs[0] + [m] + Interleave(m, bs[1..])
  }

  /** Blocks of lines one after the other; no blocks at all leave one empty line. */
  function Concat(bs: seq<seq<string>>): (ls: seq<string>)
    requires forall i :: 0 <= i < |bs| ==> bs[i] != []
    ensures |ls| > 0
    ensures |bs| > 0 ==> |ls| >= |bs[0]| && ls[0] == bs[0][0]
    ensures |bs| > 0 ==> ls[|ls| - 1] == bs[|bs| - 1][|bs[|bs| - 1]| - 1]
  {
    if |bs| == 0 then [""]
    else if |bs| == 1 then bs[0]
    else bs[0] + Concat(bs[1..])
  }

  /** Line separating experience or project blocks. */
  const SeparatorLine: string := "---"

  function ExperienceSectionLines(exps: seq<Experience>): seq<string>
  {
    Interleave(SeparatorLine, seq(|exps|, i requires 0 <= i < |exps| => ExperienceLines(exps[i])))
  }

  function ProjectSectionLines(projs: seq<Project>): seq<string>
  {
    Interleave(SeparatorLine, seq(|projs|, i requires 0 <= i < |projs| => ProjectLines(projs[i])))
  }

  function EducationSectionLines(eds: seq<Education>): seq<string>
  {
    Concat(seq(|eds|, i requires 0 <= i < |eds| => EducationLines(eds[i])))
  }

  /** The nine identity and contact lines. */
  function ProfileLines(p: Personal): seq<string>
  {
    ["Name: " + p.name, "Role: " + p.role, "Location: " + p.location]
    + ["Email: " + p.email, "Phone: " + p.phone, "Portfolio: " + p.portfolio]
    + ["GitHub: " + p.github, "LinkedIn: " + p.linkedin,
       "Open to Relocate: " + RelocateAnswer(p.openToRelocate)]
  }

  /** The two technical-skills lines. */
  function SkillsLines(s: Skills): seq<string>
  {
    ["Programming Languages & Frameworks: " + CommaList(s.programming),
     "Tools & Platforms: " + CommaList(s.tools)]
  }

  /** A section: an empty line, its header line, then its body. */
  function Section(header: string, body: seq<string>): seq<string>
  {
    ["", header] + body
  }

  /** The eight section headers, in the order the block presents them. */
  const SectionHeaders: seq<string> := [
    "PROFESSIONAL PROFILE:", "PROFESSIONAL SUMMARY:", "WORK EXPERIENCE:", "PROJECTS:",
    "TECHNICAL SKILLS:", "EDUCATION:", "COURSEWORK:", "IMPORTANT RULES:"]

  /** The bodies of the eight sections, in the order of `SectionHeaders`. */
  function SectionBodies(r: Resume): (bs: seq<seq<string>>)
    ensures |bs| == |SectionHeaders|
  {
    [ProfileLines(r.personal), [r.summary],
     ExperienceSectionLines(r.experience), ProjectSectionLines(r.projects),
     SkillsLines(r.skills), EducationSectionLines(r.education),
     [CommaList(r.coursework)], BulletLines(r.rules)]
  }

  /** The lines of the first `k` sections with headers `hs` and bodies `bs`, one after the other. */
  function Sections(hs: seq<string>, bs: seq<seq<string>>, k: nat): seq<string>
    requires |hs| == |bs| && k <= |hs|
  {
    if k == 0 then [] else Sections(hs, bs, k - 1) + Section(hs[k - 1], bs[k - 1])
  }

  /** Every line of the context block, in order: the eight sections, then a final empty line. */
  function ContextLines(r: Resume): seq<string>
  {
    Sections(SectionHeaders, SectionBodies(r), |SectionHeaders|) + [""]
  }

  /** The eight sections written out one by one. */
  lemma {:induction false} SectionsOfEight(hs: seq<string>, bs: seq<seq<string>>)
    requires |hs| == |bs| == 8
    ensures Sections(hs, bs, 8)
         == Section(hs[0], bs[0]) + Section(hs[1], bs[1]) + Section(hs[2], bs[2]) + Section(hs[3], bs[3])
          + Section(hs[4], bs[4]) + Section(hs[5], bs[5]) + Section(hs[6], bs[6]) + Section(hs[7], bs[7])
  {
    assert Sections(hs, bs, 1) == Section(hs[0], bs[0]) by {
      assert Sections(hs, bs, 1) == [] + Section(hs[0], bs[0]);
    }
    assert Sections(hs, bs, 2) == Sections(hs, bs, 1) + Section(hs[1], bs[1]);
    assert Sections(hs, bs, 3) == Sections(hs, bs, 2) + Section(hs[2], bs[2]);
    assert Sections(hs, bs, 4) == Sections(hs, bs, 3) + Section(hs[3], bs[3]);
    assert Sections(hs, bs, 5) == Sections(hs, bs, 4) + Section(hs[4], bs[4]);
    assert Sections(hs, bs, 6) == Sections(hs, bs, 5) + Section(hs[5], bs[5]);
    assert Sections(hs, bs, 7) == Sections(hs, bs, 6) + Section(hs[6], bs[6]);
  }

  // ------------------------------------- the template renders these lines

  lemma BulletsAsLines(items: seq<string>)
    ensures Bullets(items) == JoinLines(BulletLines(items))
  {
  }

  /** Joined lines with a fixed first part: `JoinLines(pre + ls)` when `pre` has three lines. */
  lemma JoinLinesPrefix3(a: string, b: string, c: string, ls: seq<string>)
    requires |ls| > 0
    ensures JoinLines([a, b, c] + ls) == a + "\n" + b + "\n" + c + "\n" + JoinLines(ls)
  {
    JoinCons("\n", a, [b, c] + ls);
    JoinCons("\n", b, [c] + ls);
    JoinCons("\n", c, ls);
    assert [a, b, c] + ls == [a] + ([b, c] + ls);
    assert [b, c] + ls == [b] + ([c] + ls);
  }

  /** Joined lines that begin with five given lines. */
  lemma JoinLinesPrefix5(a: string, b: string, c: string, d: string, e: string, ls: seq<string>)
    requires |ls| > 0
    ensures JoinLines([a, b, c, d, e] + ls)
         == a + "\n" + b + "\n" + c + "\n" + d + "\n" + e + "\n" + JoinLines(ls)
  {
    JoinLinesPrefix2(d, e, ls);
    JoinLinesPrefix3(a, b, c, [d, e] + ls);
    assert [a, b, c, d, e] + ls == [a, b, c] + ([d, e] + ls);
  }

  lemma JoinLinesExactly3(a: string, b: string, c: string)
    ensures JoinLines([a, b, c]) == a + "\n" + b + "\n" + c
  {
    JoinCons("\n", a, [b, c]);
    JoinCons("\n", b, [c]);
    assert [a, b, c] == [a] + [b, c];
    assert [b, c] == [b] + [c];
  }

  lemma JoinLinesPrefix2(a: string, b: string, ls: seq<string>)
    requires |ls| > 0
    ensures JoinLines([a, b] + ls) == a + "\n" + b + "\n" + JoinLines(ls)
  {
    JoinCons("\n", a, [b] + ls);
    JoinCons("\n", b, ls);
    assert [a, b] + ls == [a] + ([b] + ls);
  }

  /** Joined lines of a block: fixed lines, a non-empty body, a final empty line. */
  lemma JoinLinesOfBlock(a: string, b: string, c: string, d: string, e: string, body: seq<string>)
    requires |body| > 0
    ensures JoinLines([a, b, c, d, e] + body + [""])
         == a + "\n" + b + "\n" + c + "\n" + d + "\n" + e + "\n" + JoinLines(body) + "\n"
  {
    JoinLinesPrefix5(a, b, c, d, e, body + [""]);
    JoinAppend("\n", body, [""]);
    assert [a, b, c, d, e] + body + [""] == [a, b, c, d, e] + (body + [""]);
  }

  lemma ExperienceShape(role: string, company: string, duration: string, location: string, bl: seq<string>)
    requires |bl| > 0
    ensures "\n" + role + " at " + company
            + "\n" + "Duration: " + duration + " | Location: " + location
            + "\n" + JoinLines(bl)
            + "\n"
         == JoinLines(["", role + " at " + company, "Duration: " + duration + " | Location: " + location] + bl + [""])
  {
    JoinLinesPrefix3("", role + " at " + company, "Duration: " + duration + " | Location: " + location, bl + [""]);
    JoinAppend("\n", bl, [""]);
    assert ["", role + " at " + company, "Duration: " + duration + " | Location: " + location] + bl + [""]
        == ["", role + " at " + company, "Duration: " + duration + " | Location: " + location] + (bl + [""]);
  }

  lemma ExperienceBlockAsLines(e: Experience)
    ensures ExperienceBlock(e) == JoinLines(ExperienceLines(e))
  {
    BulletsAsLines(e.highlights);
    ExperienceShape(e.role, e.company, e.duration, e.location, BulletLines(e.highlights));
  }

  lemma ProjectShape(name: string, description: string, tech: string, bl: seq<string>)
    requires |bl| > 0
    ensures "\n" + "PROJECT: " + name
            + "\n" + "Description: " + description
            + "\n" + "Technologies: " + tech
            + "\n" + "Highlights:"
            + "\n" + JoinLines(bl)
            + "\n"
         == JoinLines(["", "PROJECT: " + name, "Description: " + description,
                       "Technologies: " + tech, "Highlights:"] + bl + [""])
  {
    JoinLinesOfBlock("", "PROJECT: " + name, "Description: " + description,
      "Technologies: " + tech, "Highlights:", bl);
  }

  lemma ProjectBlockAsLines(p: Project)
    ensures ProjectBlock(p) == JoinLines(ProjectLines(p))
  {
    BulletsAsLines(p.highlights);
    ProjectShape(p.name, p.description, CommaList(p.tech), BulletLines(p.highlights));
  }

  lemma JoinLinesExactly6(a: string, b: string, c: string, d: string, e: string, f: string)
    ensures JoinLines([a, b, c, d, e, f]) == a + "\n" + b + "\n" + c + "\n" + d + "\n" + e + "\n" + f
  {
    assert [a, b, c, d, e, f] == [a, b, c] + [d, e, f];
    JoinLinesExactly3(d, e, f);
    JoinLinesPrefix3(a, b, c, [d, e, f]);
  }

  /** The education template cut at its line breaks. */
  lemma EducationText(degree: string, institution: string, year: string, gpa: string, location: string)
    ensures "\n" + degree
            + "\n" + "Institution: " + institution
            + "\n" + "Graduation: " + year + " | GPA: " + gpa
            + "\n" + "Location: " + location
            + "\n"
         == "" + "\n" + degree + "\n" + ("Institution: " + institution)
            + "\n" + ("Graduation: " + year + " | GPA: " + gpa)
            + "\n" + ("Location: " + location) + "\n" + ""
  {
  }

  lemma EducationBlockAsLines(e: Education)
    ensures EducationBlock(e) == JoinLines(EducationLines(e))
  {
    JoinLinesExactly6("", e.degree, "Institution: " + e.institution,
      "Graduation: " + e.year + " | GPA: " + e.gpa, "Location: " + Interpolate(e.location), "");
    EducationText(e.degree, e.institution, e.year, e.gpa, Interpolate(e.location));
  }

  // ------------------------------------------------------------ sections

  lemma SeparatedLine(a: string, m: string, t: string)
    ensures a + ("\n" + m + "\n") + t == a + "\n" + (m + "\n" + t)
  {
  }

  /** Two blocks of lines with the line `m` between them, as text. */
  lemma SeparatedLines(m: string, first: seq<string>, rest: seq<string>)
    requires first != [] && rest != []
    ensures JoinLines(first) + ("\n" + m + "\n") + JoinLines(rest) == JoinLines(first + ([m] + rest))
  {
    JoinCons("\n", m, rest);
    JoinAppend("\n", first, [m] + rest);
    SeparatedLine(JoinLines(first), m, JoinLines(rest));
  }

  /** Blocks joined by a separator line render as the interleaved lines. */
  lemma {:induction false} JoinInterleaved(m: string, ss: seq<string>, bs: seq<seq<string>>)
    requires |ss| == |bs|
    requires forall i :: 0 <= i < |bs| ==> bs[i] != [] && ss[i] == JoinLines(bs[i])
    ensures Join("\n" + m + "\n", ss) == JoinLines(Interleave(m, bs))
  {
    if |ss| > 1 {
      var sep := "\n" + m + "\n";
      var rest := Interleave(m, bs[1..]);
      JoinInterleaved(m, ss[1..], bs[1..]);
      assert Join(sep, ss) == ss[0] + sep + JoinLines(rest);
      assert Interleave(m, bs) == bs[0] + ([m] + rest);
      SeparatedLines(m, bs[0], rest);
    }
  }

  /** Blocks joined by a newline render as the concatenated lines. */
  lemma {:induction false} JoinConcatenated(ss: seq<string>, bs: seq<seq<string>>)
    requires |ss| == |bs|
    requires forall i :: 0 <= i < |bs| ==> bs[i] != [] && ss[i] == JoinLines(bs[i])
    ensures Join("\n", ss) == JoinLines(Concat(bs))
  {
    if |ss| > 1 {
      JoinConcatenated(ss[1..], bs[1..]);
      JoinAppend("\n", bs[0], Concat(bs[1..]));
    }
  }

  lemma ExperienceSectionAsLines(exps: seq<Experience>)
    ensures ExperienceSection(exps) == JoinLines(ExperienceSectionLines(exps))
  {
    var ss := seq(|exps|, i requires 0 <= i < |exps| => ExperienceBlock(exps[i]));
    var bs := seq(|exps|, i requires 0 <= i < |exps| => ExperienceLines(exps[i]));
    forall i | 0 <= i < |exps| ensures ss[i] == JoinLines(bs[i]) {
      ExperienceBlockAsLines(exps[i]);
    }
    assert BlockSeparator == "\n" + SeparatorLine + "\n";
    JoinInterleaved(SeparatorLine, ss, bs);
  }

  lemma ProjectSectionAsLines(projs: seq<Project>)
    ensures ProjectSection(projs) == JoinLines(ProjectSectionLines(projs))
  {
    var ss := seq(|projs|, i requires 0 <= i < |projs| => ProjectBlock(projs[i]));
    var bs := seq(|projs|, i requires 0 <= i < |projs| => ProjectLines(projs[i]));
    forall i | 0 <= i < |projs| ensures ss[i] == JoinLines(bs[i]) {
      ProjectBlockAsLines(projs[i]);
    }
    assert BlockSeparator == "\n" + SeparatorLine + "\n";
    JoinInterleaved(SeparatorLine, ss, bs);
  }

  lemma EducationSectionAsLines(eds: seq<Education>)
    ensures EducationSection(eds) == JoinLines(EducationSectionLines(eds))
  {
    var ss := seq(|eds|, i requires 0 <= i < |eds| => EducationBlock(eds[i]));
    var bs := seq(|eds|, i requires 0 <= i < |eds| => EducationLines(eds[i]));
    forall i | 0 <= i < |eds| ensures ss[i] == JoinLines(bs[i]) {
      EducationBlockAsLines(eds[i]);
    }
    JoinConcatenated(ss, bs);
  }

  // ------------------------------------------------------ the whole block

  lemma JoinLinesExactly9(a: string, b: string, c: string, d: string, e: string, f: string,
                     g: string, h: string, i: string)
    ensures JoinLines([a, b, c] + [d, e, f] + [g, h, i])
         == a + "\n" + b + "\n" + c + "\n" + d + "\n" + e + "\n" + f + "\n" + g + "\n" + h + "\n" + i
  {
    JoinLinesExactly3(a, b, c);
    JoinLinesExactly3(d, e, f);
    JoinLinesExactly3(g, h, i);
    JoinAppend("\n", [a, b, c], [d, e, f]);
    JoinAppend("\n", [a, b, c] + [d, e, f], [g, h, i]);
  }

  lemma JoinLinesExactly2(a: string, b: string)
    ensures JoinLines([a, b]) == a + "\n" + b
  {
    JoinCons("\n", a, [b]);
    assert [a, b] == [a] + [b];
  }

  lemma ProfileAsLines(p: Personal)
    ensures ProfileText(p) == JoinLines(ProfileLines(p))
  {
    JoinLinesExactly9("Name: " + p.name, "Role: " + p.role, "Location: " + p.location,
                 "Email: " + p.email, "Phone: " + p.phone, "Portfolio: " + p.portfolio,
                 "GitHub: " + p.github, "LinkedIn: " + p.linkedin,
                 "Open to Relocate: " + RelocateAnswer(p.openToRelocate));
  }

  /** Joining one more section onto the lines before it. */
  lemma JoinSection(pre: seq<string>, header: string, body: seq<string>)
    requires |pre| > 0 && |body| > 0
    ensures JoinLines(pre + Section(header, body))
         == JoinLines(pre) + "\n" + "\n" + header + "\n" + JoinLines(body)
  {
    JoinLinesPrefix2("", header, body);
    JoinAppend("\n", pre, Section(header, body));
  }

  /** Eight sections and a final empty line, joined. */
  lemma JoinSections(h0: string, b0: seq<string>, h1: string, b1: seq<string>,
                     h2: string, b2: seq<string>, h3: string, b3: seq<string>,
                     h4: string, b4: seq<string>, h5: string, b5: seq<string>,
                     h6: string, b6: seq<string>, h7: string, b7: seq<string>)
    requires b0 != [] && b1 != [] && b2 != [] && b3 != []
    requires b4 != [] && b5 != [] && b6 != [] && b7 != []
    ensures JoinLines(Section(h0, b0) + Section(h1, b1) + Section(h2, b2) + Section(h3, b3)
                      + Section(h4, b4) + Section(h5, b5) + Section(h6, b6) + Section(h7, b7) + [""])
         == "\n" + h0 + "\n" + JoinLines(b0)
            + "\n" + "\n" + h1 + "\n" + JoinLines(b1)
            + "\n" + "\n" + h2 + "\n" + JoinLines(b2)
            + "\n" + "\n" + h3 + "\n" + JoinLines(b3)
            + "\n" + "\n" + h4 + "\n" + JoinLines(b4)
            + "\n" + "\n" + h5 + "\n" + JoinLines(b5)
            + "\n" + "\n" + h6 + "\n" + JoinLines(b6)
            + "\n" + "\n" + h7 + "\n" + JoinLines(b7)
            + "\n"
  {
    var p0 := Section(h0, b0);
    var t0 := "\n" + h0 + "\n" + JoinLines(b0);
    JoinLinesPrefix2("", h0, b0);
    assert JoinLines(p0) == t0;
    var p1 := p0 + Section(h1, b1);
    var t1 := t0 + "\n" + "\n" + h1 + "\n" + JoinLines(b1);
    JoinSection(p0, h1, b1);
    var p2 := p1 + Section(h2, b2);
    var t2 := t1 + "\n" + "\n" + h2 + "\n" + JoinLines(b2);
    JoinSection(p1, h2, b2);
    var p3 := p2 + Section(h3, b3);
    var t3 := t2 + "\n" + "\n" + h3 + "\n" + JoinLines(b3);
    JoinSection(p2, h3, b3);
    var p4 := p3 + Section(h4, b4);
    var t4 := t3 + "\n" + "\n" + h4 + "\n" + JoinLines(b4);
    JoinSection(p3, h4, b4);
    var p5 := p4 + Section(h5, b5);
    var t5 := t4 + "\n" + "\n" + h5 + "\n" + JoinLines(b5);
    JoinSection(p4, h5, b5);
    var p6 := p5 + Section(h6, b6);
    var t6 := t5 + "\n" + "\n" + h6 + "\n" + JoinLines(b6);
    JoinSection(p5, h6, b6);
    var p7 := p6 + Section(h7, b7);
    var t7 := t6 + "\n" + "\n" + h7 + "\n" + JoinLines(b7);
    JoinSection(p6, h7, b7);
    assert JoinLines(p7) == t7;
    JoinAppend("\n", p7, [""]);
  }

  /** The template renders exactly the lines of the line view, joined by newlines. */
  lemma RenderedLines(r: Resume)
    ensures RenderContext(r) == JoinLines(ContextLines(r))
  {
    var skills := SkillsLines(r.skills);
    ProfileAsLines(r.personal);
    ExperienceSectionAsLines(r.experience);
    ProjectSectionAsLines(r.projects);
    JoinLinesExactly2(skills[0], skills[1]);
    EducationSectionAsLines(r.education);
    BulletsAsLines(r.rules);
    assert JoinLines([r.summary]) == r.summary;
    assert JoinLines([CommaList(r.coursework)]) == CommaList(r.coursework);
    var bs := SectionBodies(r);
    SectionsOfEight(SectionHeaders, bs);
    JoinSections(SectionHeaders[0], bs[0], SectionHeaders[1], bs[1],
                 SectionHeaders[2], bs[2], SectionHeaders[3], bs[3],
                 SectionHeaders[4], bs[4], SectionHeaders[5], bs[5],
                 SectionHeaders[6], bs[6], SectionHeaders[7], bs[7]);
  }
}
