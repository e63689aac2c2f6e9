/**
 * The properties the context block promises, derived from the line view:
 * bullet and comma lists, block separators, block shapes, the relocation
 * flag, missing education locations and the order of the sections.
 *
 * Most facts need the fields to be free of line breaks (a field with a
 * newline of its own would add a line to the block); the predicates below
 * say so entity by entity.
 */
module ContextProperties {
  import opened Text
  import opened ResumeData
  import opened ResumeContext
  import opened LineView

  // ---------------------------------------------------- single-line fields

  /** No item of `xs` contains a line break. */
  predicate SingleLines(xs: seq<string>)
  {
    forall i :: 0 <= i < |xs| ==> '\n' !in xs[i]
  }

  predicate PersonalSingleLine(p: Personal)
  {
    '\n' !in p.name && '\n' !in p.role && '\n' !in p.location && '\n' !in p.email
    && '\n' !in p.phone && '\n' !in p.portfolio && '\n' !in p.github && '\n' !in p.linkedin
  }

  predicate ExperienceSingleLine(e: Experience)
  {
    '\n' !in e.company && '\n' !in e.role && '\n' !in e.duration && '\n' !in e.location
    && SingleLines(e.highlights)
  }

  predicate ProjectSingleLine(p: Project)
  {
    '\n' !in p.name && '\n' !in p.description && SingleLines(p.tech) && SingleLines(p.highlights)
  }

  predicate EducationSingleLine(e: Education)
  {
    '\n' !in e.institution && '\n' !in e.degree && '\n' !in e.year && '\n' !in e.gpa
    && (e.location.Some? ==> '\n' !in e.location.value)
  }

  predicate ResumeSingleLine(r: Resume)
  {
    PersonalSingleLine(r.personal) && '\n' !in r.summary
    && (forall i :: 0 <= i < |r.experience| ==> ExperienceSingleLine(r.experience[i]))
    && (forall i :: 0 <= i < |r.projects| ==> ProjectSingleLine(r.projects[i]))
    && SingleLines(r.skills.programming) && SingleLines(r.skills.tools)
    && (forall i :: 0 <= i < |r.education| ==> EducationSingleLine(r.education[i]))
    && SingleLines(r.coursework) && SingleLines(r.rules)
  }

  // ---------------------------------------------------------- bullet lists

  /** A non-empty bullet list begins with the bullet. */
  lemma BulletsStartWithBullet(items: seq<string>)
    requires |items| > 0
    ensures |Bullet| <= |Bullets(items)| && Bullets(items)[..|Bullet|] == Bullet
  {
    var xs := BulletItems(items);
    JoinStartsWithFirst("\n", xs);
    assert xs[0] == Bullet + items[0];
    assert Bullets(items)[..|Bullet|] == xs[0][..|Bullet|];
  }

  lemma BulletItemsSingleLines(items: seq<string>)
    requires SingleLines(items)
    ensures SingleLines(BulletItems(items))
  {
    assert '\n' !in Bullet;
  }

  /** k single-line items give exactly k - 1 line breaks. */
  lemma BulletsLineBreaks(items: seq<string>)
    requires |items| > 0 && SingleLines(items)
    ensures CountChar('\n', Bullets(items)) == |items| - 1
  {
    BulletItemsSingleLines(items);
    assert CountChar('\n', "\n") == 1;
    CountCharJoin('\n', "\n", BulletItems(items));
  }

  /** Cut at its line breaks, a bullet list gives back one bulleted line per item. */
  lemma BulletsLines(items: seq<string>)
    requires SingleLines(items)
    ensures Split('\n', Bullets(items)) == BulletLines(items)
    ensures |items| > 0 ==> forall i :: 0 <= i < |items| ==> Split('\n', Bullets(items))[i] == Bullet + items[i]
  {
    if items == [] {
      assert Bullets(items) == "";
    } else {
      BulletItemsSingleLines(items);
      SplitJoin('\n', BulletItems(items));
    }
  }

  // ----------------------------------------------------------- comma lists

  /** Items without commas are separated by exactly one comma each. */
  lemma CommaListCommas(items: seq<string>)
    requires |items| > 0
    requires forall i :: 0 <= i < |items| ==> ',' !in items[i]
    ensures CountChar(',', CommaList(items)) == |items| - 1
  {
    assert CountChar(',', ListSeparator) == 1;
    CountCharJoin(',', ListSeparator, items);
  }

  lemma CommaListSingleLine(items: seq<string>)
    requires SingleLines(items)
    ensures '\n' !in CommaList(items)
  {
    JoinAvoidsChar('\n', ListSeparator, items);
  }

  // ----------------------------------------------------------- block lines

  lemma BulletLinesSingle(items: seq<string>)
    requires SingleLines(items)
    ensures SingleLines(BulletLines(items))
  {
    BulletItemsSingleLines(items);
  }

  /** No line of a bullet list is the separator line. */
  lemma BulletLinesNoSeparator(items: seq<string>)
    ensures SeparatorLine !in BulletLines(items)
  {
    var ls := BulletLines(items);
    forall i | 0 <= i < |ls| ensures ls[i] != SeparatorLine {
      if items != [] {
        assert ls[i][0] == Bullet[0];
      }
    }
  }

  lemma ExperienceLinesSingle(e: Experience)
    requires ExperienceSingleLine(e)
    ensures SingleLines(ExperienceLines(e))
  {
    BulletLinesSingle(e.highlights);
  }

  /** Cut at its line breaks, an experience block gives back exactly its lines. */
  lemma ExperienceBlockLines(e: Experience)
    requires ExperienceSingleLine(e)
    ensures Split('\n', ExperienceBlock(e)) == ExperienceLines(e)
  {
    ExperienceBlockAsLines(e);
    ExperienceLinesSingle(e);
    SplitJoin('\n', ExperienceLines(e));
  }

  lemma ExperienceLinesNoSeparator(e: Experience)
    ensures SeparatorLine !in ExperienceLines(e)
  {
    var title := e.role + " at " + e.company;
    var dates := "Duration: " + e.duration + " | Location: " + e.location;
    assert |title| > |SeparatorLine|;
    assert dates[0] != SeparatorLine[0];
    BulletLinesNoSeparator(e.highlights);
    assert ExperienceLines(e) == ["", title, dates] + BulletLines(e.highlights) + [""];
  }

  lemma ProjectLinesSingle(p: Project)
    requires ProjectSingleLine(p)
    ensures SingleLines(ProjectLines(p))
  {
    CommaListSingleLine(p.tech);
    BulletLinesSingle(p.highlights);
  }

  /** Cut at its line breaks, a project block gives back exactly its lines. */
  lemma ProjectBlockLines(p: Project)
    requires ProjectSingleLine(p)
    ensures Split('\n', ProjectBlock(p)) == ProjectLines(p)
  {
    ProjectBlockAsLines(p);
    ProjectLinesSingle(p);
    SplitJoin('\n', ProjectLines(p));
  }

  lemma ProjectLinesNoSeparator(p: Project)
    ensures SeparatorLine !in ProjectLines(p)
  {
    var fixed := ["", "PROJECT: " + p.name, "Description: " + p.description,
                  "Technologies: " + CommaList(p.tech), "Highlights:"];
    assert forall i :: 1 <= i < |fixed| ==> fixed[i][0] != SeparatorLine[0];
    BulletLinesNoSeparator(p.highlights);
    assert ProjectLines(p) == fixed + BulletLines(p.highlights) + [""];
  }

  lemma EducationLinesSingle(e: Education)
    requires EducationSingleLine(e)
    ensures SingleLines(EducationLines(e))
  {
  }

  /** An education block begins and ends with an empty line. */
  lemma EducationLinesEnds(e: Education)
    ensures |EducationLines(e)| == 6 && EducationLines(e)[0] == "" && EducationLines(e)[5] == ""
  {
  }

  /** Cut at its line breaks, an education block gives back exactly its lines. */
  lemma EducationBlockLines(e: Education)
    requires EducationSingleLine(e)
    ensures Split('\n', EducationBlock(e)) == EducationLines(e)
  {
    EducationBlockAsLines(e);
    SplitJoin('\n', EducationLines(e));
  }

  /** Only the degree line of an education block can be the separator line. */
  lemma EducationLinesSeparators(e: Education)
    ensures CountLine(SeparatorLine, EducationLines(e)) == if e.degree == SeparatorLine then 1 else 0
  {
    var ls := EducationLines(e);
    assert forall i :: 2 <= i < 5 ==> ls[i][0] != SeparatorLine[0];
    assert ls[1..][1..] == ls[2..];
    assert ls[2..][1..] == ls[3..];
    assert ls[3..][1..] == ls[4..];
    assert ls[4..][1..] == ls[5..];
    assert ls[5..][1..] == [];
  }

  /** An education entry without a location renders the line `Location: undefined`. */
  lemma MissingLocation(e: Education)
    requires EducationSingleLine(e) && e.location == None
    ensures |Split('\n', EducationBlock(e))| == 6
    ensures Split('\n', EducationBlock(e))[4] == "Location: undefined"
  {
    EducationBlockLines(e);
  }

  // ------------------------------------------------------ block separators

  lemma {:induction false} InterleaveSingle(m: string, bs: seq<seq<string>>)
    requires forall i :: 0 <= i < |bs| ==> bs[i] != [] && SingleLines(bs[i])
    requires '\n' !in m
    ensures SingleLines(Interleave(m, bs))
  {
    if |bs| >= 2 {
      InterleaveSingle(m, bs[1..]);
      var ls := bs[0] + [m] + Interleave(m, bs[1..]);
      forall i | 0 <= i < |ls| ensures '\n' !in ls[i] {
        if i < |bs[0]| {
          assert ls[i] == bs[0][i];
        } else if i > |bs[0]| {
          assert ls[i] == Interleave(m, bs[1..])[i - |bs[0]| - 1];
        }
      }
    }
  }

  /** Blocks that do not contain the line `m`, interleaved with `m`: one `m` between each two. */
  lemma {:induction false} CountLineInterleave(m: string, bs: seq<seq<string>>)
    requires |bs| > 0
    requires forall i :: 0 <= i < |bs| ==> bs[i] != [] && m !in bs[i]
    ensures CountLine(m, Interleave(m, bs)) == |bs| - 1
  {
    if |bs| >= 2 {
      CountLineInterleave(m, bs[1..]);
      CountLineAppend(m, bs[0] + [m], Interleave(m, bs[1..]));
      CountLineAppend(m, bs[0], [m]);
    }
  }

  lemma {:induction false} ConcatSingle(bs: seq<seq<string>>)
    requires forall i :: 0 <= i < |bs| ==> bs[i] != [] && SingleLines(bs[i])
    ensures SingleLines(Concat(bs))
  {
    if |bs| >= 2 {
      ConcatSingle(bs[1..]);
      var ls := bs[0] + Concat(bs[1..]);
      forall i | 0 <= i < |ls| ensures '\n' !in ls[i] {
        if i < |bs[0]| {
          assert ls[i] == bs[0][i];
        } else {
          assert ls[i] == Concat(bs[1..])[i - |bs[0]|];
        }
      }
    }
  }

  /** Concatenated blocks each holding the line `m` once exactly when its `ds` entry is `m`. */
  lemma {:induction false} CountLineConcat(m: string, bs: seq<seq<string>>, ds: seq<string>)
    requires m != "" && |bs| == |ds|
    requires forall i :: 0 <= i < |bs| ==> bs[i] != []
    requires forall i :: 0 <= i < |bs| ==> CountLine(m, bs[i]) == if ds[i] == m then 1 else 0
    ensures CountLine(m, Concat(bs)) == CountLine(m, ds)
  {
    if |bs| == 1 {
      assert ds[1..] == [];
    } else if |bs| >= 2 {
      CountLineConcat(m, bs[1..], ds[1..]);
      CountLineAppend(m, bs[0], Concat(bs[1..]));
    }
  }

  /** Joined interleaved blocks hold the pattern `"\n" + m + "\n"` once per `m` put between them. */
  lemma InterleavedOccurrences(m: string, bs: seq<seq<string>>)
    requires '\n' !in m && m != ""
    requires forall i :: 0 <= i < |bs| ==> |bs[i]| >= 2 && SingleLines(bs[i]) && m !in bs[i]
    ensures Occurrences("\n" + m + "\n", JoinLines(Interleave(m, bs))) == if bs == [] then 0 else |bs| - 1
  {
    var ls := Interleave(m, bs);
    InterleaveSingle(m, bs);
    OccurrencesInLines(m, ls);
    if bs != [] {
      assert bs[0][0] in bs[0];
      assert bs[|bs| - 1][|bs[|bs| - 1]| - 1] in bs[|bs| - 1];
      InteriorCountWithPlainEnds(m, ls);
      CountLineInterleave(m, bs);
    }
  }

  /** Joined concatenated blocks hold the pattern `"\n" + m + "\n"` once per interior line `m`. */
  lemma ConcatenatedOccurrences(m: string, bs: seq<seq<string>>, ds: seq<string>)
    requires '\n' !in m && m != "" && |bs| == |ds|
    requires forall i :: 0 <= i < |bs| ==> |bs[i]| >= 2 && SingleLines(bs[i])
    requires forall i :: 0 <= i < |bs| ==> bs[i][0] != m && bs[i][|bs[i]| - 1] != m
    requires forall i :: 0 <= i < |bs| ==> CountLine(m, bs[i]) == if ds[i] == m then 1 else 0
    ensures Occurrences("\n" + m + "\n", JoinLines(Concat(bs))) == CountLine(m, ds)
  {
    var ls := Concat(bs);
    ConcatSingle(bs);
    OccurrencesInLines(m, ls);
    if bs != [] {
      InteriorCountWithPlainEnds(m, ls);
      CountLineConcat(m, bs, ds);
    }
  }

  /** n single-line experience blocks are separated by exactly n - 1 separators. */
  lemma ExperienceSeparators(exps: seq<Experience>)
    requires forall i :: 0 <= i < |exps| ==> ExperienceSingleLine(exps[i])
    ensures Occurrences(BlockSeparator, ExperienceSection(exps)) == if exps == [] then 0 else |exps| - 1
  {
    var bs := seq(|exps|, i requires 0 <= i < |exps| => ExperienceLines(exps[i]));
    forall i | 0 <= i < |exps| ensures |bs[i]| >= 2 && SingleLines(bs[i]) && SeparatorLine !in bs[i] {
      ExperienceLinesSingle(exps[i]);
      ExperienceLinesNoSeparator(exps[i]);
    }
    ExperienceSectionAsLines(exps);
    assert BlockSeparator == "\n" + SeparatorLine + "\n";
    InterleavedOccurrences(SeparatorLine, bs);
  }

  /** n single-line project blocks are separated by exactly n - 1 separators. */
  lemma ProjectSeparators(projs: seq<Project>)
    requires forall i :: 0 <= i < |projs| ==> ProjectSingleLine(projs[i])
    ensures Occurrences(BlockSeparator, ProjectSection(projs)) == if projs == [] then 0 else |projs| - 1
  {
    var bs := seq(|projs|, i requires 0 <= i < |projs| => ProjectLines(projs[i]));
    forall i | 0 <= i < |projs| ensures |bs[i]| >= 2 && SingleLines(bs[i]) && SeparatorLine !in bs[i] {
      ProjectLinesSingle(projs[i]);
      ProjectLinesNoSeparator(projs[i]);
    }
    ProjectSectionAsLines(projs);
    assert BlockSeparator == "\n" + SeparatorLine + "\n";
    InterleavedOccurrences(SeparatorLine, bs);
  }

  /** The degrees of the education entries, in order. */
  function Degrees(eds: seq<Education>): seq<string>
  {
    seq(|eds|, i requires 0 <= i < |eds| => eds[i].degree)
  }

  /**
   * Education blocks are joined by a plain newline: the separator occurs in
   * the education section only where a degree line is itself `---`.
   */
  lemma EducationSeparators(eds: seq<Education>)
    requires forall i :: 0 <= i < |eds| ==> EducationSingleLine(eds[i])
    ensures Occurrences(BlockSeparator, EducationSection(eds)) == CountLine(SeparatorLine, Degrees(eds))
  {
    var bs := seq(|eds|, i requires 0 <= i < |eds| => EducationLines(eds[i]));
    EducationBlocksPlain(eds, bs);
    EducationSectionAsLines(eds);
    assert BlockSeparator == "\n" + SeparatorLine + "\n";
    ConcatenatedOccurrences(SeparatorLine, bs, Degrees(eds));
  }

  /** The education blocks meet what `ConcatenatedOccurrences` asks of its blocks. */
  lemma EducationBlocksPlain(eds: seq<Education>, bs: seq<seq<string>>)
    requires forall i :: 0 <= i < |eds| ==> EducationSingleLine(eds[i])
    requires bs == seq(|eds|, i requires 0 <= i < |eds| => EducationLines(eds[i]))
    ensures forall i :: 0 <= i < |bs| ==> |bs[i]| >= 2 && SingleLines(bs[i])
    ensures forall i :: 0 <= i < |bs| ==> bs[i][0] != SeparatorLine && bs[i][|bs[i]| - 1] != SeparatorLine
    ensures forall i :: 0 <= i < |bs| ==>
      CountLine(SeparatorLine, bs[i]) == if Degrees(eds)[i] == SeparatorLine then 1 else 0
  {
    forall i | 0 <= i < |eds|
      ensures |bs[i]| >= 2 && SingleLines(bs[i])
      ensures bs[i][0] != SeparatorLine && bs[i][|bs[i]| - 1] != SeparatorLine
      ensures CountLine(SeparatorLine, bs[i]) == if Degrees(eds)[i] == SeparatorLine then 1 else 0
    {
      EducationLinesSingle(eds[i]);
      EducationLinesEnds(eds[i]);
      EducationLinesSeparators(eds[i]);
    }
  }

  /** With no degree line `---`, the education section holds no separator at all. */
  lemma EducationWithoutSeparators(eds: seq<Education>)
    requires forall i :: 0 <= i < |eds| ==> EducationSingleLine(eds[i])
    requires forall i :: 0 <= i < |eds| ==> eds[i].degree != SeparatorLine
    ensures Occurrences(BlockSeparator, EducationSection(eds)) == 0
  {
    EducationSeparators(eds);
    assert SeparatorLine !in Degrees(eds);
  }

  // ------------------------------------------------------- the whole block

  lemma SingleLinesAppend(a: seq<string>, b: seq<string>)
    requires SingleLines(a) && SingleLines(b)
    ensures SingleLines(a + b)
  {
    forall i | 0 <= i < |a + b| ensures '\n' !in (a + b)[i] {
      if i >= |a| {
        assert (a + b)[i] == b[i - |a|];
      }
    }
  }

  /** Single lines joined by newlines and cut again give back the lines. */
  lemma SplitJoinedLines(ls: seq<string>)
    requires |ls| > 0 && SingleLines(ls)
    ensures Split('\n', JoinLines(ls)) == ls
  {
    SplitJoin('\n', ls);
  }

  lemma SectionSingle(header: string, body: seq<string>)
    requires '\n' !in header && SingleLines(body)
    ensures SingleLines(Section(header, body))
  {
    SingleLinesAppend(["", header], body);
  }

  lemma ProfileLinesSingle(p: Personal)
    requires PersonalSingleLine(p)
    ensures SingleLines(ProfileLines(p))
  {
    assert '\n' !in RelocateAnswer(p.openToRelocate);
  }

  lemma BlockSectionsSingle(r: Resume)
    requires ResumeSingleLine(r)
    ensures SingleLines(ExperienceSectionLines(r.experience))
    ensures SingleLines(ProjectSectionLines(r.projects))
    ensures SingleLines(EducationSectionLines(r.education))
  {
    var es := r.experience;
    var ebs := seq(|es|, i requires 0 <= i < |es| => ExperienceLines(es[i]));
    forall i | 0 <= i < |es| ensures ebs[i] != [] && SingleLines(ebs[i]) {
      ExperienceLinesSingle(es[i]);
    }
    InterleaveSingle(SeparatorLine, ebs);
    var ps := r.projects;
    var pbs := seq(|ps|, i requires 0 <= i < |ps| => ProjectLines(ps[i]));
    forall i | 0 <= i < |ps| ensures pbs[i] != [] && SingleLines(pbs[i]) {
      ProjectLinesSingle(ps[i]);
    }
    InterleaveSingle(SeparatorLine, pbs);
    var ds := r.education;
    var dbs := seq(|ds|, i requires 0 <= i < |ds| => EducationLines(ds[i]));
    forall i | 0 <= i < |ds| ensures dbs[i] != [] && SingleLines(dbs[i]) {
      EducationLinesSingle(ds[i]);
    }
    ConcatSingle(dbs);
  }

  lemma SkillsLinesSingle(s: Skills)
    requires SingleLines(s.programming) && SingleLines(s.tools)
    ensures SingleLines(SkillsLines(s))
  {
    CommaListSingleLine(s.programming);
    CommaListSingleLine(s.tools);
  }

  lemma HeadersSingle()
    ensures forall k :: 0 <= k < |SectionHeaders| ==> '\n' !in SectionHeaders[k]
  {
  }

  lemma {:induction false} SectionsSingle(hs: seq<string>, bs: seq<seq<string>>, k: nat)
    requires |hs| == |bs| && k <= |hs|
    requires forall i :: 0 <= i < |hs| ==> '\n' !in hs[i] && SingleLines(bs[i])
    ensures SingleLines(Sections(hs, bs, k))
  {
    if k > 0 {
      SectionsSingle(hs, bs, k - 1);
      SectionSingle(hs[k - 1], bs[k - 1]);
      SingleLinesAppend(Sections(hs, bs, k - 1), Section(hs[k - 1], bs[k - 1]));
    }
  }

  lemma EightSingle(b0: seq<string>, b1: seq<string>, b2: seq<string>, b3: seq<string>,
                    b4: seq<string>, b5: seq<string>, b6: seq<string>, b7: seq<string>)
    requires SingleLines(b0) && SingleLines(b1) && SingleLines(b2) && SingleLines(b3)
    requires SingleLines(b4) && SingleLines(b5) && SingleLines(b6) && SingleLines(b7)
    ensures forall k :: 0 <= k < 8 ==> SingleLines([b0, b1, b2, b3, b4, b5, b6, b7][k])
  {
  }

  lemma SectionBodiesSingle(r: Resume)
    requires ResumeSingleLine(r)
    ensures forall k :: 0 <= k < |SectionHeaders| ==> SingleLines(SectionBodies(r)[k])
  {
    ProfileLinesSingle(r.personal);
    BlockSectionsSingle(r);
    SkillsLinesSingle(r.skills);
    CommaListSingleLine(r.coursework);
    BulletLinesSingle(r.rules);
    EightSingle(ProfileLines(r.personal), [r.summary],
                ExperienceSectionLines(r.experience), ProjectSectionLines(r.projects),
                SkillsLines(r.skills), EducationSectionLines(r.education),
                [CommaList(r.coursework)], BulletLines(r.rules));
  }

  /** With single-line fields, no line of the block contains a line break. */
  lemma ContextLinesSingle(r: Resume)
    requires ResumeSingleLine(r)
    ensures SingleLines(ContextLines(r))
  {
    HeadersSingle();
    SectionBodiesSingle(r);
    SectionsSingle(SectionHeaders, SectionBodies(r), |SectionHeaders|);
    SingleLinesAppend(Sections(SectionHeaders, SectionBodies(r), |SectionHeaders|), [""]);
  }

  /** Cut at its line breaks, the rendered block gives back exactly the lines of the line view. */
  lemma ContextRoundTrip(r: Resume)
    requires ResumeSingleLine(r)
    ensures Split('\n', RenderContext(r)) == ContextLines(r)
  {
    RenderedLines(r);
    ContextLinesSingle(r);
    SplitJoinedLines(ContextLines(r));
  }

  // ----------------------------------------------------- order of sections

  /** The lines of the first `j` sections begin the lines of the first `k`. */
  lemma {:induction false} SectionsGrow(hs: seq<string>, bs: seq<seq<string>>, j: nat, k: nat)
    requires |hs| == |bs| && j <= k <= |hs|
    ensures |Sections(hs, bs, j)| <= |Sections(hs, bs, k)|
    ensures Sections(hs, bs, k)[..|Sections(hs, bs, j)|] == Sections(hs, bs, j)
  {
    if j < k {
      SectionsGrow(hs, bs, j, k - 1);
      var pre := Sections(hs, bs, k - 1);
      assert Sections(hs, bs, k)[..|pre|] == pre;
    }
  }

  /** The last of the first `k + 1` sections: an empty line, its header, its body. */
  lemma SectionLast(hs: seq<string>, bs: seq<seq<string>>, k: nat)
    requires |hs| == |bs| && k < |hs|
    ensures |Sections(hs, bs, k + 1)| == |Sections(hs, bs, k)| + 2 + |bs[k]|
    ensures Sections(hs, bs, k + 1)[|Sections(hs, bs, k)|] == ""
    ensures Sections(hs, bs, k + 1)[|Sections(hs, bs, k)| + 1] == hs[k]
    ensures Sections(hs, bs, k + 1)[|Sections(hs, bs, k)| + 2..] == bs[k]
  {
    var pre := Sections(hs, bs, k);
    var sec := Section(hs[k], bs[k]);
    assert Sections(hs, bs, k + 1) == pre + sec;
    assert sec[0] == "" && sec[1] == hs[k] && sec[2..] == bs[k];
    assert (pre + sec)[|pre|..] == sec;
  }

  /** Within the first `n` sections, section `k < n` follows the sections before it. */
  lemma SectionInSections(hs: seq<string>, bs: seq<seq<string>>, k: nat, n: nat)
    requires |hs| == |bs| && k < n <= |hs|
    ensures |Sections(hs, bs, k)| + 2 + |bs[k]| <= |Sections(hs, bs, n)|
    ensures Sections(hs, bs, n)[|Sections(hs, bs, k)|] == ""
    ensures Sections(hs, bs, n)[|Sections(hs, bs, k)| + 1] == hs[k]
    ensures Sections(hs, bs, n)[|Sections(hs, bs, k)| + 2..|Sections(hs, bs, k)| + 2 + |bs[k]|] == bs[k]
  {
    var pre := Sections(hs, bs, k);
    var cur := Sections(hs, bs, k + 1);
    var all := Sections(hs, bs, n);
    SectionLast(hs, bs, k);
    SectionsGrow(hs, bs, k + 1, n);
    var i := |pre|;
    assert all[i] == all[..|cur|][i];
    assert all[i + 1] == all[..|cur|][i + 1];
    assert all[i + 2..|cur|] == all[..|cur|][i + 2..];
  }

  /** Lines `i - 1`, `i` and on of `ls` hold an empty line, `header` and `body`. */
  predicate SectionStandsAt(ls: seq<string>, i: nat, header: string, body: seq<string>)
  {
    0 < i && i + |body| < |ls| && ls[i - 1] == "" && ls[i] == header && ls[i + 1..i + 1 + |body|] == body
  }

  /** In sections followed by one more line, section `k` stands after the sections before it. */
  lemma SectionInBlock(hs: seq<string>, bs: seq<seq<string>>, k: nat, ls: seq<string>)
    requires |hs| == |bs| && k < |hs| && ls == Sections(hs, bs, |hs|) + [""]
    ensures SectionStandsAt(ls, |Sections(hs, bs, k)| + 1, hs[k], bs[k])
  {
    var all := Sections(hs, bs, |hs|);
    SectionInSections(hs, bs, k, |hs|);
    var i := |Sections(hs, bs, k)|;
    assert ls[i] == all[i];
    assert ls[i + 1] == all[i + 1];
    assert ls[i + 2..i + 2 + |bs[k]|] == all[i + 2..i + 2 + |bs[k]|];
  }
}
