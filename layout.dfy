/**
 * Where each section of the context block stands: the line at which its
 * header appears, the lines its body takes, and the order of the sections.
 * The relocation flag is read back from its line of the profile section.
 */
module ContextLayout {
  import opened Text
  import opened ResumeData
  import opened ResumeContext
  import opened LineView
  import opened ContextProperties

  // ----------------------------------------------------- order of sections

  /** Index of the header line of section `k`: right after the lines of the sections before it. */
  function HeaderIndex(r: Resume, k: nat): nat
    requires k < |SectionHeaders|
  {
    |Sections(SectionHeaders, SectionBodies(r), k)| + 1
  }

  /**
   * Section `k` stands in the lines of the block as an empty line, its
   * header and then its body.
   */
  lemma SectionAt(r: Resume, k: nat)
    requires k < |SectionHeaders|
    ensures SectionStandsAt(ContextLines(r), HeaderIndex(r, k), SectionHeaders[k], SectionBodies(r)[k])
  {
    SectionInBlock(SectionHeaders, SectionBodies(r), k, ContextLines(r));
  }

  /** The sections follow each other in the order of `SectionHeaders`. */
  lemma SectionOrder(r: Resume, j: nat, k: nat)
    requires j < k < |SectionHeaders|
    ensures HeaderIndex(r, j) + |SectionBodies(r)[j]| < HeaderIndex(r, k)
  {
    var bs := SectionBodies(r);
    SectionsGrow(SectionHeaders, bs, j + 1, k);
    assert Sections(SectionHeaders, bs, j + 1)
        == Sections(SectionHeaders, bs, j) + Section(SectionHeaders[j], bs[j]);
  }

  /** With single-line fields, the rendered text holds each header at its line. */
  lemma HeaderInText(r: Resume, k: nat)
    requires ResumeSingleLine(r) && k < |SectionHeaders|
    ensures HeaderIndex(r, k) < |Split('\n', RenderContext(r))|
    ensures Split('\n', RenderContext(r))[HeaderIndex(r, k)] == SectionHeaders[k]
  {
    ContextRoundTrip(r);
    SectionAt(r, k);
  }

  // ------------------------------------------------------- relocation flag

  /** Line 10 of the line view is the profile's last line, the relocation answer. */
  lemma RelocationInLines(r: Resume)
    ensures |ContextLines(r)| > 10
    ensures ContextLines(r)[10] == "Open to Relocate: " + RelocateAnswer(r.personal.openToRelocate)
  {
    SectionAt(r, 0);
    var ls := ContextLines(r);
    var profile := ProfileLines(r.personal);
    assert HeaderIndex(r, 0) == 1;
    assert SectionBodies(r)[0] == profile;
    assert ls[2..11] == profile;
    assert ls[10] == ls[2..11][8];
  }

  /** The profile's last line reads `Open to Relocate: Yes` exactly when the flag is set. */
  lemma RelocationLine(r: Resume)
    requires ResumeSingleLine(r)
    ensures |Split('\n', RenderContext(r))| > 10
    ensures Split('\n', RenderContext(r))[10] == "Open to Relocate: Yes" <==> r.personal.openToRelocate
    ensures Split('\n', RenderContext(r))[10] == "Open to Relocate: No" <==> !r.personal.openToRelocate
  {
    ContextRoundTrip(r);
    RelocationInLines(r);
    RelocationAnswerLine(r.personal.openToRelocate);
  }

  /** The relocation line tells the two answers apart. */
  lemma RelocationAnswerLine(b: bool)
    ensures "Open to Relocate: " + RelocateAnswer(b) == "Open to Relocate: Yes" <==> b
    ensures "Open to Relocate: " + RelocateAnswer(b) == "Open to Relocate: No" <==> !b
  {
    var pre := "Open to Relocate: ";
    if b {
      assert (pre + "Yes")[|pre|..] == "Yes";
    } else {
      assert (pre + "No")[|pre|..] == "No";
    }
  }
}
