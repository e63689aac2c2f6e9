# Résumé context serialiser

The portfolio's chatbot gets one text block as grounding context: `RESUME_CONTEXT`.
It is built from the structured record `RESUME_DATA` by a single template literal.
The template has a fixed sequence of eight section headers. Experience, project and
education entries each go through a per-entry template. Highlight and rule lists become
`• `-bulleted lines joined by line breaks. Technology, skill and coursework lists are
joined by `", "`. Experience and project blocks are separated by `"\n---\n"`, while
education blocks are separated by a plain `"\n"`.

The project models this as pure Dafny functions and proves what the text looks like.

- `resume_data.dfy` (module `ResumeData`): the shape of the record. An education entry's
  `location` is an `Option`, because one entry of the record has none.
- `text.dfy` (module `Text`): JavaScript's `Array.prototype.join` (`Join`) and
  `String.prototype.split` on one character (`Split`), with counting functions and the
  round-trip lemmas between the two.
- `resume_context.dfy` (module `ResumeContext`): the serialiser itself. There is one
  function per template: `ExperienceBlock`, `ProjectBlock`, `EducationBlock`, the three
  `…Section` joins, `Bullets`, `CommaList`, `ProfileText`, `SkillsText` and `RenderContext`.
  `${…}` becomes concatenation, `.map` becomes a sequence comprehension and `.join` becomes
  `Join`. An absent location is interpolated as the text `undefined`, as JavaScript does.
- `line_view.dfy` (module `LineView`): a line-by-line restatement of the same output, built as
  a list of lines. It is a header line and a body per section, with each block as its own
  list of lines. It reuses the leaf renderers `CommaList`, `BulletItems`, `Interpolate` and
  `RelocateAnswer` for the text within a line, so what it states independently is the cutting
  into lines and their order. It is proved equal to the rendered text once joined
  (`RenderedLines`).
- `properties.dfy` (module `ContextProperties`): these properties are proved:
  - bullet and comma lists;
  - the block separators;
  - each block read back line by line;
  - the round trip `Split('\n', RenderContext(r)) == ContextLines(r)`.
- `layout.dfy` (module `ContextLayout`): where each section stands in the block, the order of
  the sections, and the relocation line.

Most line-level facts need fields without line breaks of their own, because a field with a
newline adds a line to the block. The predicates `ResumeSingleLine` and
`…SingleLine` state this hypothesis entry by entry. Every field of the record at lib/resumeContext.ts:7-149 is a single line.

Education blocks are not separated by `---`, but the text `"\n---\n"` can still occur in the
education section. For single-line fields, that happens exactly when a degree is itself
`---`, because the degree line stands alone between two line breaks. A field with line breaks
of its own, such as an institution `"x\n---\ny"`, can add further occurrences. `EducationSeparators` counts those occurrences.
`EducationWithoutSeparators` proves there are none when no degree is `---`.

## Model

| member | source | states |
|---|---|---|
| ResumeContext.RenderContext | lib/resumeContext.ts:178-238 | the whole template, section by section; described by `LineView.RenderedLines` (it is the line view joined by line breaks) and `ContextProperties.ContextRoundTrip` (for single-line fields, cut at its line breaks it gives back the line view) |
| ResumeContext.ProfileText | lib/resumeContext.ts:180-188 | the nine profile lines; described by `LineView.ProfileAsLines` |
| ResumeContext.SkillsText | lib/resumeContext.ts:218-219 | the two skills lines; `LineView.RenderedLines` proves it is `SkillsLines` joined by a line break |
| ResumeContext.BulletItems | lib/resumeContext.ts:199 | each item prefixed with `• `; described by `ContextProperties.BulletsLines` (line i is `• ` + item i) |
| ResumeContext.ExperienceBlock | lib/resumeContext.ts:196-200 | the per-entry experience template; described by `LineView.ExperienceBlockAsLines` and `ContextProperties.ExperienceBlockLines` |
| ResumeContext.ExperienceSection | lib/resumeContext.ts:194-202 | the blocks joined by `"\n---\n"`; described by `LineView.ExperienceSectionAsLines` and `ContextProperties.ExperienceSeparators` |
| ResumeContext.ProjectBlock | lib/resumeContext.ts:207-213 | the per-entry project template; described by `LineView.ProjectBlockAsLines` and `ContextProperties.ProjectBlockLines` |
| ResumeContext.ProjectSection | lib/resumeContext.ts:205-215 | the blocks joined by `"\n---\n"`; described by `LineView.ProjectSectionAsLines` and `ContextProperties.ProjectSeparators` |
| ResumeContext.Interpolate | lib/resumeContext.ts:228 | an absent location interpolates as `undefined`; described by `ContextProperties.MissingLocation` |
| ResumeContext.EducationBlock | lib/resumeContext.ts:224-229 | the per-entry education template; described by `LineView.EducationBlockAsLines` and `ContextProperties.EducationBlockLines` |
| ResumeContext.EducationSection | lib/resumeContext.ts:222-231 | the blocks joined by `"\n"`; described by `LineView.EducationSectionAsLines` and `ContextProperties.EducationSeparators` |
| Text.Join | lib/resumeContext.ts:202 | `Array.prototype.join`; described by `Text.JoinAppend` (a join of two non-empty lists puts one separator between them), `Text.CountCharJoin` and `Text.SplitJoin` |
| Text.JoinAppend | lib/resumeContext.ts:202 | joining two non-empty lists gives their joins with exactly one separator between them |
| ResumeContext.RelocateAnswer | lib/resumeContext.ts:188 | the answer is `Yes` exactly when the flag is set and `No` exactly when it is not |
| ContextLayout.RelocationInLines | lib/resumeContext.ts:180-188 | line 10 of the block is the profile's last line, `Open to Relocate: ` followed by the answer |
| ContextLayout.RelocationLine | lib/resumeContext.ts:188 | in the rendered text, line 10 reads `Open to Relocate: Yes` exactly when `openToRelocate` holds, and `Open to Relocate: No` exactly when it does not |
| ResumeContext.Bullets | lib/resumeContext.ts:199 | an empty highlight list renders as the empty text |
| ContextProperties.BulletsStartWithBullet | lib/resumeContext.ts:199 | a non-empty bullet list (highlights, also at lines 212 and 237) begins with `• ` |
| ContextProperties.BulletsLineBreaks | lib/resumeContext.ts:212 | k > 0 single-line items give exactly k - 1 line breaks |
| ContextProperties.BulletsLines | lib/resumeContext.ts:237 | cut at its line breaks, a bullet list gives one line per item, and line i is `• ` + item i |
| ResumeContext.CommaList | lib/resumeContext.ts:210 | an empty list renders as `""` and a one-item list as that item |
| ContextProperties.CommaListCommas | lib/resumeContext.ts:218-219 | k > 0 comma-free items give exactly k - 1 commas |
| ContextProperties.CommaListSingleLine | lib/resumeContext.ts:234 | a list of single-line items renders on one line |
| Text.CountCharJoin | lib/resumeContext.ts:199 | a join whose separator holds a character once, over items without it, holds it once per neighbouring pair |
| Text.SplitJoin | lib/resumeContext.ts:199 | splitting a join at its one-character separator gives back the items, when no item contains it |
| LineView.ExperienceBlockAsLines | lib/resumeContext.ts:196-200 | an experience block is an empty line, `role at company`, the duration and location line, the bullet lines and an empty line, joined by line breaks |
| ContextProperties.ExperienceBlockLines | lib/resumeContext.ts:196-200 | cut at its line breaks, a single-line experience block gives back exactly those lines |
| LineView.ProjectBlockAsLines | lib/resumeContext.ts:207-213 | a project block is the lines `PROJECT:`, `Description:`, `Technologies:`, `Highlights:` and the bullets, between two empty lines, joined by line breaks |
| ContextProperties.ProjectBlockLines | lib/resumeContext.ts:207-213 | cut at its line breaks, a single-line project block gives back exactly those lines |
| LineView.EducationBlockAsLines | lib/resumeContext.ts:224-229 | an education block is its degree, institution, graduation and location lines between two empty lines, joined by line breaks |
| ContextProperties.EducationBlockLines | lib/resumeContext.ts:224-229 | cut at its line breaks, a single-line education block gives back exactly those lines |
| ContextProperties.EducationLinesSeparators | lib/resumeContext.ts:225 | only the degree line of an education block can be the line `---` |
| ContextProperties.MissingLocation | lib/resumeContext.ts:228 | an entry without a location has six lines, and its fifth is `Location: undefined` |
| LineView.ExperienceSectionAsLines | lib/resumeContext.ts:194-202 | the experience section is the experience blocks' lines with a `---` line between neighbouring blocks, joined by line breaks |
| LineView.ProjectSectionAsLines | lib/resumeContext.ts:205-215 | the project section is the project blocks' lines with a `---` line between neighbouring blocks, joined by line breaks |
| LineView.EducationSectionAsLines | lib/resumeContext.ts:222-231 | the education section is the education blocks' lines one after the other, joined by line breaks |
| ContextProperties.InterleavedOccurrences | lib/resumeContext.ts:202 | blocks of single lines none of which is `m`, with `m` put between them, hold `"\n" + m + "\n"` exactly once per pair of neighbouring blocks |
| ContextProperties.ConcatenatedOccurrences | lib/resumeContext.ts:231 | blocks with plain first and last lines hold `"\n" + m + "\n"` once per interior line `m` |
| ContextProperties.ExperienceSeparators | lib/resumeContext.ts:202 | n single-line experience blocks hold exactly n - 1 occurrences of `"\n---\n"` (none for n = 0) |
| ContextProperties.ProjectSeparators | lib/resumeContext.ts:215 | n single-line project blocks hold exactly n - 1 occurrences of `"\n---\n"` (none for n = 0) |
| ContextProperties.EducationSeparators | lib/resumeContext.ts:231 | for single-line fields, the education section holds `"\n---\n"` once per degree that is `---`, and nowhere else |
| ContextProperties.EducationWithoutSeparators | lib/resumeContext.ts:231 | when no degree is `---`, the education section holds no `"\n---\n"` |
| LineView.ProfileAsLines | lib/resumeContext.ts:180-188 | the profile text is its nine labelled lines joined by line breaks |
| LineView.RenderedLines | lib/resumeContext.ts:178-238 | the whole block is the line view joined by line breaks: an empty line and the header before each of the eight bodies, then a final empty line |
| ContextProperties.ContextRoundTrip | lib/resumeContext.ts:178-238 | with single-line fields, the rendered block cut at its line breaks is exactly the line view |
| ContextLayout.SectionAt | lib/resumeContext.ts:179-237 | section k stands in the block as an empty line, its header at `HeaderIndex(r, k)`, then exactly its body |
| ContextLayout.SectionOrder | lib/resumeContext.ts:179-237 | for j < k, section j's header and body end before section k's header: the headers come in the fixed order PROFILE, SUMMARY, EXPERIENCE, PROJECTS, SKILLS, EDUCATION, COURSEWORK, RULES |
| ContextLayout.HeaderInText | lib/resumeContext.ts:179-237 | with single-line fields, line `HeaderIndex(r, k)` of the rendered text is header k |

## Left out

- `SYSTEM_PROMPT` (lib/resumeContext.ts:152-175) is constant prose with no logic. It is not modelled.
- The concrete values inside `RESUME_DATA` are not reproduced. The model takes any record of its shape, and `Resume` is that shape.
- lib/data.ts is static UI configuration with no operations. It is not part of this model.
- The chat endpoint's rate limiter, message validator and AI-provider call are not part of this model.
- UI, routing and deployment are not part of this model.
- Purity of `RESUME_CONTEXT` (equal records give equal text, and nothing else is read) has no lemma. Every Dafny function is deterministic and reads only its arguments, so it holds by construction.
- JavaScript strings are UTF-16 code units, while here a string is a `seq<char>`. The bullet `•` is one character in both, so no count above is affected.
- ContextProperties.BulletsLineBreaks: it is stated only for items without line breaks, because an item's own line break adds to the count.
- ContextProperties.ExperienceSeparators: it is stated only for single-line fields, because a field containing `\n---\n` adds occurrences.
- ContextProperties.ProjectSeparators: it is stated only for single-line fields, for the same reason.
- ContextProperties.EducationSeparators: it is stated only for single-line fields, for the same reason.
- ContextLayout.RelocationLine: it is stated only for single-line fields, because a line break in an earlier profile field moves the relocation line.
- ContextLayout.HeaderInText: it is stated only for single-line fields, because a line break in a field moves every later header. Without the hypothesis, `RenderedLines` relates the text to the line view.
