# Resume builder core in Dafny

This project models the core of a browser resume builder (a React and TypeScript app). A user
fills in five forms: personal info, experience, education, skills and projects. The app keeps
one resume record, renders it as an on-screen PDF document, and also turns a JSON-resume-like
value into an Awesome-CV LaTeX source.

The model covers four parts:

- **The record** (`Resume`, from `src/types/resume.ts`): its datatypes. `""` stands for a field
  that was not filled in.
- **The editing operations** of the five forms (`PersonalInfoForm`, `EducationForm`,
  `ExperienceForm`, `ProjectsForm`, `SkillsForm`) and of the editor shell (`ResumeForm`).
  - The forms work on JavaScript arrays. `JsArrays.JsArray` models one with a `seq` field.
    - The change, remove and point operations copy an array, then write by index, `push` or
      `splice` in place.
    - The five add operations build a new array, `[...data, item]`, and write nothing in place.
  - In the experience and projects forms a copy only duplicates the outer array. Each entry's
    `points` array stays a shared object, so the point edits also change the caller's array.
    The model keeps this aliasing: those methods `modify` the shared points array and say what
    every entry's value becomes (`Snapshots`).
  - The editor shell has three parts: the whole-section replace `updateSection`, the completion
    marks, and the previous/next navigation. Navigation is a small state machine
    (`ResumeForm.ResumeFormState`).
- **The on-screen PDF document** (`ResumePreview`): a `Document` of a name, a contact row and an
  ordered list of sections made of lines and entries. Layout and styles are not modelled.
  - The contact row is built by conditional `push`es (`BuildContactItems`). It is proved equal
    to a declarative definition, and the shape of that definition is proved in turn.
- **The LaTeX generator** (`ResumePdfDocument`, from `src/components/ResumePDFDocument.tsx`):
  the field formatters, the six section generators and `template2`, each as a function on
  strings. Each template is a list of lines joined with newlines.

Shared modules: `Wrappers` (Option), `Text` (join, map, `split(' ')`, `filter(Boolean)`) and
`Helpers` (`formatDate`, `getEmptyResumeData`).

Two behaviours of the code are worth stating up front:

- **Unknown ids in `template2`**: an unknown section id is not skipped. It maps to `""`, and
  that empty block still takes its own line in the `"\n"` join
  (src/components/ResumePDFDocument.tsx:233-237; `ResumePdfDocument.UnknownIdEmpty`,
  `ResumePdfDocument.Template2`).
- **The `Previous`/`Next` handlers**: they index the fixed order without a range check. The
  buttons are only rendered when such a step exists (src/components/ResumeForm.tsx:169, 184),
  so the model takes that render condition as their precondition.

## Model

| member | source | states |
|---|---|---|
| Helpers.FormatDate | src/utils/helpers.ts:15-23 | an empty date reads "Present"; any other date is shown by the (parameterised) locale formatter |
| Helpers.EmptyResumeData | src/utils/helpers.ts:26-43 | all five personal fields are empty, and education, experience, projects, languages and tools are empty lists |
| JsArrays.Stored | src/components/forms/ExperienceForm.tsx:45 | `a[i] = v` at an index inside the array keeps the length; at the end it grows the array by one; index i holds v and every other index keeps its element |
| JsArrays.Spliced | src/components/forms/ExperienceForm.tsx:39 | `splice(i, 1)` deletes exactly element i: the prefix stays, later elements shift down by one, and an index past the end deletes nothing |
| JsArrays.SplicePush | src/components/forms/ExperienceForm.tsx:49-64 | deleting the element just pushed restores the contents |
| JsArrays.StoreSame | src/components/forms/ExperienceForm.tsx:43-47 | storing the value already at an index changes nothing |
| JsArrays.JsArray.constructor | src/components/forms/ExperienceForm.tsx:16 | the spread copy `[...xs]` holds the same elements |
| JsArrays.JsArray.Store | src/components/forms/ExperienceForm.tsx:17 | the array's new contents are `Stored` of its old contents |
| JsArrays.JsArray.Push | src/components/forms/ExperienceForm.tsx:56 | the array's new contents are the old ones followed by the pushed value |
| JsArrays.JsArray.Splice | src/components/forms/ExperienceForm.tsx:39 | the array's new contents are `Spliced` of its old contents |
| PersonalInfoForm.HandleChange | src/components/forms/PersonalInfoForm.tsx:11-17 | the named field holds the typed value and the other four fields are unchanged |
| PersonalInfoForm.FieldsDetermineRecord | src/components/forms/PersonalInfoForm.tsx:24-67 | the five input names cover the whole record: two records that agree on them are equal, so the two laws of HandleChange determine its result |
| PersonalInfoForm.HandleChangeSame | src/components/forms/PersonalInfoForm.tsx:13-16 | typing the value a field already holds gives back the same record |
| EducationForm.WithField | src/components/forms/EducationForm.tsx:17-20 | the named field changes, and the id and all other fields are kept |
| EducationForm.NewEducation | src/components/forms/EducationForm.tsx:27-35 | the appended entry has the given id and every field empty |
| EducationForm.HandleChange | src/components/forms/EducationForm.tsx:14-22 | a fresh array of the same length in which only entry `index` changes, by exactly its named field |
| EducationForm.AddEducation | src/components/forms/EducationForm.tsx:24-37 | a fresh array: the old entries in order, then one empty entry |
| EducationForm.RemoveEducation | src/components/forms/EducationForm.tsx:39-43 | a fresh array with exactly element `index` deleted; the input array is not modified |
| ExperienceForm.WithField | src/components/forms/ExperienceForm.tsx:17 | the named field changes; id, points and the other fields are kept |
| ExperienceForm.Snapshots | src/components/forms/ExperienceForm.tsx:8-11 | the record values of the entries, read through their current points arrays, one per entry |
| ExperienceForm.WithPoints | src/components/forms/ExperienceForm.tsx:43-64 | only entry e's points change; its other fields and every other entry are kept |
| ExperienceForm.HandleChange | src/components/forms/ExperienceForm.tsx:14-19 | a fresh outer array in which only entry `index` changes, by exactly its named field; no points array is touched, and unshared points stay unshared |
| ExperienceForm.AddExperience | src/components/forms/ExperienceForm.tsx:21-35 | the old entries in order, then one entry with empty fields and a fresh points array `[""]` |
| ExperienceForm.RemoveExperience | src/components/forms/ExperienceForm.tsx:37-41 | entry `index` deleted, the prefix kept and later entries shifted down |
| ExperienceForm.HandlePointChange | src/components/forms/ExperienceForm.tsx:43-47 | writes `points[p]` of entry e in place (the single placeholder of an entry without points writes index 0); the caller's array shows the change; every other entry and point is unchanged |
| ExperienceForm.AddPoint | src/components/forms/ExperienceForm.tsx:49-58 | appends `""` to entry e's shared points array; nothing else changes |
| ExperienceForm.RemovePoint | src/components/forms/ExperienceForm.tsx:60-64 | deletes exactly point p of entry e in place (index 0 on an empty list deletes nothing); nothing else changes |
| ProjectsForm.WithField | src/components/forms/ProjectsForm.tsx:18-21 | the named field changes; id, points and the other fields are kept |
| ProjectsForm.Snapshots | src/components/forms/ProjectsForm.tsx:9-12 | the record values of the projects, read through their current points arrays |
| ProjectsForm.WithPoints | src/components/forms/ProjectsForm.tsx:25-41 | only project j's points change |
| ProjectsForm.HandleChange | src/components/forms/ProjectsForm.tsx:15-23 | only project `index` changes, by exactly its named field; length kept |
| ProjectsForm.HandlePointsChange | src/components/forms/ProjectsForm.tsx:25-29 | sets `points[p]` of project j in place and nothing else |
| ProjectsForm.AddPoint | src/components/forms/ProjectsForm.tsx:31-35 | project j's points grow by one `""`; nothing else changes |
| ProjectsForm.RemovePoint | src/components/forms/ProjectsForm.tsx:37-41 | deletes exactly point p of project j in place |
| ProjectsForm.AddProject | src/components/forms/ProjectsForm.tsx:43-54 | the old projects in order, then one with empty title, liveUrl and technologies and a fresh points array `[""]` |
| ProjectsForm.RemoveProject | src/components/forms/ProjectsForm.tsx:56-60 | exactly project `index` deleted, the order of the rest kept |
| SkillsForm.ItemsOr | src/components/forms/SkillsForm.tsx:13-18 | a missing list prop is read as the empty list |
| SkillsForm.HandleChange | src/components/forms/SkillsForm.tsx:19-30 | only the selected list's entry `index` is replaced (length kept), and only that list's callback receives it |
| SkillsForm.AddLanguage | src/components/forms/SkillsForm.tsx:32-34 | `updateLanguages` gets the languages followed by `""` |
| SkillsForm.AddTool | src/components/forms/SkillsForm.tsx:36-38 | `updateTools` gets the tools followed by `""` |
| SkillsForm.RemoveLanguage | src/components/forms/SkillsForm.tsx:40-44 | `updateLanguages` gets the languages with exactly element `index` deleted |
| SkillsForm.RemoveTool | src/components/forms/SkillsForm.tsx:46-50 | `updateTools` gets the tools with exactly element `index` deleted |
| ResumeForm.SectionOf | src/components/ResumeForm.tsx:17 | reading a section by key gives a value tagged with that key |
| ResumeForm.WithSection | src/components/ResumeForm.tsx:17-21 | `{ ...data, [section]: value }`: the named section holds the new value and every other section is unchanged |
| ResumeForm.WithSectionOwnValue | src/components/ResumeForm.tsx:17-21 | writing a section's own value back changes nothing |
| ResumeForm.WithSectionTwice | src/components/ResumeForm.tsx:17-21 | a second write to the same section overrides the first |
| ResumeForm.WithLanguages | src/components/ResumeForm.tsx:60 | a languages update replaces only `languages`; tools and every other section are kept |
| ResumeForm.WithTools | src/components/ResumeForm.tsx:61 | a tools update replaces only `tools`; languages and every other section are kept |
| ResumeForm.SomeDegree | src/components/ResumeForm.tsx:89 | `some(edu => edu.degree)` holds exactly when some entry has a non-empty degree |
| ResumeForm.SomePosition | src/components/ResumeForm.tsx:91 | true exactly when some entry has a non-empty position |
| ResumeForm.SomeTitle | src/components/ResumeForm.tsx:95 | true exactly when some project has a non-empty title |
| ResumeForm.CompletionStatus | src/components/ResumeForm.tsx:84-99 | personal info is complete iff name and email are both non-empty; skills iff either list is non-empty; education, experience and projects iff some entry has a non-empty degree, position or title |
| ResumeForm.EmptyListIncomplete | src/components/ResumeForm.tsx:88-95 | an empty education, experience or projects list is never marked complete |
| ResumeForm.EmptyResumeIncomplete | src/utils/helpers.ts:26-43 | the empty record has no section marked complete |
| ResumeForm.IndexOf | src/components/ResumeForm.tsx:176 | `indexOf` is -1 iff the item is absent, and is otherwise the first position holding it |
| ResumeForm.OrderPosition | src/components/ResumeForm.tsx:175 | every section is in the order; personal info is first and projects is last, and no other section is |
| ResumeForm.NextOf | src/components/ResumeForm.tsx:189-191 | definition (the section after the current one in the order); its properties are stated by ResumeForm.NextThenPrevious and ResumeForm.ResumeFormState.Next |
| ResumeForm.PreviousOf | src/components/ResumeForm.tsx:175-177 | definition (the section before the current one in the order); its properties are stated by ResumeForm.PreviousThenNext and ResumeForm.ResumeFormState.Previous |
| ResumeForm.NextThenPrevious | src/components/ResumeForm.tsx:169-191 | after Next, Previous is offered and returns to the starting section |
| ResumeForm.PreviousThenNext | src/components/ResumeForm.tsx:169-191 | after Previous, Next is offered and returns to the starting section |
| ResumeForm.ResumeFormState.constructor | src/components/ResumeForm.tsx:14-15 | mounting shows the personal-info form with no saved notification |
| ResumeForm.ResumeFormState.UpdateSection | src/components/ResumeForm.tsx:17-30 | the same updated record goes to `onUpdateData` and to the save, the notification is shown, and the active form is kept |
| ResumeForm.ResumeFormState.Select | src/components/ResumeForm.tsx:109-149 | a tab click makes that section active |
| ResumeForm.ResumeFormState.Previous | src/components/ResumeForm.tsx:169-181 | offered only off the first form; moves exactly one place back in the order |
| ResumeForm.ResumeFormState.Next | src/components/ResumeForm.tsx:184-196 | offered only off the last form; moves exactly one place forward in the order |
| ResumeForm.NextThenPreviousReturns | src/components/ResumeForm.tsx:169-196 | pressing Next and then Previous returns to the starting form |
| ResumePreview.LinkFor | src/components/ResumePreview.tsx:100-141 | email and phone show their value and link with `mailto:` / `tel:`; LinkedIn and GitHub show the fixed labels "LinkedIn" / "GitHub" and link to the URL |
| ResumePreview.LinkIfPresent | src/components/ResumePreview.tsx:100-141 | a link appears exactly when its field is non-empty, and at most once |
| ResumePreview.ContactLinks | src/components/ResumePreview.tsx:100-141 | definition; its properties are stated by ResumePreview.ContactLinksSound, ResumePreview.ContactLinksComplete and ResumePreview.ContactLinksOrdered |
| ResumePreview.ContactLinkAt | src/components/ResumePreview.tsx:100-141 | the link at each position of the row comes from the candidates taken in the order email, phone, LinkedIn, GitHub |
| ResumePreview.ContactLinksSound | src/components/ResumePreview.tsx:100-141 | every link in the row is the link of its kind, for a non-empty field |
| ResumePreview.ContactLinksComplete | src/components/ResumePreview.tsx:100-141 | every non-empty contact field has its link in the row |
| ResumePreview.ContactLinksOrdered | src/components/ResumePreview.tsx:100-141 | the links come in the strict order email, phone, LinkedIn, GitHub |
| ResumePreview.Separated | src/components/ResumePreview.tsx:111-133 | k items with separators between them make 2k - 1 elements, and no items make none |
| ResumePreview.SeparatedAt | src/components/ResumePreview.tsx:111-133 | item i sits at position 2i |
| ResumePreview.SeparatedItems | src/components/ResumePreview.tsx:111-133 | the items sit at the even positions, in order |
| ResumePreview.SeparatedSeparators | src/components/ResumePreview.tsx:111-133 | every odd position holds a separator |
| ResumePreview.SeparatedCount | src/components/ResumePreview.tsx:111-133 | k links give exactly k - 1 separators |
| ResumePreview.SeparatedShape | src/components/ResumePreview.tsx:111-133 | k links give k - 1 separators, the row starts and ends with a link, and no two separators are adjacent |
| ResumePreview.SeparatedSnoc | src/components/ResumePreview.tsx:111-133 | adding a link to a non-empty row adds one separator and then the link |
| ResumePreview.LinkInRow | src/components/ResumePreview.tsx:98-141 | every link in the row is one of the items |
| ResumePreview.ContactRowLinks | src/components/ResumePreview.tsx:98-141 | the row holds a field's link iff that field is non-empty |
| ResumePreview.ContactRowSeparators | src/components/ResumePreview.tsx:98-141 | with k non-empty contact fields, the row has k - 1 separators, none first or last and never two in a row; with none, the row is empty |
| ResumePreview.PushStep | src/components/ResumePreview.tsx:111 | pushing a separator only when the row is non-empty, then the link, is the separated row with the link added |
| ResumePreview.BuildContactItems | src/components/ResumePreview.tsx:98-141 | the row built by the four conditional pushes equals the separated list of present links |
| ResumePreview.EndDate | src/components/ResumePreview.tsx:180 | an empty end year shows "Present"; otherwise the formatted year, which is always `formatDate(endYear)` |
| ResumePreview.ExperienceDates | src/components/ResumePreview.tsx:180 | both dates go through `formatDate`, so an empty start also reads "Present" |
| ResumePreview.EducationDates | src/components/ResumePreview.tsx:228 | an empty start year is left out, leaving " – end"; the end is "Present" when empty |
| ResumePreview.Bullets | src/components/ResumePreview.tsx:185-189 | exactly one `"• point"` line per point, in order |
| ResumePreview.ExperienceEntry | src/components/ResumePreview.tsx:173-192 | "position — company", the dates, the location only when non-empty, then one bullet per point |
| ResumePreview.ProjectEntry | src/components/ResumePreview.tsx:200-215 | the title, the liveUrl only when non-empty, "Techstack Used: " only when technologies is non-empty, then one bullet per point |
| ResumePreview.EducationEntry | src/components/ResumePreview.tsx:223-236 | definition (institution, dates, degree, grade); the one rule in it, an empty start year left out, is stated by ResumePreview.EducationDates |
| ResumePreview.SkillsSection | src/components/ResumePreview.tsx:153-166 | a "Languages: " line only for non-empty languages and a "Tools & Technologies: " line only for non-empty tools, each with its items joined by ", " |
| ResumePreview.ExperienceSection | src/components/ResumePreview.tsx:170-194 | one entry per experience, in array order |
| ResumePreview.ProjectsSection | src/components/ResumePreview.tsx:197-217 | one entry per project, in array order |
| ResumePreview.EducationSection | src/components/ResumePreview.tsx:220-238 | one entry per education, in array order |
| ResumePreview.Title | src/components/ResumePreview.tsx:155-222 | definition: the printed titles "Skills", "Experience", "Projects", "Education" (lines 155, 172, 199, 222); ResumePreview.SectionFor states that each section carries its title |
| ResumePreview.SectionFor | src/components/ResumePreview.tsx:152-238 | the section built for a heading carries that heading and is printed under its title |
| ResumePreview.SectionsFor | src/components/ResumePreview.tsx:152-238 | definition; its properties are stated by ResumePreview.SectionsForSound, ResumePreview.SectionsForComplete and ResumePreview.SectionsForOrdered |
| ResumePreview.SectionsForSound | src/components/ResumePreview.tsx:152-238 | every section shown comes from a candidate heading whose guard holds, with its full content |
| ResumePreview.SectionsForComplete | src/components/ResumePreview.tsx:152-238 | every candidate heading whose guard holds is shown |
| ResumePreview.LaterRank | src/components/ResumePreview.tsx:152-238 | in a strictly ranked list, every heading after the first ranks above it |
| ResumePreview.SectionsForOrdered | src/components/ResumePreview.tsx:152-238 | the shown sections keep the candidates' order |
| ResumePreview.SectionOrderRanked | src/components/ResumePreview.tsx:152-238 | the fixed order is Skills, Experience, Projects, Education |
| ResumePreview.SectionOrderComplete | src/components/ResumePreview.tsx:152-238 | every heading is in the fixed order |
| ResumePreview.Render | src/components/ResumePreview.tsx:97-242 | definition of the `ResumePDF` document (name, contact row, sections); its properties are stated by ResumePreview.SectionInclusion, ResumePreview.SectionContent, ResumePreview.SectionsInFixedOrder, ResumePreview.EmptyResumeRendersNothing and, for the contact row, ResumePreview.BuildContactItems and ResumePreview.ContactRowLinks |
| ResumePreview.SectionInclusion | src/components/ResumePreview.tsx:152-238 | Skills appears iff either list is non-empty; Experience, Projects and Education each iff their list is non-empty |
| ResumePreview.HeadingShownIff | src/components/ResumePreview.tsx:152-238 | a heading appears iff its guard holds |
| ResumePreview.ShownHasHeading | src/components/ResumePreview.tsx:152-238 | a section whose guard holds appears |
| ResumePreview.HeadingIsShown | src/components/ResumePreview.tsx:152-238 | a section that appears has its guard true |
| ResumePreview.SectionContent | src/components/ResumePreview.tsx:152-238 | every section whose guard holds is in the document, and every section in it carries its full content |
| ResumePreview.SectionsInFixedOrder | src/components/ResumePreview.tsx:152-238 | the shown sections come in the fixed order Skills, Experience, Projects, Education |
| ResumePreview.EmptyResumeRendersNothing | src/utils/helpers.ts:26-43 | the empty record renders no section and no contact item |
| Text.JoinLength | src/components/ResumePDFDocument.tsx:38 | joining k >= 1 items adds exactly k - 1 separators; joining none gives "" |
| Text.JoinEnds | src/components/ResumePDFDocument.tsx:38 | a join starts with its first item and ends with its last, so it has no leading or trailing separator |
| Text.JoinNonEmpty | src/components/ResumePDFDocument.tsx:58-75 | a join whose first item is non-empty is non-empty |
| Text.JoinSnoc | src/components/ResumePDFDocument.tsx:38 | appending an item adds one separator and that item |
| Text.JoinFive | src/components/ResumePDFDocument.tsx:222-240 | a five-line template is its lines with a newline between each two |
| Text.Map | src/components/ResumePDFDocument.tsx:225 | `map` keeps the length and maps each position |
| Text.MapAppend | src/components/ResumePDFDocument.tsx:225 | mapping distributes over concatenation |
| Text.MapReorder | src/components/ResumePDFDocument.tsx:225-237 | mapping two orderings of the same items gives two orderings of the same results |
| Text.NonEmpty | src/components/ResumePDFDocument.tsx:38 | `filter(Boolean)` keeps exactly the non-empty items and no more than there were |
| Text.NonEmptyAppend | src/components/ResumePDFDocument.tsx:38 | filtering distributes over concatenation, so kept items keep their order |
| Text.SplitSpaces | src/components/ResumePDFDocument.tsx:29 | `split(' ')` gives at least one piece, and no piece contains a space |
| Text.JoinSplitSpaces | src/components/ResumePDFDocument.tsx:29-30 | joining the pieces of `split(' ')` with a space gives back the string |
| Text.SplitSpacesCount | src/components/ResumePDFDocument.tsx:29 | a string without a space is its own single piece; one with a space has at least two pieces |
| ResumePdfDocument.FormatDateRange | src/components/ResumePDFDocument.tsx:7-11 | both dates give "start – end", start only gives "start – Present", end only gives end; the result is "" iff neither is given |
| ResumePdfDocument.FormatDegreeLine | src/components/ResumePDFDocument.tsx:13-16 | both give "studyType in area", otherwise whichever is given; the result is "" iff neither is given |
| ResumePdfDocument.HeadingOr | src/components/ResumePDFDocument.tsx:62 | the heading override when given, else the default |
| ResumePdfDocument.FirstName | src/components/ResumePDFDocument.tsx:29 | the first name contains no space |
| ResumePdfDocument.LastName | src/components/ResumePDFDocument.tsx:30 | definition; its property is stated by ResumePdfDocument.NameSplit |
| ResumePdfDocument.NameSplit | src/components/ResumePDFDocument.tsx:29-30 | with a space, first name + " " + last name is the name; without one, the first name is the whole name and the last name is "" |
| ResumePdfDocument.NameLine | src/components/ResumePDFDocument.tsx:31 | the name line is "" iff the name is empty; otherwise it holds both halves in their header styles |
| ResumePdfDocument.NonEmptySingle | src/components/ResumePDFDocument.tsx:38 | filtering one string keeps it exactly when it is non-empty |
| ResumePdfDocument.InfoItemsPresent | src/components/ResumePDFDocument.tsx:33-38 | the filter keeps exactly the items of the non-empty fields, in the order email, phone, address, website |
| ResumePdfDocument.InfoLine | src/components/ResumePDFDocument.tsx:33-38 | definition; its properties are stated by ResumePdfDocument.InfoItemsPresent and ResumePdfDocument.InfoLineSeparators |
| ResumePdfDocument.InfoLineSeparators | src/components/ResumePDFDocument.tsx:33-38 | k present items give exactly k - 1 " \| " separators, the line starts with the first item and ends with the last, and with no items it is "" |
| ResumePdfDocument.ProfileLines | src/components/ResumePDFDocument.tsx:40-49 | the profile block's banner, name line and contact line are in their places |
| ResumePdfDocument.ProfileSection | src/components/ResumePDFDocument.tsx:21-50 | "" when `basics` is missing; otherwise the non-empty profile block |
| ResumePdfDocument.EducationEntry | src/components/ResumePDFDocument.tsx:64-71 | definition of one `\cventry`; its date and degree rules are stated by ResumePdfDocument.FormatDateRange and ResumePdfDocument.FormatDegreeLine |
| ResumePdfDocument.EducationEntries | src/components/ResumePDFDocument.tsx:64-71 | one entry per education item, in order |
| ResumePdfDocument.EducationLines | src/components/ResumePDFDocument.tsx:58-75 | the banner, the heading or "Education", then the entries in order |
| ResumePdfDocument.EducationSection | src/components/ResumePDFDocument.tsx:52-76 | "" iff the list is missing or empty |
| ResumePdfDocument.DutyItems | src/components/ResumePDFDocument.tsx:94 | one `\item {duty}` per highlight, in order |
| ResumePdfDocument.Duties | src/components/ResumePDFDocument.tsx:91-97 | "" iff there are no highlights; otherwise a `cvitems` block of the items |
| ResumePdfDocument.WorkEntry | src/components/ResumePDFDocument.tsx:99-106 | definition of one `\cventry`; its duties rule is stated by ResumePdfDocument.Duties and its dates by ResumePdfDocument.FormatDateRange |
| ResumePdfDocument.WorkEntries | src/components/ResumePDFDocument.tsx:90-107 | one entry per work item, in order |
| ResumePdfDocument.WorkLines | src/components/ResumePDFDocument.tsx:84-109 | the banner, the heading or "Experience", then the entries in order |
| ResumePdfDocument.WorkSection | src/components/ResumePDFDocument.tsx:78-110 | "" iff the list is missing or empty |
| ResumePdfDocument.SkillRow | src/components/ResumePDFDocument.tsx:127-131 | definition of one tabular row; its list of rows is stated by ResumePdfDocument.SkillRows |
| ResumePdfDocument.SkillRows | src/components/ResumePDFDocument.tsx:127-131 | one tabular row per skill, in order |
| ResumePdfDocument.SkillsLines | src/components/ResumePDFDocument.tsx:118-139 | the banner, the heading or "Skills", then the rows in order inside the tabular |
| ResumePdfDocument.SkillsSection | src/components/ResumePDFDocument.tsx:112-140 | "" iff the list is missing or empty |
| ResumePdfDocument.ProjectEntry | src/components/ResumePDFDocument.tsx:154-162 | definition of one `\cventry`; its list of entries is stated by ResumePdfDocument.ProjectEntries |
| ResumePdfDocument.ProjectEntries | src/components/ResumePDFDocument.tsx:154-162 | one entry per project, in order |
| ResumePdfDocument.ProjectsLines | src/components/ResumePDFDocument.tsx:148-164 | the banner, the heading or "Projects", then the entries in order |
| ResumePdfDocument.ProjectsSection | src/components/ResumePDFDocument.tsx:142-165 | "" iff the list is missing or empty |
| ResumePdfDocument.AwardEntry | src/components/ResumePDFDocument.tsx:179-185 | definition of one `\cvhonor`; its list of entries is stated by ResumePdfDocument.AwardEntries |
| ResumePdfDocument.AwardEntries | src/components/ResumePDFDocument.tsx:179-185 | one `cvhonor` per award, in order |
| ResumePdfDocument.AwardsLines | src/components/ResumePDFDocument.tsx:173-187 | the banner, the heading or "Awards", then the entries in order |
| ResumePdfDocument.AwardsSection | src/components/ResumePDFDocument.tsx:167-188 | "" iff the list is missing or empty |
| ResumePdfDocument.ResumeHeader | src/components/ResumePDFDocument.tsx:190-214 | definition: the fixed preamble, line by line; its place in the document is stated by ResumePdfDocument.Template2 |
| ResumePdfDocument.SectionFor | src/components/ResumePDFDocument.tsx:225-236 | each known id gives its generator's block with its heading override; an unknown id gives "" |
| ResumePdfDocument.Blocks | src/components/ResumePDFDocument.tsx:225-237 | one block per id, in the order of the ids |
| ResumePdfDocument.BlocksReorder | src/components/ResumePDFDocument.tsx:225-237 | the same ids in another order give the same blocks in another order |
| ResumePdfDocument.Template2 | src/components/ResumePDFDocument.tsx:219-241 | the preamble, `\begin{document}`, the blocks joined by newlines, the whitespace constant and `\end{document}`, one per line |
| ResumePdfDocument.UnknownIdEmpty | src/components/ResumePDFDocument.tsx:233-235 | an unknown id contributes "" at its own position, and the other blocks are still produced |
| ResumePdfDocument.ReorderSections | src/components/ResumePDFDocument.tsx:220-237 | reordering the section ids of the input only reorders the blocks of the document |
| ResumePdfDocument.MissingSectionsAsEmpty | src/components/ResumePDFDocument.tsx:220 | a missing section list gives the same document as an empty one |

## Left out

- Page size, fonts, styles and the react-pdf components (src/components/ResumePreview.tsx:6-91). The document is modelled as its ordered text only.
- The indentation handling of the `common-tags` `stripIndent` and `source` tags. Every template is its lines joined with `"\n"`.
- The `WHITESPACE` constant from a `constants` module that is not part of this model. It is a parameter of `ResumePdfDocument.Template2`.
- The `FormValues` type of the LaTeX generator. It is not part of this model, so the input datatype is built from the fields the generator destructures.
- A `null` value in `FormValues`. `Option.None` stands for `undefined`, which takes the defaults `location = {}`, `keywords = []`, `headings = {}` and `sections = []`. With `null` those defaults do not apply and the generator throws a TypeError (src/components/ResumePDFDocument.tsx:27, 36, 127-129, 154-158, 220). That failure is not modelled.
- Missing optional strings in `FormValues`. Every use of such a field is `x || ''` or a truthiness test, so a missing string and `""` behave the same and both are `""` here. Lists, `basics`, `headings` and `sections` are `Option`s.
- The date parsing and `toLocaleDateString` formatting of `formatDate` (src/utils/helpers.ts:18-22). They are platform library calls, so the non-empty branch is a function parameter (`Helpers.LocaleDate`).
- `localStorage` persistence and JSON (src/utils/helpers.ts:45-54). The `saveToLocalStorage` call is a log of saved records in `ResumeFormState`. The save/load round trip is not stated.
- The `setTimeout` that hides the saved notification after two seconds (src/components/ResumeForm.tsx:27-29): a timer.
- `generateId` (src/utils/helpers.ts:10-12): random. Ids are passed in as parameters.
- src/App.tsx (wiring, the asynchronous PDF snapshot and the `name || 'Resume'` file name), src/components/template/template.tsx (a constant string with no substitution code), the UI components, `cn` and `getNavItemClass`: UI only.
- The `console.warn` diagnostics of the LaTeX generator: logging only.
- ExperienceForm.AddPoint: does not model the branch that creates `points` when it is missing (src/components/forms/ExperienceForm.tsx:52-54). In this record every entry has a points array, so the branch cannot run.
- JsArrays.Stored: a store past the end of a JavaScript array leaves holes. The model only admits stores inside the array or at its end, which are the only ones the forms issue.
- ExperienceForm.HandlePointChange, ExperienceForm.AddPoint, ExperienceForm.RemovePoint, ProjectsForm.HandlePointsChange, ProjectsForm.AddPoint and ProjectsForm.RemovePoint: they require that no two entries share a points array. Every entry is created with its own, and "every other entry is unchanged" needs it. The other operations only promise to keep that property.
- ResumeForm.ResumeFormState.UpdateSection: both logs receive the record the component was rendered with, updated. Re-rendering with the parent's new record is the caller's part, and is not modelled.
- The end-to-end rendering of a sample resume and the idempotence of rendering. Rendering is a function of its input, so idempotence holds by construction, and no sample is worked through.
