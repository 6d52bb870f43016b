/**
 * The LaTeX (Awesome-CV) generator of src/components/ResumePDFDocument.tsx: field formatters,
 * one generator per section, and `template2`, which strings the sections together in the
 * order of an explicit list of section ids.
 *
 * Every generated text is modelled as its lines joined with "\n"; the indentation that the
 * `common-tags` template tags strip or add is not modelled. A multi-line value interpolated
 * into a template (an entry, the duties of a work entry) is one element of the line list,
 * which gives the same text once joined. User text is put in verbatim, without LaTeX escaping.
 */
module ResumePdfDocument {
  import opened Wrappers
  import opened Text

  /** `basics`, with `location.address` flattened into `address`; "" stands for a missing string. */
  datatype Basics = Basics(name: string, email: string, phone: string, address: string, website: string)

  datatype EducationItem = EducationItem(
    institution: string,
    location: string,
    area: string,
    studyType: string,
    score: string,
    startDate: string,
    endDate: string)

  datatype WorkItem = WorkItem(
    name: string,
    position: string,
    location: string,
    startDate: string,
    endDate: string,
    highlights: Option<seq<string>>)

  datatype SkillItem = SkillItem(name: string, keywords: Option<seq<string>>)

  datatype ProjectItem = ProjectItem(name: string, description: string, keywords: Option<seq<string>>, url: string)

  datatype AwardItem = AwardItem(title: string, summary: string, awarder: string, date: string)

  /** The heading overrides; "" means no override. */
  datatype Headings = Headings(education: string, work: string, skills: string, projects: string, awards: string)

  /** The generator's input; a list that may be missing is an `Option`. */
  datatype FormValues = FormValues(
    basics: Option<Basics>,
    education: Option<seq<EducationItem>>,
    work: Option<seq<WorkItem>>,
    skills: Option<seq<SkillItem>>,
    projects: Option<seq<ProjectItem>>,
    awards: Option<seq<AwardItem>>,
    headings: Option<Headings>,
    sections: Option<seq<string>>)

  // ====== Field formatters ======

  /**
   * `formatDateRange`: both dates give "start – end", a start alone gives "start – Present",
   * an end alone gives the end, and neither gives "".
   */
  function FormatDateRange(startDate: string, endDate: string): (r: string)
    ensures startDate != "" && endDate != "" ==> r == startDate + " – " + endDate
    ensures startDate != "" && endDate == "" ==> r == startDate + " – Present"
    ensures startDate == "" ==> r == endDate
    ensures r == "" <==> startDate == "" && endDate == ""
  {
    if startDate != "" && endDate != "" then startDate + " – " + endDate
    else if startDate != "" then startDate + " – Present"
    else endDate
  }

  /** `formatDegreeLine`: "studyType in area" when both are given, else whichever is given, else "". */
  function FormatDegreeLine(studyType: string, area: string): (r: string)
    ensures studyType != "" && area != "" ==> r == studyType + " in " + area
    ensures studyType != "" && area == "" ==> r == studyType
    ensures studyType == "" ==> r == area
    ensures r == "" <==> studyType == "" && area == ""
  {
    if studyType != "" && area != "" then studyType + " in " + area
    else if studyType != "" then studyType
    else area
  }

  /** `heading || default`. */
  function HeadingOr(heading: string, default: string): (r: string)
    ensures heading != "" ==> r == heading
    ensures heading == "" ==> r == default
  {
    if heading != "" then heading else default
  }

  /** The line of 38 percent signs framing each banner. */
  const Rule: string := "%%%%%%%%%%%%%%%%%%%%%%%%%%%%%%%%%%%%%%"

  /** The three comment lines that open a section. */
  function Banner(title: string): seq<string> {
    [Rule, "%     " + title, Rule]
  }

  function CvSection(title: string): string {
    @"\cvsection{" + title + "}"
  }

  /** `{value}`: one argument of a LaTeX command. */
  function Arg(value: string): string {
    "{" + value + "}"
  }

  // ====== Profile ======

  /** The first name: the text before the first space, or the whole name when it has none. */
  function FirstName(name: string): (r: string)
    ensures ' ' !in r
  {
    SplitSpaces(name)[0]
  }

  /** The last name: the words after the first, joined again with single spaces. */
  function LastName(name: string): string {
    Join(SplitSpaces(name)[1..], " ")
  }

  /**
   * With a space in the name, first name, a space and last name give back the name; without
   * one the first name is the whole name and the last name is empty.
   */
  lemma NameSplit(name: string)
    ensures ' ' in name ==> FirstName(name) + " " + LastName(name) == name
    ensures ' ' !in name ==> FirstName(name) == name && LastName(name) == ""
  {
    var parts := SplitSpaces(name);
    JoinSplitSpaces(name);
    SplitSpacesCount(name);
    if ' ' in name {
      assert Join(parts, " ") == parts[0] + " " + Join(parts[1..], " ");
    }
  }

  /** The name line: the two name halves in their header styles, or "" for an empty name. */
  function NameLine(name: string): (r: string)
    ensures r == "" <==> name == ""
    ensures name != "" ==> r == @"\headerfirstnamestyle{" + FirstName(name) + @"} \headerlastnamestyle{" + LastName(name) + @"} \\"
  {
    if name != "" then @"\headerfirstnamestyle{" + FirstName(name) + @"} \headerlastnamestyle{" + LastName(name) + @"} \\"
    else ""
  }

  function EmailItem(email: string): string { @"{\faEnvelope\ " + email + "}" }
  function PhoneItem(phone: string): string { @"{\faMobile\ " + phone + "}" }
  function AddressItem(address: string): string { @"{\faMapMarker\ " + address + "}" }
  function WebsiteItem(website: string): string { @"{\faLink\ \href{" + website + "}{" + website + "}}" }

  /** The four candidate items of the contact line, "" for each missing field. */
  function InfoCandidates(b: Basics): seq<string> {
    [
      if b.email != "" then EmailItem(b.email) else "",
      if b.phone != "" then PhoneItem(b.phone) else "",
      if b.address != "" then AddressItem(b.address) else "",
      if b.website != "" then WebsiteItem(b.website) else ""
    ]
  }

  /** `.filter(Boolean)`: the items of the filled-in fields. */
  function InfoItems(b: Basics): seq<string> {
    NonEmpty(InfoCandidates(b))
  }

  function Optional(present: bool, item: string): seq<string> {
    if present then [item] else []
  }

  /** How many of the four contact fields are filled in. */
  function InfoCount(b: Basics): nat {
    (if b.email != "" then 1 else 0) + (if b.phone != "" then 1 else 0)
      + (if b.address != "" then 1 else 0) + (if b.website != "" then 1 else 0)
  }

  /** Filtering one string keeps it exactly when it is non-empty. */
  lemma NonEmptySingle(x: string)
    ensures NonEmpty([x]) == Optional(x != "", x)
  {
    assert [x][1..] == [];
  }

  /** The filter keeps exactly the items of the filled-in fields, in the order email, phone, address, website. */
  lemma InfoItemsPresent(b: Basics)
    ensures InfoItems(b) == Optional(b.email != "", EmailItem(b.email)) + Optional(b.phone != "", PhoneItem(b.phone))
      + Optional(b.address != "", AddressItem(b.address)) + Optional(b.website != "", WebsiteItem(b.website))
    ensures |InfoItems(b)| == InfoCount(b)
  {
    var c := InfoCandidates(b);
    assert c == [c[0]] + [c[1]] + [c[2]] + [c[3]];
    NonEmptyAppend([c[0]] + [c[1]] + [c[2]], [c[3]]);
    NonEmptyAppend([c[0]] + [c[1]], [c[2]]);
    NonEmptyAppend([c[0]], [c[1]]);
    NonEmptySingle(c[0]);
    NonEmptySingle(c[1]);
    NonEmptySingle(c[2]);
    NonEmptySingle(c[3]);
    assert EmailItem(b.email)[0] == '{' && PhoneItem(b.phone)[0] == '{';
    assert AddressItem(b.address)[0] == '{' && WebsiteItem(b.website)[0] == '{';
  }

  /** The contact line: the items of the filled-in fields joined with " | ". */
  function InfoLine(b: Basics): string {
    Join(InfoItems(b), " | ")
  }

  /**
   * With no filled-in field the contact line is ""; with k of them it is the k items with
   * exactly k - 1 separators of three characters between them, starting with the first item
   * and ending with the last, so never with a separator.
   */
  lemma InfoLineSeparators(b: Basics)
    ensures |InfoItems(b)| == InfoCount(b)
    ensures InfoCount(b) == 0 ==> InfoLine(b) == ""
    ensures InfoCount(b) > 0 ==> |InfoLine(b)| == TotalLength(InfoItems(b)) + (InfoCount(b) - 1) * |" | "|
    ensures InfoCount(b) > 0 ==>
      |InfoLine(b)| >= |InfoItems(b)[0]| && InfoLine(b)[..|InfoItems(b)[0]|] == InfoItems(b)[0]
    ensures InfoCount(b) > 0 ==>
      |InfoLine(b)| >= |InfoItems(b)[InfoCount(b) - 1]| &&
      InfoLine(b)[|InfoLine(b)| - |InfoItems(b)[InfoCount(b) - 1]|..] == InfoItems(b)[InfoCount(b) - 1]
  {
    InfoItemsPresent(b);
    JoinLength(InfoItems(b), " | ");
    if InfoCount(b) > 0 {
      JoinEnds(InfoItems(b), " | ");
    }
  }

  function ProfileLines(b: Basics): (lines: seq<string>)
    ensures |lines| == 8 && lines[..3] == Banner("Profile")
    ensures lines[4] == NameLine(b.name) && lines[6] == InfoLine(b)
  {
    Banner("Profile") + [@"\begin{center}", NameLine(b.name), @"\vspace{2mm}", InfoLine(b), @"\end{center}"]
  }

  /** `profileSection`: "" without `basics`, else the profile block (even for a record of empty fields). */
  function ProfileSection(basics: Option<Basics>): (r: string)
    ensures basics.None? ==> r == ""
    ensures basics.Some? ==> r == Join(ProfileLines(basics.value), "\n") && r != ""
  {
    match basics
    case None => ""
    case Some(b) =>
      JoinNonEmpty(ProfileLines(b), "\n");
      Join(ProfileLines(b), "\n")
  }

  // ====== Education ======

  function EducationEntry(e: EducationItem): string {
    Join([
      @"\cventry",
      Arg(FormatDegreeLine(e.studyType, e.area)),
      Arg(e.institution),
      Arg(e.location),
      Arg(FormatDateRange(e.startDate, e.endDate)),
      Arg(if e.score != "" then "GPA: " + e.score else "")
    ], "\n")
  }

  function EducationEntries(xs: seq<EducationItem>): (r: seq<string>)
    ensures |r| == |xs| && forall i :: 0 <= i < |xs| ==> r[i] == EducationEntry(xs[i])
  {
    seq(|xs|, i requires 0 <= i < |xs| => EducationEntry(xs[i]))
  }

  /** The education block: banner, heading, one entry per item in order, and the closing lines. */
  function EducationLines(xs: seq<EducationItem>, heading: string): (lines: seq<string>)
    ensures |lines| == |xs| + 8 && lines[..3] == Banner("Education")
    ensures lines[3] == CvSection(HeadingOr(heading, "Education"))
    ensures lines[5..5 + |xs|] == EducationEntries(xs)
  {
    Banner("Education") + [CvSection(HeadingOr(heading, "Education")), @"\begin{cventries}"]
      + EducationEntries(xs) + [@"\end{cventries}", "", @"\vspace{-2mm}"]
  }

  /** `educationSection`: "" exactly when the list is missing or empty. */
  function EducationSection(education: Option<seq<EducationItem>>, heading: string): (r: string)
    ensures r == "" <==> education.None? || |education.value| == 0
    ensures education.Some? && |education.value| > 0 ==> r == Join(EducationLines(education.value, heading), "\n")
  {
    if education.None? || |education.value| == 0 then ""
    else
      JoinNonEmpty(EducationLines(education.value, heading), "\n");
      Join(EducationLines(education.value, heading), "\n")
  }

  // ====== Work ======

  /** One `\item {duty}` line per highlight, in order. */
  function DutyItems(highlights: seq<string>): (r: seq<string>)
    ensures |r| == |highlights| && forall i :: 0 <= i < |highlights| ==> r[i] == @"\item " + Arg(highlights[i])
  {
    seq(|highlights|, i requires 0 <= i < |highlights| => @"\item " + Arg(highlights[i]))
  }

  /**
   * The duties of a work entry: "" when there are no highlights, else a `cvitems` list
   * holding one item per highlight in order.
   */
  function Duties(highlights: Option<seq<string>>): (r: string)
    ensures r == "" <==> highlights.None? || |highlights.value| == 0
    ensures highlights.Some? && |highlights.value| > 0 ==>
      r == Join([@"\begin{cvitems}"] + DutyItems(highlights.value) + [@"\end{cvitems}"], "\n")
  {
    if highlights.None? || |highlights.value| == 0 then ""
    else
      JoinNonEmpty([@"\begin{cvitems}"] + DutyItems(highlights.value) + [@"\end{cvitems}"], "\n");
      Join([@"\begin{cvitems}"] + DutyItems(highlights.value) + [@"\end{cvitems}"], "\n")
  }

  function WorkEntry(w: WorkItem): string {
    Join([
      @"\cventry",
      Arg(w.position),
      Arg(w.name),
      Arg(w.location),
      Arg(FormatDateRange(w.startDate, w.endDate)),
      Arg(Duties(w.highlights))
    ], "\n")
  }

  function WorkEntries(xs: seq<WorkItem>): (r: seq<string>)
    ensures |r| == |xs| && forall i :: 0 <= i < |xs| ==> r[i] == WorkEntry(xs[i])
  {
    seq(|xs|, i requires 0 <= i < |xs| => WorkEntry(xs[i]))
  }

  function WorkLines(xs: seq<WorkItem>, heading: string): (lines: seq<string>)
    ensures |lines| == |xs| + 6 && lines[..3] == Banner("Experience")
    ensures lines[3] == CvSection(HeadingOr(heading, "Experience"))
    ensures lines[5..5 + |xs|] == WorkEntries(xs)
  {
    Banner("Experience") + [CvSection(HeadingOr(heading, "Experience")), @"\begin{cventries}"]
      + WorkEntries(xs) + [@"\end{cventries}"]
  }

  /** `workSection`: "" exactly when the list is missing or empty. */
  function WorkSection(work: Option<seq<WorkItem>>, heading: string): (r: string)
    ensures r == "" <==> work.None? || |work.value| == 0
    ensures work.Some? && |work.value| > 0 ==> r == Join(WorkLines(work.value, heading), "\n")
  {
    if work.None? || |work.value| == 0 then ""
    else
      JoinNonEmpty(WorkLines(work.value, heading), "\n");
      Join(WorkLines(work.value, heading), "\n")
  }

  // ====== Skills ======

  /** One tabular row: "name: " (when named), " & ", and the keywords joined with ", ". */
  function SkillRow(s: SkillItem): string {
    (if s.name != "" then s.name + ": " else "") + " & " + @"{\skill{" + Join(s.keywords.GetOr([]), ", ") + "}}" + @" \\"
  }

  function SkillRows(xs: seq<SkillItem>): (r: seq<string>)
    ensures |r| == |xs| && forall i :: 0 <= i < |xs| ==> r[i] == SkillRow(xs[i])
  {
    seq(|xs|, i requires 0 <= i < |xs| => SkillRow(xs[i]))
  }

  function SkillsLines(xs: seq<SkillItem>, heading: string): (lines: seq<string>)
    ensures |lines| == |xs| + 15 && lines[..3] == Banner("Skills")
    ensures lines[3] == CvSection(HeadingOr(heading, "Skills"))
    ensures lines[8..8 + |xs|] == SkillRows(xs)
  {
    Banner("Skills") + [CvSection(HeadingOr(heading, "Skills")), @"\begin{cventries}", @"\cventry", "{}",
      @"{\def\arraystretch{1.15}\begin{tabular}{ l l }"]
      + SkillRows(xs) + [@"\end{tabular}}", "{}", "{}", "{}", @"\end{cventries}", "", @"\vspace{-7mm}"]
  }

  /** `skillsSection`: "" exactly when the list is missing or empty. */
  function SkillsSection(skills: Option<seq<SkillItem>>, heading: string): (r: string)
    ensures r == "" <==> skills.None? || |skills.value| == 0
    ensures skills.Some? && |skills.value| > 0 ==> r == Join(SkillsLines(skills.value, heading), "\n")
  {
    if skills.None? || |skills.value| == 0 then ""
    else
      JoinNonEmpty(SkillsLines(skills.value, heading), "\n");
      Join(SkillsLines(skills.value, heading), "\n")
  }

  // ====== Projects ======

  function ProjectEntry(p: ProjectItem): string {
    Join([
      @"\cventry",
      Arg(p.description),
      Arg(p.name),
      Arg(Join(p.keywords.GetOr([]), ", ")),
      Arg(if p.url != "" then @"\href{" + p.url + "}{" + p.url + "}" else ""),
      "{}",
      @"\vspace{-5mm}"
    ], "\n")
  }

  function ProjectEntries(xs: seq<ProjectItem>): (r: seq<string>)
    ensures |r| == |xs| && forall i :: 0 <= i < |xs| ==> r[i] == ProjectEntry(xs[i])
  {
    seq(|xs|, i requires 0 <= i < |xs| => ProjectEntry(xs[i]))
  }

  function ProjectsLines(xs: seq<ProjectItem>, heading: string): (lines: seq<string>)
    ensures |lines| == |xs| + 6 && lines[..3] == Banner("Projects")
    ensures lines[3] == CvSection(HeadingOr(heading, "Projects"))
    ensures lines[5..5 + |xs|] == ProjectEntries(xs)
  {
    Banner("Projects") + [CvSection(HeadingOr(heading, "Projects")), @"\begin{cventries}"]
      + ProjectEntries(xs) + [@"\end{cventries}"]
  }

  /** `projectsSection`: "" exactly when the list is missing or empty. */
  function ProjectsSection(projects: Option<seq<ProjectItem>>, heading: string): (r: string)
    ensures r == "" <==> projects.None? || |projects.value| == 0
    ensures projects.Some? && |projects.value| > 0 ==> r == Join(ProjectsLines(projects.value, heading), "\n")
  {
    if projects.None? || |projects.value| == 0 then ""
    else
      JoinNonEmpty(ProjectsLines(projects.value, heading), "\n");
      Join(ProjectsLines(projects.value, heading), "\n")
  }

  // ====== Awards ======

  function AwardEntry(a: AwardItem): string {
    Join([@"\cvhonor", Arg(a.title), Arg(a.summary), Arg(a.awarder), Arg(a.date)], "\n")
  }

  function AwardEntries(xs: seq<AwardItem>): (r: seq<string>)
    ensures |r| == |xs| && forall i :: 0 <= i < |xs| ==> r[i] == AwardEntry(xs[i])
  {
    seq(|xs|, i requires 0 <= i < |xs| => AwardEntry(xs[i]))
  }

  function AwardsLines(xs: seq<AwardItem>, heading: string): (lines: seq<string>)
    ensures |lines| == |xs| + 6 && lines[..3] == Banner("Awards")
    ensures lines[3] == CvSection(HeadingOr(heading, "Awards"))
    ensures lines[5..5 + |xs|] == AwardEntries(xs)
  {
    Banner("Awards") + [CvSection(HeadingOr(heading, "Awards")), @"\begin{cvhonors}"]
      + AwardEntries(xs) + [@"\end{cvhonors}"]
  }

  /** `awardsSection`: "" exactly when the list is missing or empty. */
  function AwardsSection(awards: Option<seq<AwardItem>>, heading: string): (r: string)
    ensures r == "" <==> awards.None? || |awards.value| == 0
    ensures awards.Some? && |awards.value| > 0 ==> r == Join(AwardsLines(awards.value, heading), "\n")
  {
    if awards.None? || |awards.value| == 0 then ""
    else
      JoinNonEmpty(AwardsLines(awards.value, heading), "\n");
      Join(AwardsLines(awards.value, heading), "\n")
  }

  // ====== Document ======

  /** `resumeHeader`: the fixed preamble. */
  function ResumeHeader(): seq<string> {
    [
      "%!TEX TS-program = xelatex",
      "%!TEX encoding = UTF-8 Unicode",
      "% Awesome CV LaTeX Template",
      "%",
      "% Downloaded from:",
      "% https://github.com/posquit0/Awesome-CV",
      "%",
      "% Author:",
      "% Claud D. Park <posquit0.bj@gmail.com>",
      "%",
      "% License:",
      "% CC BY-SA 4.0 (https://creativecommons.org/licenses/by-sa/4.0/)",
      Rule,
      "%     Configuration",
      Rule,
      @"\documentclass[]{awesome-cv}",
      @"\usepackage{textcomp}",
      @"\fontdir[fonts/]",
      @"\newcommand*{\sectiondir}{resume/}",
      @"\colorlet{awesome}{awesome-red}",
      @"%\headersocialsep[\quad\textbar\quad]"
    ]
  }

  /** `headings = {}`: a missing headings object overrides nothing. */
  function HeadingsOf(v: FormValues): Headings {
    v.headings.GetOr(Headings("", "", "", "", ""))
  }

  /** The ids the `switch` of `template2` knows. */
  const KnownIds: seq<string> := ["profile", "education", "work", "skills", "projects", "awards"]

  /** The block one section id produces; an unknown id produces "". */
  function SectionFor(v: FormValues, id: string): (r: string)
    ensures id !in KnownIds ==> r == ""
    ensures id == "profile" ==> r == ProfileSection(v.basics)
    ensures id == "education" ==> r == EducationSection(v.education, HeadingsOf(v).education)
    ensures id == "work" ==> r == WorkSection(v.work, HeadingsOf(v).work)
    ensures id == "skills" ==> r == SkillsSection(v.skills, HeadingsOf(v).skills)
    ensures id == "projects" ==> r == ProjectsSection(v.projects, HeadingsOf(v).projects)
    ensures id == "awards" ==> r == AwardsSection(v.awards, HeadingsOf(v).awards)
  {
    if id == "profile" then ProfileSection(v.basics)
    else if id == "education" then EducationSection(v.education, HeadingsOf(v).education)
    else if id == "work" then WorkSection(v.work, HeadingsOf(v).work)
    else if id == "skills" then SkillsSection(v.skills, HeadingsOf(v).skills)
    else if id == "projects" then ProjectsSection(v.projects, HeadingsOf(v).projects)
    else if id == "awards" then AwardsSection(v.awards, HeadingsOf(v).awards)
    else ""
  }

  /** `sections.map(...)`: one block per id, in the order of the ids. */
  function Blocks(v: FormValues, ids: seq<string>): (r: seq<string>)
    ensures |r| == |ids|
    ensures forall i :: 0 <= i < |ids| ==> r[i] == SectionFor(v, ids[i])
  {
    Map(id => SectionFor(v, id), ids)
  }

  /** Reordering the ids only reorders the blocks: the same ids in any order give the same blocks. */
  lemma BlocksReorder(v: FormValues, ids: seq<string>, ids': seq<string>)
    requires multiset(ids) == multiset(ids')
    ensures multiset(Blocks(v, ids)) == multiset(Blocks(v, ids'))
  {
    MapReorder(id => SectionFor(v, id), ids, ids');
  }

  /** `sections = []`: a missing list composes nothing. */
  function SectionIds(v: FormValues): seq<string> {
    v.sections.GetOr([])
  }

  /**
   * `template2`: the preamble, `\begin{document}`, the blocks of the section ids joined with
   * newlines (an empty block still takes its line), the whitespace constant, `\end{document}`.
   * The whitespace constant is not part of this model, so it is a parameter.
   */
  function Template2(v: FormValues, whitespace: string): (r: string)
    ensures r == Join(ResumeHeader(), "\n") + "\n" + @"\begin{document}" + "\n"
      + Join(Blocks(v, SectionIds(v)), "\n") + "\n" + whitespace + "\n" + @"\end{document}"
  {
    var body := Join(Blocks(v, SectionIds(v)), "\n");
    JoinFive(Join(ResumeHeader(), "\n"), @"\begin{document}", body, whitespace, @"\end{document}", "\n");
    var parts := [Join(ResumeHeader(), "\n"), @"\begin{document}", body, whitespace, @"\end{document}"];
    Join(parts, "\n")
  }

  /** A section id the generator does not know contributes an empty block and the composition goes on. */
  lemma UnknownIdEmpty(v: FormValues, ids: seq<string>, i: nat)
    requires i < |ids| && ids[i] !in KnownIds
    ensures Blocks(v, ids)[i] == ""
  {
  }

  /** Reordering the section ids of the input only reorders the blocks of the document. */
  lemma ReorderSections(v: FormValues, ids': seq<string>)
    requires multiset(SectionIds(v)) == multiset(ids')
    ensures multiset(Blocks(v, SectionIds(v))) == multiset(Blocks(v.(sections := Some(ids')), SectionIds(v.(sections := Some(ids')))))
  {
    var w := v.(sections := Some(ids'));
    BlocksReorder(v, SectionIds(v), ids');
    assert forall id :: SectionFor(w, id) == SectionFor(v, id);
    assert Blocks(w, ids') == Blocks(v, ids');
  }

  /** A missing section list gives the same document as an empty one. */
  lemma MissingSectionsAsEmpty(v: FormValues, whitespace: string)
    requires v.sections.None?
    ensures Template2(v, whitespace) == Template2(v.(sections := Some([])), whitespace)
  {
  }
}
