/**
 * The PDF document tree of src/components/ResumePreview.tsx, as the ordered text it shows:
 * a header with the name and the contact links, then the sections, each a title followed by
 * blocks (a line of text, or an entry made of lines). Page size, fonts and styles are not
 * part of this model.
 */
module ResumePreview {
  import opened Resume
  import opened Helpers
  import opened Text

  datatype ContactKind = EmailLink | PhoneLink | LinkedInLink | GitHubLink

  /** One element of the contact row: a link with its shown text and its target, or the `" | "` text between two links. */
  datatype ContactItem = Contact(kind: ContactKind, text: string, href: string) | Separator

  datatype Block = Line(text: string) | Entry(lines: seq<string>)

  /** The four sections the document can show. */
  datatype Heading = SkillsHeading | ExperienceHeading | ProjectsHeading | EducationHeading

  /** A section: which of the four it is, the title printed above it, and its blocks. */
  datatype Section = Section(heading: Heading, title: string, blocks: seq<Block>)

  datatype Document = Document(name: string, contacts: seq<ContactItem>, sections: seq<Section>)

  /** Where a link kind stands in the contact row. */
  function Rank(k: ContactKind): nat {
    match k
    case EmailLink => 0
    case PhoneLink => 1
    case LinkedInLink => 2
    case GitHubLink => 3
  }

  /** The field a link kind is shown for. */
  function FieldFor(info: PersonalInfo, k: ContactKind): string {
    match k
    case EmailLink => info.email
    case PhoneLink => info.phone
    case LinkedInLink => info.linkedinUrl
    case GitHubLink => info.githubUrl
  }

  /**
   * The link for a field: email and phone show their own value (as `mailto:` and `tel:` links),
   * LinkedIn and GitHub show a fixed label and link to the URL.
   */
  function LinkFor(info: PersonalInfo, k: ContactKind): (c: ContactItem)
    ensures c.Contact? && c.kind == k
    ensures k == EmailLink ==> c.text == info.email && c.href == "mailto:" + info.email
    ensures k == PhoneLink ==> c.text == info.phone && c.href == "tel:" + info.phone
    ensures k == LinkedInLink ==> c.text == "LinkedIn" && c.href == info.linkedinUrl
    ensures k == GitHubLink ==> c.text == "GitHub" && c.href == info.githubUrl
  {
    match k
    case EmailLink => Contact(EmailLink, info.email, "mailto:" + info.email)
    case PhoneLink => Contact(PhoneLink, info.phone, "tel:" + info.phone)
    case LinkedInLink => Contact(LinkedInLink, "LinkedIn", info.linkedinUrl)
    case GitHubLink => Contact(GitHubLink, "GitHub", info.githubUrl)
  }

  /** The link for k when its field is filled in, else nothing. */
  function LinkIfPresent(info: PersonalInfo, k: ContactKind): (r: seq<ContactItem>)
    ensures |r| <= 1
    ensures |r| == 1 <==> FieldFor(info, k) != ""
    ensures |r| == 1 ==> r[0] == LinkFor(info, k)
  {
    if FieldFor(info, k) != "" then [LinkFor(info, k)] else []
  }

  /**
   * The links of the contact row without separators: the link of each filled-in field, in the
   * order email, phone, LinkedIn, GitHub (`ContactLinksSound`, `ContactLinksComplete` and `ContactLinksOrdered` state this).
   */
  function ContactLinks(info: PersonalInfo): seq<ContactItem> {
    LinkIfPresent(info, EmailLink) + LinkIfPresent(info, PhoneLink)
      + LinkIfPresent(info, LinkedInLink) + LinkIfPresent(info, GitHubLink)
  }

  /** Where the link at position i of the row comes from: the four candidates in their order. */
  lemma ContactLinkAt(info: PersonalInfo, i: nat)
    requires i < |ContactLinks(info)|
    ensures var a, b, c := |LinkIfPresent(info, EmailLink)|, |LinkIfPresent(info, PhoneLink)|, |LinkIfPresent(info, LinkedInLink)|;
      ContactLinks(info)[i] ==
        if i < a then LinkFor(info, EmailLink)
        else if i < a + b then LinkFor(info, PhoneLink)
        else if i < a + b + c then LinkFor(info, LinkedInLink)
        else LinkFor(info, GitHubLink)
  {
    var a, b, c, d := LinkIfPresent(info, EmailLink), LinkIfPresent(info, PhoneLink),
      LinkIfPresent(info, LinkedInLink), LinkIfPresent(info, GitHubLink);
    var r := ContactLinks(info);
    assert r == a + b + c + d;
    if i < |a| { assert r[i] == a[0]; }
    else if i < |a| + |b| { assert r[i] == b[0]; }
    else if i < |a| + |b| + |c| { assert r[i] == c[0]; }
    else { assert r[i] == d[0]; }
  }

  /** Each link of the row is the link of its kind, shown for a filled-in field. */
  lemma ContactLinksSound(info: PersonalInfo)
    ensures forall i :: 0 <= i < |ContactLinks(info)| ==>
      ContactLinks(info)[i].Contact? && ContactLinks(info)[i] == LinkFor(info, ContactLinks(info)[i].kind)
      && FieldFor(info, ContactLinks(info)[i].kind) != ""
  {
    forall i | 0 <= i < |ContactLinks(info)|
      ensures ContactLinks(info)[i].Contact? && ContactLinks(info)[i] == LinkFor(info, ContactLinks(info)[i].kind)
      ensures FieldFor(info, ContactLinks(info)[i].kind) != ""
    {
      ContactLinkAt(info, i);
    }
  }

  /** Every filled-in field has its link in the row. */
  lemma ContactLinksComplete(info: PersonalInfo)
    ensures forall k :: FieldFor(info, k) != "" ==> LinkFor(info, k) in ContactLinks(info)
  {
    var a, b, c, d := LinkIfPresent(info, EmailLink), LinkIfPresent(info, PhoneLink),
      LinkIfPresent(info, LinkedInLink), LinkIfPresent(info, GitHubLink);
    var r := ContactLinks(info);
    assert r == a + b + c + d;
    forall k | FieldFor(info, k) != "" ensures LinkFor(info, k) in r {
      match k
      case EmailLink => assert r[0] == a[0];
      case PhoneLink => assert r[|a|] == b[0];
      case LinkedInLink => assert r[|a| + |b|] == c[0];
      case GitHubLink => assert r[|a| + |b| + |c|] == d[0];
    }
  }

  /** The links come in the fixed order email, phone, LinkedIn, GitHub. */
  lemma ContactLinksOrdered(info: PersonalInfo)
    ensures forall i, j :: 0 <= i < j < |ContactLinks(info)| ==>
      ContactLinks(info)[i].Contact? && ContactLinks(info)[j].Contact?
      && Rank(ContactLinks(info)[i].kind) < Rank(ContactLinks(info)[j].kind)
  {
    var r := ContactLinks(info);
    forall i, j | 0 <= i < j < |r|
      ensures r[i].Contact? && r[j].Contact? && Rank(r[i].kind) < Rank(r[j].kind)
    {
      var a, b, c := |LinkIfPresent(info, EmailLink)|, |LinkIfPresent(info, PhoneLink)|, |LinkIfPresent(info, LinkedInLink)|;
      assert a <= 1 && b <= 1 && c <= 1;
      ContactLinkAt(info, i);
      ContactLinkAt(info, j);
    }
  }

  /** The items with one separator between each two neighbours. */
  function Separated(xs: seq<ContactItem>): (r: seq<ContactItem>)
    ensures |xs| == 0 ==> r == []
    ensures |xs| > 0 ==> |r| == 2 * |xs| - 1
    decreases |xs|
  {
    if |xs| <= 1 then xs else [xs[0], Separator] + Separated(xs[1..])
  }

  /** The item at position i sits at position 2i of the row. */
  lemma {:induction false} SeparatedAt(xs: seq<ContactItem>, i: nat)
    requires i < |xs|
    ensures |Separated(xs)| == 2 * |xs| - 1 && Separated(xs)[2 * i] == xs[i]
    decreases i
  {
    if i > 0 {
      SeparatedAt(xs[1..], i - 1);
      assert Separated(xs) == [xs[0], Separator] + Separated(xs[1..]);
    }
  }

  /** The items sit at the even positions of the row, in order. */
  lemma SeparatedItems(xs: seq<ContactItem>)
    ensures forall i :: 0 <= i < |xs| ==> Separated(xs)[2 * i] == xs[i]
  {
    forall i | 0 <= i < |xs| ensures Separated(xs)[2 * i] == xs[i] {
      SeparatedAt(xs, i);
    }
  }

  /** Every odd position of the row holds a separator. */
  lemma {:induction false} SeparatedSeparators(xs: seq<ContactItem>)
    ensures forall i :: 0 <= i < |xs| - 1 ==> Separated(xs)[2 * i + 1] == Separator
    decreases |xs|
  {
    if |xs| > 1 {
      var rest := Separated(xs[1..]);
      var r := Separated(xs);
      assert r == [xs[0], Separator] + rest;
      SeparatedSeparators(xs[1..]);
      forall i | 1 <= i < |xs| - 1 ensures r[2 * i + 1] == Separator {
        assert r[2 * i + 1] == rest[2 * (i - 1) + 1];
      }
    }
  }

  /** How many separators a contact row holds. */
  function SeparatorCount(items: seq<ContactItem>): nat
    decreases |items|
  {
    if |items| == 0 then 0
    else (if items[0] == Separator then 1 else 0) + SeparatorCount(items[1..])
  }

  /** With k links the row holds exactly k - 1 separators. */
  lemma {:induction false} SeparatedCount(xs: seq<ContactItem>)
    requires forall i :: 0 <= i < |xs| ==> xs[i].Contact?
    ensures |xs| > 0 ==> SeparatorCount(Separated(xs)) == |xs| - 1
    decreases |xs|
  {
    if |xs| > 1 {
      var r := Separated(xs);
      SeparatedCount(xs[1..]);
      assert r[1..] == [Separator] + Separated(xs[1..]);
      assert r[1..][1..] == Separated(xs[1..]);
      assert xs[1..][0] == xs[1];
    }
  }

  /**
   * A row of links holds k - 1 separators, none first or last, and never two next to each other.
   */
  lemma SeparatedShape(xs: seq<ContactItem>)
    requires forall i :: 0 <= i < |xs| ==> xs[i].Contact?
    ensures |xs| > 0 ==> SeparatorCount(Separated(xs)) == |xs| - 1
    ensures |xs| > 0 ==> Separated(xs)[0].Contact? && Separated(xs)[|Separated(xs)| - 1].Contact?
    ensures forall j :: 0 <= j < |Separated(xs)| - 1 ==> Separated(xs)[j].Contact? || Separated(xs)[j + 1].Contact?
  {
    var r := Separated(xs);
    SeparatedCount(xs);
    SeparatedItems(xs);
    if |xs| > 0 {
      assert r[2 * 0] == xs[0];
      assert r[2 * (|xs| - 1)] == xs[|xs| - 1];
    }
    forall j | 0 <= j < |r| - 1
      ensures r[j].Contact? || r[j + 1].Contact?
    {
      if j % 2 == 0 {
        assert r[2 * (j / 2)] == xs[j / 2];
      } else {
        assert r[2 * ((j + 1) / 2)] == xs[(j + 1) / 2];
      }
    }
  }

  /** Adding one more link to a non-empty row adds a separator and the link. */
  lemma {:induction false} SeparatedSnoc(xs: seq<ContactItem>, x: ContactItem)
    requires |xs| > 0
    ensures Separated(xs + [x]) == Separated(xs) + [Separator, x]
    decreases |xs|
  {
    if |xs| > 1 {
      assert (xs + [x])[1..] == xs[1..] + [x];
      SeparatedSnoc(xs[1..], x);
    }
  }

  /** How many of the four contact fields are filled in. */
  function PresentCount(info: PersonalInfo): nat {
    (if info.email != "" then 1 else 0) + (if info.phone != "" then 1 else 0)
      + (if info.linkedinUrl != "" then 1 else 0) + (if info.githubUrl != "" then 1 else 0)
  }

  /** The contact row holds a link exactly for each filled-in field. */
  lemma ContactRowLinks(info: PersonalInfo)
    ensures forall k :: LinkFor(info, k) in Separated(ContactLinks(info)) <==> FieldFor(info, k) != ""
  {
    var links := ContactLinks(info);
    var row := Separated(links);
    ContactLinksSound(info);
    ContactLinksComplete(info);
    SeparatedItems(links);
    forall k ensures LinkFor(info, k) in row <==> FieldFor(info, k) != "" {
      if FieldFor(info, k) != "" {
        var i :| 0 <= i < |links| && links[i] == LinkFor(info, k);
        assert row[2 * i] == links[i];
      }
      if LinkFor(info, k) in row {
        var j :| 0 <= j < |row| && row[j] == LinkFor(info, k);
        LinkInRow(links, j);
      }
    }
  }

  /**
   * With k filled-in contact fields the row holds k - 1 separators, none first or last and
   * never two in a row; with none the row is empty.
   */
  lemma ContactRowSeparators(info: PersonalInfo)
    ensures PresentCount(info) == 0 ==> Separated(ContactLinks(info)) == []
    ensures PresentCount(info) > 0 ==> SeparatorCount(Separated(ContactLinks(info))) == PresentCount(info) - 1
    ensures PresentCount(info) > 0 ==>
      Separated(ContactLinks(info))[0].Contact? && Separated(ContactLinks(info))[|Separated(ContactLinks(info))| - 1].Contact?
    ensures forall j :: 0 <= j < |Separated(ContactLinks(info))| - 1 ==>
      Separated(ContactLinks(info))[j].Contact? || Separated(ContactLinks(info))[j + 1].Contact?
  {
    var links := ContactLinks(info);
    ContactLinksSound(info);
    SeparatedShape(links);
    assert |links| == PresentCount(info);
  }

  /** Every link of the row is one of the items. */
  lemma {:induction false} LinkInRow(xs: seq<ContactItem>, j: nat)
    requires j < |Separated(xs)| && Separated(xs)[j].Contact?
    ensures Separated(xs)[j] in xs
    decreases |xs|
  {
    if |xs| > 1 && j >= 2 {
      assert Separated(xs)[j] == Separated(xs[1..])[j - 2];
      LinkInRow(xs[1..], j - 2);
    }
  }

  /** One step of the component's build: a link is pushed after a separator unless the row is still empty. */
  lemma PushStep(items: seq<ContactItem>, links: seq<ContactItem>, link: ContactItem)
    requires items == Separated(links) && (|items| > 0 <==> |links| > 0)
    ensures (if |items| > 0 then items + [Separator] else items) + [link] == Separated(links + [link])
    ensures |Separated(links + [link])| > 0
  {
    if |links| > 0 {
      SeparatedSnoc(links, link);
    }
  }

  /**
   * The contact row as the component builds it: for each filled-in field in turn, a separator
   * is pushed first when the row already holds something, then the link.
   */
  method BuildContactItems(info: PersonalInfo) returns (contactItems: seq<ContactItem>)
    ensures contactItems == Separated(ContactLinks(info))
  {
    contactItems := [];
    ghost var links: seq<ContactItem> := [];

    if info.email != "" {
      contactItems := contactItems + [LinkFor(info, EmailLink)];
      links := links + [LinkFor(info, EmailLink)];
    }

    if info.phone != "" {
      PushStep(contactItems, links, LinkFor(info, PhoneLink));
      if |contactItems| > 0 {
        contactItems := contactItems + [Separator];
      }
      contactItems := contactItems + [LinkFor(info, PhoneLink)];
      links := links + [LinkFor(info, PhoneLink)];
    }

    if info.linkedinUrl != "" {
      PushStep(contactItems, links, LinkFor(info, LinkedInLink));
      if |contactItems| > 0 {
        contactItems := contactItems + [Separator];
      }
      contactItems := contactItems + [LinkFor(info, LinkedInLink)];
      links := links + [LinkFor(info, LinkedInLink)];
    }

    if info.githubUrl != "" {
      PushStep(contactItems, links, LinkFor(info, GitHubLink));
      if |contactItems| > 0 {
        contactItems := contactItems + [Separator];
      }
      contactItems := contactItems + [LinkFor(info, GitHubLink)];
      links := links + [LinkFor(info, GitHubLink)];
    }
    assert links == ContactLinks(info);
  }

  /**
   * The end of a date range: "Present" for an empty end year, else the formatted year. Since
   * `formatDate` of an empty string is "Present" as well, this is always `formatDate(endYear)`.
   */
  function EndDate(localeDate: LocaleDate, endYear: string): (r: string)
    ensures r == FormatDate(localeDate, endYear)
    ensures endYear == "" ==> r == "Present"
  {
    if endYear != "" then FormatDate(localeDate, endYear) else "Present"
  }

  /** An experience entry's dates: the start always goes through `formatDate`, so an empty start reads "Present" too. */
  function ExperienceDates(localeDate: LocaleDate, e: Experience): (r: string)
    ensures r == FormatDate(localeDate, e.startYear) + " – " + FormatDate(localeDate, e.endYear)
    ensures e.startYear == "" && e.endYear == "" ==> r == "Present – Present"
  {
    FormatDate(localeDate, e.startYear) + " – " + EndDate(localeDate, e.endYear)
  }

  /** An education entry's dates: an empty start is left out, leaving the dash. */
  function EducationDates(localeDate: LocaleDate, e: Education): (r: string)
    ensures e.startYear == "" ==> r == " – " + FormatDate(localeDate, e.endYear)
    ensures e.startYear != "" ==> r == localeDate(e.startYear) + " – " + FormatDate(localeDate, e.endYear)
  {
    (if e.startYear != "" then FormatDate(localeDate, e.startYear) else "") + " – " + EndDate(localeDate, e.endYear)
  }

  /** One `"• point"` line per point, in order. */
  function Bullets(points: seq<string>): (r: seq<string>)
    ensures |r| == |points|
    ensures forall i :: 0 <= i < |points| ==> r[i] == "• " + points[i]
  {
    seq(|points|, i requires 0 <= i < |points| => "• " + points[i])
  }

  /**
   * An experience entry: the "position — company" line and the dates, the location only when
   * it is filled in, then exactly one bullet per point in order.
   */
  function ExperienceEntry(localeDate: LocaleDate, e: Experience): (lines: seq<string>)
    ensures |lines| == 2 + (if e.location != "" then 1 else 0) + |e.points|
    ensures lines[0] == e.position + " — " + e.company && lines[1] == ExperienceDates(localeDate, e)
    ensures e.location != "" ==> lines[2] == e.location
    ensures lines[|lines| - |e.points|..] == Bullets(e.points)
  {
    [e.position + " — " + e.company, ExperienceDates(localeDate, e)]
      + (if e.location != "" then [e.location] else [])
      + Bullets(e.points)
  }

  /**
   * A project entry: the title, the live URL only when filled in, the "Techstack Used: " line
   * only when technologies are filled in, then exactly one bullet per point in order.
   */
  function ProjectEntry(p: Project): (lines: seq<string>)
    ensures |lines| == 1 + (if p.liveUrl != "" then 1 else 0) + (if p.technologies != "" then 1 else 0) + |p.points|
    ensures lines[0] == p.title
    ensures p.liveUrl != "" ==> lines[1] == p.liveUrl
    ensures p.technologies != "" ==> lines[|lines| - |p.points| - 1] == "Techstack Used: " + p.technologies
    ensures lines[|lines| - |p.points|..] == Bullets(p.points)
  {
    [p.title]
      + (if p.liveUrl != "" then [p.liveUrl] else [])
      + (if p.technologies != "" then ["Techstack Used: " + p.technologies] else [])
      + Bullets(p.points)
  }

  /** An education entry: institution, dates, degree and grade. */
  function EducationEntry(localeDate: LocaleDate, e: Education): seq<string> {
    [e.institution, EducationDates(localeDate, e), e.degree, e.cgpa]
  }

  /** The title text a section is shown under. */
  function Title(h: Heading): string {
    match h
    case SkillsHeading => "Skills"
    case ExperienceHeading => "Experience"
    case ProjectsHeading => "Projects"
    case EducationHeading => "Education"
  }

  /**
   * The Skills section: a "Languages:" line only when there are languages and a
   * "Tools & Technologies:" line only when there are tools, the items joined with ", ".
   */
  function SkillsSection(s: Skill): (sec: Section)
    ensures sec.heading == SkillsHeading && sec.title == "Skills"
    ensures |sec.blocks| == (if |s.languages| > 0 then 1 else 0) + (if |s.tools| > 0 then 1 else 0)
    ensures |s.languages| > 0 ==> sec.blocks[0] == Line("Languages: " + Join(s.languages, ", "))
    ensures |s.tools| > 0 ==> sec.blocks[|sec.blocks| - 1] == Line("Tools & Technologies: " + Join(s.tools, ", "))
  {
    Section(SkillsHeading, Title(SkillsHeading),
      (if |s.languages| > 0 then [Line("Languages: " + Join(s.languages, ", "))] else [])
      + (if |s.tools| > 0 then [Line("Tools & Technologies: " + Join(s.tools, ", "))] else []))
  }

  /** The Experience section: one entry per experience, in array order. */
  function ExperienceSection(localeDate: LocaleDate, xs: seq<Experience>): (sec: Section)
    ensures sec.heading == ExperienceHeading && sec.title == "Experience" && |sec.blocks| == |xs|
    ensures forall i :: 0 <= i < |xs| ==> sec.blocks[i] == Entry(ExperienceEntry(localeDate, xs[i]))
  {
    Section(ExperienceHeading, Title(ExperienceHeading), seq(|xs|, i requires 0 <= i < |xs| => Entry(ExperienceEntry(localeDate, xs[i]))))
  }

  /** The Projects section: one entry per project, in array order. */
  function ProjectsSection(xs: seq<Project>): (sec: Section)
    ensures sec.heading == ProjectsHeading && sec.title == "Projects" && |sec.blocks| == |xs|
    ensures forall i :: 0 <= i < |xs| ==> sec.blocks[i] == Entry(ProjectEntry(xs[i]))
  {
    Section(ProjectsHeading, Title(ProjectsHeading), seq(|xs|, i requires 0 <= i < |xs| => Entry(ProjectEntry(xs[i]))))
  }

  /** The Education section: one entry per education, in array order. */
  function EducationSection(localeDate: LocaleDate, xs: seq<Education>): (sec: Section)
    ensures sec.heading == EducationHeading && sec.title == "Education" && |sec.blocks| == |xs|
    ensures forall i :: 0 <= i < |xs| ==> sec.blocks[i] == Entry(EducationEntry(localeDate, xs[i]))
  {
    Section(EducationHeading, Title(EducationHeading), seq(|xs|, i requires 0 <= i < |xs| => Entry(EducationEntry(localeDate, xs[i]))))
  }

  /** The fixed order of the sections in the document. */
  const SectionOrder: seq<Heading> := [SkillsHeading, ExperienceHeading, ProjectsHeading, EducationHeading]

  function HeadingRank(h: Heading): nat {
    match h
    case SkillsHeading => 0
    case ExperienceHeading => 1
    case ProjectsHeading => 2
    case EducationHeading => 3
  }

  /** The guard in front of each section: Skills needs either list, the others their own list. */
  predicate Shown(data: ResumeData, h: Heading) {
    match h
    case SkillsHeading => |data.skills.languages| > 0 || |data.skills.tools| > 0
    case ExperienceHeading => |data.experience| > 0
    case ProjectsHeading => |data.projects| > 0
    case EducationHeading => |data.education| > 0
  }

  /** The section built for a heading carries that heading and is printed under its title. */
  function SectionFor(localeDate: LocaleDate, data: ResumeData, h: Heading): (sec: Section)
    ensures sec.heading == h && sec.title == Title(h)
  {
    match h
    case SkillsHeading => SkillsSection(data.skills)
    case ExperienceHeading => ExperienceSection(localeDate, data.experience)
    case ProjectsHeading => ProjectsSection(data.projects)
    case EducationHeading => EducationSection(localeDate, data.education)
  }

  /** The sections of `hs` whose guard holds, in the order of `hs`. */
  function SectionsFor(localeDate: LocaleDate, data: ResumeData, hs: seq<Heading>): seq<Section>
    decreases |hs|
  {
    if |hs| == 0 then []
    else
      (if Shown(data, hs[0]) then [SectionFor(localeDate, data, hs[0])] else [])
      + SectionsFor(localeDate, data, hs[1..])
  }

  /** Every section produced is one of `hs` whose guard holds, with its full content. */
  lemma {:induction false} SectionsForSound(localeDate: LocaleDate, data: ResumeData, hs: seq<Heading>)
    ensures forall i :: 0 <= i < |SectionsFor(localeDate, data, hs)| ==>
      var sec := SectionsFor(localeDate, data, hs)[i];
      sec.heading in hs && Shown(data, sec.heading) && sec == SectionFor(localeDate, data, sec.heading)
    decreases |hs|
  {
    if |hs| > 0 {
      var head := if Shown(data, hs[0]) then [SectionFor(localeDate, data, hs[0])] else [];
      var rest := SectionsFor(localeDate, data, hs[1..]);
      var r := SectionsFor(localeDate, data, hs);
      assert r == head + rest;
      SectionsForSound(localeDate, data, hs[1..]);
      forall i | |head| <= i < |r|
        ensures r[i].heading in hs && Shown(data, r[i].heading) && r[i] == SectionFor(localeDate, data, r[i].heading)
      {
        assert r[i] == rest[i - |head|];
        assert r[i].heading in hs[1..];
      }
    }
  }

  /** Every heading of `hs` whose guard holds has its section produced. */
  lemma {:induction false} SectionsForComplete(localeDate: LocaleDate, data: ResumeData, hs: seq<Heading>)
    ensures forall h :: h in hs && Shown(data, h) ==> SectionFor(localeDate, data, h) in SectionsFor(localeDate, data, hs)
    decreases |hs|
  {
    if |hs| > 0 {
      var head := if Shown(data, hs[0]) then [SectionFor(localeDate, data, hs[0])] else [];
      var rest := SectionsFor(localeDate, data, hs[1..]);
      assert SectionsFor(localeDate, data, hs) == head + rest;
      SectionsForComplete(localeDate, data, hs[1..]);
      forall h | h in hs && Shown(data, h)
        ensures SectionFor(localeDate, data, h) in SectionsFor(localeDate, data, hs)
      {
        if h != hs[0] {
          assert h in hs[1..];
        }
      }
    }
  }

  /** In a strictly ranked list, everything after the head ranks above it. */
  lemma LaterRank(hs: seq<Heading>, h: Heading)
    requires forall i, j :: 0 <= i < j < |hs| ==> HeadingRank(hs[i]) < HeadingRank(hs[j])
    requires |hs| > 0 && h in hs[1..]
    ensures HeadingRank(hs[0]) < HeadingRank(h)
  {
    var k :| 0 <= k < |hs[1..]| && hs[1..][k] == h;
    assert hs[k + 1] == h;
  }

  /** The sections keep the order of `hs`: with strictly increasing ranks there, they are strictly increasing here. */
  lemma {:induction false} SectionsForOrdered(localeDate: LocaleDate, data: ResumeData, hs: seq<Heading>)
    requires forall i, j :: 0 <= i < j < |hs| ==> HeadingRank(hs[i]) < HeadingRank(hs[j])
    ensures forall i, j :: 0 <= i < j < |SectionsFor(localeDate, data, hs)| ==>
      HeadingRank(SectionsFor(localeDate, data, hs)[i].heading) < HeadingRank(SectionsFor(localeDate, data, hs)[j].heading)
    decreases |hs|
  {
    if |hs| > 0 {
      var head := if Shown(data, hs[0]) then [SectionFor(localeDate, data, hs[0])] else [];
      var rest := SectionsFor(localeDate, data, hs[1..]);
      var r := SectionsFor(localeDate, data, hs);
      assert r == head + rest;
      SectionsForOrdered(localeDate, data, hs[1..]);
      SectionsForSound(localeDate, data, hs[1..]);
      assert forall j :: 0 <= j < |rest| ==> rest[j].heading in hs[1..];
      forall i, j | 0 <= i < j < |r|
        ensures HeadingRank(r[i].heading) < HeadingRank(r[j].heading)
      {
        if i < |head| {
          LaterRank(hs, rest[j - |head|].heading);
        }
      }
    }
  }

  /** The fixed order ranks its headings 0, 1, 2, 3. */
  lemma SectionOrderRanked()
    ensures forall i :: 0 <= i < |SectionOrder| ==> HeadingRank(SectionOrder[i]) == i
  {
  }

  /** The fixed order lists every heading. */
  lemma SectionOrderComplete(h: Heading)
    ensures h in SectionOrder
  {
    assert SectionOrder[HeadingRank(h)] == h;
  }

  /** `ResumePDF`: the name, the contact row, then the sections in the fixed order. */
  function Render(localeDate: LocaleDate, data: ResumeData): Document {
    Document(
      data.personalInfo.name,
      Separated(ContactLinks(data.personalInfo)),
      SectionsFor(localeDate, data, SectionOrder))
  }

  predicate HasSection(doc: Document, sec: Section) {
    sec in doc.sections
  }

  predicate HasHeading(doc: Document, h: Heading) {
    exists i :: 0 <= i < |doc.sections| && doc.sections[i].heading == h
  }

  /**
   * Each section appears exactly when it has something to show: Skills when either list is
   * non-empty, Experience, Projects and Education when their own list is.
   */
  lemma SectionInclusion(localeDate: LocaleDate, data: ResumeData)
    ensures HasHeading(Render(localeDate, data), SkillsHeading) <==> |data.skills.languages| > 0 || |data.skills.tools| > 0
    ensures HasHeading(Render(localeDate, data), ExperienceHeading) <==> |data.experience| > 0
    ensures HasHeading(Render(localeDate, data), ProjectsHeading) <==> |data.projects| > 0
    ensures HasHeading(Render(localeDate, data), EducationHeading) <==> |data.education| > 0
  {
    HeadingShownIff(localeDate, data);
  }

  /** The guard of a section decides whether its heading appears. */
  lemma HeadingShownIff(localeDate: LocaleDate, data: ResumeData)
    ensures forall h :: HasHeading(Render(localeDate, data), h) <==> Shown(data, h)
  {
    forall h ensures HasHeading(Render(localeDate, data), h) <==> Shown(data, h) {
      if Shown(data, h) {
        ShownHasHeading(localeDate, data, h);
      }
      if HasHeading(Render(localeDate, data), h) {
        HeadingIsShown(localeDate, data, h);
      }
    }
  }

  lemma ShownHasHeading(localeDate: LocaleDate, data: ResumeData, h: Heading)
    requires Shown(data, h)
    ensures HasHeading(Render(localeDate, data), h)
  {
    var d := Render(localeDate, data).sections;
    SectionOrderComplete(h);
    SectionsForComplete(localeDate, data, SectionOrder);
    var i :| 0 <= i < |d| && d[i] == SectionFor(localeDate, data, h);
    assert d[i].heading == h;
  }

  lemma HeadingIsShown(localeDate: LocaleDate, data: ResumeData, h: Heading)
    requires HasHeading(Render(localeDate, data), h)
    ensures Shown(data, h)
  {
    var d := Render(localeDate, data).sections;
    SectionsForSound(localeDate, data, SectionOrder);
    var i :| 0 <= i < |d| && d[i].heading == h;
  }

  /** Every section whose guard holds is shown, and every section shown carries its full content. */
  lemma SectionContent(localeDate: LocaleDate, data: ResumeData)
    ensures forall h :: Shown(data, h) ==> HasSection(Render(localeDate, data), SectionFor(localeDate, data, h))
    ensures forall i :: 0 <= i < |Render(localeDate, data).sections| ==>
      Render(localeDate, data).sections[i] == SectionFor(localeDate, data, Render(localeDate, data).sections[i].heading)
  {
    forall h ensures h in SectionOrder {
      SectionOrderComplete(h);
    }
    SectionsForSound(localeDate, data, SectionOrder);
    SectionsForComplete(localeDate, data, SectionOrder);
  }

  /** The sections shown come in the fixed order Skills, Experience, Projects, Education. */
  lemma SectionsInFixedOrder(localeDate: LocaleDate, data: ResumeData)
    ensures forall i, j :: 0 <= i < j < |Render(localeDate, data).sections| ==>
      HeadingRank(Render(localeDate, data).sections[i].heading) < HeadingRank(Render(localeDate, data).sections[j].heading)
  {
    SectionOrderRanked();
    SectionsForOrdered(localeDate, data, SectionOrder);
  }

  /** The record a session starts from shows its (empty) name and nothing else: no contacts and no section. */
  lemma EmptyResumeRendersNothing(localeDate: LocaleDate)
    ensures Render(localeDate, EmptyResumeData()).sections == []
    ensures Render(localeDate, EmptyResumeData()).contacts == []
  {
    SectionsForSound(localeDate, EmptyResumeData(), SectionOrder);
  }
}
