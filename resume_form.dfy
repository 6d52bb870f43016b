/**
 * The editor shell of src/components/ResumeForm.tsx: replacing one section of the record,
 * the per-section completion marks, and the previous/next navigation between the five forms.
 */
module ResumeForm {
  import opened Resume
  import opened Helpers

  /** The new value of one section, tagged with its key: the `(section, value)` pair of `updateSection`. */
  datatype SectionValue =
    | PersonalInfoValue(personalInfo: PersonalInfo)
    | EducationValue(education: seq<Education>)
    | ExperienceValue(experience: seq<Experience>)
    | SkillsValue(skills: Skill)
    | ProjectsValue(projects: seq<Project>)

  function KeyOf(v: SectionValue): ResumeSection {
    match v
    case PersonalInfoValue(_) => PersonalInfoKey
    case EducationValue(_) => EducationKey
    case ExperienceValue(_) => ExperienceKey
    case SkillsValue(_) => SkillsKey
    case ProjectsValue(_) => ProjectsKey
  }

  /** `data[k]`, tagged. */
  function SectionOf(data: ResumeData, k: ResumeSection): (v: SectionValue)
    ensures KeyOf(v) == k
  {
    match k
    case PersonalInfoKey => PersonalInfoValue(data.personalInfo)
    case EducationKey => EducationValue(data.education)
    case ExperienceKey => ExperienceValue(data.experience)
    case SkillsKey => SkillsValue(data.skills)
    case ProjectsKey => ProjectsValue(data.projects)
  }

  /** `{ ...data, [section]: value }`: the named section holds the new value and every other section is unchanged. */
  function WithSection(data: ResumeData, value: SectionValue): (r: ResumeData)
    ensures SectionOf(r, KeyOf(value)) == value
    ensures forall k :: k != KeyOf(value) ==> SectionOf(r, k) == SectionOf(data, k)
  {
    match value
    case PersonalInfoValue(p) => data.(personalInfo := p)
    case EducationValue(e) => data.(education := e)
    case ExperienceValue(e) => data.(experience := e)
    case SkillsValue(s) => data.(skills := s)
    case ProjectsValue(p) => data.(projects := p)
  }

  /** Writing a section back unchanged gives the same record. */
  lemma WithSectionOwnValue(data: ResumeData, k: ResumeSection)
    ensures WithSection(data, SectionOf(data, k)) == data
  {
  }

  /** A later write to the same section overrides an earlier one. */
  lemma WithSectionTwice(data: ResumeData, v: SectionValue, w: SectionValue)
    requires KeyOf(v) == KeyOf(w)
    ensures WithSection(WithSection(data, v), w) == WithSection(data, w)
  {
  }

  /**
   * The `updateLanguages` callback: the skills section becomes `{ ...data.skills, languages: value }`,
   * so the tools list and every other section are kept.
   */
  function WithLanguages(data: ResumeData, value: seq<string>): (r: ResumeData)
    ensures r.skills.languages == value && r.skills.tools == data.skills.tools
    ensures forall k :: k != SkillsKey ==> SectionOf(r, k) == SectionOf(data, k)
  {
    WithSection(data, SkillsValue(data.skills.(languages := value)))
  }

  /** The `updateTools` callback: only `tools` is replaced, the languages are kept. */
  function WithTools(data: ResumeData, value: seq<string>): (r: ResumeData)
    ensures r.skills.tools == value && r.skills.languages == data.skills.languages
    ensures forall k :: k != SkillsKey ==> SectionOf(r, k) == SectionOf(data, k)
  {
    WithSection(data, SkillsValue(data.skills.(tools := value)))
  }

  /** `xs.some(edu => edu.degree)`. */
  function SomeDegree(xs: seq<Education>): (b: bool)
    ensures b <==> exists i :: 0 <= i < |xs| && xs[i].degree != ""
    decreases |xs|
  {
    if |xs| == 0 then false
    else if xs[0].degree != "" then true
    else
      assert forall i :: 1 <= i < |xs| ==> xs[i] == xs[1..][i - 1];
      SomeDegree(xs[1..])
  }

  /** `xs.some(exp => exp.position)`. */
  function SomePosition(xs: seq<Experience>): (b: bool)
    ensures b <==> exists i :: 0 <= i < |xs| && xs[i].position != ""
    decreases |xs|
  {
    if |xs| == 0 then false
    else if xs[0].position != "" then true
    else
      assert forall i :: 1 <= i < |xs| ==> xs[i] == xs[1..][i - 1];
      SomePosition(xs[1..])
  }

  /** `xs.some(proj => proj.title)`. */
  function SomeTitle(xs: seq<Project>): (b: bool)
    ensures b <==> exists i :: 0 <= i < |xs| && xs[i].title != ""
    decreases |xs|
  {
    if |xs| == 0 then false
    else if xs[0].title != "" then true
    else
      assert forall i :: 1 <= i < |xs| ==> xs[i] == xs[1..][i - 1];
      SomeTitle(xs[1..])
  }

  /**
   * `getCompletionStatus`: personal info is complete when both name and email are filled in;
   * skills when either list has an item; each list section when some entry has its key field
   * (degree, position, title) filled in, so an empty list is never complete.
   */
  function CompletionStatus(data: ResumeData, section: ResumeSection): (done: bool)
    ensures section == PersonalInfoKey ==> (done <==> data.personalInfo.name != "" && data.personalInfo.email != "")
    ensures section == SkillsKey ==> (done <==> |data.skills.languages| > 0 || |data.skills.tools| > 0)
    ensures section == EducationKey ==> (done <==> exists i :: 0 <= i < |data.education| && data.education[i].degree != "")
    ensures section == ExperienceKey ==> (done <==> exists i :: 0 <= i < |data.experience| && data.experience[i].position != "")
    ensures section == ProjectsKey ==> (done <==> exists i :: 0 <= i < |data.projects| && data.projects[i].title != "")
  {
    match section
    case PersonalInfoKey => |data.personalInfo.name| > 0 && |data.personalInfo.email| > 0
    case EducationKey => |data.education| > 0 && SomeDegree(data.education)
    case ExperienceKey => |data.experience| > 0 && SomePosition(data.experience)
    case SkillsKey => |data.skills.languages| > 0 || |data.skills.tools| > 0
    case ProjectsKey => |data.projects| > 0 && SomeTitle(data.projects)
  }

  /** A list section with no entries is never marked complete. */
  lemma EmptyListIncomplete(data: ResumeData)
    ensures data.education == [] ==> !CompletionStatus(data, EducationKey)
    ensures data.experience == [] ==> !CompletionStatus(data, ExperienceKey)
    ensures data.projects == [] ==> !CompletionStatus(data, ProjectsKey)
  {
  }

  /** The record a session starts from has no section marked complete. */
  lemma EmptyResumeIncomplete(section: ResumeSection)
    ensures !CompletionStatus(EmptyResumeData(), section)
  {
  }

  /** The order the Previous and Next buttons walk through. */
  const Order: seq<ResumeSection> := [PersonalInfoKey, ExperienceKey, EducationKey, SkillsKey, ProjectsKey]

  /** `s.indexOf(x)`: the first position holding x, or -1. */
  function IndexOf<T(==)>(s: seq<T>, x: T): (r: int)
    ensures r == -1 <==> x !in s
    ensures r >= 0 ==> r < |s| && s[r] == x && x !in s[..r]
    ensures r >= -1
    decreases |s|
  {
    if |s| == 0 then -1
    else if s[0] == x then 0
    else
      var k := IndexOf(s[1..], x);
      if k == -1 then -1
      else
        assert s[..1 + k] == [s[0]] + s[1..][..k];
        1 + k
  }

  /** Every section is in the order, so its position is between 0 and 4. */
  lemma OrderPosition(s: ResumeSection)
    ensures 0 <= IndexOf(Order, s) < |Order| && Order[IndexOf(Order, s)] == s
    ensures IndexOf(Order, s) == 0 <==> s == PersonalInfoKey
    ensures IndexOf(Order, s) == |Order| - 1 <==> s == ProjectsKey
  {
  }

  /** The section Next moves to, and the one Previous moves to. */
  function NextOf(s: ResumeSection): ResumeSection
    requires s != ProjectsKey
  {
    OrderPosition(s);
    Order[IndexOf(Order, s) + 1]
  }

  function PreviousOf(s: ResumeSection): ResumeSection
    requires s != PersonalInfoKey
  {
    OrderPosition(s);
    Order[IndexOf(Order, s) - 1]
  }

  /** Next is always followed by an offered Previous, and Previous undoes it. */
  lemma NextThenPrevious(s: ResumeSection)
    requires s != ProjectsKey
    ensures NextOf(s) != PersonalInfoKey && PreviousOf(NextOf(s)) == s
  {
    OrderPosition(s);
    OrderPosition(NextOf(s));
  }

  /** Previous is always followed by an offered Next, and Next undoes it. */
  lemma PreviousThenNext(s: ResumeSection)
    requires s != PersonalInfoKey
    ensures PreviousOf(s) != ProjectsKey && NextOf(PreviousOf(s)) == s
  {
    OrderPosition(s);
    OrderPosition(PreviousOf(s));
  }

  /**
   * The component's own state, `activeSection` and `savedNotification`, and a log of the
   * records it handed to `onUpdateData` and to `saveToLocalStorage`.
   */
  class ResumeFormState {
    var activeSection: ResumeSection
    var savedNotification: bool
    var updates: seq<ResumeData>
    var saved: seq<ResumeData>

    /** Mounting: the personal-info form is shown first and nothing has been reported yet. */
    constructor ()
      ensures activeSection == PersonalInfoKey && !savedNotification
      ensures updates == [] && saved == []
    {
      activeSection := PersonalInfoKey;
      savedNotification := false;
      updates := [];
      saved := [];
    }

    /**
     * `updateSection(section, value)` on the record `data` the component was rendered with:
     * the same new record goes to `onUpdateData` and to `saveToLocalStorage`, and the saved
     * notification is shown. The active form does not change.
     */
    method UpdateSection(data: ResumeData, value: SectionValue)
      modifies this
      ensures updates == old(updates) + [WithSection(data, value)]
      ensures saved == old(saved) + [WithSection(data, value)]
      ensures updates[|updates| - 1] == saved[|saved| - 1]
      ensures savedNotification && activeSection == old(activeSection)
    {
      var updatedData := WithSection(data, value);
      updates := updates + [updatedData];
      saved := saved + [updatedData];
      savedNotification := true;
    }

    /** A click on one of the five tabs. */
    method Select(section: ResumeSection)
      modifies this`activeSection
      ensures activeSection == section
    {
      activeSection := section;
    }

    /** The Previous button is shown except on the first form. */
    predicate HasPrevious()
      reads this
    {
      activeSection != PersonalInfoKey
    }

    /** The Next button is shown except on the last form. */
    predicate HasNext()
      reads this
    {
      activeSection != ProjectsKey
    }

    /** The Previous button: one step back in the order; only offered when there is a step back. */
    method Previous()
      requires HasPrevious()
      modifies this`activeSection
      ensures IndexOf(Order, activeSection) == IndexOf(Order, old(activeSection)) - 1
      ensures activeSection == PreviousOf(old(activeSection))
    {
      var currentIndex := IndexOf(Order, activeSection);
      OrderPosition(activeSection);
      activeSection := Order[currentIndex - 1];
      OrderPosition(activeSection);
    }

    /** The Next button: one step forward in the order; only offered when there is a step forward. */
    method Next()
      requires HasNext()
      modifies this`activeSection
      ensures IndexOf(Order, activeSection) == IndexOf(Order, old(activeSection)) + 1
      ensures activeSection == NextOf(old(activeSection))
    {
      var currentIndex := IndexOf(Order, activeSection);
      OrderPosition(activeSection);
      activeSection := Order[currentIndex + 1];
      OrderPosition(activeSection);
    }
  }

  /** Pressing Next and then Previous returns to the starting form. */
  method NextThenPreviousReturns(form: ResumeFormState)
    requires form.HasNext()
    modifies form
    ensures form.activeSection == old(form.activeSection)
  {
    ghost var start := form.activeSection;
    form.Next();
    NextThenPrevious(start);
    form.Previous();
  }
}
