/** The pure helpers of src/utils/helpers.ts. */
module Helpers {
  import opened Resume

  /**
   * How a non-empty date string is shown ("Mon YYYY" in the source). The source hands it
   * to the platform's Date parser and locale formatter, which this model does not describe,
   * so every function that shows dates takes it as a parameter.
   */
  type LocaleDate = string -> string

  /** `formatDate`: an empty date reads as the open end "Present". */
  function FormatDate(localeDate: LocaleDate, dateString: string): (r: string)
    ensures dateString == "" ==> r == "Present"
    ensures dateString != "" ==> r == localeDate(dateString)
  {
    if dateString == "" then "Present" else localeDate(dateString)
  }

  /** `getEmptyResumeData`: the record a session starts from when nothing was saved. */
  function EmptyResumeData(): (r: ResumeData)
    ensures r.personalInfo == PersonalInfo("", "", "", "", "")
    ensures r.education == [] && r.experience == [] && r.projects == []
    ensures r.skills.languages == [] && r.skills.tools == []
  {
    ResumeData(
      PersonalInfo(name := "", email := "", phone := "", linkedinUrl := "", githubUrl := ""),
      [], [], Skill(languages := [], tools := []), [])
  }
}
