/**
 * The resume record the editor keeps and the on-screen PDF document renders
 * (src/types/resume.ts). Every field is a string, "" meaning "not entered".
 *
 * Experience and project entries are generic in how their `points` list is held: the
 * record value uses `seq<string>`; the form components hold the same entries with the
 * points as a shared JavaScript array object (see the form modules).
 */
module Resume {

  datatype Education = Education(
    id: string,
    institution: string,
    degree: string,
    location: string,
    cgpa: string,
    startYear: string,
    endYear: string)

  datatype ExperienceOf<P> = ExperienceOf(
    id: string,
    company: string,
    companyUrl: string,
    position: string,
    location: string,
    startYear: string,
    endYear: string,
    points: P)

  type Experience = ExperienceOf<seq<string>>

  datatype Skill = Skill(languages: seq<string>, tools: seq<string>)

  datatype ProjectOf<P> = ProjectOf(
    id: string,
    title: string,
    points: P,
    technologies: string,
    liveUrl: string)

  type Project = ProjectOf<seq<string>>

  datatype PersonalInfo = PersonalInfo(
    name: string,
    email: string,
    phone: string,
    linkedinUrl: string,
    githubUrl: string)

  datatype ResumeData = ResumeData(
    personalInfo: PersonalInfo,
    education: seq<Education>,
    experience: seq<Experience>,
    skills: Skill,
    projects: seq<Project>)

  /** The keys of ResumeData: `ResumeSection` in the source. */
  datatype ResumeSection = PersonalInfoKey | EducationKey | ExperienceKey | SkillsKey | ProjectsKey
}
