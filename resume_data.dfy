/**
 * The shape of the structured résumé record that grounds the chatbot:
 * identity and contact details, a summary, work experience, projects,
 * skills, education, coursework and the behavioural rules.
 */
module ResumeData {

  datatype Option<T> = None | Some(value: T)

  /** Identity and contact details. */
  datatype Personal = Personal(
    name: string,
    role: string,
    location: string,
    openToRelocate: bool,
    email: string,
    phone: string,
    portfolio: string,
    github: string,
    linkedin: string)

  /** One position held. */
  datatype Experience = Experience(
    company: string,
    role: string,
    duration: string,
    location: string,
    highlights: seq<string>)

  /** One showcased project. */
  datatype Project = Project(
    name: string,
    description: string,
    tech: seq<string>,
    highlights: seq<string>)

  /** Technical skills, in two lists. */
  datatype Skills = Skills(programming: seq<string>, tools: seq<string>)

  /** One education entry; not every entry records a location. */
  datatype Education = Education(
    institution: string,
    degree: string,
    year: string,
    gpa: string,
    location: Option<string>)

  /** The whole record. */
  datatype Resume = Resume(
    personal: Personal,
    summary: string,
    experience: seq<Experience>,
    projects: seq<Project>,
    skills: Skills,
    education: seq<Education>,
    coursework: seq<string>,
    rules: seq<string>)
}
