/** The CV document: one datatype per record shape of the résumé schema.
    Optional fields of the schema (`endDate?`, `caption?`, `collaborators?`,
    `stats?`, ...) are `Option`s, so that an absent field and an empty string
    stay distinct. */
module CvTypes {

  datatype Option<+T> = None | Some(value: T)

  datatype Location = Location(city: string, country: string)

  datatype Profile = Profile(network: string, url: string)

  /** `labelText` is the schema's `label` (a reserved word in Dafny). */
  datatype Basics = Basics(
    name: string,
    labelText: string,
    email: string,
    summary: string,
    location: Location,
    profiles: seq<Profile>)

  /** A job; the end date is optional, and the themes show an absent or
      empty one as ongoing. */
  datatype Work = Work(
    company: string,
    position: string,
    startDate: string,
    endDate: Option<string>,
    summary: string,
    highlights: seq<string>)

  datatype Education = Education(
    institution: string,
    area: string,
    studyType: string,
    startDate: string,
    endDate: Option<string>)

  datatype Skill = Skill(name: string, level: string, keywords: seq<string>)

  datatype Language = Language(language: string, fluency: string)

  datatype Image = Image(url: string, caption: Option<string>)

  /** The five link kinds a portfolio link may carry. */
  datatype LinkKind = Live | Github | Behance | Dribbble | Other

  datatype Link = Link(kind: LinkKind, url: string, labelText: Option<string>)

  datatype Collaborator = Collaborator(name: string, role: string, url: Option<string>)

  datatype Stats = Stats(views: Option<int>, likes: Option<int>, comments: Option<int>)

  datatype ProcessStep = ProcessStep(title: string, description: string, image: Option<string>)

  datatype PortfolioItem = PortfolioItem(
    title: string,
    description: string,
    category: string,
    date: string,
    coverImage: string,
    images: seq<Image>,
    tools: seq<string>,
    tags: seq<string>,
    links: seq<Link>,
    collaborators: Option<seq<Collaborator>>,
    stats: Option<Stats>,
    featured: bool,
    processSteps: Option<seq<ProcessStep>>)

  /** The whole résumé document. */
  datatype CV = CV(
    basics: Basics,
    work: seq<Work>,
    education: seq<Education>,
    skills: seq<Skill>,
    languages: seq<Language>,
    portfolio: seq<PortfolioItem>)
}
