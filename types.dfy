/** The record shapes of the portfolio content: a closed category set for skills,
    optional fields as `Option`, and the aggregate snapshot `PortfolioData`. */
module Types {

  /** A TypeScript optional field (`name?: T`): absent, or present with a value. */
  datatype Option<+T> = None | Some(value: T) {
    predicate IsFailure() { None? }

    function PropagateFailure<U>(): Option<U>
      requires None?
    {
      None
    }

    function Extract(): T
      requires Some?
    {
      value
    }
  }

  /** The five skill categories of the string-literal union. */
  datatype Category = Frontend | Backend | Database | Tools | Other

  /** The string tag each category is written as. */
  function CategoryTag(c: Category): string {
    match c
    case Frontend => "frontend"
    case Backend => "backend"
    case Database => "database"
    case Tools => "tools"
    case Other => "other"
  }

  /** Reads a tag back; any string outside the union is refused. */
  function CategoryOfTag(tag: string): (r: Option<Category>)
    ensures r.Some? ==> CategoryTag(r.value) == tag
  {
    if tag == "frontend" then Some(Frontend)
    else if tag == "backend" then Some(Backend)
    else if tag == "database" then Some(Database)
    else if tag == "tools" then Some(Tools)
    else if tag == "other" then Some(Other)
    else None
  }

  /** Every category is exactly one of the five tags, and its tag reads back as itself. */
  lemma CategoryTagRoundTrip(c: Category)
    ensures CategoryOfTag(CategoryTag(c)) == Some(c)
    ensures CategoryTag(c) in ["frontend", "backend", "database", "tools", "other"]
  {
  }

  datatype Project = Project(
    id: string,
    title: string,
    description: string,
    longDescription: Option<string>,
    modalContent: Option<string>,
    technologies: seq<string>,
    githubUrl: Option<string>,
    liveUrl: Option<string>,
    websiteUrl: Option<string>,
    steamUrl: Option<string>,
    imageUrl: Option<string>,
    featured: bool)

  /** `endDate` absent means the position is current. */
  datatype Experience = Experience(
    id: string,
    title: string,
    company: string,
    location: string,
    startDate: string,
    endDate: Option<string>,
    description: string,
    detailedDescription: Option<string>,
    logoUrl: Option<string>,
    technologies: seq<string>)

  /** `level` is a plain number: values outside the level table are representable. */
  datatype Skill = Skill(id: string, name: string, category: Category, level: int)

  datatype PersonalInfo = PersonalInfo(
    name: string,
    title: string,
    bio: string,
    location: string,
    email: string,
    github: Option<string>,
    linkedin: Option<string>,
    twitter: Option<string>,
    website: Option<string>,
    resumeUrl: Option<string>)

  datatype PortfolioData = PortfolioData(
    personalInfo: PersonalInfo,
    projects: seq<Project>,
    experience: seq<Experience>,
    skills: seq<Skill>)
}
