/** The content editor's data store (`usePortfolioData`): one held snapshot, replaced
    whole by each edit, and the `isSaving` / `saveSuccess` flags around a save. Every
    edit is a pure function of the previous snapshot; the class holds the state and
    each method is specified by those functions. */
module PortfolioStore {
  import opened Types
  import opened SaveData

  // ---------------------------------------------------------------------------
  // The two collection operations every entity shares

  /** `xs.map(x => x.id === id ? f(x) : x)`. */
  function ReplaceMatching<T>(xs: seq<T>, idOf: T -> string, id: string, f: T -> T): (r: seq<T>)
    ensures |r| == |xs|
    ensures forall i | 0 <= i < |xs| :: r[i] == if idOf(xs[i]) == id then f(xs[i]) else xs[i]
  {
    if xs == [] then []
    else [if idOf(xs[0]) == id then f(xs[0]) else xs[0]] + ReplaceMatching(xs[1..], idOf, id, f)
  }

  /** `xs.filter(x => x.id !== id)`. */
  function RemoveMatching<T>(xs: seq<T>, idOf: T -> string, id: string): (r: seq<T>)
    ensures |r| <= |xs|
    ensures forall x | x in r :: x in xs && idOf(x) != id
    ensures forall x | x in xs && idOf(x) != id :: x in r
  {
    if xs == [] then []
    else (if idOf(xs[0]) == id then [] else [xs[0]]) + RemoveMatching(xs[1..], idOf, id)
  }

  /** Some entry carries the id. */
  predicate HasId<T>(xs: seq<T>, idOf: T -> string, id: string) {
    exists i | 0 <= i < |xs| :: idOf(xs[i]) == id
  }

  /** No two entries share an id. */
  predicate UniqueIds<T>(xs: seq<T>, idOf: T -> string) {
    forall i, j | 0 <= i < j < |xs| :: idOf(xs[i]) != idOf(xs[j])
  }

  /** An update for an id no entry carries changes nothing. */
  lemma ReplaceAbsent<T>(xs: seq<T>, idOf: T -> string, id: string, f: T -> T)
    requires !HasId(xs, idOf, id)
    ensures ReplaceMatching(xs, idOf, id, f) == xs
  {
    var r := ReplaceMatching(xs, idOf, id, f);
    assert forall i | 0 <= i < |xs| :: r[i] == xs[i];
  }

  /** A delete for an id no entry carries changes nothing. */
  lemma {:induction false} RemoveAbsent<T>(xs: seq<T>, idOf: T -> string, id: string)
    requires !HasId(xs, idOf, id)
    ensures RemoveMatching(xs, idOf, id) == xs
  {
    if xs != [] {
      assert !HasId(xs[1..], idOf, id) by {
        forall i | 0 <= i < |xs[1..]| ensures idOf(xs[1..][i]) != id {
          assert xs[1..][i] == xs[i + 1];
        }
      }
      RemoveAbsent(xs[1..], idOf, id);
      assert idOf(xs[0]) != id;
      assert [xs[0]] + xs[1..] == xs;
    }
  }

  /** The filter works piece by piece, so the survivors keep their relative order. */
  lemma {:induction false} RemoveConcat<T>(a: seq<T>, b: seq<T>, idOf: T -> string, id: string)
    ensures RemoveMatching(a + b, idOf, id) == RemoveMatching(a, idOf, id) + RemoveMatching(b, idOf, id)
  {
    if a == [] {
      assert a + b == b;
    } else {
      var ab := a + b;
      assert ab[0] == a[0] && ab[1..] == a[1..] + b;
      RemoveConcat(a[1..], b, idOf, id);
      var h := if idOf(a[0]) == id then [] else [a[0]];
      calc {
        RemoveMatching(ab, idOf, id);
        h + RemoveMatching(a[1..] + b, idOf, id);
        h + (RemoveMatching(a[1..], idOf, id) + RemoveMatching(b, idOf, id));
        (h + RemoveMatching(a[1..], idOf, id)) + RemoveMatching(b, idOf, id);
      }
    }
  }

  /** After a delete no entry carries the id, duplicates included, and exactly the
      entries with other ids survive, in their order. */
  lemma RemoveDropsEveryMatch<T>(xs: seq<T>, idOf: T -> string, id: string)
    ensures !HasId(RemoveMatching(xs, idOf, id), idOf, id)
    ensures |RemoveMatching(xs, idOf, id)| < |xs| <==> HasId(xs, idOf, id)
  {
    var r := RemoveMatching(xs, idOf, id);
    assert forall i | 0 <= i < |r| :: r[i] in r;
    if HasId(xs, idOf, id) {
      RemoveShorter(xs, idOf, id);
    } else {
      RemoveAbsent(xs, idOf, id);
    }
  }

  lemma {:induction false} RemoveShorter<T>(xs: seq<T>, idOf: T -> string, id: string)
    requires HasId(xs, idOf, id)
    ensures |RemoveMatching(xs, idOf, id)| < |xs|
  {
    if idOf(xs[0]) != id {
      assert HasId(xs[1..], idOf, id) by {
        var i :| 0 <= i < |xs| && idOf(xs[i]) == id;
        assert xs[1..][i - 1] == xs[i];
      }
      RemoveShorter(xs[1..], idOf, id);
    }
  }

  /** Appending an entry with a fresh id and deleting that id restores the
      collection. */
  lemma AddThenRemove<T>(xs: seq<T>, idOf: T -> string, n: T)
    requires !HasId(xs, idOf, idOf(n))
    ensures RemoveMatching(xs + [n], idOf, idOf(n)) == xs
  {
    RemoveConcat(xs, [n], idOf, idOf(n));
    RemoveAbsent(xs, idOf, idOf(n));
    assert [n][1..] == [];
  }

  /** Appending an entry whose id is fresh keeps ids unique. */
  lemma AppendKeepsUnique<T>(xs: seq<T>, idOf: T -> string, n: T)
    requires UniqueIds(xs, idOf) && !HasId(xs, idOf, idOf(n))
    ensures UniqueIds(xs + [n], idOf)
  {
    var ys := xs + [n];
    forall i, j | 0 <= i < j < |ys| ensures idOf(ys[i]) != idOf(ys[j]) {
      if j == |xs| {
        assert ys[i] == xs[i];
      } else {
        assert ys[i] == xs[i] && ys[j] == xs[j];
      }
    }
  }

  /** An update that keeps each entry's id keeps ids unique. */
  lemma ReplaceKeepsUnique<T>(xs: seq<T>, idOf: T -> string, id: string, f: T -> T)
    requires UniqueIds(xs, idOf)
    requires forall x :: idOf(f(x)) == idOf(x)
    ensures UniqueIds(ReplaceMatching(xs, idOf, id, f), idOf)
  {
  }

  /** A delete keeps ids unique. */
  lemma {:induction false} RemoveKeepsUnique<T>(xs: seq<T>, idOf: T -> string, id: string)
    requires UniqueIds(xs, idOf)
    ensures UniqueIds(RemoveMatching(xs, idOf, id), idOf)
  {
    if xs != [] {
      var t := xs[1..];
      assert UniqueIds(t, idOf) by {
        forall i, j | 0 <= i < j < |t| ensures idOf(t[i]) != idOf(t[j]) {
          assert t[i] == xs[i + 1] && t[j] == xs[j + 1];
        }
      }
      RemoveKeepsUnique(t, idOf, id);
      var rt := RemoveMatching(t, idOf, id);
      if idOf(xs[0]) != id {
        var r := [xs[0]] + rt;
        forall i, j | 0 <= i < j < |r| ensures idOf(r[i]) != idOf(r[j]) {
          if i == 0 {
            assert r[j] in rt;
            assert r[j] in t;
            var k :| 0 <= k < |t| && t[k] == r[j];
            assert t[k] == xs[k + 1];
          } else {
            assert r[i] == rt[i - 1] && r[j] == rt[j - 1];
          }
        }
      }
    }
  }

  // ---------------------------------------------------------------------------
  // Partial records: `Partial<Project>` and friends. A required field is either
  // left alone or replaced; an optional one may also be replaced by `undefined`.

  datatype ProjectPatch = ProjectPatch(
    id: Option<string>,
    title: Option<string>,
    description: Option<string>,
    longDescription: Option<Option<string>>,
    modalContent: Option<Option<string>>,
    technologies: Option<seq<string>>,
    githubUrl: Option<Option<string>>,
    liveUrl: Option<Option<string>>,
    websiteUrl: Option<Option<string>>,
    steamUrl: Option<Option<string>>,
    imageUrl: Option<Option<string>>,
    featured: Option<bool>)

  datatype ExperiencePatch = ExperiencePatch(
    id: Option<string>,
    title: Option<string>,
    company: Option<string>,
    location: Option<string>,
    startDate: Option<string>,
    endDate: Option<Option<string>>,
    description: Option<string>,
    detailedDescription: Option<Option<string>>,
    logoUrl: Option<Option<string>>,
    technologies: Option<seq<string>>)

  datatype SkillPatch = SkillPatch(
    id: Option<string>,
    name: Option<string>,
    category: Option<Category>,
    level: Option<int>)

  const EmptyProjectPatch := ProjectPatch(None, None, None, None, None, None, None, None, None, None, None, None)
  const EmptyExperiencePatch := ExperiencePatch(None, None, None, None, None, None, None, None, None, None)
  const EmptySkillPatch := SkillPatch(None, None, None, None)

  /** The patch's value where it has one, the old value elsewhere. */
  function Over<V>(o: Option<V>, old_: V): V {
    if o.Some? then o.value else old_
  }

  /** `{ ...p, ...updates }`. */
  function MergeProject(p: Project, u: ProjectPatch): Project {
    Project(
      Over(u.id, p.id), Over(u.title, p.title), Over(u.description, p.description),
      Over(u.longDescription, p.longDescription), Over(u.modalContent, p.modalContent),
      Over(u.technologies, p.technologies),
      Over(u.githubUrl, p.githubUrl), Over(u.liveUrl, p.liveUrl), Over(u.websiteUrl, p.websiteUrl),
      Over(u.steamUrl, p.steamUrl), Over(u.imageUrl, p.imageUrl), Over(u.featured, p.featured))
  }

  /** `{ ...e, ...updates }`. */
  function MergeExperience(e: Experience, u: ExperiencePatch): Experience {
    Experience(
      Over(u.id, e.id), Over(u.title, e.title), Over(u.company, e.company), Over(u.location, e.location),
      Over(u.startDate, e.startDate), Over(u.endDate, e.endDate), Over(u.description, e.description),
      Over(u.detailedDescription, e.detailedDescription), Over(u.logoUrl, e.logoUrl),
      Over(u.technologies, e.technologies))
  }

  /** `{ ...s, ...updates }`. */
  function MergeSkill(s: Skill, u: SkillPatch): Skill {
    Skill(Over(u.id, s.id), Over(u.name, s.name), Over(u.category, s.category), Over(u.level, s.level))
  }

  /** The empty patch changes nothing, a patch that carries one field changes only
      that field, and merging the same patch twice is merging it once. */
  lemma ProjectMergeIsShallow(p: Project, u: ProjectPatch, title: string, technologies: seq<string>, featured: bool)
    ensures MergeProject(p, EmptyProjectPatch) == p
    ensures MergeProject(p, EmptyProjectPatch.(title := Some(title))) == p.(title := title)
    ensures MergeProject(p, EmptyProjectPatch.(technologies := Some(technologies))) == p.(technologies := technologies)
    ensures MergeProject(p, EmptyProjectPatch.(featured := Some(featured))) == p.(featured := featured)
    ensures MergeProject(p, EmptyProjectPatch.(liveUrl := Some(None))) == p.(liveUrl := None)
    ensures MergeProject(MergeProject(p, u), u) == MergeProject(p, u)
    ensures u.id.None? ==> MergeProject(p, u).id == p.id
  {
  }

  lemma ExperienceMergeIsShallow(e: Experience, u: ExperiencePatch, endDate: Option<string>)
    ensures MergeExperience(e, EmptyExperiencePatch) == e
    ensures MergeExperience(e, EmptyExperiencePatch.(endDate := Some(endDate))) == e.(endDate := endDate)
    ensures MergeExperience(MergeExperience(e, u), u) == MergeExperience(e, u)
    ensures u.id.None? ==> MergeExperience(e, u).id == e.id
  {
  }

  lemma SkillMergeIsShallow(s: Skill, u: SkillPatch, level: int)
    ensures MergeSkill(s, EmptySkillPatch) == s
    ensures MergeSkill(s, EmptySkillPatch.(level := Some(level))) == s.(level := level)
    ensures MergeSkill(MergeSkill(s, u), u) == MergeSkill(s, u)
    ensures u.id.None? ==> MergeSkill(s, u).id == s.id
  {
  }

  // ---------------------------------------------------------------------------
  // The edits, as functions of the previous snapshot

  function ProjectId(p: Project): string { p.id }
  function ExperienceId(e: Experience): string { e.id }
  function SkillId(s: Skill): string { s.id }

  /** The entry `addProject` appends; `id` stands for `Date.now().toString()`. */
  function NewProject(id: string): Project {
    Project(id, "New Project", "Project description", None, None, [], None, None, None, None, None, false)
  }

  function NewExperience(id: string): Experience {
    Experience(id, "New Position", "Company Name", "Location", "", None, "Job description", None, None, [])
  }

  function NewSkill(id: string): Skill {
    Skill(id, "New Skill", Frontend, 1)
  }

  function AddProject(d: PortfolioData, id: string): PortfolioData {
    d.(projects := d.projects + [NewProject(id)])
  }

  function UpdateProject(d: PortfolioData, id: string, u: ProjectPatch): PortfolioData {
    d.(projects := ReplaceMatching(d.projects, ProjectId, id, p => MergeProject(p, u)))
  }

  function DeleteProject(d: PortfolioData, id: string): PortfolioData {
    d.(projects := RemoveMatching(d.projects, ProjectId, id))
  }

  function AddExperience(d: PortfolioData, id: string): PortfolioData {
    d.(experience := d.experience + [NewExperience(id)])
  }

  function UpdateExperience(d: PortfolioData, id: string, u: ExperiencePatch): PortfolioData {
    d.(experience := ReplaceMatching(d.experience, ExperienceId, id, e => MergeExperience(e, u)))
  }

  function DeleteExperience(d: PortfolioData, id: string): PortfolioData {
    d.(experience := RemoveMatching(d.experience, ExperienceId, id))
  }

  function AddSkill(d: PortfolioData, id: string): PortfolioData {
    d.(skills := d.skills + [NewSkill(id)])
  }

  function UpdateSkill(d: PortfolioData, id: string, u: SkillPatch): PortfolioData {
    d.(skills := ReplaceMatching(d.skills, SkillId, id, s => MergeSkill(s, u)))
  }

  function DeleteSkill(d: PortfolioData, id: string): PortfolioData {
    d.(skills := RemoveMatching(d.skills, SkillId, id))
  }

  /** The keys `updatePersonalInfo` is called with. */
  datatype PersonalField = Name | Title | Bio | Location | Email | Github | Linkedin | Twitter | Website | ResumeUrl

  /** `{ ...info, [field]: value }`. */
  function SetPersonalField(info: PersonalInfo, field: PersonalField, value: string): PersonalInfo {
    match field
    case Name => info.(name := value)
    case Title => info.(title := value)
    case Bio => info.(bio := value)
    case Location => info.(location := value)
    case Email => info.(email := value)
    case Github => info.(github := Some(value))
    case Linkedin => info.(linkedin := Some(value))
    case Twitter => info.(twitter := Some(value))
    case Website => info.(website := Some(value))
    case ResumeUrl => info.(resumeUrl := Some(value))
  }

  /** The value a field holds, as the object's property read sees it. */
  function GetPersonalField(info: PersonalInfo, field: PersonalField): Option<string> {
    match field
    case Name => Some(info.name)
    case Title => Some(info.title)
    case Bio => Some(info.bio)
    case Location => Some(info.location)
    case Email => Some(info.email)
    case Github => info.github
    case Linkedin => info.linkedin
    case Twitter => info.twitter
    case Website => info.website
    case ResumeUrl => info.resumeUrl
  }

  function UpdatePersonalInfo(d: PortfolioData, field: PersonalField, value: string): PortfolioData {
    d.(personalInfo := SetPersonalField(d.personalInfo, field, value))
  }

  // ---------------------------------------------------------------------------
  // What the edits promise

  /** `updatePersonalInfo` sets the one field and leaves every other field and all
      three collections as they were. */
  lemma PersonalInfoSetsOneField(d: PortfolioData, field: PersonalField, value: string)
    ensures var r := UpdatePersonalInfo(d, field, value);
      && GetPersonalField(r.personalInfo, field) == Some(value)
      && (forall g: PersonalField | g != field ::
            GetPersonalField(r.personalInfo, g) == GetPersonalField(d.personalInfo, g))
      && r.projects == d.projects && r.experience == d.experience && r.skills == d.skills
  {
  }

  /** A personal-info record is determined by the values of its ten fields. */
  lemma PersonalFieldsDetermineInfo(a: PersonalInfo, b: PersonalInfo)
    requires forall g: PersonalField :: GetPersonalField(a, g) == GetPersonalField(b, g)
    ensures a == b
  {
    assert GetPersonalField(a, Name) == GetPersonalField(b, Name);
    assert GetPersonalField(a, Title) == GetPersonalField(b, Title);
    assert GetPersonalField(a, Bio) == GetPersonalField(b, Bio);
    assert GetPersonalField(a, Location) == GetPersonalField(b, Location);
    assert GetPersonalField(a, Email) == GetPersonalField(b, Email);
    assert GetPersonalField(a, Github) == GetPersonalField(b, Github);
    assert GetPersonalField(a, Linkedin) == GetPersonalField(b, Linkedin);
    assert GetPersonalField(a, Twitter) == GetPersonalField(b, Twitter);
    assert GetPersonalField(a, Website) == GetPersonalField(b, Website);
    assert GetPersonalField(a, ResumeUrl) == GetPersonalField(b, ResumeUrl);
  }

  /** `addProject` appends exactly one default project at the end; everything else
      in the snapshot stays. */
  lemma AddProjectAppends(d: PortfolioData, id: string)
    ensures var r := AddProject(d, id);
      && |r.projects| == |d.projects| + 1
      && r.projects[..|d.projects|] == d.projects
      && r.projects[|d.projects|] == NewProject(id)
      && r.projects[|d.projects|].technologies == [] && !r.projects[|d.projects|].featured
      && r.personalInfo == d.personalInfo && r.experience == d.experience && r.skills == d.skills
  {
    assert AddProject(d, id).projects[..|d.projects|] == d.projects;
  }

  /** `addExperience` appends a current position with no start date yet. */
  lemma AddExperienceAppends(d: PortfolioData, id: string)
    ensures var r := AddExperience(d, id);
      && |r.experience| == |d.experience| + 1
      && r.experience[..|d.experience|] == d.experience
      && r.experience[|d.experience|].id == id
      && r.experience[|d.experience|].startDate == "" && r.experience[|d.experience|].endDate.None?
      && r.personalInfo == d.personalInfo && r.projects == d.projects && r.skills == d.skills
  {
    assert AddExperience(d, id).experience[..|d.experience|] == d.experience;
  }

  /** `addSkill` appends a level-1 frontend skill. */
  lemma AddSkillAppends(d: PortfolioData, id: string)
    ensures var r := AddSkill(d, id);
      && |r.skills| == |d.skills| + 1
      && r.skills[..|d.skills|] == d.skills
      && r.skills[|d.skills|].id == id
      && r.skills[|d.skills|].category == Frontend && r.skills[|d.skills|].level == 1
      && r.personalInfo == d.personalInfo && r.projects == d.projects && r.experience == d.experience
  {
    assert AddSkill(d, id).skills[..|d.skills|] == d.skills;
  }

  /** An update keeps the number of projects, merges the patch into every project
      with the id, and leaves every other project and the rest of the snapshot as
      they were; for an id no project has, the snapshot is unchanged. */
  lemma UpdateProjectEffect(d: PortfolioData, id: string, u: ProjectPatch)
    ensures var r := UpdateProject(d, id, u);
      && |r.projects| == |d.projects|
      && (forall i | 0 <= i < |d.projects| && d.projects[i].id == id :: r.projects[i] == MergeProject(d.projects[i], u))
      && (forall i | 0 <= i < |d.projects| && d.projects[i].id != id :: r.projects[i] == d.projects[i])
      && r.personalInfo == d.personalInfo && r.experience == d.experience && r.skills == d.skills
    ensures !HasId(d.projects, ProjectId, id) ==> UpdateProject(d, id, u) == d
  {
    if !HasId(d.projects, ProjectId, id) {
      ReplaceAbsent(d.projects, ProjectId, id, p => MergeProject(p, u));
    }
  }

  lemma UpdateExperienceEffect(d: PortfolioData, id: string, u: ExperiencePatch)
    ensures var r := UpdateExperience(d, id, u);
      && |r.experience| == |d.experience|
      && (forall i | 0 <= i < |d.experience| && d.experience[i].id == id ::
            r.experience[i] == MergeExperience(d.experience[i], u))
      && (forall i | 0 <= i < |d.experience| && d.experience[i].id != id :: r.experience[i] == d.experience[i])
      && r.personalInfo == d.personalInfo && r.projects == d.projects && r.skills == d.skills
    ensures !HasId(d.experience, ExperienceId, id) ==> UpdateExperience(d, id, u) == d
  {
    if !HasId(d.experience, ExperienceId, id) {
      ReplaceAbsent(d.experience, ExperienceId, id, e => MergeExperience(e, u));
    }
  }

  lemma UpdateSkillEffect(d: PortfolioData, id: string, u: SkillPatch)
    ensures var r := UpdateSkill(d, id, u);
      && |r.skills| == |d.skills|
      && (forall i | 0 <= i < |d.skills| && d.skills[i].id == id :: r.skills[i] == MergeSkill(d.skills[i], u))
      && (forall i | 0 <= i < |d.skills| && d.skills[i].id != id :: r.skills[i] == d.skills[i])
      && r.personalInfo == d.personalInfo && r.projects == d.projects && r.experience == d.experience
    ensures !HasId(d.skills, SkillId, id) ==> UpdateSkill(d, id, u) == d
  {
    if !HasId(d.skills, SkillId, id) {
      ReplaceAbsent(d.skills, SkillId, id, s => MergeSkill(s, u));
    }
  }

  /** A delete removes every project with the id, duplicates included, keeps the
      others in order, and touches nothing else; for an id no project has, the
      snapshot is unchanged. */
  lemma DeleteProjectEffect(d: PortfolioData, id: string, other: seq<Project>)
    ensures var r := DeleteProject(d, id);
      && !HasId(r.projects, ProjectId, id)
      && (forall p | p in d.projects && p.id != id :: p in r.projects)
      && (forall p | p in r.projects :: p in d.projects)
      && r.personalInfo == d.personalInfo && r.experience == d.experience && r.skills == d.skills
    ensures DeleteProject(d.(projects := d.projects + other), id).projects
      == DeleteProject(d, id).projects + RemoveMatching(other, ProjectId, id)
    ensures !HasId(d.projects, ProjectId, id) ==> DeleteProject(d, id) == d
  {
    RemoveDropsEveryMatch(d.projects, ProjectId, id);
    RemoveConcat(d.projects, other, ProjectId, id);
    if !HasId(d.projects, ProjectId, id) {
      RemoveAbsent(d.projects, ProjectId, id);
    }
  }

  lemma DeleteExperienceEffect(d: PortfolioData, id: string, other: seq<Experience>)
    ensures var r := DeleteExperience(d, id);
      && !HasId(r.experience, ExperienceId, id)
      && (forall e | e in d.experience && e.id != id :: e in r.experience)
      && (forall e | e in r.experience :: e in d.experience)
      && r.personalInfo == d.personalInfo && r.projects == d.projects && r.skills == d.skills
    ensures DeleteExperience(d.(experience := d.experience + other), id).experience
      == DeleteExperience(d, id).experience + RemoveMatching(other, ExperienceId, id)
    ensures !HasId(d.experience, ExperienceId, id) ==> DeleteExperience(d, id) == d
  {
    RemoveDropsEveryMatch(d.experience, ExperienceId, id);
    RemoveConcat(d.experience, other, ExperienceId, id);
    if !HasId(d.experience, ExperienceId, id) {
      RemoveAbsent(d.experience, ExperienceId, id);
    }
  }

  lemma DeleteSkillEffect(d: PortfolioData, id: string, other: seq<Skill>)
    ensures var r := DeleteSkill(d, id);
      && !HasId(r.skills, SkillId, id)
      && (forall s | s in d.skills && s.id != id :: s in r.skills)
      && (forall s | s in r.skills :: s in d.skills)
      && r.personalInfo == d.personalInfo && r.projects == d.projects && r.experience == d.experience
    ensures DeleteSkill(d.(skills := d.skills + other), id).skills
      == DeleteSkill(d, id).skills + RemoveMatching(other, SkillId, id)
    ensures !HasId(d.skills, SkillId, id) ==> DeleteSkill(d, id) == d
  {
    RemoveDropsEveryMatch(d.skills, SkillId, id);
    RemoveConcat(d.skills, other, SkillId, id);
    if !HasId(d.skills, SkillId, id) {
      RemoveAbsent(d.skills, SkillId, id);
    }
  }

  /** Adding an entry and deleting its id gives back the snapshot, for each of the
      three collections, when the id was not in use. */
  lemma AddThenDeleteRestores(d: PortfolioData, id: string)
    ensures !HasId(d.projects, ProjectId, id) ==> DeleteProject(AddProject(d, id), id) == d
    ensures !HasId(d.experience, ExperienceId, id) ==> DeleteExperience(AddExperience(d, id), id) == d
    ensures !HasId(d.skills, SkillId, id) ==> DeleteSkill(AddSkill(d, id), id) == d
  {
    if !HasId(d.projects, ProjectId, id) {
      AddThenRemove(d.projects, ProjectId, NewProject(id));
    }
    if !HasId(d.experience, ExperienceId, id) {
      AddThenRemove(d.experience, ExperienceId, NewExperience(id));
    }
    if !HasId(d.skills, SkillId, id) {
      AddThenRemove(d.skills, SkillId, NewSkill(id));
    }
  }

  /** Unique ids within each collection. */
  predicate WellKeyed(d: PortfolioData) {
    && UniqueIds(d.projects, ProjectId)
    && UniqueIds(d.experience, ExperienceId)
    && UniqueIds(d.skills, SkillId)
  }

  /** Every edit keeps ids unique, given a fresh id for an add and a patch that
      leaves ids alone for an update. */
  lemma EditsKeepIdsUnique(d: PortfolioData, id: string, target: string,
                           pu: ProjectPatch, eu: ExperiencePatch, su: SkillPatch,
                           field: PersonalField, value: string)
    requires WellKeyed(d)
    requires pu.id.None? && eu.id.None? && su.id.None?
    ensures !HasId(d.projects, ProjectId, id) ==> WellKeyed(AddProject(d, id))
    ensures !HasId(d.experience, ExperienceId, id) ==> WellKeyed(AddExperience(d, id))
    ensures !HasId(d.skills, SkillId, id) ==> WellKeyed(AddSkill(d, id))
    ensures WellKeyed(UpdateProject(d, target, pu))
    ensures WellKeyed(UpdateExperience(d, target, eu))
    ensures WellKeyed(UpdateSkill(d, target, su))
    ensures WellKeyed(DeleteProject(d, target))
    ensures WellKeyed(DeleteExperience(d, target))
    ensures WellKeyed(DeleteSkill(d, target))
    ensures WellKeyed(UpdatePersonalInfo(d, field, value))
  {
    if !HasId(d.projects, ProjectId, id) {
      AppendKeepsUnique(d.projects, ProjectId, NewProject(id));
    }
    if !HasId(d.experience, ExperienceId, id) {
      AppendKeepsUnique(d.experience, ExperienceId, NewExperience(id));
    }
    if !HasId(d.skills, SkillId, id) {
      AppendKeepsUnique(d.skills, SkillId, NewSkill(id));
    }
    ReplaceKeepsUnique(d.projects, ProjectId, target, p => MergeProject(p, pu));
    ReplaceKeepsUnique(d.experience, ExperienceId, target, e => MergeExperience(e, eu));
    ReplaceKeepsUnique(d.skills, SkillId, target, s => MergeSkill(s, su));
    RemoveKeepsUnique(d.projects, ProjectId, target);
    RemoveKeepsUnique(d.experience, ExperienceId, target);
    RemoveKeepsUnique(d.skills, SkillId, target);
  }

  /** Two adds in the same clock tick produce two entries with one id, and a
      single delete then removes both. */
  lemma CollidingIdsDeletedTogether(d: PortfolioData, id: string)
    requires !HasId(d.projects, ProjectId, id)
    ensures |AddProject(AddProject(d, id), id).projects| == |d.projects| + 2
    ensures !WellKeyed(AddProject(AddProject(d, id), id))
    ensures DeleteProject(AddProject(AddProject(d, id), id), id) == d
  {
    var twice := AddProject(AddProject(d, id), id);
    assert twice.projects == d.projects + [NewProject(id), NewProject(id)];
    var n := |d.projects|;
    assert twice.projects[n].id == twice.projects[n + 1].id;
    RemoveConcat(d.projects, [NewProject(id), NewProject(id)], ProjectId, id);
    RemoveAbsent(d.projects, ProjectId, id);
    assert [NewProject(id), NewProject(id)][1..] == [NewProject(id)];
    assert [NewProject(id)][1..] == [];
  }

  // ---------------------------------------------------------------------------
  // The hook's held state

  /** What the persistence step reported: the helper process wrote the file; it was
      unreachable or answered with a non-ok status, and the text went to the
      clipboard; or the clipboard write threw as well. */
  datatype SaveOutcome = SavedToFile | CopiedToClipboard | Failed

  /** The hook: the held snapshot and the two save flags. `pendingReverts` counts the
      3000 ms timers that will clear `saveSuccess`; `inFlight` counts saves awaiting
      the persistence step. */
  class PortfolioEditor {
    var data: PortfolioData
    var isSaving: bool
    var saveSuccess: bool
    var pendingReverts: nat
    var inFlight: nat

    constructor (initialData: PortfolioData)
      ensures data == initialData && !isSaving && !saveSuccess
      ensures pendingReverts == 0 && inFlight == 0
    {
      data := initialData;
      isSaving := false;
      saveSuccess := false;
      pendingReverts := 0;
      inFlight := 0;
    }

    method SetPersonalInfo(field: PersonalField, value: string)
      modifies this`data
      ensures data == UpdatePersonalInfo(old(data), field, value)
    {
      data := data.(personalInfo := SetPersonalField(data.personalInfo, field, value));
    }

    /** `newId` stands for the clock reading the source turns into the id. */
    method AddProjectEntry(newId: string)
      modifies this`data
      ensures data == AddProject(old(data), newId)
    {
      data := data.(projects := data.projects + [NewProject(newId)]);
    }

    method UpdateProjectEntry(id: string, u: ProjectPatch)
      modifies this`data
      ensures data == UpdateProject(old(data), id, u)
    {
      data := UpdateProject(data, id, u);
    }

    method DeleteProjectEntry(id: string)
      modifies this`data
      ensures data == DeleteProject(old(data), id)
    {
      data := DeleteProject(data, id);
    }

    method AddExperienceEntry(newId: string)
      modifies this`data
      ensures data == AddExperience(old(data), newId)
    {
      data := data.(experience := data.experience + [NewExperience(newId)]);
    }

    method UpdateExperienceEntry(id: string, u: ExperiencePatch)
      modifies this`data
      ensures data == UpdateExperience(old(data), id, u)
    {
      data := UpdateExperience(data, id, u);
    }

    method DeleteExperienceEntry(id: string)
      modifies this`data
      ensures data == DeleteExperience(old(data), id)
    {
      data := DeleteExperience(data, id);
    }

    method AddSkillEntry(newId: string)
      modifies this`data
      ensures data == AddSkill(old(data), newId)
    {
      data := data.(skills := data.skills + [NewSkill(newId)]);
    }

    method UpdateSkillEntry(id: string, u: SkillPatch)
      modifies this`data
      ensures data == UpdateSkill(old(data), id, u)
    {
      data := UpdateSkill(data, id, u);
    }

    method DeleteSkillEntry(id: string)
      modifies this`data
      ensures data == DeleteSkill(old(data), id)
    {
      data := DeleteSkill(data, id);
    }

    /** The first half of `saveData`, up to the `await`: the flag goes up and the
        snapshot held now is printed and handed to the persistence step. */
    method BeginSave() returns (text: string)
      modifies this`isSaving, this`inFlight
      ensures isSaving && inFlight == old(inFlight) + 1
      ensures text == FormatPortfolioData(data)
    {
      isSaving := true;
      inFlight := inFlight + 1;
      text := FormatPortfolioData(data);
    }

    /** The second half, once the persistence step has settled: only a file save
        raises `saveSuccess` (and starts its revert timer); the clipboard and the
        failure paths leave it alone; on every path the saving flag comes down. */
    method FinishSave(outcome: SaveOutcome)
      requires inFlight > 0
      modifies this`isSaving, this`saveSuccess, this`pendingReverts, this`inFlight
      ensures !isSaving && inFlight == old(inFlight) - 1
      ensures outcome == SavedToFile ==> saveSuccess && pendingReverts == old(pendingReverts) + 1
      ensures outcome != SavedToFile ==> saveSuccess == old(saveSuccess) && pendingReverts == old(pendingReverts)
    {
      if outcome == SavedToFile {
        saveSuccess := true;
        pendingReverts := pendingReverts + 1;
      }
      isSaving := false;
      inFlight := inFlight - 1;
    }

    /** A 3000 ms timer started by a file save fires. */
    method RevertTimerFires()
      requires pendingReverts > 0
      modifies this`saveSuccess, this`pendingReverts
      ensures !saveSuccess && pendingReverts == old(pendingReverts) - 1
    {
      saveSuccess := false;
      pendingReverts := pendingReverts - 1;
    }
  }

  /** A whole save that writes the file: success shows right after it settles and is
      gone once the timer fires, and the snapshot is what was printed. */
  method SaveToFileThenRevert(editor: PortfolioEditor) returns (text: string)
    modifies editor
    ensures text == FormatPortfolioData(editor.data)
    ensures !editor.isSaving && !editor.saveSuccess
    ensures editor.data == old(editor.data)
  {
    text := editor.BeginSave();
    editor.FinishSave(SavedToFile);
    assert editor.saveSuccess;
    editor.RevertTimerFires();
  }
}
