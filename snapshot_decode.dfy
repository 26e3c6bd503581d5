/** From a read value back to the portfolio records: fields are looked up by name,
    absent optional fields come back absent, and any value of the wrong shape is
    refused. Together with the reader this says what the printed snapshot module
    means: reading it back gives the snapshot that was printed. */
module SnapshotDecode {
  import opened Types
  import opened Text
  import opened SaveData
  import opened SnapshotReader

  // ---------------------------------------------------------------------------
  // Looking up object entries

  /** The value of the first entry named `key`, as property access on an object
      literal sees it when the keys are distinct. */
  function Lookup(es: seq<Member>, key: string): (r: Option<Value>)
    ensures r.None? <==> forall i | 0 <= i < |es| :: es[i].key != key
    ensures r.Some? ==> exists i | 0 <= i < |es| ::
      es[i].key == key && es[i].val == r.value && forall j | 0 <= j < i :: es[j].key != key
  {
    if es == [] then None
    else if es[0].key == key then Some(es[0].val)
    else
      var r := Lookup(es[1..], key);
      assert forall j | 1 <= j < |es| :: es[j] == es[1..][j - 1];
      r
  }

  predicate DistinctKeys(es: seq<Member>) {
    forall i, j | 0 <= i < j < |es| :: es[i].key != es[j].key
  }

  /** With distinct keys, every entry is found under its own key. */
  lemma LookupAt(es: seq<Member>, j: int)
    requires DistinctKeys(es) && 0 <= j < |es|
    ensures Lookup(es, es[j].key) == Some(es[j].val)
  {
    var r := Lookup(es, es[j].key);
    var i :| 0 <= i < |es| && es[i].key == es[j].key && es[i].val == r.value
      && forall k | 0 <= k < i :: es[k].key != es[j].key;
    assert i == j;
  }

  /** What an entry becomes once the value is read back: an undefined one is gone,
      any other is normalized. */
  function NormOpt(o: Option<Value>): (r: Option<Value>)
    ensures r.Some? <==> o.Some? && !o.value.Undef?
  {
    if o.None? || o.value.Undef? then None else Some(Normalize(o.value))
  }

  /** The normalized entries of an object: the first entry, unless undefined, then
      the normalized rest. */
  lemma NormalizedCons(es: seq<Member>)
    requires es != []
    ensures Normalize(Obj(es)).entries
      == (if es[0].val.Undef? then [] else [Member(es[0].key, Normalize(es[0].val))])
         + Normalize(Obj(es[1..])).entries
  {
    var d := Defined(es);
    var dt := Defined(es[1..]);
    assert d == (if es[0].val.Undef? then [] else [es[0]]) + dt;
  }

  lemma DistinctTail(es: seq<Member>)
    requires DistinctKeys(es) && es != []
    ensures DistinctKeys(es[1..])
    ensures forall i | 0 <= i < |es[1..]| :: es[1..][i].key != es[0].key
  {
    var tl := es[1..];
    forall i, j | 0 <= i < j < |tl| ensures tl[i].key != tl[j].key {
      assert tl[i] == es[i + 1] && tl[j] == es[j + 1];
    }
    forall i | 0 <= i < |tl| ensures tl[i].key != es[0].key {
      assert tl[i] == es[i + 1];
    }
  }

  lemma LookupCons(h: Member, t: seq<Member>, key: string)
    ensures Lookup([h] + t, key) == if h.key == key then Some(h.val) else Lookup(t, key)
  {
    assert ([h] + t)[0] == h && ([h] + t)[1..] == t;
  }

  /** Looking a key up after normalizing is normalizing what the lookup found. */
  lemma {:induction false} LookupNormalized(es: seq<Member>, key: string)
    requires DistinctKeys(es)
    ensures Lookup(Normalize(Obj(es)).entries, key) == NormOpt(Lookup(es, key))
  {
    if es != [] {
      var tl := es[1..];
      DistinctTail(es);
      NormalizedCons(es);
      LookupNormalized(tl, key);
      var nt := Normalize(Obj(tl)).entries;
      assert Lookup(es, key) == if es[0].key == key then Some(es[0].val) else Lookup(tl, key);
      if !es[0].val.Undef? {
        LookupCons(Member(es[0].key, Normalize(es[0].val)), nt, key);
      } else {
        assert [] + nt == nt;
      }
      if es[0].key == key {
        assert Lookup(tl, key).None?;
      }
    }
  }

  /** Entry `j` of an object with distinct keys, found after normalizing. */
  lemma FieldOf(es: seq<Member>, j: int)
    requires DistinctKeys(es) && 0 <= j < |es|
    ensures Lookup(Normalize(Obj(es)).entries, es[j].key) == NormOpt(Some(es[j].val))
  {
    LookupAt(es, j);
    LookupNormalized(es, es[j].key);
  }

  // ---------------------------------------------------------------------------
  // Field decoders

  function StrField(es: seq<Member>, key: string): (r: Option<string>)
    ensures r.Some? <==> Lookup(es, key).Some? && Lookup(es, key).value.Str?
  {
    match Lookup(es, key)
    case Some(Str(s)) => Some(s)
    case _ => None
  }

  /** An optional string field: an absent entry is an absent field. */
  function OptStrField(es: seq<Member>, key: string): (r: Option<Option<string>>)
    ensures r == Some(None) <==> Lookup(es, key).None?
  {
    match Lookup(es, key)
    case None => Some(None)
    case Some(Str(s)) => Some(Some(s))
    case _ => None
  }

  function BoolField(es: seq<Member>, key: string): (r: Option<bool>)
    ensures r.Some? <==> Lookup(es, key).Some? && Lookup(es, key).value.Bool?
  {
    match Lookup(es, key)
    case Some(Bool(b)) => Some(b)
    case _ => None
  }

  function IntField(es: seq<Member>, key: string): (r: Option<int>)
    ensures r.Some? <==> Lookup(es, key).Some? && Lookup(es, key).value.Num?
  {
    match Lookup(es, key)
    case Some(Num(n)) => Some(n)
    case _ => None
  }

  /** A list of strings; any other item refuses the whole list. */
  function Strings(items: seq<Value>): (r: Option<seq<string>>)
    ensures r.Some? ==> |r.value| == |items|
    ensures r.Some? ==> forall i | 0 <= i < |items| :: items[i] == Str(r.value[i])
  {
    if items == [] then Some([])
    else if !items[0].Str? then None
    else
      var rest :- Strings(items[1..]);
      assert forall i | 1 <= i < |items| :: items[i] == items[1..][i - 1];
      Some([items[0].s] + rest)
  }

  function StrListField(es: seq<Member>, key: string): Option<seq<string>> {
    match Lookup(es, key)
    case Some(Arr(items)) => Strings(items)
    case _ => None
  }

  /** A list of records, each decoded by `decode`; one failure refuses the list. */
  function DecodeAll<T>(items: seq<Value>, decode: Value -> Option<T>): (r: Option<seq<T>>)
    ensures r.Some? ==> |r.value| == |items|
    ensures r.Some? ==> forall i | 0 <= i < |items| :: decode(items[i]) == Some(r.value[i])
  {
    if items == [] then Some([])
    else
      var x :- decode(items[0]);
      var rest :- DecodeAll(items[1..], decode);
      assert forall i | 1 <= i < |items| :: items[i] == items[1..][i - 1];
      Some([x] + rest)
  }

  lemma {:induction false} StringsOf(xs: seq<string>)
    ensures Strings(StrArr(xs).items) == Some(xs)
  {
    var items := StrArr(xs).items;
    if xs != [] {
      StringsOf(xs[1..]);
      assert items[1..] == StrArr(xs[1..]).items;
      assert items[0] == Str(xs[0]);
      assert [xs[0]] + xs[1..] == xs;
    }
  }

  lemma {:induction false} DecodeAllOf<T>(items: seq<Value>, decode: Value -> Option<T>, xs: seq<T>)
    requires |items| == |xs|
    requires forall i | 0 <= i < |items| :: decode(items[i]) == Some(xs[i])
    ensures DecodeAll(items, decode) == Some(xs)
  {
    if items != [] {
      assert forall i | 0 <= i < |items| - 1 :: items[1..][i] == items[i + 1] && xs[1..][i] == xs[i + 1];
      DecodeAllOf(items[1..], decode, xs[1..]);
      assert [xs[0]] + xs[1..] == xs;
    }
  }

  /** A printed list of strings reads back as itself. */
  lemma StrArrNormal(xs: seq<string>)
    ensures Normalize(StrArr(xs)) == StrArr(xs)
  {
  }

  // ---------------------------------------------------------------------------
  // Record decoders

  function DecodeProject(v: Value): Option<Project> {
    if !v.Obj? then None
    else
      var es := v.entries;
      var id :- StrField(es, "id");
      var title :- StrField(es, "title");
      var description :- StrField(es, "description");
      var longDescription :- OptStrField(es, "longDescription");
      var modalContent :- OptStrField(es, "modalContent");
      var technologies :- StrListField(es, "technologies");
      var githubUrl :- OptStrField(es, "githubUrl");
      var liveUrl :- OptStrField(es, "liveUrl");
      var websiteUrl :- OptStrField(es, "websiteUrl");
      var steamUrl :- OptStrField(es, "steamUrl");
      var imageUrl :- OptStrField(es, "imageUrl");
      var featured :- BoolField(es, "featured");
      Some(Project(id, title, description, longDescription, modalContent, technologies,
                   githubUrl, liveUrl, websiteUrl, steamUrl, imageUrl, featured))
  }

  function DecodeExperience(v: Value): Option<Experience> {
    if !v.Obj? then None
    else
      var es := v.entries;
      var id :- StrField(es, "id");
      var title :- StrField(es, "title");
      var company :- StrField(es, "company");
      var location :- StrField(es, "location");
      var startDate :- StrField(es, "startDate");
      var endDate :- OptStrField(es, "endDate");
      var description :- StrField(es, "description");
      var detailedDescription :- OptStrField(es, "detailedDescription");
      var logoUrl :- OptStrField(es, "logoUrl");
      var technologies :- StrListField(es, "technologies");
      Some(Experience(id, title, company, location, startDate, endDate, description,
                      detailedDescription, logoUrl, technologies))
  }

  /** A skill: the category must be one of the five tags. */
  function DecodeSkill(v: Value): Option<Skill> {
    if !v.Obj? then None
    else
      var es := v.entries;
      var id :- StrField(es, "id");
      var name :- StrField(es, "name");
      var tag :- StrField(es, "category");
      var category :- CategoryOfTag(tag);
      var level :- IntField(es, "level");
      Some(Skill(id, name, category, level))
  }

  function DecodePersonalInfo(v: Value): Option<PersonalInfo> {
    if !v.Obj? then None
    else
      var es := v.entries;
      var name :- StrField(es, "name");
      var title :- StrField(es, "title");
      var bio :- StrField(es, "bio");
      var location :- StrField(es, "location");
      var email :- StrField(es, "email");
      var github :- OptStrField(es, "github");
      var linkedin :- OptStrField(es, "linkedin");
      var twitter :- OptStrField(es, "twitter");
      var website :- OptStrField(es, "website");
      var resumeUrl :- OptStrField(es, "resumeUrl");
      Some(PersonalInfo(name, title, bio, location, email, github, linkedin, twitter, website, resumeUrl))
  }

  function ListField<T>(es: seq<Member>, key: string, decode: Value -> Option<T>): Option<seq<T>> {
    match Lookup(es, key)
    case Some(Arr(items)) => DecodeAll(items, decode)
    case _ => None
  }

  function DecodePortfolio(v: Value): Option<PortfolioData> {
    if !v.Obj? then None
    else
      var es := v.entries;
      var info :- Lookup(es, "personalInfo");
      var personalInfo :- DecodePersonalInfo(info);
      var projects :- ListField(es, "projects", DecodeProject);
      var experience :- ListField(es, "experience", DecodeExperience);
      var skills :- ListField(es, "skills", DecodeSkill);
      Some(PortfolioData(personalInfo, projects, experience, skills))
  }

  /** The generated module: the fixed header, one value, the fixed footer. */
  function ReadModule(text: string): Option<PortfolioData> {
    if !IsPrefix(Header, text) then None
    else
      var p :- ParseValue(text[|Header|..]);
      if p.1 != Footer then None else DecodePortfolio(p.0)
  }

  // ---------------------------------------------------------------------------
  // Records read back

  lemma OptStrFieldOf(es: seq<Member>, j: int, key: string, o: Option<string>)
    requires DistinctKeys(es) && 0 <= j < |es| && es[j] == Member(key, OptStr(o))
    ensures OptStrField(Normalize(Obj(es)).entries, key) == Some(o)
  {
    FieldOf(es, j);
  }

  lemma StrFieldOf(es: seq<Member>, j: int, key: string, s: string)
    requires DistinctKeys(es) && 0 <= j < |es| && es[j] == Member(key, Str(s))
    ensures StrField(Normalize(Obj(es)).entries, key) == Some(s)
  {
    FieldOf(es, j);
  }

  lemma StrListFieldOf(es: seq<Member>, j: int, key: string, xs: seq<string>)
    requires DistinctKeys(es) && 0 <= j < |es| && es[j] == Member(key, StrArr(xs))
    ensures StrListField(Normalize(Obj(es)).entries, key) == Some(xs)
  {
    FieldOf(es, j);
    StrArrNormal(xs);
    StringsOf(xs);
  }

  lemma BoolFieldOf(es: seq<Member>, j: int, key: string, b: bool)
    requires DistinctKeys(es) && 0 <= j < |es| && es[j] == Member(key, Bool(b))
    ensures BoolField(Normalize(Obj(es)).entries, key) == Some(b)
  {
    FieldOf(es, j);
  }

  lemma IntFieldOf(es: seq<Member>, j: int, key: string, n: int)
    requires DistinctKeys(es) && 0 <= j < |es| && es[j] == Member(key, Num(n))
    ensures IntField(Normalize(Obj(es)).entries, key) == Some(n)
  {
    FieldOf(es, j);
  }

  /** A project is decoded from any entries that hold its fields under their names. */
  lemma ProjectFromFields(p: Project, ns: seq<Member>)
    requires StrField(ns, "id") == Some(p.id)
    requires StrField(ns, "title") == Some(p.title)
    requires StrField(ns, "description") == Some(p.description)
    requires OptStrField(ns, "longDescription") == Some(p.longDescription)
    requires OptStrField(ns, "modalContent") == Some(p.modalContent)
    requires StrListField(ns, "technologies") == Some(p.technologies)
    requires OptStrField(ns, "githubUrl") == Some(p.githubUrl)
    requires OptStrField(ns, "liveUrl") == Some(p.liveUrl)
    requires OptStrField(ns, "websiteUrl") == Some(p.websiteUrl)
    requires OptStrField(ns, "steamUrl") == Some(p.steamUrl)
    requires OptStrField(ns, "imageUrl") == Some(p.imageUrl)
    requires BoolField(ns, "featured") == Some(p.featured)
    ensures DecodeProject(Obj(ns)) == Some(p)
  {
  }

  lemma ProjectKeysDistinct(p: Project)
    ensures DistinctKeys(ProjectValue(p).entries)
  {
  }

  /** The entries of a printed project, field by field. */
  lemma ProjectEntries(p: Project)
    ensures var es := ProjectValue(p).entries;
      && |es| == 12
      && es[0] == Member("id", Str(p.id))
      && es[1] == Member("title", Str(p.title))
      && es[2] == Member("description", Str(p.description))
      && es[3] == Member("longDescription", OptStr(p.longDescription))
      && es[4] == Member("modalContent", OptStr(p.modalContent))
      && es[5] == Member("technologies", StrArr(p.technologies))
      && es[6] == Member("githubUrl", OptStr(p.githubUrl))
      && es[7] == Member("liveUrl", OptStr(p.liveUrl))
      && es[8] == Member("websiteUrl", OptStr(p.websiteUrl))
      && es[9] == Member("steamUrl", OptStr(p.steamUrl))
      && es[10] == Member("imageUrl", OptStr(p.imageUrl))
      && es[11] == Member("featured", Bool(p.featured))
  {
  }

  lemma ProjectRoundTrip(p: Project)
    ensures DecodeProject(Normalize(ProjectValue(p))) == Some(p)
  {
    var es := ProjectValue(p).entries;
    var ns := Normalize(Obj(es)).entries;
    ProjectEntries(p);
    ProjectKeysDistinct(p);
    StrFieldOf(es, 0, "id", p.id);
    StrFieldOf(es, 1, "title", p.title);
    StrFieldOf(es, 2, "description", p.description);
    OptStrFieldOf(es, 3, "longDescription", p.longDescription);
    OptStrFieldOf(es, 4, "modalContent", p.modalContent);
    StrListFieldOf(es, 5, "technologies", p.technologies);
    OptStrFieldOf(es, 6, "githubUrl", p.githubUrl);
    OptStrFieldOf(es, 7, "liveUrl", p.liveUrl);
    OptStrFieldOf(es, 8, "websiteUrl", p.websiteUrl);
    OptStrFieldOf(es, 9, "steamUrl", p.steamUrl);
    OptStrFieldOf(es, 10, "imageUrl", p.imageUrl);
    BoolFieldOf(es, 11, "featured", p.featured);
    ProjectFromFields(p, ns);
  }

  lemma ExperienceFromFields(e: Experience, ns: seq<Member>)
    requires StrField(ns, "id") == Some(e.id)
    requires StrField(ns, "title") == Some(e.title)
    requires StrField(ns, "company") == Some(e.company)
    requires StrField(ns, "location") == Some(e.location)
    requires StrField(ns, "startDate") == Some(e.startDate)
    requires OptStrField(ns, "endDate") == Some(e.endDate)
    requires StrField(ns, "description") == Some(e.description)
    requires OptStrField(ns, "detailedDescription") == Some(e.detailedDescription)
    requires OptStrField(ns, "logoUrl") == Some(e.logoUrl)
    requires StrListField(ns, "technologies") == Some(e.technologies)
    ensures DecodeExperience(Obj(ns)) == Some(e)
  {
  }

  /** The entries of a printed experience entry, field by field. */
  lemma ExperienceEntries(e: Experience)
    ensures var es := ExperienceValue(e).entries;
      && |es| == 10 && DistinctKeys(es)
      && es[0] == Member("id", Str(e.id))
      && es[1] == Member("title", Str(e.title))
      && es[2] == Member("company", Str(e.company))
      && es[3] == Member("location", Str(e.location))
      && es[4] == Member("startDate", Str(e.startDate))
      && es[5] == Member("endDate", OptStr(e.endDate))
      && es[6] == Member("description", Str(e.description))
      && es[7] == Member("detailedDescription", OptStr(e.detailedDescription))
      && es[8] == Member("logoUrl", OptStr(e.logoUrl))
      && es[9] == Member("technologies", StrArr(e.technologies))
  {
  }

  lemma ExperienceRoundTrip(e: Experience)
    ensures DecodeExperience(Normalize(ExperienceValue(e))) == Some(e)
  {
    var es := ExperienceValue(e).entries;
    var ns := Normalize(Obj(es)).entries;
    ExperienceEntries(e);
    StrFieldOf(es, 0, "id", e.id);
    StrFieldOf(es, 1, "title", e.title);
    StrFieldOf(es, 2, "company", e.company);
    StrFieldOf(es, 3, "location", e.location);
    StrFieldOf(es, 4, "startDate", e.startDate);
    OptStrFieldOf(es, 5, "endDate", e.endDate);
    StrFieldOf(es, 6, "description", e.description);
    OptStrFieldOf(es, 7, "detailedDescription", e.detailedDescription);
    OptStrFieldOf(es, 8, "logoUrl", e.logoUrl);
    StrListFieldOf(es, 9, "technologies", e.technologies);
    ExperienceFromFields(e, ns);
  }

  /** The entries of a printed skill, field by field. */
  lemma SkillEntries(s: Skill)
    ensures var es := SkillValue(s).entries;
      && |es| == 4 && DistinctKeys(es)
      && es[0] == Member("id", Str(s.id))
      && es[1] == Member("name", Str(s.name))
      && es[2] == Member("category", Str(CategoryTag(s.category)))
      && es[3] == Member("level", Num(s.level))
  {
  }

  lemma SkillRoundTrip(s: Skill)
    ensures DecodeSkill(Normalize(SkillValue(s))) == Some(s)
  {
    var es := SkillValue(s).entries;
    var ns := Normalize(Obj(es)).entries;
    SkillEntries(s);
    StrFieldOf(es, 0, "id", s.id);
    StrFieldOf(es, 1, "name", s.name);
    StrFieldOf(es, 2, "category", CategoryTag(s.category));
    CategoryTagRoundTrip(s.category);
    IntFieldOf(es, 3, "level", s.level);
    assert DecodeSkill(Obj(ns)) == Some(s);
  }

  lemma PersonalInfoFromFields(p: PersonalInfo, ns: seq<Member>)
    requires StrField(ns, "name") == Some(p.name)
    requires StrField(ns, "title") == Some(p.title)
    requires StrField(ns, "bio") == Some(p.bio)
    requires StrField(ns, "location") == Some(p.location)
    requires StrField(ns, "email") == Some(p.email)
    requires OptStrField(ns, "github") == Some(p.github)
    requires OptStrField(ns, "linkedin") == Some(p.linkedin)
    requires OptStrField(ns, "twitter") == Some(p.twitter)
    requires OptStrField(ns, "website") == Some(p.website)
    requires OptStrField(ns, "resumeUrl") == Some(p.resumeUrl)
    ensures DecodePersonalInfo(Obj(ns)) == Some(p)
  {
  }

  /** The entries of printed personal information, field by field. */
  lemma PersonalInfoEntries(p: PersonalInfo)
    ensures var es := PersonalInfoValue(p).entries;
      && |es| == 10 && DistinctKeys(es)
      && es[0] == Member("name", Str(p.name))
      && es[1] == Member("title", Str(p.title))
      && es[2] == Member("bio", Str(p.bio))
      && es[3] == Member("location", Str(p.location))
      && es[4] == Member("email", Str(p.email))
      && es[5] == Member("github", OptStr(p.github))
      && es[6] == Member("linkedin", OptStr(p.linkedin))
      && es[7] == Member("twitter", OptStr(p.twitter))
      && es[8] == Member("website", OptStr(p.website))
      && es[9] == Member("resumeUrl", OptStr(p.resumeUrl))
  {
  }

  lemma PersonalInfoRoundTrip(p: PersonalInfo)
    ensures DecodePersonalInfo(Normalize(PersonalInfoValue(p))) == Some(p)
  {
    var es := PersonalInfoValue(p).entries;
    var ns := Normalize(Obj(es)).entries;
    PersonalInfoEntries(p);
    StrFieldOf(es, 0, "name", p.name);
    StrFieldOf(es, 1, "title", p.title);
    StrFieldOf(es, 2, "bio", p.bio);
    StrFieldOf(es, 3, "location", p.location);
    StrFieldOf(es, 4, "email", p.email);
    OptStrFieldOf(es, 5, "github", p.github);
    OptStrFieldOf(es, 6, "linkedin", p.linkedin);
    OptStrFieldOf(es, 7, "twitter", p.twitter);
    OptStrFieldOf(es, 8, "website", p.website);
    OptStrFieldOf(es, 9, "resumeUrl", p.resumeUrl);
    PersonalInfoFromFields(p, ns);
  }

  /** A printed list of records, read back and normalized, decodes to the records. */
  lemma ListFieldOf<T>(es: seq<Member>, j: int, key: string, items: seq<Value>,
                       decode: Value -> Option<T>, xs: seq<T>)
    requires DistinctKeys(es) && 0 <= j < |es| && es[j] == Member(key, Arr(items))
    requires |items| == |xs|
    requires forall i | 0 <= i < |items| :: decode(Normalize(items[i])) == Some(xs[i])
    ensures ListField(Normalize(Obj(es)).entries, key, decode) == Some(xs)
  {
    FieldOf(es, j);
    DecodeAllOf(Normalize(Arr(items)).items, decode, xs);
  }

  /** The entries of a printed snapshot, field by field. */
  lemma PortfolioEntries(d: PortfolioData)
    ensures var es := PortfolioValue(d).entries;
      && |es| == 4 && DistinctKeys(es)
      && es[0] == Member("personalInfo", PersonalInfoValue(d.personalInfo))
      && es[1] == Member("projects", Arr(ProjectItems(d.projects)))
      && es[2] == Member("experience", Arr(ExperienceItems(d.experience)))
      && es[3] == Member("skills", Arr(SkillItems(d.skills)))
  {
  }

  lemma PortfolioFromFields(d: PortfolioData, ns: seq<Member>)
    requires Lookup(ns, "personalInfo").Some?
    requires DecodePersonalInfo(Lookup(ns, "personalInfo").value) == Some(d.personalInfo)
    requires ListField(ns, "projects", DecodeProject) == Some(d.projects)
    requires ListField(ns, "experience", DecodeExperience) == Some(d.experience)
    requires ListField(ns, "skills", DecodeSkill) == Some(d.skills)
    ensures DecodePortfolio(Obj(ns)) == Some(d)
  {
  }

  /** The snapshot as a value, normalized, decodes to the snapshot. */
  lemma PortfolioRoundTrip(d: PortfolioData)
    ensures DecodePortfolio(Normalize(PortfolioValue(d))) == Some(d)
  {
    var es := PortfolioValue(d).entries;
    var ns := Normalize(Obj(es)).entries;
    PortfolioEntries(d);
    FieldOf(es, 0);
    PersonalInfoRoundTrip(d.personalInfo);
    var ps, xs, ss := ProjectItems(d.projects), ExperienceItems(d.experience), SkillItems(d.skills);
    forall i | 0 <= i < |ps| ensures DecodeProject(Normalize(ps[i])) == Some(d.projects[i]) {
      ProjectRoundTrip(d.projects[i]);
    }
    forall i | 0 <= i < |xs| ensures DecodeExperience(Normalize(xs[i])) == Some(d.experience[i]) {
      ExperienceRoundTrip(d.experience[i]);
    }
    forall i | 0 <= i < |ss| ensures DecodeSkill(Normalize(ss[i])) == Some(d.skills[i]) {
      SkillRoundTrip(d.skills[i]);
    }
    ListFieldOf(es, 1, "projects", ps, DecodeProject, d.projects);
    ListFieldOf(es, 2, "experience", xs, DecodeExperience, d.experience);
    ListFieldOf(es, 3, "skills", ss, DecodeSkill, d.skills);
    PortfolioFromFields(d, ns);
  }

  /** Reading the generated module back gives exactly the snapshot that was saved. */
  lemma ModuleRoundTrip(d: PortfolioData)
    ensures ReadModule(FormatPortfolioData(d)) == Some(d)
  {
    var text := FormatPortfolioData(d);
    var body := FormatValue(PortfolioValue(d), "");
    assert text == Header + (body + Footer);
    assert text[..|Header|] == Header && text[|Header|..] == body + Footer;
    PortfolioQuoteFree(d);
    ValueRoundTrip(PortfolioValue(d), "", Footer);
    PortfolioRoundTrip(d);
  }
}
