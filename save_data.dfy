/** The snapshot serializer: `formatPortfolioData` turns the portfolio snapshot into
    the text of a TypeScript module that re-declares it as a constant. The walk is
    over a small value type; the snapshot is first written as such a value. */
module SaveData {
  import opened Types
  import opened Text

  /** The values the pretty-printer distinguishes. Numbers are integers here. */
  datatype Value =
    | Null
    | Undef
    | Bool(b: bool)
    | Num(n: int)
    | Str(s: string)
    | Arr(items: seq<Value>)
    | Obj(entries: seq<Member>)

  /** One `[key, value]` pair of `Object.entries`, kept in order. */
  datatype Member = Member(key: string, val: Value)

  // ---------------------------------------------------------------------------
  // The string escaper

  /** `s.replace(/c/g, repl)`. */
  function ReplaceAll(s: string, c: char, repl: string): string {
    if s == [] then [] else (if s[0] == c then repl else [s[0]]) + ReplaceAll(s[1..], c, repl)
  }

  /** `escapeString(str)`: five global replacements, backslash first, so that the
      backslashes the later passes insert are not doubled again. */
  function EscapeString(s: string): string {
    var s1 := ReplaceAll(s, '\\', "\\\\");
    var s2 := ReplaceAll(s1, '\'', "\\'");
    var s3 := ReplaceAll(s2, '\n', "\\n");
    var s4 := ReplaceAll(s3, '\r', "\\r");
    ReplaceAll(s4, '\t', "\\t")
  }

  /** The escape of one character, as a reader of a single-quoted literal expects it. */
  function EscapeChar(c: char): (r: string)
    ensures 1 <= |r| <= 2
  {
    if c == '\\' then "\\\\"
    else if c == '\'' then "\\'"
    else if c == '\n' then "\\n"
    else if c == '\r' then "\\r"
    else if c == '\t' then "\\t"
    else [c]
  }

  /** A single left-to-right pass escaping each character on its own. */
  function EscapeEach(s: string): string {
    if s == [] then [] else EscapeChar(s[0]) + EscapeEach(s[1..])
  }

  lemma {:induction false} ReplaceAllConcat(a: string, b: string, c: char, repl: string)
    ensures ReplaceAll(a + b, c, repl) == ReplaceAll(a, c, repl) + ReplaceAll(b, c, repl)
  {
    if a != [] {
      assert (a + b)[1..] == a[1..] + b;
      ReplaceAllConcat(a[1..], b, c, repl);
    } else {
      assert a + b == b;
    }
  }

  lemma {:induction false} ReplaceAllAbsent(s: string, c: char, repl: string)
    requires c !in s
    ensures ReplaceAll(s, c, repl) == s
  {
    if s != [] {
      assert c !in s[1..];
      ReplaceAllAbsent(s[1..], c, repl);
      assert [s[0]] + s[1..] == s;
    }
  }

  lemma ReplaceSingle(x: char, c: char, repl: string)
    ensures ReplaceAll([x], c, repl) == if x == c then repl else [x]
  {
    assert [x][1..] == [];
    assert ReplaceAll([x], c, repl) == (if x == c then repl else [x]) + ReplaceAll([], c, repl);
  }

  lemma EscapeConcat(a: string, b: string)
    ensures EscapeString(a + b) == EscapeString(a) + EscapeString(b)
  {
    ReplaceAllConcat(a, b, '\\', "\\\\");
    var a1, b1 := ReplaceAll(a, '\\', "\\\\"), ReplaceAll(b, '\\', "\\\\");
    ReplaceAllConcat(a1, b1, '\'', "\\'");
    var a2, b2 := ReplaceAll(a1, '\'', "\\'"), ReplaceAll(b1, '\'', "\\'");
    ReplaceAllConcat(a2, b2, '\n', "\\n");
    var a3, b3 := ReplaceAll(a2, '\n', "\\n"), ReplaceAll(b2, '\n', "\\n");
    ReplaceAllConcat(a3, b3, '\r', "\\r");
    var a4, b4 := ReplaceAll(a3, '\r', "\\r"), ReplaceAll(b3, '\r', "\\r");
    ReplaceAllConcat(a4, b4, '\t', "\\t");
  }

  /** Each pass leaves the two-character escapes of the earlier passes alone. */
  lemma EscapeOne(c: char)
    ensures EscapeString([c]) == EscapeChar(c)
  {
    ReplaceSingle(c, '\\', "\\\\");
    var s1 := ReplaceAll([c], '\\', "\\\\");
    if c == '\\' {
      ReplaceAllAbsent(s1, '\'', "\\'");
      ReplaceAllAbsent(s1, '\n', "\\n");
      ReplaceAllAbsent(s1, '\r', "\\r");
      ReplaceAllAbsent(s1, '\t', "\\t");
    } else {
      ReplaceSingle(c, '\'', "\\'");
      var s2 := ReplaceAll(s1, '\'', "\\'");
      if c == '\'' {
        ReplaceAllAbsent(s2, '\n', "\\n");
        ReplaceAllAbsent(s2, '\r', "\\r");
        ReplaceAllAbsent(s2, '\t', "\\t");
      } else {
        ReplaceSingle(c, '\n', "\\n");
        var s3 := ReplaceAll(s2, '\n', "\\n");
        if c == '\n' {
          ReplaceAllAbsent(s3, '\r', "\\r");
          ReplaceAllAbsent(s3, '\t', "\\t");
        } else {
          ReplaceSingle(c, '\r', "\\r");
          var s4 := ReplaceAll(s3, '\r', "\\r");
          if c == '\r' {
            ReplaceAllAbsent(s4, '\t', "\\t");
          } else {
            ReplaceSingle(c, '\t', "\\t");
          }
        }
      }
    }
  }

  /** Because backslash goes first, the chain of five passes is the same as escaping
      each character on its own: nothing is escaped twice. */
  lemma {:induction false} EscapeIsPerChar(s: string)
    ensures EscapeString(s) == EscapeEach(s)
  {
    if s == [] {
      ReplaceAllAbsent(s, '\\', "\\\\");
      ReplaceAllAbsent(s, '\'', "\\'");
      ReplaceAllAbsent(s, '\n', "\\n");
      ReplaceAllAbsent(s, '\r', "\\r");
      ReplaceAllAbsent(s, '\t', "\\t");
    } else {
      assert s == [s[0]] + s[1..];
      EscapeConcat([s[0]], s[1..]);
      EscapeOne(s[0]);
      EscapeIsPerChar(s[1..]);
    }
  }

  lemma {:induction false} EscapeEachFacts(s: string)
    ensures '\n' !in EscapeEach(s) && '\r' !in EscapeEach(s) && '\t' !in EscapeEach(s)
    ensures |EscapeEach(s)| >= |s|
  {
    if s != [] {
      EscapeEachFacts(s[1..]);
    }
  }

  /** The escaped text has no raw line break or tab, and is never shorter than the
      input. */
  lemma EscapeNoRawControls(s: string)
    ensures '\n' !in EscapeString(s) && '\r' !in EscapeString(s) && '\t' !in EscapeString(s)
    ensures |EscapeString(s)| >= |s|
  {
    EscapeIsPerChar(s);
    EscapeEachFacts(s);
  }

  // ---------------------------------------------------------------------------
  // Numbers and keys

  function DigitChar(d: int): (c: char)
    requires 0 <= d < 10
    ensures '0' <= c <= '9' && c as int - '0' as int == d
  {
    ('0' as int + d) as char
  }

  /** The decimal digits of a natural number, most significant first. */
  function NatToString(n: nat): (r: string)
    ensures |r| >= 1
    ensures forall i | 0 <= i < |r| :: '0' <= r[i] <= '9'
  {
    if n < 10 then [DigitChar(n)] else NatToString(n / 10) + [DigitChar(n % 10)]
  }

  /** `n.toString()` for an integer. */
  function IntToString(n: int): string {
    if n < 0 then "-" + NatToString(-n) else NatToString(n)
  }

  predicate IsIdentStart(c: char) {
    ('a' <= c <= 'z') || ('A' <= c <= 'Z') || c == '_' || c == '$'
  }

  predicate IsIdentPart(c: char) {
    IsIdentStart(c) || ('0' <= c <= '9')
  }

  /** `/^[a-zA-Z_$][a-zA-Z0-9_$]*$/`. */
  predicate IsIdentifier(k: string) {
    |k| > 0 && IsIdentStart(k[0]) && forall i | 1 <= i < |k| :: IsIdentPart(k[i])
  }

  /** A key is written bare when it is an identifier, otherwise between single quotes
      with no escaping. */
  function FormatKey(k: string): string {
    if IsIdentifier(k) then k else "'" + k + "'"
  }

  /** A key is emitted bare exactly when it matches the identifier pattern. */
  lemma KeyBareIff(k: string)
    ensures FormatKey(k) == k <==> IsIdentifier(k)
  {
    if !IsIdentifier(k) {
      assert |FormatKey(k)| == |k| + 2;
    }
  }

  // ---------------------------------------------------------------------------
  // The pretty-printer

  /** `.filter(([, v]) => v !== undefined)` over the entries. */
  function Defined(es: seq<Member>): (r: seq<Member>)
    ensures |r| <= |es|
    ensures forall i | 0 <= i < |r| :: r[i] in es && !r[i].val.Undef?
  {
    if es == [] then [] else (if es[0].val.Undef? then [] else [es[0]]) + Defined(es[1..])
  }

  /** `formatValue(value, indent)`. */
  function FormatValue(v: Value, indent: string): string
    decreases v, 1
  {
    match v
    case Null => "null"
    case Undef => "undefined"
    case Bool(b) => if b then "true" else "false"
    case Num(n) => IntToString(n)
    case Str(s) => "'" + EscapeString(s) + "'"
    case Arr(items) =>
      if |items| == 0 then "[]"
      else "[\n" + Join(ItemLines(v, indent), ",\n") + "\n" + indent + "]"
    case Obj(entries) =>
      if |Defined(entries)| == 0 then "{}"
      else "{\n" + Join(PropLines(v, indent), ",\n") + "\n" + indent + "}"
  }

  /** One line per array item: the indent, two spaces, the item one level deeper. */
  function ItemLines(v: Value, indent: string): (r: seq<string>)
    requires v.Arr?
    ensures |r| == |v.items|
    decreases v, 0
  {
    seq(|v.items|, i requires 0 <= i < |v.items| => indent + "  " + FormatValue(v.items[i], indent + "  "))
  }

  /** One line per defined entry: the indent, two spaces, the key, `: ` and the value
      one level deeper. */
  function PropLines(v: Value, indent: string): (r: seq<string>)
    requires v.Obj?
    ensures |r| == |Defined(v.entries)|
    decreases v, 0
  {
    var d := Defined(v.entries);
    seq(|d|, i requires 0 <= i < |d| =>
      indent + "  " + FormatKey(d[i].key) + ": " + FormatValue(d[i].val, indent + "  "))
  }

  /** The first line of the generated module, the blank line, and the declaration the
      formatted value is assigned to. */
  const Header := "import type { PortfolioData } from '../types';\n\nexport const portfolioData: PortfolioData = "

  /** The closing semicolon and final newline. */
  const Footer := ";\n"

  function FormatPortfolioData(d: PortfolioData): string {
    Header + FormatValue(PortfolioValue(d), "") + Footer
  }

  /** Undefined entries are dropped, defined ones (a null included) are kept, and the
      survivors stay in their order. */
  lemma {:induction false} DefinedKeepsOrder(a: seq<Member>, b: seq<Member>)
    ensures Defined(a + b) == Defined(a) + Defined(b)
  {
    if a == [] {
      assert a + b == b;
    } else {
      var ab := a + b;
      assert ab[0] == a[0] && ab[1..] == a[1..] + b;
      var h := if a[0].val.Undef? then [] else [a[0]];
      DefinedKeepsOrder(a[1..], b);
      calc {
        Defined(ab);
        h + Defined(a[1..] + b);
        h + (Defined(a[1..]) + Defined(b));
        (h + Defined(a[1..])) + Defined(b);
        Defined(a) + Defined(b);
      }
    }
  }

  lemma {:induction false} DefinedKeepsDefined(es: seq<Member>)
    ensures forall i | 0 <= i < |es| && !es[i].val.Undef? :: es[i] in Defined(es)
    ensures Defined(es) == [] <==> forall i | 0 <= i < |es| :: es[i].val.Undef?
  {
    if es != [] {
      DefinedKeepsDefined(es[1..]);
      forall i | 1 <= i < |es| && !es[i].val.Undef? ensures es[i] in Defined(es) {
        assert es[i] == es[1..][i - 1];
      }
    }
  }

  /** An empty array prints `[]`; an object prints `{}` exactly when it has no
      defined entry. */
  lemma EmptyContainers(es: seq<Member>, indent: string)
    ensures FormatValue(Arr([]), indent) == "[]"
    ensures FormatValue(Obj(es), indent) == "{}" <==> forall i | 0 <= i < |es| :: es[i].val.Undef?
  {
    DefinedKeepsDefined(es);
    if Defined(es) != [] {
      assert FormatValue(Obj(es), indent)[1] == '\n';
    }
  }

  /** A scalar prints on one line. */
  lemma ScalarsOnOneLine(v: Value, indent: string)
    requires !v.Arr? && !v.Obj?
    ensures '\n' !in FormatValue(v, indent)
  {
    match v
    case Str(s) =>
      EscapeNoRawControls(s);
      assert FormatValue(v, indent) == "'" + EscapeString(s) + "'";
    case Num(n) =>
      var digits := NatToString(if n < 0 then -n else n);
      assert '\n' !in digits by {
        forall i | 0 <= i < |digits| ensures digits[i] != '\n' {
        }
      }
      assert FormatValue(v, indent) == (if n < 0 then "-" else "") + digits;
    case _ =>
  }

  // ---------------------------------------------------------------------------
  // What survives printing

  /** The value a printed text stands for: undefined object entries gone, everything
      else as it was. */
  function Normalize(v: Value): Value
    decreases v
  {
    match v
    case Arr(items) => Arr(seq(|items|, i requires 0 <= i < |items| => Normalize(items[i])))
    case Obj(entries) =>
      var d := Defined(entries);
      Obj(seq(|d|, i requires 0 <= i < |d| => Member(d[i].key, Normalize(d[i].val))))
    case _ => v
  }

  /** No key anywhere contains a single quote (quoted keys are not escaped). */
  predicate QuoteFreeKeys(v: Value)
    decreases v
  {
    match v
    case Arr(items) => forall i | 0 <= i < |items| :: QuoteFreeKeys(items[i])
    case Obj(entries) => forall i | 0 <= i < |entries| :: '\'' !in entries[i].key && QuoteFreeKeys(entries[i].val)
    case _ => true
  }

  // ---------------------------------------------------------------------------
  // The snapshot as a value: fields in declaration order, absent optionals undefined

  function OptStr(o: Option<string>): Value {
    if o.Some? then Str(o.value) else Undef
  }

  function StrArr(xs: seq<string>): Value {
    Arr(seq(|xs|, i requires 0 <= i < |xs| => Str(xs[i])))
  }

  function ProjectValue(p: Project): Value {
    Obj([
      Member("id", Str(p.id)),
      Member("title", Str(p.title)),
      Member("description", Str(p.description)),
      Member("longDescription", OptStr(p.longDescription)),
      Member("modalContent", OptStr(p.modalContent)),
      Member("technologies", StrArr(p.technologies)),
      Member("githubUrl", OptStr(p.githubUrl)),
      Member("liveUrl", OptStr(p.liveUrl)),
      Member("websiteUrl", OptStr(p.websiteUrl)),
      Member("steamUrl", OptStr(p.steamUrl)),
      Member("imageUrl", OptStr(p.imageUrl)),
      Member("featured", Bool(p.featured))])
  }

  function ExperienceValue(e: Experience): Value {
    Obj([
      Member("id", Str(e.id)),
      Member("title", Str(e.title)),
      Member("company", Str(e.company)),
      Member("location", Str(e.location)),
      Member("startDate", Str(e.startDate)),
      Member("endDate", OptStr(e.endDate)),
      Member("description", Str(e.description)),
      Member("detailedDescription", OptStr(e.detailedDescription)),
      Member("logoUrl", OptStr(e.logoUrl)),
      Member("technologies", StrArr(e.technologies))])
  }

  function SkillValue(s: Skill): Value {
    Obj([
      Member("id", Str(s.id)),
      Member("name", Str(s.name)),
      Member("category", Str(CategoryTag(s.category))),
      Member("level", Num(s.level))])
  }

  function PersonalInfoValue(p: PersonalInfo): Value {
    Obj([
      Member("name", Str(p.name)),
      Member("title", Str(p.title)),
      Member("bio", Str(p.bio)),
      Member("location", Str(p.location)),
      Member("email", Str(p.email)),
      Member("github", OptStr(p.github)),
      Member("linkedin", OptStr(p.linkedin)),
      Member("twitter", OptStr(p.twitter)),
      Member("website", OptStr(p.website)),
      Member("resumeUrl", OptStr(p.resumeUrl))])
  }

  function ProjectItems(ps: seq<Project>): seq<Value> {
    seq(|ps|, i requires 0 <= i < |ps| => ProjectValue(ps[i]))
  }

  function ExperienceItems(xs: seq<Experience>): seq<Value> {
    seq(|xs|, i requires 0 <= i < |xs| => ExperienceValue(xs[i]))
  }

  function SkillItems(ss: seq<Skill>): seq<Value> {
    seq(|ss|, i requires 0 <= i < |ss| => SkillValue(ss[i]))
  }

  function PortfolioValue(d: PortfolioData): Value {
    Obj([
      Member("personalInfo", PersonalInfoValue(d.personalInfo)),
      Member("projects", Arr(ProjectItems(d.projects))),
      Member("experience", Arr(ExperienceItems(d.experience))),
      Member("skills", Arr(SkillItems(d.skills)))])
  }

  lemma StrArrQuoteFree(xs: seq<string>)
    ensures QuoteFreeKeys(StrArr(xs))
  {
    var v := StrArr(xs);
    assert forall i | 0 <= i < |v.items| :: v.items[i] == Str(xs[i]);
  }

  lemma ObjQuoteFree(es: seq<Member>)
    requires forall i | 0 <= i < |es| :: '\'' !in es[i].key
    requires forall i | 0 <= i < |es| :: QuoteFreeKeys(es[i].val)
    ensures QuoteFreeKeys(Obj(es))
  {
  }

  /** The field names of each record, in declaration order. */
  const ProjectFields: seq<string> := ["id", "title", "description", "longDescription", "modalContent",
    "technologies", "githubUrl", "liveUrl", "websiteUrl", "steamUrl", "imageUrl", "featured"]
  const ExperienceFields: seq<string> := ["id", "title", "company", "location", "startDate", "endDate",
    "description", "detailedDescription", "logoUrl", "technologies"]
  const PersonalInfoFields: seq<string> := ["name", "title", "bio", "location", "email", "github",
    "linkedin", "twitter", "website", "resumeUrl"]

  lemma FieldNamesQuoteFree()
    ensures forall i | 0 <= i < |ProjectFields| :: '\'' !in ProjectFields[i]
    ensures forall i | 0 <= i < |ExperienceFields| :: '\'' !in ExperienceFields[i]
    ensures forall i | 0 <= i < |PersonalInfoFields| :: '\'' !in PersonalInfoFields[i]
  {
  }

  /** The keys of a printed record are its field names. */
  lemma ProjectKeyNames(p: Project)
    ensures var es := ProjectValue(p).entries;
      |es| == |ProjectFields| && forall i | 0 <= i < |es| :: es[i].key == ProjectFields[i]
  {
  }

  lemma ProjectKeys(p: Project)
    ensures var es := ProjectValue(p).entries; forall i | 0 <= i < |es| :: '\'' !in es[i].key
  {
    ProjectKeyNames(p);
    FieldNamesQuoteFree();
  }

  lemma ProjectVals(p: Project)
    ensures var es := ProjectValue(p).entries; forall i | 0 <= i < |es| :: QuoteFreeKeys(es[i].val)
  {
    StrArrQuoteFree(p.technologies);
  }

  lemma ProjectQuoteFree(p: Project)
    ensures QuoteFreeKeys(ProjectValue(p))
  {
    ProjectKeys(p);
    ProjectVals(p);
    ObjQuoteFree(ProjectValue(p).entries);
  }

  lemma ExperienceKeyNames(e: Experience)
    ensures var es := ExperienceValue(e).entries;
      |es| == |ExperienceFields| && forall i | 0 <= i < |es| :: es[i].key == ExperienceFields[i]
  {
  }

  lemma ExperienceKeys(e: Experience)
    ensures var es := ExperienceValue(e).entries; forall i | 0 <= i < |es| :: '\'' !in es[i].key
  {
    ExperienceKeyNames(e);
    FieldNamesQuoteFree();
  }

  lemma ExperienceVals(e: Experience)
    ensures var es := ExperienceValue(e).entries; forall i | 0 <= i < |es| :: QuoteFreeKeys(es[i].val)
  {
    StrArrQuoteFree(e.technologies);
  }

  lemma ExperienceQuoteFree(e: Experience)
    ensures QuoteFreeKeys(ExperienceValue(e))
  {
    ExperienceKeys(e);
    ExperienceVals(e);
    ObjQuoteFree(ExperienceValue(e).entries);
  }

  lemma ArrQuoteFree(items: seq<Value>)
    requires forall i | 0 <= i < |items| :: QuoteFreeKeys(items[i])
    ensures QuoteFreeKeys(Arr(items))
  {
  }

  lemma SkillQuoteFree(s: Skill)
    ensures QuoteFreeKeys(SkillValue(s))
  {
    var es := SkillValue(s).entries;
    assert forall i | 0 <= i < |es| :: '\'' !in es[i].key;
    ObjQuoteFree(es);
  }

  lemma PersonalInfoKeyNames(p: PersonalInfo)
    ensures var es := PersonalInfoValue(p).entries;
      |es| == |PersonalInfoFields| && forall i | 0 <= i < |es| :: es[i].key == PersonalInfoFields[i]
  {
  }

  lemma PersonalInfoKeys(p: PersonalInfo)
    ensures var es := PersonalInfoValue(p).entries; forall i | 0 <= i < |es| :: '\'' !in es[i].key
  {
    PersonalInfoKeyNames(p);
    FieldNamesQuoteFree();
  }

  lemma PersonalInfoQuoteFree(p: PersonalInfo)
    ensures QuoteFreeKeys(PersonalInfoValue(p))
  {
    PersonalInfoKeys(p);
    var es := PersonalInfoValue(p).entries;
    assert forall i | 0 <= i < |es| :: QuoteFreeKeys(es[i].val);
    ObjQuoteFree(es);
  }

  lemma ProjectsQuoteFree(ps: seq<Project>)
    ensures QuoteFreeKeys(Arr(ProjectItems(ps)))
  {
    var items := ProjectItems(ps);
    forall i | 0 <= i < |items| ensures QuoteFreeKeys(items[i]) {
      ProjectQuoteFree(ps[i]);
    }
    ArrQuoteFree(items);
  }

  lemma ExperiencesQuoteFree(xs: seq<Experience>)
    ensures QuoteFreeKeys(Arr(ExperienceItems(xs)))
  {
    var items := ExperienceItems(xs);
    forall i | 0 <= i < |items| ensures QuoteFreeKeys(items[i]) {
      ExperienceQuoteFree(xs[i]);
    }
    ArrQuoteFree(items);
  }

  lemma SkillsQuoteFree(ss: seq<Skill>)
    ensures QuoteFreeKeys(Arr(SkillItems(ss)))
  {
    var items := SkillItems(ss);
    forall i | 0 <= i < |items| ensures QuoteFreeKeys(items[i]) {
      SkillQuoteFree(ss[i]);
    }
    ArrQuoteFree(items);
  }

  /** Every key of the snapshot is a field name, so none contains a quote. */
  lemma PortfolioQuoteFree(d: PortfolioData)
    ensures QuoteFreeKeys(PortfolioValue(d))
  {
    PersonalInfoQuoteFree(d.personalInfo);
    ProjectsQuoteFree(d.projects);
    ExperiencesQuoteFree(d.experience);
    SkillsQuoteFree(d.skills);
    var es := PortfolioValue(d).entries;
    assert forall i | 0 <= i < |es| :: QuoteFreeKeys(es[i].val);
    ObjQuoteFree(es);
  }
}
