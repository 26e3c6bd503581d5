/** The skill-level table: four display configurations looked up by numeric level,
    with the level-2 entry as the fallback for any other number. */
module SkillLevels {
  import opened Types

  datatype SkillLevelConfig = SkillLevelConfig(
    level: int,
    labelText: string,  // `label` in the table; the word is reserved in Dafny
    percentage: int,
    gradient: string,
    bgStyle: string,
    textStyle: string)

  const DefaultSkillLevels: seq<SkillLevelConfig> := [
    SkillLevelConfig(1, "Learning", 25, "from-gray-500 to-gray-400", "bg-gray-800/30", "text-gray-400"),
    SkillLevelConfig(2, "Comfortable", 50, "from-gray-400 to-gray-300", "bg-gray-700/30", "text-gray-300"),
    SkillLevelConfig(3, "Experienced", 75, "from-gray-300 to-gray-200", "bg-gray-600/30", "text-gray-200"),
    SkillLevelConfig(4, "Highly Experienced", 100, "from-accent-400 to-accent-500", "bg-accent-500/20", "text-accent-300")
  ]

  /** The table lists levels 1 to 4 in order, at 25 percent per level. */
  lemma TableShape()
    ensures |DefaultSkillLevels| == 4
    ensures forall i | 0 <= i < 4 :: DefaultSkillLevels[i].level == i + 1
    ensures forall i | 0 <= i < 4 :: DefaultSkillLevels[i].percentage == 25 * (i + 1)
  {
    forall i | 0 <= i < 4
      ensures DefaultSkillLevels[i].level == i + 1 && DefaultSkillLevels[i].percentage == 25 * (i + 1)
    {
      if i == 0 {} else if i == 1 {} else if i == 2 {} else {}
    }
  }

  /** `Array.prototype.find`: the first entry whose level equals `level`. */
  function Find(table: seq<SkillLevelConfig>, level: int): (r: Option<SkillLevelConfig>)
    ensures r.None? <==> forall i | 0 <= i < |table| :: table[i].level != level
    ensures r.Some? ==> exists i | 0 <= i < |table| ::
      table[i] == r.value && table[i].level == level && forall j | 0 <= j < i :: table[j].level != level
  {
    if table == [] then None
    else if table[0].level == level then Some(table[0])
    else
      var r := Find(table[1..], level);
      assert forall j | 1 <= j < |table| :: table[j] == table[1..][j - 1];
      assert r.Some? ==> table[1..][0] == table[1];
      r
  }

  /** `getSkillLevelConfig(level)`: the matching entry, or the level-2 entry. */
  function GetSkillLevelConfig(level: int): SkillLevelConfig {
    match Find(DefaultSkillLevels, level)
    case Some(config) => config
    case None => DefaultSkillLevels[1]
  }

  function GetSkillLevelPercentage(level: int): int { GetSkillLevelConfig(level).percentage }

  function GetSkillLevelGradient(level: int): string { GetSkillLevelConfig(level).gradient }

  function GetSkillLevelLabel(level: int): string { GetSkillLevelConfig(level).labelText }

  /** `getSkillLevelStyles(level)`: the `{ bg, text }` pair of the entry. */
  datatype Styles = Styles(bg: string, text: string)

  function GetSkillLevelStyles(level: int): Styles {
    var config := GetSkillLevelConfig(level);
    Styles(config.bgStyle, config.textStyle)
  }

  /** A level on the scale finds its own entry; any other number gets the
      level-2 'Comfortable' entry. */
  lemma ConfigLookup(level: int)
    ensures 1 <= level <= 4 ==> GetSkillLevelConfig(level) == DefaultSkillLevels[level - 1]
    ensures 1 <= level <= 4 ==> GetSkillLevelConfig(level).level == level
    ensures !(1 <= level <= 4) ==> GetSkillLevelConfig(level) == DefaultSkillLevels[1]
    ensures !(1 <= level <= 4) ==> GetSkillLevelLabel(level) == "Comfortable"
  {
    TableShape();
    var r := Find(DefaultSkillLevels, level);
    if 1 <= level <= 4 {
      assert DefaultSkillLevels[level - 1].level == level;
      var i :| 0 <= i < 4 && DefaultSkillLevels[i] == r.value && DefaultSkillLevels[i].level == level
        && forall j | 0 <= j < i :: DefaultSkillLevels[j].level != level;
      assert i == level - 1;
    } else {
      assert r.None?;
    }
  }

  /** The percentage is 25 per level on the scale and 50 elsewhere, so it is always
      one of the four table values. */
  lemma PercentageValues(level: int)
    ensures GetSkillLevelPercentage(level) == if 1 <= level <= 4 then 25 * level else 50
    ensures GetSkillLevelPercentage(level) in {25, 50, 75, 100}
  {
    ConfigLookup(level);
    TableShape();
  }

  /** Over the scale, a higher level shows a strictly higher percentage. */
  lemma PercentageIncreasing(a: int, b: int)
    requires 1 <= a < b <= 4
    ensures GetSkillLevelPercentage(a) < GetSkillLevelPercentage(b)
  {
    PercentageValues(a);
    PercentageValues(b);
  }

  /** Percentage, label, gradient and styles all come from one table entry, for any
      number at all. */
  lemma ProjectionsAgree(level: int)
    ensures exists i | 0 <= i < |DefaultSkillLevels| ::
      && GetSkillLevelPercentage(level) == DefaultSkillLevels[i].percentage
      && GetSkillLevelLabel(level) == DefaultSkillLevels[i].labelText
      && GetSkillLevelGradient(level) == DefaultSkillLevels[i].gradient
      && GetSkillLevelStyles(level) == Styles(DefaultSkillLevels[i].bgStyle, DefaultSkillLevels[i].textStyle)
  {
    ConfigLookup(level);
    var i := if 1 <= level <= 4 then level - 1 else 1;
    assert GetSkillLevelConfig(level) == DefaultSkillLevels[i];
  }
}
