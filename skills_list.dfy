/** The skills card of the character sheet: eighteen skills, each tied to one ability
    score; every row shows the ability modifier with its sign, and clicking a row opens
    the dice dialog with that modifier as the bonus. */
module SkillsList {

  import opened Wrappers
  import opened Text
  import opened Abilities

  datatype Skill = Skill(name: string, stat: string)

  /** `SKILLS`, in the order the card lists them. */
  const Skills: seq<Skill> := [
    Skill("Acrobatics", "dex"), Skill("Animal Handling", "wis"), Skill("Arcana", "int"),
    Skill("Athletics", "str"), Skill("Deception", "cha"), Skill("History", "int"),
    Skill("Insight", "wis"), Skill("Intimidation", "cha"), Skill("Investigation", "int"),
    Skill("Medicine", "wis"), Skill("Nature", "int"), Skill("Perception", "wis"),
    Skill("Performance", "cha"), Skill("Persuasion", "cha"), Skill("Religion", "int"),
    Skill("Sleight of Hand", "dex"), Skill("Stealth", "dex"), Skill("Survival", "wis")
  ]

  /** The keys of the six ability scores, in record order. */
  const StatKeys: seq<string> := ["str", "dex", "con", "int", "wis", "cha"]

  lemma StatKeysAreAbilityKeys()
    ensures |StatKeys| == |AllAbilities|
    ensures forall k :: 0 <= k < |StatKeys| ==> StatKeys[k] == AllAbilities[k].Key()
  {
  }

  /** The table has 18 skills with distinct names, each based on one of the six scores. */
  lemma SkillsTableWellFormed()
    ensures |Skills| == 18
    ensures forall i :: 0 <= i < |Skills| ==> Skills[i].stat in StatKeys
    ensures forall i, j :: 0 <= i < j < |Skills| ==> Skills[i].name != Skills[j].name
  {
    SkillStatsAreKeys();
    SkillNamesDistinct();
  }

  lemma SkillStatsAreKeys()
    ensures |Skills| == 18
    ensures forall i :: 0 <= i < |Skills| ==> Skills[i].stat in StatKeys
  {
  }

  lemma SkillNamesDistinct()
    ensures forall i, j :: 0 <= i < j < |Skills| ==> Skills[i].name != Skills[j].name
  {
  }

  /** `getMod(v) = Math.floor((v - 10) / 2)`. */
  function Modifier(v: int): (m: int)
    ensures 2 * m <= v - 10 < 2 * m + 2
  {
    (v - 10) / 2
  }

  lemma ModifierMonotone(v: int, w: int)
    requires v <= w
    ensures Modifier(v) <= Modifier(w)
  {
  }

  /** 10 and 11 give 0, 8 and 9 give -1, 20 gives +5, 1 gives -5. */
  lemma ModifierExamples()
    ensures Modifier(10) == 0 && Modifier(11) == 0
    ensures Modifier(8) == -1 && Modifier(9) == -1
    ensures Modifier(20) == 5 && Modifier(1) == -5
  {
  }

  /** `stats[key] || 10`: a missing or zero score counts as 10. */
  function StatValue(stats: map<string, int>, key: string): (v: int)
    ensures key !in stats || stats[key] == 0 ==> v == 10
    ensures key in stats && stats[key] != 0 ==> v == stats[key]
  {
    if key in stats && stats[key] != 0 then stats[key] else 10
  }

  /** A skill whose score is missing shows a modifier of 0. */
  lemma MissingStatGivesZero(stats: map<string, int>, key: string)
    requires key !in stats || stats[key] == 0
    ensures Modifier(StatValue(stats, key)) == 0
  {
  }

  datatype BadgeVariant = Secondary | Destructive

  /** What one row of the card shows. */
  datatype SkillRow = SkillRow(name: string, stat: string, mod: int, sign: string, badge: BadgeVariant)

  function RowOf(stats: map<string, int>, skill: Skill): (row: SkillRow)
    ensures row.name == skill.name && row.stat == skill.stat
    ensures row.mod == Modifier(StatValue(stats, skill.stat))
    ensures row.sign == "+" <==> row.mod >= 0
    ensures row.sign == "" <==> row.mod < 0
    ensures row.badge == Secondary <==> row.mod >= 0
  {
    var mod := Modifier(StatValue(stats, skill.stat));
    SkillRow(skill.name, skill.stat, mod, if mod >= 0 then "+" else "",
             if mod >= 0 then Secondary else Destructive)
  }

  /** The badge text `{sign}{mod}`: starts with '+' for a non-negative modifier and with
      '-' for a negative one, so every modifier is shown with exactly one sign. */
  function BadgeText(row: SkillRow): (t: string)
    requires row.sign == (if row.mod >= 0 then "+" else "")
    ensures |t| > 1
    ensures t[0] == '+' <==> row.mod >= 0
    ensures t[0] == '-' <==> row.mod < 0
  {
    row.sign + IntToString(row.mod)
  }

  /** The rows of the card, one per skill in table order. */
  function Rows(stats: map<string, int>): (rows: seq<SkillRow>)
    ensures |rows| == |Skills|
    ensures forall i :: 0 <= i < |rows| ==> rows[i] == RowOf(stats, Skills[i])
  {
    seq(|Skills|, i requires 0 <= i < |Skills| => RowOf(stats, Skills[i]))
  }

  datatype SelectedSkill = SelectedSkill(name: string, mod: int)

  /** `selectedSkill?.mod || 0`: the bonus the dice dialog receives. */
  function OverlayBonus(selected: Option<SelectedSkill>): (b: int)
    ensures selected.None? ==> b == 0
    ensures selected.Some? ==> b == selected.value.mod
  {
    match selected
    case None => 0
    case Some(s) => if s.mod == 0 then 0 else s.mod
  }

  /** The dialog's title: "<skill> Check", or "Zar At" before any skill was chosen. */
  function OverlayTitle(selected: Option<SelectedSkill>): (t: string)
    ensures selected.Some? ==> t == selected.value.name + " Check"
    ensures selected.None? ==> t == "Zar At"
  {
    if selected.Some? then selected.value.name + " Check" else "Zar At"
  }

  class SkillsCard {
    const stats: map<string, int>
    var diceOpen: bool
    var selectedSkill: Option<SelectedSkill>

    constructor (stats: map<string, int>)
      ensures this.stats == stats && !diceOpen && selectedSkill.None?
    {
      this.stats := stats;
      diceOpen := false;
      selectedSkill := None;
    }

    /** `handleRoll`: remember the skill with its modifier and open the dialog. */
    method HandleRoll(skillName: string, statKey: string)
      modifies this
      ensures selectedSkill == Some(SelectedSkill(skillName, Modifier(StatValue(stats, statKey))))
      ensures diceOpen
      ensures OverlayBonus(selectedSkill) == RowOf(stats, Skill(skillName, statKey)).mod
    {
      var statVal := if statKey in stats && stats[statKey] != 0 then stats[statKey] else 10;
      var mod := Modifier(statVal);
      selectedSkill := Some(SelectedSkill(skillName, mod));
      diceOpen := true;
    }
  }

  /** Clicking row `i` hands the dialog exactly the modifier that row shows. */
  lemma BonusMatchesRow(stats: map<string, int>, i: nat)
    requires i < |Skills|
    ensures OverlayBonus(Some(SelectedSkill(Skills[i].name, Modifier(StatValue(stats, Skills[i].stat)))))
            == Rows(stats)[i].mod
  {
  }
}
