/**
 * The data model of the Design Skills Matrix: the five-point level scale,
 * a competency (skill) with one description per level, and the selection
 * map from competency id to chosen level.
 */
module SkillTypes {
  import opened Wrappers

  /** A proficiency level: exactly the integers 1 to 5. */
  type Level = x: int | 1 <= x <= 5 witness 1

  /** The five levels in ascending order. */
  const LEVELS: seq<Level> := [1, 2, 3, 4, 5]

  /** The human-readable name of every level. */
  const LEVEL_LABELS: map<Level, string> :=
    map[1 := "Learner", 2 := "Junior", 3 := "Practitioner", 4 := "Advanced", 5 := "Expert"]

  /** The text shown for one level of one competency. */
  datatype LevelDetail = LevelDetail(title: string, description: string, bullets: seq<string>)

  /** One detail per level; a competency cannot lack any of the five. */
  datatype LevelTable = LevelTable(
    learner: LevelDetail, junior: LevelDetail, practitioner: LevelDetail,
    advanced: LevelDetail, expert: LevelDetail)
  {
    /** `levels[l]`. */
    function At(l: Level): LevelDetail {
      if l == 1 then learner
      else if l == 2 then junior
      else if l == 3 then practitioner
      else if l == 4 then advanced
      else expert
    }
  }

  /** A competency; `name` is the display label (`label` is a Dafny keyword). */
  datatype Skill = Skill(id: string, name: string, category: Option<string>, levels: LevelTable)

  /** The user's choices: a competency id is either mapped to a level or absent (not rated). */
  type Selections = map<string, Level>

  /** `createSkill`: a record holding exactly its arguments. */
  function CreateSkill(id: string, name: string, levels: LevelTable, category: Option<string>): (s: Skill)
    ensures s.id == id && s.name == name && s.levels == levels && s.category == category
  {
    Skill(id, name, category, levels)
  }

  /** The ids of a list of competencies, in list order (the source turns them into a `Set`). */
  function Ids(skills: seq<Skill>): (ids: seq<string>)
    ensures |ids| == |skills|
    ensures forall i :: 0 <= i < |skills| ==> ids[i] == skills[i].id
  {
    if skills == [] then [] else [skills[0].id] + Ids(skills[1..])
  }

  /** `LEVELS` lists each level once, in ascending order, and nothing else. */
  lemma {:induction false} LevelsAreTheScale()
    ensures |LEVELS| == 5
    ensures forall i, j :: 0 <= i < j < |LEVELS| ==> LEVELS[i] < LEVELS[j]
    ensures forall x: int :: x in LEVELS <==> 1 <= x <= 5
  {
  }

  /** `LEVEL_LABELS` names every level, with five different names. */
  lemma {:induction false} LevelLabelsTotalAndDistinct()
    ensures forall l: Level, m: Level ::
      l in LEVEL_LABELS && m in LEVEL_LABELS && (l != m ==> LEVEL_LABELS[l] != LEVEL_LABELS[m])
    ensures LEVEL_LABELS[1] == "Learner" && LEVEL_LABELS[5] == "Expert"
  {
    forall l: Level, m: Level
      ensures l in LEVEL_LABELS && m in LEVEL_LABELS && (l != m ==> LEVEL_LABELS[l] != LEVEL_LABELS[m])
    {
      assert l == 1 || l == 2 || l == 3 || l == 4 || l == 5;
      assert m == 1 || m == 2 || m == 3 || m == 4 || m == 5;
    }
  }

  /** Every competency has a detail at every level, and the table's five slots are the five levels. */
  lemma {:induction false} EveryLevelHasDetail(s: Skill)
    ensures s.levels.At(1) == s.levels.learner && s.levels.At(2) == s.levels.junior
    ensures s.levels.At(3) == s.levels.practitioner && s.levels.At(4) == s.levels.advanced
    ensures s.levels.At(5) == s.levels.expert
  {
  }
}
