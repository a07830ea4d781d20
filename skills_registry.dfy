/**
 * The skills data index: the registry of specialty catalogs, their labels,
 * the options of the specialty drop-down and the storage keys under which
 * each lane persists its selections. The catalogs' prose is not modelled; a
 * catalog is named by which file it comes from.
 */
module SkillsRegistry {
  import opened Wrappers
  import opened Strings

  /** The specialty catalogs the registry can hand out. */
  datatype Catalog = StrategistSkills | UiDesignerSkills | UxArchitectSkills | VisualDesignerSkills

  /** The registry keys, in the order the records list them. */
  const SPECIALTY_KEYS: seq<string> := ["strategist", "ui-designer", "ux-architect", "visual-designer"]

  /** `specialtySkills`. */
  const SPECIALTY_SKILLS: map<string, Catalog> := map[
    "strategist" := StrategistSkills,
    "ui-designer" := UiDesignerSkills,
    "ux-architect" := UxArchitectSkills,
    "visual-designer" := VisualDesignerSkills]

  /** `specialtyLabels`. */
  const SPECIALTY_LABELS: map<string, string> := map[
    "strategist" := "UX Strategist",
    "ui-designer" := "UI Designer",
    "ux-architect" := "UX Architect",
    "visual-designer" := "Visual Designer"]

  /** One entry of a drop-down. */
  datatype SelectOption = SelectOption(value: string, text: string)

  /** The value that stands for "no specialty". */
  const NONE_KEY: string := "none"

  /** `specialtyOptions`. */
  const SPECIALTY_OPTIONS: seq<SelectOption> := [
    SelectOption("strategist", "UX Strategist"),
    SelectOption("ui-designer", "UI Designer"),
    SelectOption("ux-architect", "UX Architect"),
    SelectOption("visual-designer", "Visual Designer"),
    SelectOption("none", "None")]

  /** The lanes that persist selections. */
  datatype Lane = Baseline | Strategist | UiDesigner | UxArchitect | VisualDesigner

  /** The lane's name inside its storage key. */
  function LaneName(lane: Lane): string {
    match lane
    case Baseline => "baseline"
    case Strategist => "strategist"
    case UiDesigner => "ui-designer"
    case UxArchitect => "ux-architect"
    case VisualDesigner => "visual-designer"
  }

  /** The version digit of the lane's storage key: 6 for the two older lanes, 1 for the rest. */
  function LaneVersion(lane: Lane): char {
    match lane
    case Baseline => '6'
    case Strategist => '6'
    case UiDesigner => '1'
    case UxArchitect => '1'
    case VisualDesigner => '1'
  }

  /**
   * `STORAGE_KEYS`: `"design-skills-matrix:lanes:"`, the lane's name, `":v"`
   * and its version digit (so `"design-skills-matrix:lanes:baseline:v6"`).
   */
  function StorageKey(lane: Lane): string {
    LANES_PREFIX + LaneName(lane) + ":v" + [LaneVersion(lane)]
  }

  /** `specialtySkills[key]`: the catalog for a drop-down value, `undefined` for any other. */
  function CatalogFor(key: string): (c: Option<Catalog>)
    ensures c.Some? <==> key in SPECIALTY_KEYS
  {
    if key in SPECIALTY_SKILLS then Some(SPECIALTY_SKILLS[key]) else None
  }

  /**
   * The two records have exactly the registry keys, and the drop-down lists
   * those keys in registry order with the registry's labels, then "none".
   */
  lemma {:induction false} RegistryConsistent()
    ensures SPECIALTY_SKILLS.Keys == SPECIALTY_LABELS.Keys == set k | k in SPECIALTY_KEYS
    ensures |SPECIALTY_OPTIONS| == |SPECIALTY_KEYS| + 1
    ensures forall i :: 0 <= i < |SPECIALTY_KEYS| ==>
      SPECIALTY_OPTIONS[i].value == SPECIALTY_KEYS[i] && SPECIALTY_OPTIONS[i].text == SPECIALTY_LABELS[SPECIALTY_KEYS[i]]
    ensures SPECIALTY_OPTIONS[|SPECIALTY_KEYS|] == SelectOption(NONE_KEY, "None")
  {
  }

  /** Every drop-down value but the last selects a catalog, each a different one; "none" selects none. */
  lemma {:induction false} OptionsSelectCatalogs()
    ensures forall i :: 0 <= i < |SPECIALTY_OPTIONS| ==>
      (CatalogFor(SPECIALTY_OPTIONS[i].value).None? <==> SPECIALTY_OPTIONS[i].value == NONE_KEY)
    ensures forall i, j :: 0 <= i < j < |SPECIALTY_KEYS| ==> CatalogFor(SPECIALTY_KEYS[i]) != CatalogFor(SPECIALTY_KEYS[j])
    ensures CatalogFor(NONE_KEY) == None
  {
  }

  /** The version suffix `":v<N>"`: a colon, a `v` and one or more digits, ending the key. */
  predicate VersionSuffix(key: string, n: nat) {
    n >= 1 && n + 2 <= |key| && key[|key| - n - 2..|key| - n] == ":v"
    && forall i :: |key| - n <= i < |key| ==> '0' <= key[i] <= '9'
  }

  const LANES_PREFIX: string := "design-skills-matrix:lanes:"

  /** Every storage key starts with the common prefix and ends in a one-digit version suffix. */
  lemma {:induction false} StorageKeyWellFormed(lane: Lane)
    ensures StartsWith(StorageKey(lane), LANES_PREFIX)
    ensures VersionSuffix(StorageKey(lane), 1)
  {
    KeyWellFormed(LaneName(lane), LaneVersion(lane));
  }

  /** A key built as prefix, lane name, ":v" and a digit is well formed. */
  lemma {:induction false} KeyWellFormed(name: string, digit: char)
    requires '0' <= digit <= '9'
    ensures var k := LANES_PREFIX + name + ":v" + [digit];
      StartsWith(k, LANES_PREFIX) && VersionSuffix(k, 1)
  {
    var k := LANES_PREFIX + name + ":v" + [digit];
    assert k[..|LANES_PREFIX|] == LANES_PREFIX;
    assert k[|k| - 3..|k| - 1] == ":v";
  }

  /** The key lengths: a different lane name gives a different length. */
  function KeyLength(lane: Lane): nat {
    match lane
    case Baseline => 38
    case Strategist => 40
    case UiDesigner => 41
    case UxArchitect => 42
    case VisualDesigner => 45
  }

  /** The five storage keys are pairwise different, so no lane overwrites another's selections. */
  lemma {:induction false} StorageKeysDistinct(a: Lane, b: Lane)
    ensures a != b ==> StorageKey(a) != StorageKey(b)
  {
    KeyLengthIs(a);
    KeyLengthIs(b);
  }

  /** Each storage key has its lane's length. */
  lemma {:induction false} KeyLengthIs(lane: Lane)
    ensures |StorageKey(lane)| == KeyLength(lane)
  {
    match lane {
      case Baseline =>
      case Strategist =>
      case UiDesigner =>
      case UxArchitect =>
      case VisualDesigner =>
    }
  }
}
