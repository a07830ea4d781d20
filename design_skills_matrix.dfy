/**
 * The self-contained Design Skills Matrix page: its own competency record
 * built by `mkSkill`, two lanes (baseline and the strategist specialty) kept
 * in separate stores, the specialty switch, the page's mount-time load, and
 * its two charts, which differ from the current ones in their radii, their
 * always-drawn background wedges and their hidden centre title.
 *
 * Each lane is the lane card of `SkillsLaneCard` without the keyboard,
 * the swipe, the track tap and the Clear All button; the page holds the
 * two maps.
 */
module DesignSkillsMatrix {
  import opened Wrappers
  import opened Strings
  import opened Json
  import opened SkillTypes
  import opened SkillsUtils
  import opened SkillsLaneCard
  import PV = ProficiencyVisualized

  // ---------------------------------------------------------------------------
  // The page's own competency record
  // ---------------------------------------------------------------------------

  /** One level of a competency: a title and its bullet points. */
  datatype LegacyLevel = LegacyLevel(title: string, bullets: seq<string>)

  /** A competency of this page; `name` is the display name. */
  datatype LegacySkill = LegacySkill(id: string, name: string, category: Option<string>, levels: map<Level, LegacyLevel>)

  /** The placeholder shown for a bullet the catalog does not supply. */
  const DASH: string := "—"

  const BASICS: string := "Can describe the basics."
  const GUIDANCE: string := "Contributes with guidance."
  const OWNS: string := "Independently owns scoped work."
  const LEADS: string := "Leads complex work and mentors others."
  const STANDARDS: string := "Sets standards and drives strategy."

  /** The level titles; the first is followed by the lower-cased name. */
  const UNDERSTANDS: string := "Understands "
  const WITH_SUPPORT: string := "Applies with support"
  const PRACTITIONER: string := "Practitioner"
  const ADVANCED: string := "Advanced"
  const EXPERT: string := "Expert"

  /** `bullets[i]`: `undefined` past the end. */
  function Nth(bullets: seq<string>, i: nat): (r: Option<string>)
    ensures r.Some? <==> i < |bullets|
    ensures r.Some? ==> r.value == bullets[i]
  {
    if i < |bullets| then Some(bullets[i]) else None
  }

  /** `mk(title, b)`: the level with the empty strings of `b` dropped. */
  function Mk(title: string, b: seq<string>): LegacyLevel {
    LegacyLevel(title, NonEmpty(b))
  }

  /** The fixed sentence each level's bullets open with. */
  function LeadSentence(l: Level): string {
    if l == 1 then BASICS
    else if l == 2 then GUIDANCE
    else if l == 3 then OWNS
    else if l == 4 then LEADS
    else STANDARDS
  }

  /**
   * Level `l` of `mkSkill`'s record: its title, its fixed sentence and the
   * supplied bullets it shows, the placeholder standing in for a missing one.
   */
  function LevelFor(name: string, bullets: seq<string>, l: Level): LegacyLevel {
    var b0 := Nth(bullets, 0).OrElse(DASH);
    var b1 := Nth(bullets, 1).OrElse(DASH);
    var b2 := Nth(bullets, 2).OrElse(DASH);
    if l == 1 then Mk(UNDERSTANDS + Lower(name), [BASICS, b0])
    else if l == 2 then Mk(WITH_SUPPORT, [GUIDANCE, b0, b1])
    else if l == 3 then Mk(PRACTITIONER, [OWNS, Nth(bullets, 1).OrElse(b0), b2])
    else if l == 4 then Mk(ADVANCED, [LEADS, b0, b1, b2])
    else Mk(EXPERT, [STANDARDS, Nth(bullets, 2).OrElse(Nth(bullets, 1).OrElse(b0))])
  }

  /** `mkSkill`: the five levels are generated from at most three bullets; every level is present. */
  function MkSkill(id: string, name: string, bullets: seq<string>, category: Option<string>): (s: LegacySkill)
    ensures s.id == id && s.name == name && s.category == category
    ensures forall l: Level :: l in s.levels
  {
    LegacySkill(id, name, category, map l: Level | 1 <= l <= 5 :: LevelFor(name, bullets, l))
  }

  /** Dropping the empty strings keeps a non-empty first element in front. */
  lemma {:induction false} NonEmptyLead(xs: seq<string>)
    requires xs != [] && xs[0] != ""
    ensures NonEmpty(xs) != [] && NonEmpty(xs)[0] == xs[0]
  {
  }

  /** Every level opens with its fixed sentence and holds no empty bullet. */
  lemma {:induction false} MkSkillLevelShape(id: string, name: string, bs: seq<string>, category: Option<string>, l: Level)
    ensures var s := MkSkill(id, name, bs, category);
      && s.levels[l].bullets != []
      && s.levels[l].bullets[0] == LeadSentence(l)
      && forall j :: 0 <= j < |s.levels[l].bullets| ==> s.levels[l].bullets[j] != ""
  {
    var b0 := Nth(bs, 0).OrElse(DASH);
    var b1 := Nth(bs, 1).OrElse(DASH);
    var b2 := Nth(bs, 2).OrElse(DASH);
    if l == 1 {
      NonEmptyLead([BASICS, b0]);
    } else if l == 2 {
      NonEmptyLead([GUIDANCE, b0, b1]);
    } else if l == 3 {
      NonEmptyLead([OWNS, Nth(bs, 1).OrElse(b0), b2]);
    } else if l == 4 {
      NonEmptyLead([LEADS, b0, b1, b2]);
    } else {
      NonEmptyLead([STANDARDS, Nth(bs, 2).OrElse(Nth(bs, 1).OrElse(b0))]);
    }
  }

  /**
   * With three supplied bullets, Advanced lists all three in order, the
   * lower levels introduce them one at a time, Practitioner shows the second
   * and third, and Expert only the third.
   */
  lemma {:induction false} MkSkillThreeBullets(id: string, name: string, bs: seq<string>, category: Option<string>)
    requires |bs| == 3 && bs[0] != "" && bs[1] != "" && bs[2] != ""
    ensures var s := MkSkill(id, name, bs, category);
      && s.levels[1].bullets == [BASICS, bs[0]]
      && s.levels[2].bullets == [GUIDANCE, bs[0], bs[1]]
      && s.levels[3].bullets == [OWNS, bs[1], bs[2]]
      && s.levels[4].bullets == [LEADS] + bs
      && s.levels[5].bullets == [STANDARDS, bs[2]]
  {
  }

  /** With no bullets every generated bullet is the placeholder, so each level still shows its full shape. */
  lemma {:induction false} MkSkillNoBullets(id: string, name: string, category: Option<string>)
    ensures var s := MkSkill(id, name, [], category);
      && s.levels[1].bullets == [BASICS, DASH]
      && s.levels[2].bullets == [GUIDANCE, DASH, DASH]
      && s.levels[3].bullets == [OWNS, DASH, DASH]
      && s.levels[4].bullets == [LEADS, DASH, DASH, DASH]
      && s.levels[5].bullets == [STANDARDS, DASH]
  {
  }

  /**
   * Expert falls back along the bullets: it shows the last one supplied among
   * the first three, and the placeholder only when none is.
   */
  lemma {:induction false} MkSkillExpertFallback(id: string, name: string, bs: seq<string>, category: Option<string>)
    requires forall i :: 0 <= i < |bs| ==> bs[i] != ""
    ensures var s := MkSkill(id, name, bs, category);
      s.levels[5].bullets == [STANDARDS, if |bs| == 0 then DASH else bs[if |bs| < 3 then |bs| - 1 else 2]]
  {
  }

  /**
   * A supplied but empty bullet is not replaced by the placeholder (`??`
   * only replaces a missing one); it is dropped instead, so the level is
   * shorter than with no bullet at all.
   */
  lemma {:induction false} MkSkillEmptyBulletDropped(id: string, name: string, bs: seq<string>, category: Option<string>)
    requires |bs| >= 1 && bs[0] == ""
    ensures MkSkill(id, name, bs, category).levels[1].bullets == [BASICS]
    ensures MkSkill(id, name, [], category).levels[1].bullets == [BASICS, DASH]
  {
    assert Nth(bs, 0).OrElse(DASH) == "";
    assert NonEmpty([""]) == [];
    assert [BASICS, ""][1..] == [""];
  }

  /**
   * The first level is titled after the lower-cased name; the top three
   * titles are the names of their levels on the five-point scale.
   */
  lemma {:induction false} MkSkillTitles(id: string, name: string, bs: seq<string>, category: Option<string>)
    ensures var s := MkSkill(id, name, bs, category);
      && StartsWith(s.levels[1].title, "Understands ")
      && s.levels[1].title[|"Understands "|..] == Lower(name)
      && forall l: Level :: l >= 3 ==> s.levels[l].title == LEVEL_LABELS[l]
  {
    var s := MkSkill(id, name, bs, category);
    assert s.levels[1].title == "Understands " + Lower(name);
  }

  // ---------------------------------------------------------------------------
  // Catalogs and storage keys
  // ---------------------------------------------------------------------------

  const STORAGE_KEY_BASE: string := "design-skills-matrix:lanes:baseline:v6"
  const STORAGE_KEY_SPEC: string := "design-skills-matrix:lanes:strategist:v6"

  /** The ids of the baseline lane, in order (the bullet text is not modelled). */
  const BASELINE_IDS: seq<string> := [
    "quant-research", "qual-research", "design-thinking", "facilitation", "interface-design",
    "wireframing", "user-flows", "service-design", "information-architecture", "ux-strategy",
    "agile-methods"]

  /** The ids of the strategist lane, in order. */
  const STRATEGIST_IDS: seq<string> := [
    "frontend-dev", "vision-setting", "roadmapping", "data-analysis", "artifact-creation",
    "business-alignment", "stakeholder-mgmt"]

  /** Distinct elements. */
  predicate Distinct(xs: seq<string>) {
    forall i, j :: 0 <= i < j < |xs| ==> xs[i] != xs[j]
  }

  /**
   * The two lanes are stored under different keys and share no id, so a
   * stored map of one lane can never rate a competency of the other.
   */
  lemma {:induction false} CatalogsSeparate()
    ensures STORAGE_KEY_BASE != STORAGE_KEY_SPEC
    ensures |BASELINE_IDS| == 11 && |STRATEGIST_IDS| == 7
    ensures Distinct(BASELINE_IDS) && Distinct(STRATEGIST_IDS)
    ensures forall k :: k in BASELINE_IDS ==> k !in STRATEGIST_IDS
  {
    assert STORAGE_KEY_BASE[27] != STORAGE_KEY_SPEC[27];
  }

  // ---------------------------------------------------------------------------
  // The page's charts
  // ---------------------------------------------------------------------------

  /** This page's radii: radar radius 200; polar wedges from 70 out to 245. */
  const LEGACY: PV.Geometry := PV.Geometry(200.0, 70.0, 245.0)

  /**
   * This page's `ProficiencyVisualized`: the same two charts, with the
   * centre title never shown and every polar background wedge drawn.
   */
  function Render(skills: seq<Skill>, sel: Selections, mode: PV.VizMode): (c: PV.Chart)
    ensures !c.showCenter
    ensures c.RadarChart? <==> mode == PV.Radar
    ensures c.PolarChart? ==> c.backgrounds == Ids(skills)
  {
    match mode
    case Radar =>
      PV.RadarChart(PV.RadarDivisor(|skills|), PV.RadarRings(LEGACY), PV.RadarRadii(skills, sel, LEGACY), false)
    case Polar =>
      PV.PolarChart(PV.PolarDivisor(|skills|), PV.PolarRings(LEGACY), PV.PolarRadii(skills, sel, LEGACY), Ids(skills), false)
  }

  /** A radar point lies at 40 times its level, at most the outer ring (200). */
  lemma {:induction false} RadarRadiusLegacy(skills: seq<Skill>, sel: Selections, i: nat)
    requires i < |skills|
    ensures var r := Render(skills, sel, PV.Radar).radii[i];
      && r == 40.0 * PV.LevelOrZero(sel, skills[i].id) as real
      && 0.0 <= r <= 200.0
      && (r == 0.0 <==> skills[i].id !in sel)
  {
  }

  /** A polar wedge reaches 70 + 35 times its level, inside [70, 245]; each ring passes through its level. */
  lemma {:induction false} PolarRadiusLegacy(skills: seq<Skill>, sel: Selections, i: nat)
    requires i < |skills|
    ensures var c := Render(skills, sel, PV.Polar);
      var r := c.radii[i];
      && r == 70.0 + 35.0 * PV.LevelOrZero(sel, skills[i].id) as real
      && 70.0 <= r <= 245.0
      && (r == 70.0 <==> skills[i].id !in sel)
      && (skills[i].id in sel ==> r == c.rings[sel[skills[i].id] - 1])
  {
  }

  // ---------------------------------------------------------------------------
  // The page
  // ---------------------------------------------------------------------------

  datatype Specialty = Strategist | NoSpecialty

  /** The value a key holds, as `safeJsonParse(localStorage.getItem(key))` returns it. */
  function Stored(storage: map<string, Json>, key: string): (v: Json)
    ensures key !in storage ==> v == JNull
  {
    if key in storage then storage[key] else JNull
  }

  /** The storage after a write to `key` that goes through exactly when `ok`; a refused write is caught and ignored. */
  function WriteIf(storage: map<string, Json>, ok: bool, key: string, v: Json): (s: map<string, Json>)
    ensures Stored(s, key) == if ok then v else Stored(storage, key)
    ensures s - {key} == storage - {key}
  {
    if ok then storage[key := v] else storage
  }

  /**
   * Writing the two lanes' keys, each only when the storage accepts it: each
   * key reads back its written value or its old one, and nothing else changes.
   */
  lemma {:induction false} StoreBoth(storage: map<string, Json>, baseOk: bool, x: Json, specOk: bool, y: Json)
    ensures var s := WriteIf(WriteIf(storage, baseOk, STORAGE_KEY_BASE, x), specOk, STORAGE_KEY_SPEC, y);
      && Stored(s, STORAGE_KEY_BASE) == (if baseOk then x else Stored(storage, STORAGE_KEY_BASE))
      && Stored(s, STORAGE_KEY_SPEC) == (if specOk then y else Stored(storage, STORAGE_KEY_SPEC))
      && s - {STORAGE_KEY_BASE, STORAGE_KEY_SPEC} == storage - {STORAGE_KEY_BASE, STORAGE_KEY_SPEC}
  {
    assert STORAGE_KEY_BASE != STORAGE_KEY_SPEC by {
      assert STORAGE_KEY_BASE[27] != STORAGE_KEY_SPEC[27];
    }
    var t := WriteIf(storage, baseOk, STORAGE_KEY_BASE, x);
    var s := WriteIf(t, specOk, STORAGE_KEY_SPEC, y);
    assert s - {STORAGE_KEY_BASE, STORAGE_KEY_SPEC} == (s - {STORAGE_KEY_SPEC}) - {STORAGE_KEY_BASE};
    assert storage - {STORAGE_KEY_BASE, STORAGE_KEY_SPEC} == (storage - {STORAGE_KEY_BASE}) - {STORAGE_KEY_SPEC};
  }

  /** `JSON.stringify({})`, read back. */
  const EMPTY_OBJECT: Json := JObject([])

  /**
   * The page: the chosen specialty, the two lanes' maps (held here and
   * edited by the lanes) and the browser's local storage.
   */
  class MatrixPage {
    const baseline: seq<Skill>
    const strategist: seq<Skill>
    var specialty: Specialty
    var baselineSelections: Selections
    var strategistSelections: Selections
    var storage: map<string, Json>

    /** Each map rates only competencies of its own lane. */
    predicate Valid()
      reads this
    {
      && Ids(baseline) == BASELINE_IDS && Ids(strategist) == STRATEGIST_IDS
      && (forall k :: k in baselineSelections ==> k in BASELINE_IDS)
      && (forall k :: k in strategistSelections ==> k in STRATEGIST_IDS)
    }

    /** The first render: the strategist specialty, both maps empty. */
    constructor(baseline: seq<Skill>, strategist: seq<Skill>, storage: map<string, Json>)
      requires Ids(baseline) == BASELINE_IDS && Ids(strategist) == STRATEGIST_IDS
      ensures Valid()
      ensures this.baseline == baseline && this.strategist == strategist
      ensures specialty == Strategist && baselineSelections == map[] && strategistSelections == map[]
      ensures this.storage == storage
    {
      this.baseline := baseline;
      this.strategist := strategist;
      specialty := Strategist;
      baselineSelections := map[];
      strategistSelections := map[];
      this.storage := storage;
    }

    /**
     * The mount effects in the order React runs them: the lanes are children
     * of the page, so their persist effects run first and write the initial
     * empty maps over both keys; the page's load effect then reads those
     * back. Whatever was stored before is lost. A write the storage refuses
     * (`baseOk` or `specOk` false) is caught and ignored, and the load then
     * reads the old value under that key.
     */
    method MountAsWritten(baseOk: bool, specOk: bool)
      requires Valid() && baselineSelections == map[] && strategistSelections == map[]
      modifies this
      ensures Valid()
      ensures Stored(storage, STORAGE_KEY_BASE) == if baseOk then EMPTY_OBJECT else Stored(old(storage), STORAGE_KEY_BASE)
      ensures Stored(storage, STORAGE_KEY_SPEC) == if specOk then EMPTY_OBJECT else Stored(old(storage), STORAGE_KEY_SPEC)
      ensures storage - {STORAGE_KEY_BASE, STORAGE_KEY_SPEC} == old(storage) - {STORAGE_KEY_BASE, STORAGE_KEY_SPEC}
      ensures baseOk ==> baselineSelections == map[]
      ensures specOk ==> strategistSelections == map[]
      ensures baselineSelections == Normalize(Stored(storage, STORAGE_KEY_BASE), BASELINE_IDS)
      ensures strategistSelections == Normalize(Stored(storage, STORAGE_KEY_SPEC), STRATEGIST_IDS)
      ensures specialty == old(specialty)
    {
      var es := Serialize(baselineSelections);
      KeysOfNonEmpty(es);
      var fs := Serialize(strategistSelections);
      KeysOfNonEmpty(fs);
      StoreBoth(storage, baseOk, JObject(es), specOk, JObject(fs));
      storage := WriteIf(WriteIf(storage, baseOk, STORAGE_KEY_BASE, JObject(es)), specOk, STORAGE_KEY_SPEC, JObject(fs));
      NormalizeKeysValid(Stored(storage, STORAGE_KEY_BASE), BASELINE_IDS);
      NormalizeKeysValid(Stored(storage, STORAGE_KEY_SPEC), STRATEGIST_IDS);
      baselineSelections := Normalize(Stored(storage, STORAGE_KEY_BASE), BASELINE_IDS);
      strategistSelections := Normalize(Stored(storage, STORAGE_KEY_SPEC), STRATEGIST_IDS);
    }

    /**
     * The mount as intended: each lane's stored map is loaded and normalised
     * before anything is persisted. Persisting keeps what was loaded: a write
     * that goes through stores the map itself, and a refused one leaves the
     * value it was loaded from, which normalises to the same map.
     */
    method Mount(baseOk: bool, specOk: bool)
      requires Valid()
      modifies this
      ensures Valid()
      ensures baselineSelections == Normalize(Stored(old(storage), STORAGE_KEY_BASE), BASELINE_IDS)
      ensures strategistSelections == Normalize(Stored(old(storage), STORAGE_KEY_SPEC), STRATEGIST_IDS)
      ensures Normalize(Stored(storage, STORAGE_KEY_BASE), BASELINE_IDS) == baselineSelections
      ensures Normalize(Stored(storage, STORAGE_KEY_SPEC), STRATEGIST_IDS) == strategistSelections
      ensures !baseOk ==> Stored(storage, STORAGE_KEY_BASE) == Stored(old(storage), STORAGE_KEY_BASE)
      ensures !specOk ==> Stored(storage, STORAGE_KEY_SPEC) == Stored(old(storage), STORAGE_KEY_SPEC)
      ensures storage - {STORAGE_KEY_BASE, STORAGE_KEY_SPEC} == old(storage) - {STORAGE_KEY_BASE, STORAGE_KEY_SPEC}
      ensures specialty == old(specialty)
    {
      var base := Normalize(Stored(storage, STORAGE_KEY_BASE), BASELINE_IDS);
      var spec := Normalize(Stored(storage, STORAGE_KEY_SPEC), STRATEGIST_IDS);
      NormalizeKeysValid(Stored(storage, STORAGE_KEY_BASE), BASELINE_IDS);
      NormalizeKeysValid(Stored(storage, STORAGE_KEY_SPEC), STRATEGIST_IDS);
      baselineSelections, strategistSelections := base, spec;
      var es := Serialize(base);
      NormalizeRoundTrip(es, base, BASELINE_IDS);
      var fs := Serialize(spec);
      NormalizeRoundTrip(fs, spec, STRATEGIST_IDS);
      StoreBoth(storage, baseOk, JObject(es), specOk, JObject(fs));
      storage := WriteIf(WriteIf(storage, baseOk, STORAGE_KEY_BASE, JObject(es)), specOk, STORAGE_KEY_SPEC, JObject(fs));
    }

    /** Choosing `s` in the drop-down while `before` is chosen brings the strategist lane back on screen. */
    static predicate Remounts(before: Specialty, s: Specialty) {
      before == NoSpecialty && s == Strategist
    }

    /**
     * The specialty drop-down. Neither map changes, so switching back
     * restores the lane. Bringing the strategist lane back mounts it afresh,
     * and its persist effect writes the strategist map again (`writeOk` says
     * whether the storage accepts it); any other choice writes nothing.
     */
    method SelectSpecialty(s: Specialty, writeOk: bool)
      requires Valid()
      modifies this
      ensures Valid()
      ensures specialty == s
      ensures baselineSelections == old(baselineSelections) && strategistSelections == old(strategistSelections)
      ensures Remounts(old(specialty), s) && writeOk ==>
        Normalize(Stored(storage, STORAGE_KEY_SPEC), STRATEGIST_IDS) == strategistSelections
      ensures !(Remounts(old(specialty), s) && writeOk) ==> storage == old(storage)
      ensures storage - {STORAGE_KEY_SPEC} == old(storage) - {STORAGE_KEY_SPEC}
    {
      var remount := Remounts(specialty, s);
      specialty := s;
      if remount && writeOk {
        var es := Serialize(strategistSelections);
        NormalizeRoundTrip(es, strategistSelections, STRATEGIST_IDS);
        storage := storage[STORAGE_KEY_SPEC := JObject(es)];
      }
    }

    /** The storage keys of the lanes on screen: the strategist lane is hidden under "none". */
    function VisibleLanes(): (keys: seq<string>)
      reads this
      ensures |keys| >= 1 && keys[0] == STORAGE_KEY_BASE
      ensures specialty == Strategist ==> STORAGE_KEY_SPEC in keys
      ensures specialty == NoSpecialty ==> STORAGE_KEY_SPEC !in keys
    {
      assert STORAGE_KEY_BASE[27] != STORAGE_KEY_SPEC[27];
      assert STORAGE_KEY_SPEC !in [STORAGE_KEY_BASE];
      if specialty == NoSpecialty then [STORAGE_KEY_BASE] else [STORAGE_KEY_BASE, STORAGE_KEY_SPEC]
    }

    /** The coverage chips in the header: baseline always, strategist only when that lane is shown. */
    function CoverageChips(): (chips: seq<(nat, nat)>)
      reads this
      requires Valid()
      ensures |chips| == |VisibleLanes()|
      ensures chips[0].0 <= chips[0].1 == 11
      ensures |chips| == 2 ==> chips[1].0 <= chips[1].1 == 7
    {
      var b := (Filled(baseline, baselineSelections), |baseline|);
      if specialty == NoSpecialty then [b] else [b, (Filled(strategist, strategistSelections), |strategist|)]
    }

    /**
     * A level committed on the baseline lane (a track click), followed by
     * that lane's persist effect: the strategist map and its stored copy are
     * untouched.
     */
    method SetBaselineLevel(id: string, l: Level, writeOk: bool)
      requires Valid() && id in BASELINE_IDS
      modifies this
      ensures Valid()
      ensures baselineSelections == old(baselineSelections)[id := l]
      ensures writeOk ==> Normalize(Stored(storage, STORAGE_KEY_BASE), BASELINE_IDS) == baselineSelections
      ensures !writeOk ==> storage == old(storage)
      ensures strategistSelections == old(strategistSelections) && specialty == old(specialty)
      ensures storage - {STORAGE_KEY_BASE} == old(storage) - {STORAGE_KEY_BASE}
    {
      baselineSelections := baselineSelections[id := l];
      if writeOk {
        var es := Serialize(baselineSelections);
        NormalizeRoundTrip(es, baselineSelections, BASELINE_IDS);
        storage := storage[STORAGE_KEY_BASE := JObject(es)];
      }
    }

    /** The same on the strategist lane. */
    method SetStrategistLevel(id: string, l: Level, writeOk: bool)
      requires Valid() && id in STRATEGIST_IDS
      modifies this
      ensures Valid()
      ensures strategistSelections == old(strategistSelections)[id := l]
      ensures writeOk ==> Normalize(Stored(storage, STORAGE_KEY_SPEC), STRATEGIST_IDS) == strategistSelections
      ensures !writeOk ==> storage == old(storage)
      ensures baselineSelections == old(baselineSelections) && specialty == old(specialty)
      ensures storage - {STORAGE_KEY_SPEC} == old(storage) - {STORAGE_KEY_SPEC}
    {
      strategistSelections := strategistSelections[id := l];
      if writeOk {
        var es := Serialize(strategistSelections);
        NormalizeRoundTrip(es, strategistSelections, STRATEGIST_IDS);
        storage := storage[STORAGE_KEY_SPEC := JObject(es)];
      }
    }
  }

  /** The strategist map stored by an earlier visit: `{"frontend-dev":5}`. */
  const SAVED_SPEC: Json := JObject([("frontend-dev", JNumber(Finite(5.0)))])

  /**
   * A reload with `{"frontend-dev":5}` stored: the page as written comes up
   * with an empty strategist lane and overwrites the stored map with `{}`;
   * the corrected mount restores level 5.
   */
  method ReloadScenario(baseline: seq<Skill>, strategist: seq<Skill>)
    returns (asWritten: Selections, corrected: Selections, storedAfter: Json)
    requires Ids(baseline) == BASELINE_IDS && Ids(strategist) == STRATEGIST_IDS
    ensures asWritten == map[] && storedAfter == EMPTY_OBJECT
    ensures corrected == map["frontend-dev" := 5]
  {
    var storage := map[STORAGE_KEY_SPEC := SAVED_SPEC];
    var page := new MatrixPage(baseline, strategist, storage);
    page.MountAsWritten(true, true);
    asWritten, storedAfter := page.strategistSelections, page.storage[STORAGE_KEY_SPEC];
    var fixed := new MatrixPage(baseline, strategist, storage);
    fixed.Mount(true, true);
    corrected := fixed.strategistSelections;
    SavedSpecNormalizes();
  }

  /**
   * A rating whose write is refused, then hiding and showing the strategist
   * lane: the remounted lane's persist effect stores the rating after all.
   */
  method RemountScenario(baseline: seq<Skill>, strategist: seq<Skill>, storage: map<string, Json>)
    returns (beforeHide: Json, afterShow: Selections)
    requires Ids(baseline) == BASELINE_IDS && Ids(strategist) == STRATEGIST_IDS
    ensures beforeHide == Stored(storage, STORAGE_KEY_SPEC)
    ensures afterShow == map["frontend-dev" := 4]
  {
    var page := new MatrixPage(baseline, strategist, storage);
    page.SetStrategistLevel("frontend-dev", 4, false);
    beforeHide := Stored(page.storage, STORAGE_KEY_SPEC);
    page.SelectSpecialty(NoSpecialty, true);
    page.SelectSpecialty(Strategist, true);
    afterShow := Normalize(Stored(page.storage, STORAGE_KEY_SPEC), STRATEGIST_IDS);
  }

  /** `{"frontend-dev":5}` normalises against the strategist ids to level 5 for "frontend-dev". */
  lemma {:induction false} SavedSpecNormalizes()
    ensures Normalize(SAVED_SPEC, STRATEGIST_IDS) == map["frontend-dev" := 5]
  {
    var es := [("frontend-dev", JNumber(Finite(5.0)))];
    var m: Selections := map["frontend-dev" := 5];
    assert Serialized(es, m) by {
      assert KeysOf(es) == {"frontend-dev"} by {
        assert es[0].0 == "frontend-dev";
      }
    }
    NormalizeRoundTrip(es, m, STRATEGIST_IDS);
  }
}
