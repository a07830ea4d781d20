/**
 * The integer geometry of the two proficiency charts: how many angular slots
 * the circle is cut into, the radius each competency's level is drawn at, the
 * ring radii, which background wedges are drawn, and whether the centre title
 * shows. Angles, coordinates and SVG path text are not modelled.
 */
module ProficiencyVisualized {
  import opened SkillTypes

  /** The radii a chart is drawn with. */
  datatype Geometry = Geometry(maxR: real, innerR: real, outerR: real)

  /** The current charts: radar radius 280; polar wedges from 90 out to 280. */
  const CURRENT: Geometry := Geometry(280.0, 90.0, 280.0)

  datatype Theme = Light | Dark
  datatype VizMode = Radar | Polar
  datatype Variant = Small | Large

  /** The chart first shown. */
  const INITIAL_MODE: VizMode := Radar

  /** `selections[s.id] ?? 0`. */
  function LevelOrZero(sel: Selections, id: string): (l: int)
    ensures 0 <= l <= 5
    ensures l == 0 <==> id !in sel
  {
    if id in sel then sel[id] else 0
  }

  /** `Math.max(3, skills.length)`: the radar never has fewer than three spokes. */
  function RadarDivisor(n: nat): (d: nat)
    ensures d >= 3 && d >= n
    ensures d == n || d == 3
  {
    if n < 3 then 3 else n
  }

  /** `Math.max(1, skills.length)`: the polar chart never divides by zero. */
  function PolarDivisor(n: nat): (d: nat)
    ensures d >= 1 && d >= n
    ensures d == n || d == 1
  {
    if n < 1 then 1 else n
  }

  /** `(lvl / 5) * maxR`: a radar point's distance from the centre. */
  function RadarRadius(lvl: int, maxR: real): real {
    lvl as real / 5.0 * maxR
  }

  /** `(maxR * (i + 1)) / rings` with five rings: ring `k` (1-based). */
  function RingRadius(k: int, maxR: real): real {
    maxR * k as real / 5.0
  }

  /** `innerR + ((outerR - innerR) * lvl) / 5`: a polar wedge's outer edge, and polar ring `lvl`. */
  function WedgeRadius(lvl: int, innerR: real, outerR: real): real {
    innerR + (outerR - innerR) * lvl as real / 5.0
  }

  /** The radar radius of every competency, in list order. */
  function RadarRadii(skills: seq<Skill>, sel: Selections, g: Geometry): (r: seq<real>)
    ensures |r| == |skills|
    ensures forall i :: 0 <= i < |skills| ==> r[i] == RadarRadius(LevelOrZero(sel, skills[i].id), g.maxR)
  {
    seq(|skills|, i requires 0 <= i < |skills| => RadarRadius(LevelOrZero(sel, skills[i].id), g.maxR))
  }

  /** The polar outer radius of every competency, in list order. */
  function PolarRadii(skills: seq<Skill>, sel: Selections, g: Geometry): (r: seq<real>)
    ensures |r| == |skills|
    ensures forall i :: 0 <= i < |skills| ==> r[i] == WedgeRadius(LevelOrZero(sel, skills[i].id), g.innerR, g.outerR)
  {
    seq(|skills|, i requires 0 <= i < |skills| => WedgeRadius(LevelOrZero(sel, skills[i].id), g.innerR, g.outerR))
  }

  /** The five radar rings. */
  function RadarRings(g: Geometry): (r: seq<real>)
    ensures |r| == 5 && forall i :: 0 <= i < 5 ==> r[i] == RingRadius(i + 1, g.maxR)
  {
    seq(5, i requires 0 <= i < 5 => RingRadius(i + 1, g.maxR))
  }

  /** The five polar rings, one per level. */
  function PolarRings(g: Geometry): (r: seq<real>)
    ensures |r| == 5 && forall i :: 0 <= i < 5 ==> r[i] == WedgeRadius(i + 1, g.innerR, g.outerR)
  {
    seq(5, i requires 0 <= i < 5 => WedgeRadius(i + 1, g.innerR, g.outerR))
  }

  /** What one chart draws, in the modelled terms. */
  datatype Chart =
    | RadarChart(spokes: nat, rings: seq<real>, radii: seq<real>, showCenter: bool)
    | PolarChart(slots: nat, rings: seq<real>, radii: seq<real>, backgrounds: seq<string>, showCenter: bool)

  /** The current polar chart draws its full-extent background wedges only outside the dark theme. */
  function CurrentBackgrounds(skills: seq<Skill>, theme: Theme): (b: seq<string>)
    ensures theme == Light ==> b == Ids(skills)
    ensures theme == Dark ==> b == []
  {
    if theme == Dark then [] else Ids(skills)
  }

  /** `ProficiencyVisualized`: the selected chart, with the centre title on the large variant only. */
  function Render(skills: seq<Skill>, sel: Selections, mode: VizMode, variant: Variant, theme: Theme): (c: Chart)
    ensures c.showCenter <==> variant == Large
    ensures c.RadarChart? <==> mode == Radar
  {
    var showCenter := variant == Large;
    match mode
    case Radar =>
      RadarChart(RadarDivisor(|skills|), RadarRings(CURRENT), RadarRadii(skills, sel, CURRENT), showCenter)
    case Polar =>
      PolarChart(PolarDivisor(|skills|), PolarRings(CURRENT), PolarRadii(skills, sel, CURRENT),
        CurrentBackgrounds(skills, theme), showCenter)
  }

  /**
   * A radar point lies at 56 times its level: the centre for an unset
   * competency, the outer ring (280) exactly at level 5, never beyond it.
   */
  lemma {:induction false} RadarRadiusCurrent(sel: Selections, id: string)
    ensures var r := RadarRadius(LevelOrZero(sel, id), CURRENT.maxR);
      && r == 56.0 * LevelOrZero(sel, id) as real
      && 0.0 <= r <= 280.0
      && (r == 0.0 <==> id !in sel)
      && (r == 280.0 <==> id in sel && sel[id] == 5)
  {
  }

  /** Radar ring `k` has radius 56k: the ring for level `k` passes through the points at level `k`. */
  lemma {:induction false} RadarRingsMatchLevels(l: Level)
    ensures RingRadius(l, CURRENT.maxR) == RadarRadius(l, CURRENT.maxR) == 56.0 * l as real
  {
  }

  /**
   * A polar wedge reaches 90 + 38 times its level: 90 (an empty wedge) when
   * unset, 280 at level 5, and always inside [90, 280].
   */
  lemma {:induction false} PolarRadiusCurrent(sel: Selections, id: string)
    ensures var r := WedgeRadius(LevelOrZero(sel, id), CURRENT.innerR, CURRENT.outerR);
      && r == 90.0 + 38.0 * LevelOrZero(sel, id) as real
      && 90.0 <= r <= 280.0
      && (r == 90.0 <==> id !in sel)
      && (r == 280.0 <==> id in sel && sel[id] == 5)
  {
  }

  /** A higher level always draws a strictly longer wedge. */
  lemma {:induction false} WedgeRadiusIncreasing(a: int, b: int, g: Geometry)
    requires g.innerR < g.outerR && a < b
    ensures WedgeRadius(a, g.innerR, g.outerR) < WedgeRadius(b, g.innerR, g.outerR)
  {
    var d := g.outerR - g.innerR;
    assert d * a as real < d * b as real by {
      assert d * b as real - d * a as real == d * (b - a) as real;
    }
  }

  /**
   * Both charts are drawn from the same data: competency `i` is at the radar
   * centre exactly when its polar wedge is empty, and the two radii grow
   * together. Switching the mode changes only the drawing.
   */
  lemma {:induction false} ModesAgree(skills: seq<Skill>, sel: Selections, variant: Variant, theme: Theme, i: nat)
    requires i < |skills|
    ensures var radar := Render(skills, sel, Radar, variant, theme);
      var polar := Render(skills, sel, Polar, variant, theme);
      && |radar.radii| == |polar.radii| == |skills|
      && (radar.radii[i] == 0.0 <==> polar.radii[i] == CURRENT.innerR)
      && polar.radii[i] == CURRENT.innerR + radar.radii[i] * 19.0 / 28.0
  {
  }

  /** The spoke and slot counts are never zero, so every angle and radius is finite. */
  lemma {:induction false} DivisorsPositive(skills: seq<Skill>, sel: Selections, variant: Variant, theme: Theme)
    ensures Render(skills, sel, Radar, variant, theme).spokes >= 3
    ensures Render(skills, sel, Polar, variant, theme).slots >= 1
    ensures |skills| >= 3 ==> Render(skills, sel, Radar, variant, theme).spokes == |skills|
    ensures |skills| >= 1 ==> Render(skills, sel, Polar, variant, theme).slots == |skills|
  {
  }
}
