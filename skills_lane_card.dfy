/**
 * The lane editor of the skills matrix: one horizontal track per competency,
 * a pointer offset on the track quantised to a level, keyboard and swipe
 * navigation, the details-panel level, coverage, and the persisted copy of
 * the selection map.
 */
module SkillsLaneCard {
  import opened Wrappers
  import opened Json
  import opened SkillTypes
  import opened SkillsUtils
  import opened Strings

  // ---------------------------------------------------------------------------
  // Pointer quantisation
  // ---------------------------------------------------------------------------

  /**
   * Offset `x` on a track of width `w` lies in the hit zone of level `l`:
   * the zones are cut at w/8, 3w/8, 5w/8 and 7w/8, so levels 1 and 5 get an
   * eighth of the track each and levels 2 to 4 a quarter each.
   */
  predicate InZone(x: real, w: real, l: Level) {
    && (l > 1 ==> (2 * l - 3) as real * w <= 8.0 * x)
    && (l < 5 ==> 8.0 * x < (2 * l - 1) as real * w)
  }

  /** `clamp(Math.round(clamp(x / w, 0, 1) * 4) + 1, 1, 5)`: the level under the pointer. */
  function Quantize(x: real, w: real): (l: Level)
    requires w > 0.0
    ensures InZone(x, w, l)
  {
    var pct := Clamp(x / w, 0.0, 1.0);
    var raw := Round(pct * 4.0) + 1;
    assert 1 <= raw <= 5;
    var l: Level := Clamp(raw as real, 1.0, 5.0).Floor;
    assert l == raw;
    ZoneOfRounded(x, w, pct, l);
    l
  }

  /** The rounding step lands in the zone of the level it produces. */
  lemma {:induction false} ZoneOfRounded(x: real, w: real, pct: real, l: Level)
    requires w > 0.0
    requires pct == Clamp(x / w, 0.0, 1.0)
    requires l == Round(pct * 4.0) + 1
    ensures InZone(x, w, l)
  {
    assert x / w * w == x;
    if x / w < 0.0 {
      assert l == 1;
      assert 8.0 * x < 0.0 * w by {
        MulRightStrict(x / w, 0.0, w);
      }
    } else if x / w > 1.0 {
      assert l == 5;
      assert 7.0 * w <= 8.0 * x by {
        MulRightStrict(1.0, x / w, w);
      }
    } else {
      assert pct == x / w;
      // Round(4 pct) == l - 1 gives 8 pct - 1 < 2 (l - 1) <= 8 pct + 1.
      assert (2 * l - 3) as real <= 8.0 * pct;
      assert 8.0 * pct < (2 * l - 1) as real;
      MulRight((2 * l - 3) as real, 8.0 * pct, w);
      MulRightStrict(8.0 * pct, (2 * l - 1) as real, w);
      assert 8.0 * pct * w == 8.0 * x;
    }
  }

  lemma {:induction false} MulRight(a: real, b: real, w: real)
    requires a <= b && w > 0.0
    ensures a * w <= b * w
  {
  }

  lemma {:induction false} MulRightStrict(a: real, b: real, w: real)
    requires a < b && w > 0.0
    ensures a * w < b * w
  {
  }

  /** The zones do not overlap: an offset lies in the zone of one level only. */
  lemma {:induction false} ZonesDisjoint(x: real, w: real, l: Level, m: Level)
    requires w > 0.0 && InZone(x, w, l) && InZone(x, w, m)
    ensures l == m
  {
    if l < m {
      MulRight((2 * l - 1) as real, (2 * m - 3) as real, w);
    } else if m < l {
      MulRight((2 * m - 1) as real, (2 * l - 3) as real, w);
    }
  }

  /** The zones are exactly the quantisation: `Quantize` returns `l` iff the offset is in `l`'s zone. */
  lemma {:induction false} QuantizeIffZone(x: real, w: real, l: Level)
    requires w > 0.0
    ensures Quantize(x, w) == l <==> InZone(x, w, l)
  {
    if InZone(x, w, l) {
      ZonesDisjoint(x, w, l, Quantize(x, w));
    }
  }

  /** The ends: below an eighth of the width (or left of the track) is level 1, from seven eighths on (or right of it) level 5. */
  lemma {:induction false} QuantizeEnds(x: real, w: real)
    requires w > 0.0
    ensures 8.0 * x < w ==> Quantize(x, w) == 1
    ensures 8.0 * x >= 7.0 * w ==> Quantize(x, w) == 5
  {
    var l := Quantize(x, w);
    if 8.0 * x < w && l > 1 {
      MulRight(1.0, (2 * l - 3) as real, w);
    }
  }

  /** The left edge of the track is level 1 and the right edge level 5. */
  lemma {:induction false} QuantizeTrackEdges(w: real)
    requires w > 0.0
    ensures Quantize(0.0, w) == 1 && Quantize(w, w) == 5
  {
    QuantizeEnds(0.0, w);
    QuantizeEnds(w, w);
  }

  /** Moving the pointer right never lowers the level. */
  lemma {:induction false} QuantizeMonotone(x: real, y: real, w: real)
    requires w > 0.0 && x <= y
    ensures Quantize(x, w) <= Quantize(y, w)
  {
    var lx, ly := Quantize(x, w), Quantize(y, w);
    if lx > ly {
      MulRight((2 * ly - 1) as real, (2 * lx - 3) as real, w);
    }
  }

  /** The marker drawn for level `l` sits at ((l - 1) / 4) of the width, which quantises back to `l`. */
  lemma {:induction false} MarkerRoundTrip(l: Level, w: real)
    requires w > 0.0
    ensures Quantize((l - 1) as real / 4.0 * w, w) == l
  {
    var x := (l - 1) as real / 4.0 * w;
    assert 8.0 * x == (2 * l - 2) as real * w;
    MulRight((2 * l - 3) as real, (2 * l - 2) as real, w);
    MulRightStrict((2 * l - 2) as real, (2 * l - 1) as real, w);
    QuantizeIffZone(x, w, l);
  }

  // ---------------------------------------------------------------------------
  // Lookups, coverage and the details level
  // ---------------------------------------------------------------------------

  /** `skills.findIndex(s => s.id === id)`: the first position with that id, or -1. */
  function FindIndex(skills: seq<Skill>, id: string): (i: int)
    ensures -1 <= i < |skills|
    ensures i == -1 <==> id !in Ids(skills)
    ensures i >= 0 ==> skills[i].id == id && forall j :: 0 <= j < i ==> skills[j].id != id
  {
    if skills == [] then -1
    else if skills[0].id == id then 0
    else
      var r := FindIndex(skills[1..], id);
      assert Ids(skills) == [skills[0].id] + Ids(skills[1..]);
      if r == -1 then -1 else r + 1
  }

  /**
   * `skills.reduce((acc, s) => acc + (selections[s.id] ? 1 : 0), 0)`: the
   * number of listed competencies that are rated (a level is never falsy).
   */
  function Filled(skills: seq<Skill>, sel: Selections): (n: nat)
    ensures n <= |skills|
  {
    if skills == [] then 0
    else Filled(skills[..|skills| - 1], sel) + (if skills[|skills| - 1].id in sel then 1 else 0)
  }

  /** The positions of the rated competencies. */
  function RatedPositions(skills: seq<Skill>, sel: Selections): set<nat> {
    set i: nat | i < |skills| && skills[i].id in sel
  }

  /** Coverage counts exactly the positions whose competency is rated. */
  lemma {:induction false} FilledCountsRated(skills: seq<Skill>, sel: Selections)
    ensures Filled(skills, sel) == |RatedPositions(skills, sel)|
  {
    if skills != [] {
      var n := |skills| - 1;
      var init := skills[..n];
      FilledCountsRated(init, sel);
      var before := RatedPositions(init, sel);
      assert forall i: nat :: i < n ==> init[i] == skills[i];
      if skills[n].id in sel {
        assert RatedPositions(skills, sel) == before + {n};
        assert n !in before;
      } else {
        assert RatedPositions(skills, sel) == before;
      }
    }
  }

  /** Dropping the last competency removes its id from the end of the id list. */
  lemma {:induction false} IdsInit(skills: seq<Skill>)
    requires skills != []
    ensures Ids(skills) == Ids(skills[..|skills| - 1]) + [skills[|skills| - 1].id]
  {
    var n := |skills| - 1;
    var init := skills[..n];
    var a, b := Ids(skills), Ids(init) + [skills[n].id];
    forall k | 0 <= k < |a|
      ensures a[k] == b[k]
    {
      if k < n {
        assert init[k] == skills[k];
      }
    }
  }

  /** Removing an unlisted id from the map leaves coverage alone. */
  lemma {:induction false} FilledDropsOther(skills: seq<Skill>, sel: Selections, k: string)
    requires k !in Ids(skills)
    ensures Filled(skills, sel - {k}) == Filled(skills, sel)
  {
    if skills != [] {
      IdsInit(skills);
      FilledDropsOther(skills[..|skills| - 1], sel, k);
    }
  }

  /** With nothing rated, coverage is 0. */
  lemma {:induction false} FilledEmpty(skills: seq<Skill>)
    ensures Filled(skills, map[]) == 0
  {
    if skills != [] {
      FilledEmpty(skills[..|skills| - 1]);
    }
  }

  /** With every listed competency rated, coverage is the list's length. */
  lemma {:induction false} FilledAll(skills: seq<Skill>, sel: Selections)
    requires forall i :: 0 <= i < |skills| ==> skills[i].id in sel
    ensures Filled(skills, sel) == |skills|
  {
    if skills != [] {
      var init := skills[..|skills| - 1];
      assert forall i :: 0 <= i < |init| ==> init[i].id in sel by {
        assert forall i :: 0 <= i < |init| ==> init[i] == skills[i];
      }
      FilledAll(init, sel);
    }
  }

  /** Coverage ignores map entries for ids outside the list, is 0 for the empty map, and is total when every id is rated. */
  lemma {:induction false} FilledIgnoresOtherIds(skills: seq<Skill>, sel: Selections, k: string)
    requires k !in Ids(skills)
    ensures Filled(skills, sel - {k}) == Filled(skills, sel)
    ensures Filled(skills, map[]) == 0
    ensures (forall i :: 0 <= i < |skills| ==> skills[i].id in sel) ==> Filled(skills, sel) == |skills|
  {
    FilledDropsOther(skills, sel, k);
    FilledEmpty(skills);
    if forall i :: 0 <= i < |skills| ==> skills[i].id in sel {
      FilledAll(skills, sel);
    }
  }

  /** A hover preview: the lane under the pointer and the level it would commit. */
  datatype Preview = Preview(skillId: string, level: Level)

  /**
   * `detailsLevel`: the committed level of the active competency, else the
   * hover level when the hover is on the active lane, else nothing.
   */
  function DetailsLevel(skills: seq<Skill>, active: string, sel: Selections, hover: Option<Preview>): (r: Option<Level>)
    ensures active in Ids(skills) && active in sel ==> r == Some(sel[active])
    ensures !(active in Ids(skills) && active in sel) ==>
      r == (if hover.Some? && hover.value.skillId == active then Some(hover.value.level) else None)
  {
    var i := FindIndex(skills, active);
    var selected: Option<Level> := if i >= 0 && skills[i].id in sel then Some(sel[skills[i].id]) else None;
    match selected
    case Some(l) => Some(l)
    case None => if hover.Some? && hover.value.skillId == active then Some(hover.value.level) else None
  }

  /** A hover on another lane never shows in the details panel, and a committed level always wins over a hover. */
  lemma {:induction false} DetailsIgnoreOtherLanes(skills: seq<Skill>, active: string, sel: Selections, p: Preview)
    ensures p.skillId != active ==>
      DetailsLevel(skills, active, sel, Some(p)) == DetailsLevel(skills, active, sel, None)
    ensures active in Ids(skills) && active in sel ==>
      DetailsLevel(skills, active, sel, Some(p)) == Some(sel[active])
  {
  }

  // ---------------------------------------------------------------------------
  // Keyboard
  // ---------------------------------------------------------------------------

  /** A named key value (UI Events): at least two characters, starting with a capital letter. */
  type KeyName = n: string | |n| >= 2 && 'A' <= n[0] <= 'Z' witness "Delete"

  /** `KeyboardEvent.key`: either the one character typed or a named key. */
  datatype Key = Char(c: char) | Named(name: KeyName)

  /** The named keys the handler reacts to. */
  const ARROW_LEFT: Key := Named("ArrowLeft")
  const ARROW_RIGHT: Key := Named("ArrowRight")
  const ARROW_UP: Key := Named("ArrowUp")
  const ARROW_DOWN: Key := Named("ArrowDown")
  const DELETE: Key := Named("Delete")
  const BACKSPACE: Key := Named("Backspace")

  function KeyText(k: Key): string {
    match k
    case Char(c) => [c]
    case Named(n) => n
  }

  /** Different keys have different texts. */
  lemma {:induction false} KeyTextInjective(a: Key, b: Key)
    ensures KeyText(a) == KeyText(b) ==> a == b
  {
  }

  /** JavaScript `a < b` on strings: code-unit lexicographic order. */
  predicate LexLess(a: string, b: string) {
    if a == [] then b != []
    else if b == [] then false
    else if a[0] != b[0] then a[0] < b[0]
    else LexLess(a[1..], b[1..])
  }

  /** `e.key >= "1" && e.key <= "5"`: true exactly for the typed digits 1 to 5. */
  lemma {:induction false} DigitTest(k: Key)
    ensures !LexLess(KeyText(k), "1") && !LexLess("5", KeyText(k)) <==> k.Char? && '1' <= k.c <= '5'
  {
    if k.Named? {
      assert KeyText(k)[0] > '5';
    }
  }

  /** `parseInt` of a digit key: the level whose decimal form is the key typed. */
  function DigitValue(c: char): (l: Level)
    requires '1' <= c <= '5'
    ensures DecimalString(l) == [c]
  {
    c as int - '0' as int
  }

  /** What a key press does to the active id and the selection map, and whether it was handled. */
  datatype KeyOutcome = KeyOutcome(active: string, sel: Selections, handled: bool)

  /** The handler's reading of a key: which of its tests, if any, the key passes. */
  datatype KeyKind = MoveLeft | MoveRight | StepUp | StepDown | SetDigit(level: Level) | Clear | Ignored

  /** The test a key passes: the arrows, a digit 1-5, Delete or Backspace; anything else is ignored. */
  function Kind(key: Key): KeyKind {
    match key
    case Char(c) => if '1' <= c <= '5' then SetDigit(DigitValue(c)) else Ignored
    case Named(n) =>
      if n == "ArrowLeft" then MoveLeft
      else if n == "ArrowRight" then MoveRight
      else if n == "ArrowUp" then StepUp
      else if n == "ArrowDown" then StepDown
      else if n == "Delete" || n == "Backspace" then Clear
      else Ignored
  }

  /** The handler's string tests on `e.key` are exactly the kinds of key. */
  lemma {:induction false} KindTests(key: Key)
    ensures KeyText(key) == "ArrowLeft" <==> Kind(key) == MoveLeft
    ensures KeyText(key) == "ArrowRight" <==> Kind(key) == MoveRight
    ensures KeyText(key) == "ArrowUp" <==> Kind(key) == StepUp
    ensures KeyText(key) == "ArrowDown" <==> Kind(key) == StepDown
    ensures KeyText(key) == "Delete" || KeyText(key) == "Backspace" <==> Kind(key) == Clear
    ensures !LexLess(KeyText(key), "1") && !LexLess("5", KeyText(key)) <==> Kind(key).SetDigit?
    ensures Kind(key).SetDigit? ==> key.Char? && Kind(key).level == DigitValue(key.c)
  {
    DigitTest(key);
    if key.Char? {
      assert |KeyText(key)| == 1;
    }
  }

  /**
   * The transition for one kind of key. Nothing happens when the active id
   * is not listed; arrows left/right move the active lane without wrapping;
   * arrows up/down step a set level inside 1..5; a digit 1-5 sets that level;
   * Delete/Backspace clears a set level.
   */
  function KindStep(skills: seq<Skill>, active: string, sel: Selections, kind: KeyKind): (r: KeyOutcome)
    ensures !r.handled ==> r.active == active && r.sel == sel
    ensures r.sel != sel ==> r.active == active
    ensures forall k :: k != active ==> (k in r.sel <==> k in sel)
    ensures forall k :: k != active && k in sel ==> k in r.sel && r.sel[k] == sel[k]
  {
    var idx := FindIndex(skills, active);
    var ignore := KeyOutcome(active, sel, false);
    if idx == -1 then ignore
    else match kind
      case MoveLeft =>
        if idx > 0 then KeyOutcome(skills[idx - 1].id, sel, true) else ignore
      case MoveRight =>
        if idx < |skills| - 1 then KeyOutcome(skills[idx + 1].id, sel, true) else ignore
      case StepUp =>
        if active in sel && sel[active] < 5 then KeyOutcome(active, sel[active := sel[active] + 1], true) else ignore
      case StepDown =>
        if active in sel && sel[active] > 1 then KeyOutcome(active, sel[active := sel[active] - 1], true) else ignore
      case SetDigit(l) => KeyOutcome(active, sel[active := l], true)
      case Clear =>
        if active in sel then KeyOutcome(active, sel - {active}, true) else ignore
      case Ignored => ignore
  }

  /**
   * The keyboard transition: the key's kind decides. A key that is not
   * handled changes nothing, and a key changes at most the active
   * competency's entry, and then leaves the active lane where it is.
   */
  function KeyStep(skills: seq<Skill>, active: string, sel: Selections, key: Key): (r: KeyOutcome)
    ensures !r.handled ==> r.active == active && r.sel == sel
    ensures r.sel != sel ==> r.active == active
    ensures forall k :: k != active && k in sel ==> k in r.sel && r.sel[k] == sel[k]
    ensures forall k :: k != active && k !in sel ==> k !in r.sel
  {
    KindStep(skills, active, sel, Kind(key))
  }

  /**
   * The edit-mode key handler on a valid lane state: the position lookup,
   * then `HandleKey`; the result is the key specification's and stays valid.
   */
  method EditKey(skills: seq<Skill>, active: string, sel: Selections, key: Key)
    returns (nextActive: string, nextSel: Selections, handled: bool)
    requires if skills == [] then active == "" else active in Ids(skills)
    requires forall k :: k in sel ==> k in Ids(skills)
    ensures KeyOutcome(nextActive, nextSel, handled) == KeyStep(skills, active, sel, key)
    ensures if skills == [] then nextActive == "" else nextActive in Ids(skills)
    ensures forall k :: k in nextSel ==> k in Ids(skills)
  {
    var currentIndex := FindIndex(skills, active);
    if currentIndex == -1 {
      KeyUnknownActive(skills, active, sel, key);
      return active, sel, false;
    }
    nextActive, nextSel, handled := HandleKey(skills, currentIndex, active, sel, key);
    KeyStepKeepsValid(skills, active, sel, key);
  }

  /** Every key keeps the active id listed and the map on listed ids. */
  lemma {:induction false} KeyStepKeepsValid(skills: seq<Skill>, active: string, sel: Selections, key: Key)
    requires active in Ids(skills)
    requires forall k :: k in sel ==> k in Ids(skills)
    ensures var r := KeyStep(skills, active, sel, key);
      skills != [] && r.active in Ids(skills) && forall k :: k in r.sel ==> k in Ids(skills)
  {
    KindStepKeepsValid(skills, active, sel, Kind(key));
  }

  /** With an active id that is not listed, every key is ignored. */
  lemma {:induction false} KeyUnknownActive(skills: seq<Skill>, active: string, sel: Selections, key: Key)
    requires active !in Ids(skills)
    ensures KeyStep(skills, active, sel, key) == KeyOutcome(active, sel, false)
  {
  }

  /** A position holding an id no other position holds is where that id is found. */
  lemma {:induction false} FindUnique(skills: seq<Skill>, i: nat)
    requires i < |skills|
    requires forall j :: 0 <= j < |skills| && j != i ==> skills[j].id != skills[i].id
    ensures FindIndex(skills, skills[i].id) == i
  {
  }

  /** The arrow kinds, read off the active position. */
  lemma {:induction false} KindArrows(skills: seq<Skill>, active: string, sel: Selections)
    ensures var idx := FindIndex(skills, active);
      KindStep(skills, active, sel, MoveLeft) ==
        if idx > 0 then KeyOutcome(skills[idx - 1].id, sel, true) else KeyOutcome(active, sel, false)
    ensures var idx := FindIndex(skills, active);
      KindStep(skills, active, sel, MoveRight) ==
        if 0 <= idx < |skills| - 1 then KeyOutcome(skills[idx + 1].id, sel, true) else KeyOutcome(active, sel, false)
  {
  }

  /** ArrowLeft at a position where its id is found. */
  lemma {:induction false} ArrowLeftAt(skills: seq<Skill>, id: string, i: nat, sel: Selections)
    requires i < |skills| && id == skills[i].id && FindIndex(skills, id) == i
    ensures var r := KeyStep(skills, id, sel, ARROW_LEFT);
      r.sel == sel && (if i > 0 then r.handled && r.active == skills[i - 1].id else !r.handled && r.active == id)
  {
    assert Kind(ARROW_LEFT) == MoveLeft;
    KindArrows(skills, id, sel);
  }

  /** ArrowRight at a position where its id is found. */
  lemma {:induction false} ArrowRightAt(skills: seq<Skill>, id: string, i: nat, sel: Selections)
    requires i < |skills| && id == skills[i].id && FindIndex(skills, id) == i
    ensures var r := KeyStep(skills, id, sel, ARROW_RIGHT);
      r.sel == sel && (if i < |skills| - 1 then r.handled && r.active == skills[i + 1].id else !r.handled && r.active == id)
  {
    assert Kind(ARROW_RIGHT) == MoveRight;
    KindArrows(skills, id, sel);
  }

  /** Left and right move the active position by exactly one, and do nothing at the ends. */
  lemma {:induction false} KeyArrowsMoveByOne(skills: seq<Skill>, i: nat, sel: Selections)
    requires i < |skills|
    requires forall j :: 0 <= j < |skills| && j != i ==> skills[j].id != skills[i].id
    ensures var r := KeyStep(skills, skills[i].id, sel, ARROW_LEFT);
      r.sel == sel && (if i > 0 then r.handled && r.active == skills[i - 1].id else !r.handled && r.active == skills[i].id)
    ensures var r := KeyStep(skills, skills[i].id, sel, ARROW_RIGHT);
      r.sel == sel && (if i < |skills| - 1 then r.handled && r.active == skills[i + 1].id else !r.handled && r.active == skills[i].id)
  {
    FindUnique(skills, i);
    ArrowLeftAt(skills, skills[i].id, i, sel);
    ArrowRightAt(skills, skills[i].id, i, sel);
  }

  /** Up and down change only the active level, by one, and only inside 1..5; an unset level is left alone. */
  lemma {:induction false} KeyUpDown(skills: seq<Skill>, active: string, sel: Selections)
    requires active in Ids(skills)
    ensures var r := KeyStep(skills, active, sel, ARROW_UP);
      r.active == active &&
      (if active in sel && sel[active] < 5
       then r.handled && r.sel == sel[active := sel[active] + 1]
       else !r.handled && r.sel == sel)
    ensures var r := KeyStep(skills, active, sel, ARROW_DOWN);
      r.active == active &&
      (if active in sel && sel[active] > 1
       then r.handled && r.sel == sel[active := sel[active] - 1]
       else !r.handled && r.sel == sel)
  {
    assert Kind(ARROW_UP) == StepUp;
    assert Kind(ARROW_DOWN) == StepDown;
  }

  /** A digit key sets the active level to that digit; Delete and Backspace remove only the active entry. */
  lemma {:induction false} KeyDigitAndDelete(skills: seq<Skill>, active: string, sel: Selections, c: char)
    requires active in Ids(skills) && '1' <= c <= '5'
    ensures KeyStep(skills, active, sel, Char(c)) == KeyOutcome(active, sel[active := c as int - '0' as int], true)
    ensures KeyStep(skills, active, sel, DELETE) == KeyStep(skills, active, sel, BACKSPACE)
    ensures KeyStep(skills, active, sel, DELETE) ==
      KeyOutcome(active, sel - {active}, active in sel)
  {
    assert Kind(DELETE) == Clear;
    assert Kind(BACKSPACE) == Clear;
  }

  /** Every kind of key keeps the active id listed and the map's ids listed. */
  lemma {:induction false} KindStepKeepsValid(skills: seq<Skill>, active: string, sel: Selections, kind: KeyKind)
    requires active in Ids(skills)
    requires forall k :: k in sel ==> k in Ids(skills)
    ensures var r := KindStep(skills, active, sel, kind);
      r.active in Ids(skills) && forall k :: k in r.sel ==> k in Ids(skills)
  {
    var idx := FindIndex(skills, active);
    match kind {
      case MoveLeft =>
        if idx > 0 {
          assert Ids(skills)[idx - 1] == skills[idx - 1].id;
        }
      case MoveRight =>
        if idx < |skills| - 1 {
          assert Ids(skills)[idx + 1] == skills[idx + 1].id;
        }
      case StepUp =>
      case StepDown =>
      case SetDigit(l) =>
      case Clear =>
      case Ignored =>
    }
  }

  /**
   * The body of `handleKeyDown` once the active position `currentIndex` is
   * known: each key's test in source order, collecting the state updates
   * that React applies together when the handler returns.
   */
  method HandleKey(skills: seq<Skill>, currentIndex: int, current: string, sel: Selections, key: Key)
    returns (nextActive: string, nextSel: Selections, handled: bool)
    requires currentIndex == FindIndex(skills, current) && currentIndex != -1
    ensures KeyOutcome(nextActive, nextSel, handled) == KeyStep(skills, current, sel, key)
  {
    var k := KeyText(key);
    KindTests(key);
    nextActive, nextSel := current, sel;
    handled := false;

    if k == "ArrowLeft" && currentIndex > 0 {
      nextActive := skills[currentIndex - 1].id;
      handled := true;
    } else if k == "ArrowRight" && currentIndex < |skills| - 1 {
      nextActive := skills[currentIndex + 1].id;
      handled := true;
    }

    if k == "ArrowUp" && current in sel && sel[current] < 5 {
      nextSel, nextActive := nextSel[current := sel[current] + 1], current;
      handled := true;
    } else if k == "ArrowDown" && current in sel && sel[current] > 1 {
      nextSel, nextActive := nextSel[current := sel[current] - 1], current;
      handled := true;
    }

    if !LexLess(k, "1") && !LexLess("5", k) {
      nextSel, nextActive := nextSel[current := DigitValue(key.c)], current;
      handled := true;
    }

    if (k == "Delete" || k == "Backspace") && current in sel {
      nextSel := nextSel - {current};
      handled := true;
    }
  }

  // ---------------------------------------------------------------------------
  // Swipe
  // ---------------------------------------------------------------------------

  function Abs(r: real): (a: real)
    ensures a >= 0.0 && (a == r || a == -r)
  {
    if r < 0.0 then -r else r
  }

  /** A horizontal swipe: wider than tall, more than 50 pixels, quicker than 300 ms. */
  predicate IsSwipe(dx: real, dy: real, dt: real) {
    Abs(dx) > Abs(dy) && Abs(dx) > 50.0 && dt < 300.0
  }

  /** The active id after a touch that moved by (dx, dy) in dt milliseconds. */
  function SwipeStep(skills: seq<Skill>, active: string, dx: real, dy: real, dt: real): (r: string)
    ensures !IsSwipe(dx, dy, dt) ==> r == active
    ensures r == active || r in Ids(skills)
  {
    if !IsSwipe(dx, dy, dt) then active
    else
      var i := FindIndex(skills, active);
      if dx > 0.0 && i > 0 then skills[i - 1].id
      else if dx < 0.0 && i < |skills| - 1 then skills[i + 1].id
      else active
  }

  /**
   * A swipe right selects the previous lane and a swipe left the next one,
   * without wrapping; anything that is not a swipe changes nothing.
   */
  lemma {:induction false} SwipeMovesByOne(skills: seq<Skill>, i: nat, dx: real, dy: real, dt: real)
    requires i < |skills|
    requires forall j :: 0 <= j < |skills| && j != i ==> skills[j].id != skills[i].id
    ensures !IsSwipe(dx, dy, dt) ==> SwipeStep(skills, skills[i].id, dx, dy, dt) == skills[i].id
    ensures IsSwipe(dx, dy, dt) && dx > 0.0 ==>
      SwipeStep(skills, skills[i].id, dx, dy, dt) == if i > 0 then skills[i - 1].id else skills[i].id
    ensures IsSwipe(dx, dy, dt) && dx < 0.0 ==>
      SwipeStep(skills, skills[i].id, dx, dy, dt) == if i < |skills| - 1 then skills[i + 1].id else skills[i].id
  {
    assert FindIndex(skills, skills[i].id) == i;
  }

  /** With the active id not listed, a leftward swipe selects the first lane (index -1 plus one). */
  lemma {:induction false} SwipeFromUnknown(skills: seq<Skill>, active: string, dx: real, dy: real, dt: real)
    requires active !in Ids(skills) && |skills| >= 1
    requires IsSwipe(dx, dy, dt) && dx < 0.0
    ensures SwipeStep(skills, active, dx, dy, dt) == skills[0].id
  {
  }

  // ---------------------------------------------------------------------------
  // The card
  // ---------------------------------------------------------------------------

  datatype ViewMode = Edit | Visualize

  /** Where and when a touch began. */
  datatype TouchPoint = TouchPoint(x: real, y: real, time: real)

  /**
   * One lane card. `selections` is the map the card edits (held by its parent
   * in the source); `storage` is the browser's local storage, parsed.
   */
  class LaneCard {
    const skills: seq<Skill>
    const storageKey: string
    var activeSkillId: string
    var hover: Option<Preview>
    var viewMode: ViewMode
    var touchStart: Option<TouchPoint>
    var isTouching: bool
    var selections: Selections
    var storage: map<string, Json>

    /** The active id is a listed id (or "" for an empty list), and only listed ids are rated. */
    predicate Valid()
      reads this
    {
      && (if skills == [] then activeSkillId == "" else activeSkillId in Ids(skills))
      && forall k :: k in selections ==> k in Ids(skills)
    }

    /** Mount: the first lane is active, nothing is hovered, edit mode. */
    constructor(skills: seq<Skill>, storageKey: string, initial: Selections, storage: map<string, Json>)
      requires forall k :: k in initial ==> k in Ids(skills)
      ensures Valid()
      ensures this.skills == skills && this.storageKey == storageKey
      ensures activeSkillId == (if skills == [] then "" else skills[0].id)
      ensures hover == None && viewMode == Edit && touchStart == None && !isTouching
      ensures selections == initial && this.storage == storage
    {
      this.skills := skills;
      this.storageKey := storageKey;
      activeSkillId := if skills == [] then "" else skills[0].id;
      hover := None;
      viewMode := Edit;
      touchStart := None;
      isTouching := false;
      selections := initial;
      this.storage := storage;
    }

    /** `coverage`: rated listed competencies out of all listed ones. */
    function Coverage(): (c: (nat, nat))
      reads this
      ensures c.0 <= c.1 == |skills|
    {
      (Filled(skills, selections), |skills|)
    }

    /** The level the details panel shows. */
    function Details(): Option<Level>
      reads this
    {
      DetailsLevel(skills, activeSkillId, selections, hover)
    }

    /** `setLevel`: only `id`'s entry changes, to `l`, and `id` becomes active. */
    method SetLevel(id: string, l: Level)
      requires Valid() && id in Ids(skills)
      modifies this
      ensures Valid()
      ensures selections == old(selections)[id := l]
      ensures activeSkillId == id
      ensures hover == old(hover) && viewMode == old(viewMode) && storage == old(storage)
      ensures touchStart == old(touchStart) && isTouching == old(isTouching)
    {
      selections := selections[id := l];
      activeSkillId := id;
    }

    /** `focusLane`: the lane becomes active (scrolling it into view is not modelled). */
    method FocusLane(i: nat)
      requires Valid() && i < |skills|
      modifies this
      ensures Valid()
      ensures activeSkillId == skills[i].id
      ensures selections == old(selections) && hover == old(hover) && viewMode == old(viewMode)
      ensures storage == old(storage) && touchStart == old(touchStart) && isTouching == old(isTouching)
    {
      activeSkillId := skills[i].id;
    }

    /** The pointer enters lane `i`: it becomes active and any hover preview is dropped. */
    method MouseEnterLane(i: nat)
      requires Valid() && i < |skills|
      modifies this
      ensures Valid()
      ensures activeSkillId == skills[i].id && hover == None
      ensures selections == old(selections) && viewMode == old(viewMode) && storage == old(storage)
      ensures touchStart == old(touchStart) && isTouching == old(isTouching)
    {
      activeSkillId := skills[i].id;
      hover := None;
    }

    /** The pointer leaves a lane or its track: the hover preview is dropped. */
    method MouseLeave()
      requires Valid()
      modifies this
      ensures Valid()
      ensures hover == None
      ensures activeSkillId == old(activeSkillId) && selections == old(selections)
      ensures viewMode == old(viewMode) && storage == old(storage)
      ensures touchStart == old(touchStart) && isTouching == old(isTouching)
    {
      hover := None;
    }

    /** The pointer moves over lane `i`'s track at offset `x`: preview the level there, commit nothing. */
    method TrackMove(i: nat, x: real, w: real)
      requires Valid() && i < |skills| && w > 0.0
      modifies this
      ensures Valid()
      ensures hover == Some(Preview(skills[i].id, Quantize(x, w)))
      ensures activeSkillId == old(activeSkillId) && selections == old(selections)
      ensures viewMode == old(viewMode) && storage == old(storage)
      ensures touchStart == old(touchStart) && isTouching == old(isTouching)
    {
      hover := Some(Preview(skills[i].id, Quantize(x, w)));
    }

    /**
     * A click on lane `i`'s track at offset `x`: commits the level under the
     * pointer (the same level a hover there previews), then the click bubbles
     * to the lane, which focuses it.
     */
    method TrackClick(i: nat, x: real, w: real)
      requires Valid() && i < |skills| && w > 0.0
      modifies this
      ensures Valid()
      ensures selections == old(selections)[skills[i].id := Quantize(x, w)]
      ensures activeSkillId == skills[i].id
      ensures hover == old(hover) && viewMode == old(viewMode) && storage == old(storage)
      ensures touchStart == old(touchStart) && isTouching == old(isTouching)
    {
      assert Ids(skills)[i] == skills[i].id;
      SetLevel(skills[i].id, Quantize(x, w));
      FocusLane(i);
    }

    /**
     * A tap that ends on lane `i`'s track: commits the level under the finger.
     * The event does not propagate, so a swipe in progress is not ended.
     */
    method TrackTap(i: nat, x: real, w: real)
      requires Valid() && i < |skills| && w > 0.0
      modifies this
      ensures Valid()
      ensures selections == old(selections)[skills[i].id := Quantize(x, w)]
      ensures activeSkillId == skills[i].id
      ensures hover == old(hover) && viewMode == old(viewMode) && storage == old(storage)
      ensures touchStart == old(touchStart) && isTouching == old(isTouching)
    {
      assert Ids(skills)[i] == skills[i].id;
      SetLevel(skills[i].id, Quantize(x, w));
    }

    /** The keyboard handler: attached only in edit mode, and follows `KeyStep`. */
    method KeyDown(key: Key) returns (handled: bool)
      requires Valid()
      modifies this
      ensures Valid()
      ensures old(viewMode) == Visualize ==>
        !handled && activeSkillId == old(activeSkillId) && selections == old(selections)
      ensures old(viewMode) == Edit ==>
        KeyOutcome(activeSkillId, selections, handled) == KeyStep(skills, old(activeSkillId), old(selections), key)
      ensures hover == old(hover) && viewMode == old(viewMode) && storage == old(storage)
      ensures touchStart == old(touchStart) && isTouching == old(isTouching)
    {
      if viewMode != Edit {
        return false;
      }
      var nextActive, nextSel;
      nextActive, nextSel, handled := EditKey(skills, activeSkillId, selections, key);
      activeSkillId, selections := nextActive, nextSel;
    }

    /** A touch begins: remember where and when. */
    method TouchStart(x: real, y: real, time: real)
      requires Valid()
      modifies this
      ensures Valid()
      ensures touchStart == Some(TouchPoint(x, y, time)) && isTouching
      ensures activeSkillId == old(activeSkillId) && selections == old(selections)
      ensures hover == old(hover) && viewMode == old(viewMode) && storage == old(storage)
    {
      touchStart := Some(TouchPoint(x, y, time));
      isTouching := true;
    }

    /** The swipe test of a finished touch: a horizontal swipe moves the active lane by one. */
    method Swipe(deltaX: real, deltaY: real, deltaTime: real)
      requires Valid()
      modifies this
      ensures Valid()
      ensures activeSkillId == SwipeStep(skills, old(activeSkillId), deltaX, deltaY, deltaTime)
      ensures selections == old(selections) && hover == old(hover) && viewMode == old(viewMode)
      ensures storage == old(storage) && touchStart == old(touchStart) && isTouching == old(isTouching)
    {
      if IsSwipe(deltaX, deltaY, deltaTime) {
        var currentIndex := FindIndex(skills, activeSkillId);
        if deltaX > 0.0 && currentIndex > 0 {
          FocusLane(currentIndex - 1);
        } else if deltaX < 0.0 && currentIndex < |skills| - 1 {
          FocusLane(currentIndex + 1);
        }
      }
    }

    /** A touch ends at (x, y) at `time`: a swipe changes the active lane; the touch is forgotten. */
    method TouchEnd(x: real, y: real, time: real)
      requires Valid()
      modifies this
      ensures Valid()
      ensures old(touchStart).None? ==>
        activeSkillId == old(activeSkillId) && touchStart == None && isTouching == old(isTouching)
      ensures old(touchStart).Some? ==>
        var t := old(touchStart).value;
        && activeSkillId == SwipeStep(skills, old(activeSkillId), x - t.x, y - t.y, time - t.time)
        && touchStart == None && !isTouching
      ensures selections == old(selections) && hover == old(hover)
      ensures viewMode == old(viewMode) && storage == old(storage)
    {
      if touchStart.None? {
        return;
      }
      var t := touchStart.value;
      touchStart, isTouching := None, false;
      Swipe(x - t.x, y - t.y, time - t.time);
    }

    /** The Visualize / Back button. */
    method ToggleView()
      requires Valid()
      modifies this
      ensures Valid()
      ensures viewMode == (if old(viewMode) == Edit then Visualize else Edit)
      ensures activeSkillId == old(activeSkillId) && selections == old(selections)
      ensures hover == old(hover) && storage == old(storage)
      ensures touchStart == old(touchStart) && isTouching == old(isTouching)
    {
      viewMode := if viewMode == Edit then Visualize else Edit;
    }

    /**
     * Clear All, after the user's answer to the confirmation: empties the map
     * and asks the storage to remove its copy. A storage that refuses
     * (`removeOk` false) is caught and ignored, leaving the stored copy; the
     * emptied map is what the card shows either way. Emptying the map also
     * re-runs the persist effect, which writes `{}` back (`ClearAllAndPersist`).
     */
    method ClearAll(confirmed: bool, removeOk: bool)
      requires Valid()
      modifies this
      ensures Valid()
      ensures confirmed ==> selections == map[]
      ensures confirmed && removeOk ==> storage == old(storage) - {storageKey}
      ensures confirmed && !removeOk ==> storage == old(storage)
      ensures !confirmed ==> selections == old(selections) && storage == old(storage)
      ensures activeSkillId == old(activeSkillId) && hover == old(hover) && viewMode == old(viewMode)
      ensures touchStart == old(touchStart) && isTouching == old(isTouching)
    {
      if confirmed {
        selections := map[];
        if removeOk {
          storage := storage - {storageKey};
        }
      }
    }

    /**
     * The persist effect, run after every change of the map: writes it under
     * the card's key, and reading that back through normalisation gives the
     * same map. A write the storage refuses (`writeOk` false) is caught and
     * ignored: the storage is unchanged and the map in memory stays as it is.
     */
    method Persist(writeOk: bool)
      requires Valid()
      modifies this
      ensures Valid()
      ensures writeOk ==> storageKey in storage && storage[storageKey].JObject?
      ensures writeOk ==> Serialized(storage[storageKey].fields, selections)
      ensures writeOk ==> Normalize(storage[storageKey], Ids(skills)) == selections
      ensures writeOk ==> storage - {storageKey} == old(storage) - {storageKey}
      ensures !writeOk ==> storage == old(storage)
      ensures activeSkillId == old(activeSkillId) && selections == old(selections)
      ensures hover == old(hover) && viewMode == old(viewMode)
      ensures touchStart == old(touchStart) && isTouching == old(isTouching)
    {
      if writeOk {
        var es := Serialize(selections);
        NormalizeRoundTrip(es, selections, Ids(skills));
        storage := storage[storageKey := JObject(es)];
      }
    }

    /**
     * Clear All, confirmed, followed by the persist effect its state change
     * triggers: whether or not the removal went through, a successful write
     * leaves `{}` under the key, not an absent key.
     */
    method ClearAllAndPersist(removeOk: bool, writeOk: bool)
      requires Valid()
      modifies this
      ensures Valid()
      ensures selections == map[]
      ensures writeOk ==> storageKey in storage && storage[storageKey] == JObject([])
      ensures !writeOk && removeOk ==> storage == old(storage) - {storageKey}
      ensures !writeOk && !removeOk ==> storage == old(storage)
      ensures writeOk ==> storage - {storageKey} == old(storage) - {storageKey}
      ensures activeSkillId == old(activeSkillId) && hover == old(hover) && viewMode == old(viewMode)
    {
      ClearAll(true, removeOk);
      Persist(writeOk);
      if writeOk {
        var es := storage[storageKey].fields;
        KeysOfNonEmpty(es);
      }
    }
  }
}
