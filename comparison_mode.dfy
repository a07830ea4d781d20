/**
 * The "Level Comparison" panel: the rated competencies still below Expert,
 * strongest first, each with the level that comes next.
 */
module ComparisonMode {
  import opened SkillTypes

  /** A rated competency below Expert and its current level. */
  datatype Item = Item(skill: Skill, current: Level)

  /** A rated competency qualifies when its level is below 5. */
  predicate Qualifies(s: Skill, sel: Selections) {
    s.id in sel && sel[s.id] < 5
  }

  /** The `map` + `filter` step: the qualifying competencies in list order, with their levels. */
  function Candidates(skills: seq<Skill>, sel: Selections): (r: seq<Item>)
    ensures |r| <= |skills|
    ensures forall it :: it in r ==> it.skill in skills && Qualifies(it.skill, sel) && it.current == sel[it.skill.id]
    ensures forall s :: s in skills && Qualifies(s, sel) ==> Item(s, sel[s.id]) in r
  {
    if skills == [] then []
    else
      var rest := Candidates(skills[1..], sel);
      var s := skills[0];
      if Qualifies(s, sel) then [Item(s, sel[s.id])] + rest else rest
  }

  /** Each competency appears in the candidates no more often than in the list. */
  lemma {:induction false} CandidatesAtMostOnce(skills: seq<Skill>, sel: Selections, s: Skill)
    ensures multiset(Candidates(skills, sel))[Item(s, if s.id in sel then sel[s.id] else 1)] <= multiset(skills)[s]
  {
    if skills != [] {
      CandidatesAtMostOnce(skills[1..], sel, s);
      assert skills == [skills[0]] + skills[1..];
    }
  }

  /**
   * The comparator: a higher level comes first; equal levels are ordered by
   * name with `nameLe`, which stands for `localeCompare(a, b) <= 0`.
   */
  predicate ItemLe(a: Item, b: Item, nameLe: (string, string) -> bool) {
    a.current > b.current || (a.current == b.current && nameLe(a.skill.name, b.skill.name))
  }

  /** `localeCompare` orders any two names one way or the other, consistently. */
  ghost predicate TotalOrder(nameLe: (string, string) -> bool) {
    && (forall a: string, b: string :: nameLe(a, b) || nameLe(b, a))
    && (forall a: string, b: string, c: string :: nameLe(a, b) && nameLe(b, c) ==> nameLe(a, c))
  }

  /** The comparator is transitive when the name order is. */
  lemma {:induction false} ItemLeTransitive(a: Item, b: Item, c: Item, nameLe: (string, string) -> bool)
    requires TotalOrder(nameLe) && ItemLe(a, b, nameLe) && ItemLe(b, c, nameLe)
    ensures ItemLe(a, c, nameLe)
  {
    if a.current == b.current == c.current {
      assert nameLe(a.skill.name, b.skill.name) && nameLe(b.skill.name, c.skill.name);
    }
  }

  predicate SortedBy(xs: seq<Item>, nameLe: (string, string) -> bool) {
    forall i, j :: 0 <= i < j < |xs| ==> ItemLe(xs[i], xs[j], nameLe)
  }

  /** Put `x` in front of the first element it may precede. */
  function Insert(x: Item, xs: seq<Item>, nameLe: (string, string) -> bool): (r: seq<Item>)
    ensures multiset(r) == multiset(xs) + multiset{x}
  {
    if xs == [] || ItemLe(x, xs[0], nameLe) then [x] + xs
    else
      assert xs == [xs[0]] + xs[1..];
      [xs[0]] + Insert(x, xs[1..], nameLe)
  }

  /** `Array.prototype.sort` with the comparator: a stable insertion sort. */
  function Sort(xs: seq<Item>, nameLe: (string, string) -> bool): (r: seq<Item>)
    ensures multiset(r) == multiset(xs)
  {
    if xs == [] then []
    else
      assert xs == [xs[0]] + xs[1..];
      Insert(xs[0], Sort(xs[1..], nameLe), nameLe)
  }

  /** A sorted list stays sorted without its head. */
  lemma {:induction false} SortedTail(xs: seq<Item>, nameLe: (string, string) -> bool)
    requires xs != [] && SortedBy(xs, nameLe)
    ensures SortedBy(xs[1..], nameLe)
  {
    var tail := xs[1..];
    forall i, j | 0 <= i < j < |tail| ensures ItemLe(tail[i], tail[j], nameLe) {
      assert tail[i] == xs[i + 1] && tail[j] == xs[j + 1];
    }
  }

  /** An item that may precede every element of a sorted list keeps it sorted in front. */
  lemma {:induction false} ConsSorted(a: Item, xs: seq<Item>, nameLe: (string, string) -> bool)
    requires SortedBy(xs, nameLe)
    requires forall y :: y in xs ==> ItemLe(a, y, nameLe)
    ensures SortedBy([a] + xs, nameLe)
  {
    var r := [a] + xs;
    forall i, j | 0 <= i < j < |r| ensures ItemLe(r[i], r[j], nameLe) {
      if i == 0 {
        assert r[j] == xs[j - 1];
      } else {
        assert r[i] == xs[i - 1] && r[j] == xs[j - 1];
      }
    }
  }

  /** The head of a sorted list may precede everything after inserting a later item behind it. */
  lemma {:induction false} HeadBelowInsert(x: Item, xs: seq<Item>, nameLe: (string, string) -> bool)
    requires xs != [] && SortedBy(xs, nameLe) && ItemLe(xs[0], x, nameLe)
    ensures forall y :: y in Insert(x, xs[1..], nameLe) ==> ItemLe(xs[0], y, nameLe)
  {
    var tail := xs[1..];
    var ins := Insert(x, tail, nameLe);
    forall y | y in ins ensures ItemLe(xs[0], y, nameLe) {
      assert y in multiset(ins);
      if y != x {
        assert y in multiset(tail);
        var k :| 0 <= k < |tail| && tail[k] == y;
        assert xs[k + 1] == y;
      }
    }
  }

  lemma {:induction false} InsertSorted(x: Item, xs: seq<Item>, nameLe: (string, string) -> bool)
    requires TotalOrder(nameLe) && SortedBy(xs, nameLe)
    ensures SortedBy(Insert(x, xs, nameLe), nameLe)
  {
    if xs != [] && ItemLe(x, xs[0], nameLe) {
      forall y | y in xs ensures ItemLe(x, y, nameLe) {
        var k :| 0 <= k < |xs| && xs[k] == y;
        if k > 0 {
          ItemLeTransitive(x, xs[0], y, nameLe);
        }
      }
      ConsSorted(x, xs, nameLe);
    } else if xs != [] {
      SortedTail(xs, nameLe);
      InsertSorted(x, xs[1..], nameLe);
      assert ItemLe(xs[0], x, nameLe) by {
        assert nameLe(xs[0].skill.name, x.skill.name) || nameLe(x.skill.name, xs[0].skill.name);
      }
      HeadBelowInsert(x, xs, nameLe);
      ConsSorted(xs[0], Insert(x, xs[1..], nameLe), nameLe);
    }
  }


  /** The sorted list is ordered by the comparator (level descending, then name) and is a permutation of its input. */
  lemma {:induction false} SortSorted(xs: seq<Item>, nameLe: (string, string) -> bool)
    requires TotalOrder(nameLe)
    ensures SortedBy(Sort(xs, nameLe), nameLe)
    ensures multiset(Sort(xs, nameLe)) == multiset(xs)
  {
    if xs != [] {
      SortSorted(xs[1..], nameLe);
      InsertSorted(xs[0], Sort(xs[1..], nameLe), nameLe);
    }
  }

  /** `skillsWithLevels`: the candidates, sorted. */
  function SkillsWithLevels(skills: seq<Skill>, sel: Selections, nameLe: (string, string) -> bool): (r: seq<Item>)
    ensures multiset(r) == multiset(Candidates(skills, sel))
    ensures forall it :: it in r ==> it.skill in skills && Qualifies(it.skill, sel) && it.current == sel[it.skill.id]
  {
    var c := Candidates(skills, sel);
    var r := Sort(c, nameLe);
    assert forall it :: it in r ==> it in c by {
      forall it | it in r ensures it in c {
        assert it in multiset(r);
      }
    }
    r
  }

  /**
   * The panel's list: exactly the rated competencies below Expert, each with
   * its own level, strongest first and equal levels by name.
   */
  lemma {:induction false} SkillsWithLevelsSpec(skills: seq<Skill>, sel: Selections, nameLe: (string, string) -> bool)
    requires TotalOrder(nameLe)
    ensures var r := SkillsWithLevels(skills, sel, nameLe);
      && SortedBy(r, nameLe)
      && multiset(r) == multiset(Candidates(skills, sel))
      && (forall it :: it in r <==> it.skill in skills && Qualifies(it.skill, sel) && it.current == sel[it.skill.id])
      && (forall i, j :: 0 <= i < j < |r| ==> r[i].current >= r[j].current)
  {
    var c := Candidates(skills, sel);
    SortSorted(c, nameLe);
    var r := Sort(c, nameLe);
    forall it ensures it in r <==> it in c {
      assert it in r <==> it in multiset(r);
      assert it in c <==> it in multiset(c);
    }
  }

  /** `((currentLevel || 1) + 1)`: the level to reach next. */
  function NextLevel(current: Level): (n: Level)
    requires current < 5
    ensures 2 <= n <= 5 && n == current + 1
  {
    (if current == 0 then 1 else current) + 1
  }

  /** One row of the panel. */
  datatype Entry = Entry(skill: Skill, current: Level, next: Level)

  /** What the panel shows: the empty state, or the rows. */
  datatype View = EmptyState | Rows(entries: seq<Entry>)

  function Row(it: Item): Entry
    requires it.current < 5
  {
    Entry(it.skill, it.current, NextLevel(it.current))
  }

  /** The whole panel: row i shows the i-th sorted item with the level to reach next. */
  function Render(skills: seq<Skill>, sel: Selections, nameLe: (string, string) -> bool): (v: View)
    ensures v.EmptyState? <==> SkillsWithLevels(skills, sel, nameLe) == []
    ensures v.Rows? ==> |v.entries| == |SkillsWithLevels(skills, sel, nameLe)|
    ensures v.Rows? ==> forall i :: 0 <= i < |v.entries| ==>
      var it := SkillsWithLevels(skills, sel, nameLe)[i];
      v.entries[i].skill == it.skill && v.entries[i].current == it.current && v.entries[i].next == it.current + 1
  {
    var items := SkillsWithLevels(skills, sel, nameLe);
    if |items| == 0 then EmptyState
    else
      Rows(seq(|items|, i requires 0 <= i < |items| =>
        assert items[i] in multiset(Candidates(skills, sel));
        Row(items[i])))
  }

  /** The empty state shows exactly when no listed competency is rated below Expert. */
  lemma {:induction false} RenderEmptyIff(skills: seq<Skill>, sel: Selections, nameLe: (string, string) -> bool)
    ensures Render(skills, sel, nameLe) == EmptyState <==> forall s :: s in skills ==> !Qualifies(s, sel)
  {
    var c := Candidates(skills, sel);
    var r := Sort(c, nameLe);
    if r == [] {
      assert multiset(c) == multiset{};
    } else {
      assert r[0] in multiset(c);
      assert r[0] in c;
      assert r[0].skill in skills && Qualifies(r[0].skill, sel);
    }
  }

  /** Every row's next level is one above its current level, so lies in 2..5. */
  lemma {:induction false} RowsStepOneLevel(skills: seq<Skill>, sel: Selections, nameLe: (string, string) -> bool)
    ensures var v := Render(skills, sel, nameLe);
      v.Rows? ==> forall e :: e in v.entries ==> e.current < 5 && e.next == e.current + 1 && 2 <= e.next <= 5
  {
  }
}
