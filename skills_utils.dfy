/**
 * The shared helpers of the skills matrix: clamping, rounding, parsing stored
 * text, cleaning a stored selection map, and wrapping long chart labels.
 */
module SkillsUtils {
  import opened Wrappers
  import opened Strings
  import opened Json
  import opened SkillTypes

  /** `clamp(n, min, max)`: `n` held inside `[min, max]`; `min` wins when the bounds cross. */
  function Clamp(n: real, lo: real, hi: real): (r: real)
    ensures n < lo ==> r == lo
    ensures lo <= n <= hi ==> r == n
    ensures lo <= hi < n ==> r == hi
    ensures hi < lo ==> r == lo
    ensures lo <= hi ==> lo <= r <= hi
  {
    var m := if hi < n then hi else n;
    if lo < m then m else lo
  }

  /** `Math.round`: the nearest integer, halves rounding up. */
  function Round(v: real): (r: int)
    ensures v - 0.5 < r as real <= v + 0.5
  {
    (v + 0.5).Floor
  }

  /** `Math.round` is the identity on integers. */
  lemma {:induction false} RoundInt(n: int)
    ensures Round(n as real) == n
  {
  }

  /**
   * `safeJsonParse`: null for a missing or empty text and for text that does
   * not parse; `parse` stands for `JSON.parse`, `None` for the exception it throws.
   */
  function SafeJsonParse(raw: Option<string>, parse: string -> Option<Json>): (r: Json)
    ensures (raw.None? || raw.value == "") ==> r == JNull
    ensures raw.Some? && raw.value != "" && parse(raw.value).Some? ==> r == parse(raw.value).value
    ensures raw.Some? && raw.value != "" && parse(raw.value).None? ==> r == JNull
  {
    if raw.None? || raw.value == "" then JNull
    else match parse(raw.value)
      case None => JNull
      case Some(v) => v
  }

  /**
   * What one stored value becomes: a finite number is rounded, dropped when it
   * rounds below 1, and capped at 5 (the migration of the old 1-8 scale).
   */
  function NormalizeValue(v: Json): (r: Option<Level>)
    ensures r.Some? <==> IsFiniteNumber(v) && v.n.r >= 0.5
    ensures r.Some? && v.n.r < 5.5 ==> r.value as real - 0.5 <= v.n.r < r.value as real + 0.5
    ensures r.Some? && v.n.r >= 5.5 ==> r.value == 5
  {
    if !IsFiniteNumber(v) then None
    else
      var n := Round(v.n.r);
      if n < 1 then None
      else
        var c := Clamp(n as real, 1.0, 5.0);
        assert c == (if n > 5 then 5 else n) as real;
        Some(c.Floor)
  }

  /** A stored level reads back as itself. */
  lemma {:induction false} NormalizeLevel(l: Level)
    ensures NormalizeValue(JNumber(Finite(l as real))) == Some(l)
  {
    RoundInt(l);
  }

  /** `Object.entries(raw)`: an object's own entries, an array's index/element pairs, nothing otherwise. */
  function Entries(raw: Json): (es: seq<(string, Json)>)
    ensures raw.JObject? ==> es == raw.fields
    ensures raw.JArray? ==> (|es| == |raw.items| &&
      forall i :: 0 <= i < |es| ==> es[i] == (DecimalString(i), raw.items[i]))
    ensures !raw.JObject? && !raw.JArray? ==> es == []
  {
    match raw
    case JObject(fs) => fs
    case JArray(items) => seq(|items|, i requires 0 <= i < |items| => (DecimalString(i), items[i]))
    case _ => []
  }

  /** The set of the ids in a list: `new Set(ids)`. */
  function IdSet(ids: seq<string>): (s: set<string>)
    ensures forall k :: k in s <==> k in ids
  {
    set k | k in ids
  }

  /**
   * The selection map the loop of `normalizeSelections` has built after
   * visiting `es`: each entry with a known id and a usable value is written,
   * a later entry overwriting an earlier one.
   */
  function NormalizeEntries(es: seq<(string, Json)>, ids: set<string>): Selections
    decreases |es|
  {
    if es == [] then map[]
    else
      var prev := NormalizeEntries(es[..|es| - 1], ids);
      var (k, v) := es[|es| - 1];
      if k in ids && NormalizeValue(v).Some? then prev[k := NormalizeValue(v).value] else prev
  }

  /** `normalizeSelections(raw, skills)` with `skills` given by their ids. */
  function Normalize(raw: Json, ids: seq<string>): (r: Selections)
    ensures forall k :: k in r ==> k in ids
    ensures !Truthy(raw) || !IsObjectType(raw) ==> r == map[]
  {
    if !Truthy(raw) || !IsObjectType(raw) then map[]
    else
      NormalizeEntriesKeys(Entries(raw), IdSet(ids));
      NormalizeEntries(Entries(raw), IdSet(ids))
  }

  /** `normalizeSelections`: the loop over `Object.entries(raw)`, skipping what does not qualify. */
  method NormalizeSelections(raw: Json, skillIds: seq<string>) returns (out: Selections)
    ensures out == Normalize(raw, skillIds)
  {
    out := map[];
    if !Truthy(raw) || !IsObjectType(raw) {
      return;
    }
    var validIds := IdSet(skillIds);
    var entries := Entries(raw);
    for i := 0 to |entries|
      invariant out == NormalizeEntries(entries[..i], validIds)
    {
      assert entries[..i + 1][..i] == entries[..i];
      var (k, v) := entries[i];
      if k !in validIds {
        continue;
      }
      if !v.JNumber? || !v.n.Finite? {
        continue;
      }
      var n := Round(v.n.r);
      if n < 1 {
        continue;
      }
      out := out[k := Clamp(n as real, 1.0, 5.0).Floor];
    }
    assert entries[..|entries|] == entries;
  }

  /** The keys an entry list names. */
  function KeysOf(es: seq<(string, Json)>): set<string> {
    set i | 0 <= i < |es| :: es[i].0
  }

  /** Every key of the result is a known id that the input names. */
  lemma {:induction false} NormalizeEntriesKeys(es: seq<(string, Json)>, ids: set<string>)
    ensures NormalizeEntries(es, ids).Keys <= ids * KeysOf(es)
    decreases |es|
  {
    if es != [] {
      var init := es[..|es| - 1];
      NormalizeEntriesKeys(init, ids);
      assert KeysOf(init) <= KeysOf(es) by {
        forall k | k in KeysOf(init) ensures k in KeysOf(es) {
          var i :| 0 <= i < |init| && init[i].0 == k;
          assert es[i].0 == k;
        }
      }
      assert es[|es| - 1].0 in KeysOf(es);
    }
  }

  /** Only known ids survive normalisation, and only those the stored value names. */
  lemma {:induction false} NormalizeKeysValid(raw: Json, ids: seq<string>)
    ensures forall k :: k in Normalize(raw, ids) ==> k in ids && k in KeysOf(Entries(raw))
  {
    if Truthy(raw) && IsObjectType(raw) {
      NormalizeEntriesKeys(Entries(raw), IdSet(ids));
    }
  }

  /** Entries with pairwise different keys (as an object's own entries are). */
  predicate DistinctKeys(es: seq<(string, Json)>) {
    forall i, j :: 0 <= i < j < |es| ==> es[i].0 != es[j].0
  }

  /**
   * With distinct keys, each entry decides its own key alone: present exactly
   * when the id is known and the value usable, with the normalised value.
   */
  lemma {:induction false} NormalizeEntriesLookup(es: seq<(string, Json)>, ids: set<string>, i: int)
    requires DistinctKeys(es) && 0 <= i < |es|
    ensures es[i].0 in NormalizeEntries(es, ids) <==> es[i].0 in ids && NormalizeValue(es[i].1).Some?
    ensures es[i].0 in NormalizeEntries(es, ids) ==>
      NormalizeEntries(es, ids)[es[i].0] == NormalizeValue(es[i].1).value
    decreases |es|
  {
    var init := es[..|es| - 1];
    if i < |es| - 1 {
      NormalizeEntriesLookup(init, ids, i);
      assert init[i] == es[i];
    } else {
      NormalizeEntriesKeys(init, ids);
      assert es[i].0 !in KeysOf(init);
    }
  }

  /** A stored null, number, string or boolean (anything but an object or an array) yields no selections. */
  lemma {:induction false} NonObjectNormalizesEmpty(raw: Json, ids: seq<string>)
    requires !raw.JObject? && !raw.JArray?
    ensures Normalize(raw, ids) == map[]
  {
  }

  /** The decimal index keys of an array of length `n`. */
  function IndexKeys(n: nat): set<string> {
    set i | 0 <= i < n :: DecimalString(i)
  }

  /** A stored array contributes only its decimal index keys. */
  lemma {:induction false} ArrayKeysAreIndices(items: seq<Json>, ids: seq<string>)
    ensures Normalize(JArray(items), ids).Keys <= IndexKeys(|items|)
  {
    NormalizeKeysValid(JArray(items), ids);
    var es := Entries(JArray(items));
    forall k | k in KeysOf(es) ensures k in IndexKeys(|items|) {
      var i :| 0 <= i < |es| && es[i].0 == k;
      assert es[i] == (DecimalString(i), items[i]);
    }
  }

  /** `es` is how `JSON.stringify` writes `m`: each selected id once, with its level as a number. */
  predicate Serialized(es: seq<(string, Json)>, m: Selections) {
    && DistinctKeys(es)
    && KeysOf(es) == m.Keys
    && forall i :: 0 <= i < |es| ==> es[i].0 in m && es[i].1 == JNumber(Finite(m[es[i].0] as real))
  }

  /** A non-empty entry list names at least its first key. */
  lemma {:induction false} KeysOfNonEmpty(es: seq<(string, Json)>)
    ensures es != [] ==> es[0].0 in KeysOf(es)
  {
  }

  /** Appending an entry for a new key serialises the map extended with that key. */
  lemma {:induction false} SerializedAppend(es: seq<(string, Json)>, m: Selections, k: string, l: Level)
    requires Serialized(es, m) && k !in m
    ensures Serialized(es + [(k, JNumber(Finite(l as real)))], m[k := l])
  {
    var es' := es + [(k, JNumber(Finite(l as real)))];
    assert forall i :: 0 <= i < |es| ==> es'[i] == es[i];
    assert KeysOf(es') == KeysOf(es) + {k} by {
      forall x | x in KeysOf(es') ensures x in KeysOf(es) + {k} {
        var i :| 0 <= i < |es'| && es'[i].0 == x;
        if i < |es| { assert es[i].0 == x; }
      }
      forall x | x in KeysOf(es) ensures x in KeysOf(es') {
        var i :| 0 <= i < |es| && es[i].0 == x;
        assert es'[i].0 == x;
      }
      assert es'[|es|].0 == k;
    }
  }

  /** `JSON.stringify(selections)`: the entries of a selection map, each id once. */
  method Serialize(m: Selections) returns (es: seq<(string, Json)>)
    ensures Serialized(es, m)
  {
    es := [];
    var rest := m.Keys;
    while rest != {}
      invariant rest <= m.Keys
      invariant Serialized(es, m - rest)
      decreases |rest|
    {
      var k :| k in rest;
      ghost var done := m - rest;
      assert k !in KeysOf(es);
      SerializedAppend(es, done, k, m[k]);
      es := es + [(k, JNumber(Finite(m[k] as real)))];
      rest := rest - {k};
      assert m - rest == done[k := m[k]];
    }
    assert m - rest == m;
  }

  /** Normalising a prefix of a serialised map gives the map restricted to that prefix's keys. */
  lemma {:induction false} NormalizeSerializedPrefix(es: seq<(string, Json)>, m: Selections, ids: set<string>, n: nat)
    requires Serialized(es, m) && m.Keys <= ids && n <= |es|
    ensures NormalizeEntries(es[..n], ids) == map k | k in KeysOf(es[..n]) && k in m :: m[k]
  {
    if n > 0 {
      var init, e := es[..n - 1], es[n - 1];
      assert es[..n] == init + [e];
      NormalizeSerializedPrefix(es, m, ids, n - 1);
      var k := e.0;
      assert k in m && e.1 == JNumber(Finite(m[k] as real));
      NormalizeLevel(m[k]);
      NormalizeEntriesSnoc(init, e, ids);
      KeysOfSnoc(init, e);
      MapExtend(m, KeysOf(init), k);
    }
  }

  /** Normalising one more entry updates the previous result with that entry alone. */
  lemma {:induction false} NormalizeEntriesSnoc(es: seq<(string, Json)>, e: (string, Json), ids: set<string>)
    ensures NormalizeEntries(es + [e], ids) ==
      if e.0 in ids && NormalizeValue(e.1).Some? then NormalizeEntries(es, ids)[e.0 := NormalizeValue(e.1).value]
      else NormalizeEntries(es, ids)
  {
    assert (es + [e])[..|es|] == es;
  }

  /** One more entry adds its key to the key set. */
  lemma {:induction false} KeysOfSnoc(es: seq<(string, Json)>, e: (string, Json))
    ensures KeysOf(es + [e]) == KeysOf(es) + {e.0}
  {
    var es' := es + [e];
    assert forall i :: 0 <= i < |es| ==> es'[i] == es[i];
    assert es'[|es|] == e;
  }

  /** Restricting a map to a set and then adding one of its keys is restricting it to the larger set. */
  lemma {:induction false} MapExtend(m: Selections, keys: set<string>, k: string)
    requires k in m
    ensures (map x | x in keys && x in m :: m[x])[k := m[k]] == map x | x in keys + {k} && x in m :: m[x]
  {
  }

  /** Round trip: a selection map written by `JSON.stringify` and read back is unchanged. */
  lemma {:induction false} NormalizeRoundTrip(es: seq<(string, Json)>, m: Selections, ids: seq<string>)
    requires Serialized(es, m)
    requires forall k :: k in m ==> k in ids
    ensures Normalize(JObject(es), ids) == m
  {
    NormalizeSerializedPrefix(es, m, IdSet(ids), |es|);
    assert es[..|es|] == es;
    assert Normalize(JObject(es), ids) == NormalizeEntries(es, IdSet(ids));
    assert (map k | k in KeysOf(es) && k in m :: m[k]) == m;
  }

  /** Normalisation is idempotent: persisting its result and loading it again changes nothing. */
  lemma {:induction false} NormalizeIdempotent(raw: Json, ids: seq<string>, es: seq<(string, Json)>)
    requires Serialized(es, Normalize(raw, ids))
    ensures Normalize(JObject(es), ids) == Normalize(raw, ids)
  {
    NormalizeKeysValid(raw, ids);
    NormalizeRoundTrip(es, Normalize(raw, ids), ids);
  }

  /** The value cases: legacy 7.8 and 9 become 5, 2.5 rounds up, and nothing below 0.5 or non-finite survives. */
  lemma {:induction false} NormalizeValueCases()
    ensures NormalizeValue(JNumber(Finite(7.8))) == Some(5)
    ensures NormalizeValue(JNumber(Finite(9.0))) == Some(5)
    ensures NormalizeValue(JNumber(Finite(2.5))) == Some(3)
    ensures NormalizeValue(JNumber(Finite(0.4))) == None
    ensures NormalizeValue(JNumber(Finite(0.0))) == None
    ensures NormalizeValue(JNumber(Finite(-3.0))) == None
    ensures NormalizeValue(JNumber(NaN)) == None
    ensures NormalizeValue(JNumber(PosInf)) == None
    ensures NormalizeValue(JNumber(NegInf)) == None
    ensures NormalizeValue(JString("3")) == None
  {
  }

  /** `[line1, line2].filter(Boolean)`: the non-empty strings, in order. */
  function NonEmpty(xs: seq<string>): (r: seq<string>)
    ensures |r| <= |xs|
    ensures forall i :: 0 <= i < |r| ==> r[i] != ""
    ensures (forall i :: 0 <= i < |xs| ==> xs[i] != "") ==> r == xs
  {
    if xs == [] then []
    else if xs[0] == "" then NonEmpty(xs[1..])
    else [xs[0]] + NonEmpty(xs[1..])
  }

  /** The first `(n + 1) / 2` words: `Math.ceil(n / 2)`. */
  function Half(n: nat): nat {
    (n + 1) / 2
  }

  /** Both halves of two or more words join to non-empty lines, so the filter keeps both. */
  lemma {:induction false} TwoLines(words: seq<string>)
    requires |words| >= 2
    requires forall i :: 0 <= i < |words| ==> IsWord(words[i])
    ensures var mid := Half(|words|);
      var pair := [Join(words[..mid], " "), Join(words[mid..], " ")];
      NonEmpty(pair) == pair
  {
    var mid := Half(|words|);
    var first, second := words[..mid], words[mid..];
    assert first[0] == words[0] && IsWord(words[0]);
    assert second[0] == words[mid] && IsWord(words[mid]);
    JoinNonEmpty(first, " ");
    JoinNonEmpty(second, " ");
    var pair := [Join(first, " "), Join(second, " ")];
    assert forall i :: 0 <= i < |pair| ==> pair[i] != "";
  }

  /**
   * `wrapSvgLabel`: a trimmed label of more than 18 characters and at least
   * two words is broken into two lines; anything else stays one line.
   */
  function WrapSvgLabel(name: string): (lines: seq<string>)
    ensures 1 <= |lines| <= 2
    ensures |lines| == 1 ==> lines[0] == Trim(name)
  {
    var s := Trim(name);
    if |s| <= 18 then [s]
    else
      var words := Words(s);
      if |words| <= 1 then [s]
      else
        var mid := Half(|words|);
        var line1 := Join(words[..mid], " ");
        var line2 := Join(words[mid..], " ");
        TwoLines(words);
        NonEmpty([line1, line2])
  }

  /** Labels of at most 18 characters, after trimming, are never wrapped. */
  lemma {:induction false} WrapShortLabel(name: string)
    requires |Trim(name)| <= 18
    ensures WrapSvgLabel(name) == [Trim(name)]
  {
  }

  /** A label of at most one word, after trimming, is never wrapped. */
  lemma {:induction false} WrapFewWords(name: string)
    requires |Words(Trim(name))| <= 1
    ensures WrapSvgLabel(name) == [Trim(name)]
  {
  }

  /** A list of words has no space character in any of them. */
  lemma {:induction false} WordsHaveNoSpace(ws: seq<string>)
    requires forall i :: 0 <= i < |ws| ==> IsWord(ws[i])
    ensures forall i :: 0 <= i < |ws| ==> ' ' !in ws[i]
  {
    forall i | 0 <= i < |ws| ensures ' ' !in ws[i] {
      assert IsWord(ws[i]);
      assert IsSpace(' ');
    }
  }

  /** A long label of several words is cut after the first half of its words, rounded up. */
  lemma {:induction false} WrapLongLines(name: string)
    requires |Trim(name)| > 18 && |Words(Trim(name))| >= 2
    ensures var words := Words(Trim(name));
      WrapSvgLabel(name) == [Join(words[..Half(|words|)], " "), Join(words[Half(|words|)..], " ")]
  {
    TwoLines(Words(Trim(name)));
  }

  /** Splitting the two halves' joins gives the halves back, and the joins together give the whole. */
  lemma {:induction false} HalvesOfWords(words: seq<string>)
    requires |words| >= 2
    requires forall i :: 0 <= i < |words| ==> IsWord(words[i])
    ensures var mid := Half(|words|);
      && Split(Join(words[..mid], " "), ' ') == words[..mid]
      && Split(Join(words[mid..], " "), ' ') == words[mid..]
      && Join(words[..mid], " ") + " " + Join(words[mid..], " ") == Join(words, " ")
  {
    var mid := Half(|words|);
    var first, second := words[..mid], words[mid..];
    WordsHaveNoSpace(first);
    WordsHaveNoSpace(second);
    SplitJoin(first, ' ');
    SplitJoin(second, ' ');
    JoinAppend(first, second, " ");
    assert first + second == words;
  }

  /**
   * A long label of several words becomes two lines: the first holds the first
   * half of the words (rounded up), the second the rest, and joining the two
   * with a space gives the words in their original order.
   */
  lemma {:induction false} WrapLongLabel(name: string)
    requires |Trim(name)| > 18 && |Words(Trim(name))| >= 2
    ensures var words := Words(Trim(name));
      var lines := WrapSvgLabel(name);
      && |lines| == 2
      && Split(lines[0], ' ') == words[..Half(|words|)]
      && Split(lines[1], ' ') == words[Half(|words|)..]
      && 0 <= |Split(lines[0], ' ')| - |Split(lines[1], ' ')| <= 1
      && lines[0] + " " + lines[1] == Join(words, " ")
  {
    WrapLongLines(name);
    HalvesOfWords(Words(Trim(name)));
  }

  /** A single long word stays whole on one line. */
  lemma {:induction false} WrapSingleWord(name: string)
    requires forall i :: 0 <= i < |name| ==> !IsSpace(name[i])
    ensures WrapSvgLabel(name) == [name]
  {
    assert Trim(name) == name by {
      if name != [] {
        TrimTrimmed(name);
      }
    }
    WordsOfWord(name);
    WrapFewWords(name);
  }
}
