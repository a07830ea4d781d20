# Portfolio site: a verified model of its interactive core

This project models, in Dafny, the parts of the portfolio site that hold logic:

- **The Design Skills Matrix.**
  - Competencies are rated on a five-point scale, one lane per competency.
  - Lanes are grouped in lane cards: a baseline card plus an optional specialty card.
  - Each card keeps its selections in local storage under a versioned key.
  - The card's lane state machine covers hover previews, track clicks and taps, the keyboard, swipes, Clear All and the edit/visualize toggle.
  - Selections are normalised when stored data is read back.
  - Two derived chart views show the selections: a radar chart and a polar chart.
  - A comparison panel lists what the next level asks for.
  - The older self-contained page keeps its own competency builder and its own mount-time load.
- **The edge middleware.** It guards the Skills Matrix routes with HTTP Basic authentication.
- **The client-side password gate.** It stores the unlocked state in session storage.
- **The portfolio mock's routing.** This covers:
  - the section shown for each URL;
  - navigation keys;
  - the Cmd/Ctrl+K command palette, with its filter and dispatch;
  - the case study list and detail;
  - the complexity dots.
- **The site shell's navigation bar** and its class-name joiner.
- **The three data registries:** skills, case studies and learning resources.

Modules follow the source files:

| Dafny file | models |
|---|---|
| `wrappers.dfy`, `strings.dfy`, `json.dfy` | `Option`; the JavaScript string built-ins the core uses, which are `trim`, ASCII `toLowerCase`, `split`, `join`, `startsWith`, `includes` and a first-occurrence `replace`; and JSON values |
| `skill_types.dfy` | `data/skills/types.ts` |
| `skills_registry.dfy` | `data/skills/index.ts` |
| `skills_utils.dfy` | `components/skills-matrix/utils.ts` (the duplicated helpers in `DesignSkillsMatrix.tsx` are the same code and share this model) |
| `skills_lane_card.dfy` | `components/skills-matrix/SkillsLaneCard.tsx` |
| `comparison_mode.dfy` | `components/skills-matrix/ComparisonMode.tsx` |
| `proficiency_visualized.dfy` | `components/skills-matrix/ProficiencyVisualized.tsx` |
| `design_skills_matrix.dfy` | `components/DesignSkillsMatrix.tsx` |
| `middleware.dfy` | `middleware.ts` |
| `password_gate.dfy` | `components/PasswordGate.tsx` |
| `portfolio_mock.dfy` | `components/PortfolioMock.tsx` |
| `site_shell.dfy` | `components/siteshell.tsx` |
| `case_studies.dfy` | `data/case-studies/index.ts` |
| `learning_resources.dfy` | `data/learning-resources/index.ts` |

State that the components change in place is modelled as classes:
- the lane card (`SkillsLaneCard.LaneCard`);
- the older page (`DesignSkillsMatrix.MatrixPage`);
- the gate (`PasswordGate.Gate`);
- the portfolio page (`PortfolioMock.Portfolio`).

Each class has one method per event handler or effect. Each method states its whole new state. Pure derivations are functions, with lemmas that state their properties. These derivations include coverage, the details level, the quantised level, the charts, the routes and the palette list.

### Where the code and its description differ (the model follows the code)

- **Hit zones.** The track's hit zones are unequal. Levels 1 and 5 get an eighth of the track each and levels 2 to 4 a quarter each, because the level is `round(pct * 4) + 1`.
- **Stored arrays.** A stored JSON array is not rejected by normalisation. Its decimal index keys are read like object keys.
- **Up/Down at the bounds.** Up on level 5 and Down on level 1 leave the level alone. An unset level is never created by Up or Down.
- **Dark theme.** The current polar chart hides its background wedges in the dark theme. The older page's polar chart always draws them.
- **Centre title.** The older page's charts never show the centre title.
- **`initialRoute`.** In the portfolio mock, the pathname effect overrides `initialRoute` as soon as it runs.
- **Case study slugs.** `"/case-studiesX"` is treated as a case study path, and its "slug" is the whole path.
- **Unknown keys.** For an unknown navigation key, the test `key !== "work"` is always true, so the case study always closes.
- **Empty case keys.** `"case:"` opens the case id `""`. The pathname effect would instead map the pushed URL `/case-studies/` to no case at all.
- **Middleware password.** The middleware reads the password as the second colon-separated field, not as everything after the first colon (see Findings).

## Model

| member | source | states |
|---|---|---|
| SkillTypes.CreateSkill | data/skills/types.ts:40-47 | the record holds exactly the id, label, level table and category it was given |
| SkillTypes.Ids | data/skills/types.ts:29-34 | the id list has one id per competency, position for position |
| SkillTypes.LevelsAreTheScale | data/skills/types.ts:9-10 | `LEVELS` lists each of 1..5 once, ascending, and nothing else |
| SkillTypes.LevelLabelsTotalAndDistinct | data/skills/types.ts:13-19 | every level has a label, and the five labels are pairwise different |
| SkillTypes.EveryLevelHasDetail | data/skills/types.ts:22-34 | looking a level up in the level table reaches the slot for that level, for each of the five levels |
| SkillsRegistry.CatalogFor | data/skills/index.ts:30-35 | a drop-down value selects a catalog exactly when it is one of the four registry keys |
| SkillsRegistry.RegistryConsistent | data/skills/index.ts:30-56 | the catalog and label records have the same four keys, and the drop-down lists them in order with their labels, then "none" |
| SkillsRegistry.OptionsSelectCatalogs | data/skills/index.ts:50-56 | every option except "none" selects a catalog, each a different one, and "none" selects nothing |
| SkillsRegistry.StorageKeyWellFormed | data/skills/index.ts:61-67 | every storage key starts with the shared lanes prefix and ends in a `:v<digit>` version suffix |
| SkillsRegistry.StorageKeysDistinct | data/skills/index.ts:61-67 | different lanes have different storage keys, so no lane overwrites another |
| SkillsUtils.Clamp | components/skills-matrix/utils.ts:18-20 | the result lies in [min, max] when min <= max, equals n when n is inside, and is min when the bounds cross |
| SkillsUtils.Round | components/skills-matrix/utils.ts:57 | the result is the nearest integer, with halves rounding up (within one half of v) |
| SkillsUtils.RoundInt | components/skills-matrix/utils.ts:57 | rounding an integer gives it back |
| SkillsUtils.SafeJsonParse | components/skills-matrix/utils.ts:27-34 | missing or empty text and text that fails to parse give null; otherwise the result is the parse |
| SkillsUtils.NormalizeValue | components/skills-matrix/utils.ts:55-59 | only finite numbers that round to at least 1 survive, as a level in 1..5 |
| SkillsUtils.NormalizeLevel | components/skills-matrix/utils.ts:55-59 | a stored level 1..5 reads back as itself |
| SkillsUtils.Entries | components/skills-matrix/utils.ts:53 | an object yields its entries, an array its decimal index/element pairs, and anything else nothing |
| SkillsUtils.IdSet | components/skills-matrix/utils.ts:51 | the set holds exactly the listed ids |
| SkillsUtils.NormalizeSelections | components/skills-matrix/utils.ts:47-63 | the loop returns the left fold over the entries: each known id with a usable value is written, and a later entry overrides an earlier one |
| SkillsUtils.Normalize | components/skills-matrix/utils.ts:47-63 | a value that is not an object gives the empty map, and every key of the result is a known id |
| SkillsUtils.NormalizeEntriesKeys | components/skills-matrix/utils.ts:53-60 | every key of the result is a known id named by some entry |
| SkillsUtils.NormalizeKeysValid | components/skills-matrix/utils.ts:47-63 | only known ids that the stored value names survive normalisation |
| SkillsUtils.NormalizeEntriesLookup | components/skills-matrix/utils.ts:53-60 | with distinct keys, an id is present exactly when its entry is usable, and then it holds that entry's normalised value |
| SkillsUtils.NonObjectNormalizesEmpty | components/skills-matrix/utils.ts:49 | null, numbers, strings and booleans normalise to the empty map |
| SkillsUtils.ArrayKeysAreIndices | components/skills-matrix/utils.ts:49-60 | a stored array contributes only its decimal index keys |
| SkillsUtils.Serialize | components/skills-matrix/SkillsLaneCard.tsx:66-70 | the written object names each selected id exactly once, with its level as a number, and nothing else |
| SkillsUtils.NormalizeRoundTrip | components/skills-matrix/utils.ts:47-63 | a selection map written out as JSON and normalised back is unchanged |
| SkillsUtils.NormalizeIdempotent | components/skills-matrix/utils.ts:47-63 | normalising, persisting and normalising again gives the first result |
| SkillsUtils.NormalizeValueCases | components/skills-matrix/utils.ts:55-59 | 7.8 and 9 become 5, 2.5 becomes 3, and values below 0.5, NaN and the infinities are dropped |
| SkillsUtils.NonEmpty | components/skills-matrix/utils.ts:82 | the non-empty strings of the input, in order |
| SkillsUtils.WrapSvgLabel | components/skills-matrix/utils.ts:72-83 | one or two lines; a single line is the whole trimmed label |
| SkillsUtils.WrapShortLabel | components/skills-matrix/utils.ts:73-75 | a label of at most 18 characters after trimming stays one line, unchanged apart from the trim |
| SkillsUtils.WrapLongLines | components/skills-matrix/utils.ts:76-81 | a long label of several words is cut after the first half of its words, rounded up |
| SkillsUtils.WrapLongLabel | components/skills-matrix/utils.ts:76-82 | a long label becomes two lines whose words, joined by one space, are the label's words in order |
| SkillsUtils.WrapSingleWord | components/skills-matrix/utils.ts:77 | a single long word stays whole on one line |
| SkillsLaneCard.Quantize | components/skills-matrix/SkillsLaneCard.tsx:282-284 | the pointer's offset lies in the hit zone of the level returned |
| SkillsLaneCard.ZonesDisjoint | components/skills-matrix/SkillsLaneCard.tsx:282-284 | an offset lies in the hit zone of one level only |
| SkillsLaneCard.QuantizeIffZone | components/skills-matrix/SkillsLaneCard.tsx:282-284 | the quantised level is l exactly when the offset is in l's zone (cut at w/8, 3w/8, 5w/8 and 7w/8) |
| SkillsLaneCard.QuantizeEnds | components/skills-matrix/SkillsLaneCard.tsx:282-284 | left of w/8, including left of the track, is level 1; from 7w/8 on, including right of the track, is level 5 |
| SkillsLaneCard.QuantizeTrackEdges | components/skills-matrix/SkillsLaneCard.tsx:282-284 | the left edge of the track is level 1 and the right edge is level 5 |
| SkillsLaneCard.QuantizeMonotone | components/skills-matrix/SkillsLaneCard.tsx:282-284 | moving the pointer right never lowers the level |
| SkillsLaneCard.MarkerRoundTrip | components/skills-matrix/SkillsLaneCard.tsx:282-284 | the marker position drawn for level l quantises back to l |
| SkillsLaneCard.FindIndex | components/skills-matrix/SkillsLaneCard.tsx:77-78 | the first position holding the id, or -1 exactly when no competency has it |
| SkillsLaneCard.Filled | components/skills-matrix/SkillsLaneCard.tsx:60-64 | coverage never exceeds the number of competencies |
| SkillsLaneCard.FilledCountsRated | components/skills-matrix/SkillsLaneCard.tsx:60-64 | coverage is the number of positions whose competency is rated |
| SkillsLaneCard.FilledIgnoresOtherIds | components/skills-matrix/SkillsLaneCard.tsx:60-64 | map entries for unlisted ids do not count, the empty map counts 0, and a full map counts every competency |
| SkillsLaneCard.DetailsLevel | components/skills-matrix/SkillsLaneCard.tsx:185 | the committed level of the active competency when there is one, else the hover level on the active lane, else nothing |
| SkillsLaneCard.DetailsIgnoreOtherLanes | components/skills-matrix/SkillsLaneCard.tsx:185 | a hover on another lane never shows, and a committed level always wins over a hover |
| SkillsLaneCard.KeyTextInjective | components/skills-matrix/SkillsLaneCard.tsx:73-129 | different keys have different `KeyboardEvent.key` texts |
| SkillsLaneCard.DigitTest | components/skills-matrix/SkillsLaneCard.tsx:106 | the string-range test accepts exactly the typed digits 1 to 5 |
| SkillsLaneCard.DigitValue | components/skills-matrix/SkillsLaneCard.tsx:107-108 | the level whose decimal form is the digit typed, so `parseInt` reads the key back as its own level |
| SkillsLaneCard.KindTests | components/skills-matrix/SkillsLaneCard.tsx:83-113 | each string test the handler makes on the key text holds exactly for one kind of key: the four arrows, Delete or Backspace, and the characters 1 to 5 |
| SkillsLaneCard.KeyUnknownActive | components/skills-matrix/SkillsLaneCard.tsx:77-79 | when the active id is not listed, every key is ignored |
| SkillsLaneCard.KeyArrowsMoveByOne | components/skills-matrix/SkillsLaneCard.tsx:83-93 | Left and Right move the active position by exactly one, without wrapping, and leave selections alone |
| SkillsLaneCard.KeyUpDown | components/skills-matrix/SkillsLaneCard.tsx:96-103 | Up and Down change only the active level, by one, inside 1..5; an unset level stays unset |
| SkillsLaneCard.KeyDigitAndDelete | components/skills-matrix/SkillsLaneCard.tsx:106-120 | a digit sets the active level to that digit; Delete and Backspace remove only the active entry |
| SkillsLaneCard.KindStepKeepsValid | components/skills-matrix/SkillsLaneCard.tsx:73-129 | after any kind of key the active id is still listed, and the map rates only listed ids |
| SkillsLaneCard.KindStep | components/skills-matrix/SkillsLaneCard.tsx:80-124 | an unhandled key changes nothing; a key that changes the map keeps the active lane; no entry other than the active one is added, removed or changed |
| SkillsLaneCard.KeyStep | components/skills-matrix/SkillsLaneCard.tsx:76-124 | an unlisted active id or an unhandled key changes nothing; a change to the map keeps the active lane; entries other than the active one are never added, removed or changed |
| SkillsLaneCard.KeyStepKeepsValid | components/skills-matrix/SkillsLaneCard.tsx:73-129 | after any key the active id is still listed and the map rates only listed ids |
| SkillsLaneCard.EditKey | components/skills-matrix/SkillsLaneCard.tsx:76-124 | on a valid lane state, the handler's outcome is the key specification's, and the state it leaves is valid |
| SkillsLaneCard.HandleKey | components/skills-matrix/SkillsLaneCard.tsx:76-124 | the handler, with its tests in source order, produces exactly the transition the key specification describes |
| SkillsLaneCard.SwipeMovesByOne | components/skills-matrix/SkillsLaneCard.tsx:156-183 | a swipe right selects the previous lane and a swipe left the next one, without wrapping; a touch that is not a swipe changes nothing |
| SkillsLaneCard.SwipeFromUnknown | components/skills-matrix/SkillsLaneCard.tsx:165-178 | with an unlisted active id, a leftward swipe over a non-empty lane list selects the first lane |
| SkillsLaneCard.SwipeStep | components/skills-matrix/SkillsLaneCard.tsx:156-183 | a touch that is not a swipe keeps the active lane, and any lane it picks is a listed one |
| SkillsLaneCard.LaneCard.constructor | components/skills-matrix/SkillsLaneCard.tsx:50-55 | the first lane is active, nothing is hovered, the mode is edit and no touch is pending |
| SkillsLaneCard.LaneCard.Coverage | components/skills-matrix/SkillsLaneCard.tsx:60-64 | rated listed competencies out of all listed ones, filled <= total |
| SkillsLaneCard.LaneCard.SetLevel | components/skills-matrix/SkillsLaneCard.tsx:131-134 | only the id's entry changes, to the level, and that id becomes active |
| SkillsLaneCard.LaneCard.FocusLane | components/skills-matrix/SkillsLaneCard.tsx:136-147 | the lane becomes active and nothing else changes |
| SkillsLaneCard.LaneCard.MouseEnterLane | components/skills-matrix/SkillsLaneCard.tsx:267-270 | the lane becomes active and the hover preview is dropped |
| SkillsLaneCard.LaneCard.MouseLeave | components/skills-matrix/SkillsLaneCard.tsx:271 | the hover preview is dropped and nothing else changes |
| SkillsLaneCard.LaneCard.TrackMove | components/skills-matrix/SkillsLaneCard.tsx:279-285 | the preview shows the quantised level on that lane, and no selection changes |
| SkillsLaneCard.LaneCard.TrackClick | components/skills-matrix/SkillsLaneCard.tsx:287-294 | the level under the pointer is committed on that lane, and the lane becomes active |
| SkillsLaneCard.LaneCard.TrackTap | components/skills-matrix/SkillsLaneCard.tsx:295-304 | the level under the finger is committed and the pending touch is kept |
| SkillsLaneCard.LaneCard.KeyDown | components/skills-matrix/SkillsLaneCard.tsx:73-129 | keys act only in edit mode, and then as the key specification says |
| SkillsLaneCard.LaneCard.TouchStart | components/skills-matrix/SkillsLaneCard.tsx:150-154 | the touch's position and time are remembered |
| SkillsLaneCard.LaneCard.Swipe | components/skills-matrix/SkillsLaneCard.tsx:165-178 | the active lane becomes the one the swipe specification picks, and nothing else changes |
| SkillsLaneCard.LaneCard.TouchEnd | components/skills-matrix/SkillsLaneCard.tsx:156-183 | a swipe moves the active lane as the swipe specification says, and the touch is forgotten |
| SkillsLaneCard.LaneCard.ToggleView | components/skills-matrix/SkillsLaneCard.tsx:203 | the view flips between edit and visualize |
| SkillsLaneCard.LaneCard.ClearAll | components/skills-matrix/SkillsLaneCard.tsx:188-193 | once confirmed, the map is empty, and the stored copy is removed when the storage accepts the removal and left as it was when the removal throws; declined, nothing changes |
| SkillsLaneCard.LaneCard.ClearAllAndPersist | components/skills-matrix/SkillsLaneCard.tsx:188-193 | clearing followed by the persist effect leaves the map empty and, when the write goes through, `{}` stored under the card's key with every other key untouched; a refused write leaves the removal's outcome |
| SkillsLaneCard.LaneCard.Persist | components/skills-matrix/SkillsLaneCard.tsx:66-70 | when the write goes through, the map is written under the card's key and normalising it back gives the same map; a write that throws leaves the storage unchanged |
| ComparisonMode.Candidates | components/skills-matrix/ComparisonMode.tsx:25-30 | an item appears exactly for a listed competency rated below 5, with its own level |
| ComparisonMode.CandidatesAtMostOnce | components/skills-matrix/ComparisonMode.tsx:25-30 | no competency appears more often than it is listed |
| ComparisonMode.ItemLeTransitive | components/skills-matrix/ComparisonMode.tsx:31-37 | the comparator is transitive whenever the name order is |
| ComparisonMode.Insert | components/skills-matrix/ComparisonMode.tsx:31-37 | the result is the input with the item added, as a multiset |
| ComparisonMode.Sort | components/skills-matrix/ComparisonMode.tsx:31-37 | the result is a permutation of the input |
| ComparisonMode.SortSorted | components/skills-matrix/ComparisonMode.tsx:31-37 | the result is ordered by level, highest first, and then by name |
| ComparisonMode.SkillsWithLevelsSpec | components/skills-matrix/ComparisonMode.tsx:25-37 | the list holds exactly the competencies rated below Expert, each with its own level, strongest first |
| ComparisonMode.SkillsWithLevels | components/skills-matrix/ComparisonMode.tsx:25-37 | the sorted list is a permutation of the qualifying competencies, each listed, rated below Expert and paired with its own level |
| ComparisonMode.NextLevel | components/skills-matrix/ComparisonMode.tsx:52 | the next level is one above the current level, for a level below 5 |
| ComparisonMode.Render | components/skills-matrix/ComparisonMode.tsx:39-89 | the empty state shows exactly when the sorted list is empty; otherwise row i is the i-th sorted item, with its competency, its current level and the next level, one above |
| ComparisonMode.RenderEmptyIff | components/skills-matrix/ComparisonMode.tsx:39-47 | the empty state shows exactly when no listed competency is rated below Expert |
| ComparisonMode.RowsStepOneLevel | components/skills-matrix/ComparisonMode.tsx:51-54 | every row goes from its current level to exactly one level higher, within 2..5 |
| ProficiencyVisualized.LevelOrZero | components/skills-matrix/ProficiencyVisualized.tsx:107 | the competency's level, or 0 when unrated; always in 0..5 |
| ProficiencyVisualized.RadarDivisor | components/skills-matrix/ProficiencyVisualized.tsx:102 | the spoke count is at least 3 and at least the number of competencies |
| ProficiencyVisualized.PolarDivisor | components/skills-matrix/ProficiencyVisualized.tsx:207 | the slot count is at least 1 and at least the number of competencies |
| ProficiencyVisualized.RadarRadii | components/skills-matrix/ProficiencyVisualized.tsx:106-111 | one radius per competency, each its level over 5 times the outer radius |
| ProficiencyVisualized.PolarRadii | components/skills-matrix/ProficiencyVisualized.tsx:258-260 | one outer radius per competency, from the inner radius growing with its level |
| ProficiencyVisualized.RadarRings | components/skills-matrix/ProficiencyVisualized.tsx:131-134 | five rings, ring k at k fifths of the outer radius |
| ProficiencyVisualized.PolarRings | components/skills-matrix/ProficiencyVisualized.tsx:227-228 | five rings, the ring for level l where a wedge at level l ends |
| ProficiencyVisualized.CurrentBackgrounds | components/skills-matrix/ProficiencyVisualized.tsx:249-255 | one background wedge per competency outside the dark theme, and none in it |
| ProficiencyVisualized.Render | components/skills-matrix/ProficiencyVisualized.tsx:302-327 | the chart is the one the toggle selects, and shows the centre title exactly on the large variant |
| ProficiencyVisualized.RadarRadiusCurrent | components/skills-matrix/ProficiencyVisualized.tsx:99-108 | a radar point lies at 56 times its level: the centre when unset, the outer ring exactly at level 5, never beyond |
| ProficiencyVisualized.RadarRingsMatchLevels | components/skills-matrix/ProficiencyVisualized.tsx:131-134 | radar ring k passes through the points at level k |
| ProficiencyVisualized.PolarRadiusCurrent | components/skills-matrix/ProficiencyVisualized.tsx:204-205 | a polar wedge reaches 90 + 38 times its level, which stays inside [90, 280] |
| ProficiencyVisualized.WedgeRadiusIncreasing | components/skills-matrix/ProficiencyVisualized.tsx:258-260 | a higher level always draws a strictly longer wedge |
| ProficiencyVisualized.ModesAgree | components/skills-matrix/ProficiencyVisualized.tsx:315-324 | both modes draw the same data: a point is at the radar centre exactly when its polar wedge is empty, and the two radii grow together |
| ProficiencyVisualized.DivisorsPositive | components/skills-matrix/ProficiencyVisualized.tsx:102-103 | the spoke and slot counts are never zero, so every angle is finite |
| DesignSkillsMatrix.Nth | components/DesignSkillsMatrix.tsx:84-88 | `bullets[i]` is defined exactly below the length, and is then the i-th bullet |
| DesignSkillsMatrix.MkSkill | components/DesignSkillsMatrix.tsx:76-91 | the record keeps its id, name and category and has all five levels |
| DesignSkillsMatrix.MkSkillLevelShape | components/DesignSkillsMatrix.tsx:77-88 | every level opens with its fixed sentence and holds no empty bullet |
| DesignSkillsMatrix.MkSkillThreeBullets | components/DesignSkillsMatrix.tsx:84-88 | with three bullets, each level lists the bullets the builder places there, in order |
| DesignSkillsMatrix.MkSkillNoBullets | components/DesignSkillsMatrix.tsx:84-88 | with no bullets, every supplied slot shows the placeholder |
| DesignSkillsMatrix.MkSkillExpertFallback | components/DesignSkillsMatrix.tsx:88 | Expert shows the last supplied bullet among the first three, and the placeholder only when none is supplied |
| DesignSkillsMatrix.MkSkillEmptyBulletDropped | components/DesignSkillsMatrix.tsx:77-84 | for any competency whose first bullet is the empty string, level 1 keeps only its lead sentence (the empty bullet is dropped, not replaced by the placeholder); with no bullets at all the placeholder appears |
| DesignSkillsMatrix.MkSkillTitles | components/DesignSkillsMatrix.tsx:84-88 | level 1 is titled after the lower-cased name; levels 3 to 5 are titled after the scale |
| DesignSkillsMatrix.CatalogsSeparate | components/DesignSkillsMatrix.tsx:40-41 | the two lanes have different keys and share no competency id |
| DesignSkillsMatrix.Render | components/DesignSkillsMatrix.tsx:320-358 | the chart the toggle selects, never with a centre title, and always with every background wedge |
| DesignSkillsMatrix.RadarRadiusLegacy | components/DesignSkillsMatrix.tsx:377-386 | a radar point lies at 40 times its level, at most the outer ring of 200 |
| DesignSkillsMatrix.PolarRadiusLegacy | components/DesignSkillsMatrix.tsx:493-494 | a polar wedge reaches 70 + 35 times its level, inside [70, 245], and each ring passes through its level |
| DesignSkillsMatrix.Stored | components/DesignSkillsMatrix.tsx:783 | a key that is not stored reads as null |
| DesignSkillsMatrix.MatrixPage.constructor | components/DesignSkillsMatrix.tsx:775-780 | the strategist specialty with both maps empty |
| DesignSkillsMatrix.WriteIf | components/skills-matrix/SkillsLaneCard.tsx:66-70 | a guarded write stores the value under its key only when the storage accepts it, and never touches another key |
| DesignSkillsMatrix.StoreBoth | components/DesignSkillsMatrix.tsx:604-608 | two guarded writes to the two lane keys leave each key holding its written value or its old one, and every other key untouched |
| DesignSkillsMatrix.MatrixPage.MountAsWritten | components/DesignSkillsMatrix.tsx:604-608 | the lanes' persist effects run before the page's load, so each key whose write goes through ends up holding `{}` and its map is empty; a refused write keeps the old value, and each map is its key's stored value normalised |
| DesignSkillsMatrix.MatrixPage.Mount | components/DesignSkillsMatrix.tsx:782-788 | each map is its lane's stored value, normalised; persisting it keeps it whether or not the write goes through, a refused write leaves the key as it was, and other keys are untouched |
| DesignSkillsMatrix.MatrixPage.SelectSpecialty | components/DesignSkillsMatrix.tsx:827-857 | only the specialty changes among the page's state, so switching back restores the lane; bringing the strategist lane back on screen rewrites its map under its key when the storage accepts it (normalising it back gives the map), and every other choice or a refused write leaves the storage alone |
| DesignSkillsMatrix.RemountScenario | components/DesignSkillsMatrix.tsx:604-608 | a rating whose write was refused is stored after all once the strategist lane is hidden and shown again |
| DesignSkillsMatrix.MatrixPage.VisibleLanes | components/DesignSkillsMatrix.tsx:847-857 | the baseline lane always shows, and the strategist lane exactly when the specialty is not "none" |
| DesignSkillsMatrix.MatrixPage.CoverageChips | components/DesignSkillsMatrix.tsx:790-819 | one chip per visible lane, filled out of 11 and out of 7 |
| DesignSkillsMatrix.MatrixPage.SetBaselineLevel | components/DesignSkillsMatrix.tsx:610-613 | the baseline map gains the level; when the write goes through its stored copy reads back equal, and when it throws the storage is unchanged; the strategist lane and its key are untouched |
| DesignSkillsMatrix.MatrixPage.SetStrategistLevel | components/DesignSkillsMatrix.tsx:610-613 | the same on the strategist lane, including the refused write, leaving the baseline untouched |
| DesignSkillsMatrix.ReloadScenario | components/DesignSkillsMatrix.tsx:782-788 | with `{"frontend-dev":5}` stored, the page as written loads nothing and stores `{}`; the corrected mount restores level 5 |
| DesignSkillsMatrix.SavedSpecNormalizes | components/DesignSkillsMatrix.tsx:58-74 | `{"frontend-dev":5}` normalises to level 5 for "frontend-dev" |
| Middleware.EncodedCredentials | middleware.ts:18-19 | a credential is found only when it is non-empty and contains no space |
| Middleware.PassPiece | middleware.ts:21 | a password piece exists exactly when the credentials contain a colon, and it holds no colon |
| Middleware.Middleware | middleware.ts:7-32 | paths outside the prefix pass; every refusal is the 401 Basic challenge; a guarded request without an authorization header is refused |
| Middleware.PassPieceIff | middleware.ts:21-22 | the password piece is the password exactly when the credentials are colon-free text, a colon and the password, ended by the end of the text or a colon |
| Middleware.MiddlewareIff | middleware.ts:15-31 | a guarded request passes exactly with a non-empty "basic" header (any case), one space and a credential that decodes to an accepted shape |
| Middleware.GuardedPaths | middleware.ts:11-36 | "/about" passes; "/skills-matrix" and its sub-paths are challenged without credentials; "/skills-matrixX" is outside the matcher and passes, although the function alone would challenge it |
| Middleware.MatchedIsPrefixed | middleware.ts:11-36 | every path the matcher selects also passes the function's own prefix test |
| Middleware.Handle | middleware.ts:7-36 | a request outside the matcher goes through; a matched request without usable credentials is challenged, and the only response other than going through is the challenge |
| Middleware.HandleIff | middleware.ts:7-36 | a request goes through exactly when it is outside the matcher or carries a Basic header whose decoded password is accepted |
| Middleware.SchemeCases | middleware.ts:18-19 | "basic", "BASIC" and "Basic" are accepted, a second space or another scheme is not |
| Middleware.SchemeWord | middleware.ts:18-19 | one word, a space and a credential: the credential is taken exactly when the word lower-cases to "basic" |
| Middleware.CredentialCases | middleware.ts:21-22 | the user name is ignored; credentials without a colon, or with a wrong or extended password, are refused |
| Middleware.NotAcceptedAfterUser | middleware.ts:21-22 | credentials are refused whenever what follows the first colon does not have the accepted shape |
| Middleware.Rfc7617Password | middleware.ts:21 | the corrected reading: a password exists exactly when there is a colon, and it is all the text after the first colon |
| Middleware.MiddlewareRfc7617 | middleware.ts:7-32 | the corrected middleware passes the same paths and refuses with the same challenge |
| Middleware.Rfc7617PasswordIff | middleware.ts:21-22 | under the corrected reading, credentials pass exactly when they are a colon-free user-id, a colon and the password |
| Middleware.TrailingFieldAccepted | middleware.ts:21-22 | `x:skills:more` is let through as written but refused under the corrected reading |
| Middleware.ReadingsAgreeWithoutSecondColon | middleware.ts:21 | the two readings agree on every credential without a second colon |
| PasswordGate.Gate.constructor | components/PasswordGate.tsx:11-14 | empty field, not authenticated, no error, not yet on the client |
| PasswordGate.Gate.Mount | components/PasswordGate.tsx:18-25 | on the client, authenticated exactly when session storage holds the password under the key |
| PasswordGate.Gate.Change | components/PasswordGate.tsx:74-77 | the field holds the typed text and the error is cleared |
| PasswordGate.Gate.Submit | components/PasswordGate.tsx:27-37 | the right password is stored and unlocks; when session storage refuses the write, the gate stays locked with nothing changed and no error; a wrong password shows the error, empties the field and leaves storage alone |
| PasswordGate.Gate.View | components/PasswordGate.tsx:39-104 | nothing before mounting; afterwards the children are always rendered, blurred under the password form (showing the field and the error) exactly while not authenticated, and in the clear only with the stored password |
| PasswordGate.SessionScenario | components/PasswordGate.tsx:18-46 | a wrong try, a right try and a later gate in the same session show blank, form, error, content and content |
| PortfolioMock.ComplexityDots | components/PortfolioMock.tsx:173-174 | five dots, dot i filled exactly when i < n |
| PortfolioMock.DotsFilled | components/PortfolioMock.tsx:173-174 | exactly n clamped to 0..5 dots are filled, and they are the leading ones |
| PortfolioMock.CaseComplexities | components/PortfolioMock.tsx:45-107 | every listed case study fills between two and four dots |
| PortfolioMock.CaseIdOf | components/PortfolioMock.tsx:917 | the case id taken from a key never contains a colon |
| PortfolioMock.Navigation | components/PortfolioMock.tsx:914-958 | a URL is pushed exactly for case keys and the four section keys, and a study is open afterwards exactly for case keys |
| PortfolioMock.PathState | components/PortfolioMock.tsx:859-893 | the section is one of the four; it is "work" exactly on paths starting with "/case-studies"; an open study only comes with "work" and a non-empty slug |
| PortfolioMock.InitialActive | components/PortfolioMock.tsx:838-846 | a truthy `initialRoute` wins, otherwise the section follows the URL |
| PortfolioMock.InitialAgreesWithSync | components/PortfolioMock.tsx:838-893 | without `initialRoute`, the first render shows the section the pathname effect will settle on |
| PortfolioMock.SyncOverridesInitialRoute | components/PortfolioMock.tsx:838-893 | a page mounted with "resume" on "/" shows home once the pathname effect runs |
| PortfolioMock.SectionNavigationSyncs | components/PortfolioMock.tsx:925-953 | each section key pushes a URL that the pathname effect maps back to the same route |
| PortfolioMock.CaseKeyId | components/PortfolioMock.tsx:916-917 | `"case:" + id` opens exactly the study `id` when the id has no colon |
| PortfolioMock.CaseNavigationSyncs | components/PortfolioMock.tsx:916-921 | opening a study by key pushes a URL that the pathname effect maps to the same study |
| PortfolioMock.PathEdgeCases | components/PortfolioMock.tsx:874-892 | "/resume/" and a missing pathname show home, and "/contact" shows contact |
| PortfolioMock.CaseStudyPath | components/PortfolioMock.tsx:861-873 | below "/case-studies/" the slug is the rest of the path, and the bare prefix shows the list |
| PortfolioMock.UnslashedCaseStudyPath | components/PortfolioMock.tsx:861-873 | "/case-studiesX" opens a "study" whose slug is the whole path |
| PortfolioMock.SelectedCase | components/PortfolioMock.tsx:909-912 | a study is found exactly when some listed id equals the case id, and then it is a listed study with that id |
| PortfolioMock.SelectedCaseOwn | components/PortfolioMock.tsx:909-912 | the case ids are distinct, so each id selects its own study |
| PortfolioMock.CaseCommands | components/PortfolioMock.tsx:295-299 | one "Open case study" command per study, in order, keyed `case:` + id and labelled with its title |
| PortfolioMock.Matching | components/PortfolioMock.tsx:304 | a command is kept exactly when its lower-cased label contains the term, and the kept commands keep palette order |
| PortfolioMock.MatchingEmpty | components/PortfolioMock.tsx:302-304 | the empty term keeps every command |
| PortfolioMock.FilterPaletteSpec | components/PortfolioMock.tsx:287-305 | a blank query lists every command; any query lists the commands matching its trimmed, lower-cased text |
| PortfolioMock.PaletteItems | components/PortfolioMock.tsx:287-299 | the five fixed commands first, then one `case:<id>` command per case study, in order |
| PortfolioMock.FilterPalette | components/PortfolioMock.tsx:301-305 | the result keeps the palette's order and holds exactly the commands whose lower-cased label contains the trimmed, lower-cased query |
| PortfolioMock.SectionForPath | components/PortfolioMock.tsx:365-368 | only the three route paths lead to a section |
| PortfolioMock.Dispatch | components/PortfolioMock.tsx:355-377 | the copy command copies, `route:` keys route by their path, and every other key navigates by itself |
| PortfolioMock.RouteCommandsPushTheirPath | components/PortfolioMock.tsx:364-372 | each route command leads to the section whose navigation pushes the very path named in the command |
| PortfolioMock.CaseCommandsOpenTheirStudy | components/PortfolioMock.tsx:295-299 | each case command opens its own study at its own URL |
| PortfolioMock.Portfolio.constructor | components/PortfolioMock.tsx:838-853 | the initial section, `initialCaseId ?? null`, and nothing open |
| PortfolioMock.Portfolio.SyncPath | components/PortfolioMock.tsx:859-893 | the route becomes the URL's route, and nothing else changes |
| PortfolioMock.Portfolio.Navigate | components/PortfolioMock.tsx:914-958 | the route changes as navigation says, and its URL, if any, is appended to the history |
| PortfolioMock.Portfolio.HotKey | components/PortfolioMock.tsx:896-907 | Cmd/Ctrl+K (either case) opens the palette; Escape closes it and the copy dialog; other keys change nothing |
| PortfolioMock.Portfolio.OpenSearch | components/PortfolioMock.tsx:1011 | the palette opens and nothing else changes |
| PortfolioMock.Portfolio.PaletteSelect | components/PortfolioMock.tsx:355-377 | copying changes nothing; a route command navigates to its section and closes; other commands navigate by key and close |
| PortfolioMock.Portfolio.OpenCase | components/PortfolioMock.tsx:1070-1073 | the row's `onOpen` handler: the study opens in "work"; it pushes no URL itself and leaves the dialogs untouched |
| PortfolioMock.Portfolio.ClickCaseRow | components/PortfolioMock.tsx:607-616 | a Meta, Ctrl or middle click changes nothing; a Shift or Alt click opens the study without pushing a URL; a plain click opens the study and pushes `/case-studies/<id>`, whose path state is the new route |
| PortfolioMock.Portfolio.BackToList | components/PortfolioMock.tsx:1121-1124 | the study closes and the list's URL is pushed |
| PortfolioMock.DeepLinkScenario | components/PortfolioMock.tsx:896-958 | Ctrl+K and choosing the help desk study open it; the pushed URL keeps it open; back returns to the list |
| SiteShell.Truthy | components/siteshell.tsx:16-18 | a class name is kept exactly when it is a given, non-empty string |
| SiteShell.TruthyAppend | components/siteshell.tsx:16-18 | dropping falsy arguments distributes over concatenation |
| SiteShell.CxSplits | components/siteshell.tsx:16-18 | splitting the joined names at spaces gives back exactly the truthy arguments, in order |
| SiteShell.Cx | components/siteshell.tsx:16-18 | the joined class names are empty exactly when no argument is a non-empty string |
| SiteShell.CxAppend | components/siteshell.tsx:16-18 | a falsy argument adds nothing, and a truthy one is appended after one space |
| SiteShell.Highlights | components/siteshell.tsx:65-66 | entry i is highlighted exactly on its own path, or (except Home) on a path it prefixes |
| SiteShell.HighlightCases | components/siteshell.tsx:66 | Home is highlighted only on "/"; a study page highlights Case Studies; "/resumes" highlights Resume |
| SiteShell.AtMostOneHighlight | components/siteshell.tsx:8-14 | no path highlights two entries |
| CaseStudies.FindById | data/case-studies/index.ts:37-39 | nothing is found exactly when no study has the id; a found study is listed and has the id |
| CaseStudies.FindByIdFirst | data/case-studies/index.ts:38 | the study found is the first one with that id |
| CaseStudies.GetCaseStudyById | data/case-studies/index.ts:37-39 | nothing is found exactly when no registered study has the id; a found study is registered and has the id |
| CaseStudies.RegistryLookup | data/case-studies/index.ts:27-39 | the four studies are listed in order with distinct ids; each id resolves to its own study, and any other id to nothing |
| LearningResources.GetResourcesForSkill | data/learning-resources/index.ts:14-17 | no entry gives no resources; otherwise the first entry's resources, even when empty |
| LearningResources.ResourcesComeFromRegistry | data/learning-resources/index.ts:14-21 | every resource found for a competency is one the full registry lists under that competency |
| LearningResources.AppendUnrelated | data/learning-resources/index.ts:14-17 | adding an entry for an unlisted competency changes no existing lookup |
| LearningResources.GetAllResources | data/learning-resources/index.ts:19-21 | the whole registry, entry for entry: the first entry for each competency is what the per-competency lookup returns |

## Left out

- Browser I/O is a parameter or a map field. This covers `localStorage`, `sessionStorage`, the router's history, the current pathname and the clock behind touch times.
- `JSON.parse` and base64 decoding are function parameters. Their own behaviour is not modelled.
- SkillsLaneCard.Quantize: the track is taken to have positive width. A zero-width track, where `x / rect.width` is an infinity or NaN in the browser, is not modelled.
- SkillsUtils.Round: numbers are exact reals, so floating-point rounding of `x / rect.width` and of stored numbers is not modelled.
- Lower-casing covers ASCII letters only. Unicode case mapping (e.g. the Kelvin sign lower-casing to "k" in the Cmd+K test) is not modelled. Likewise lengths count characters (code points), not UTF-16 code units as JavaScript's `.length` does: the 18-character threshold of `WrapSvgLabel` and every other length test treat a label holding characters outside the Basic Multilingual Plane as shorter than the browser would.
- Storage failures are modelled as a flag per write or removal. For `localStorage` the `catch {}` blocks swallow them; the unguarded `sessionStorage.setItem` of the password gate stops its submit handler (see `PasswordGate.Gate.Submit`). Reads of `localStorage` are taken to succeed, and a quota or privacy-mode failure is not otherwise distinguished.
- The router's `Link` component is not part of this model. `PortfolioMock.Portfolio.ClickCaseRow` takes its documented behaviour: it pushes on a plain click and leaves Shift and Alt clicks to the browser.
- PasswordGate.Gate.Mount: the `sessionStorage.getItem` read is taken to succeed. When it throws, the effect fails after scheduling `isClient` and React tears the page down; that outcome is not modelled.
- SkillsLaneCard.DigitTest: key texts are one character or a named key (a capital letter followed by more characters). A multi-character text that starts with a digit 1 to 4, such as a digit followed by a combining keycap sign, also passes the source's `e.key >= "1" && e.key <= "5"` test and `parseInt` reads its leading digit; such texts are outside the modelled `Key` type.
- Chart geometry keeps only radii and counts. Angles, trigonometry, SVG paths, label placement and colours are left out, because they are floating-point drawing.
- `localeCompare` is an abstract total preorder on names. The locale's collation is not modelled.
- The catalogs' prose is not modelled, because it is data rather than logic. This covers level descriptions, bullets and titles, the case study bodies and the resource lists. The registries are modelled by ids and keys.
- DOM work is not modelled, because it does not affect state: scrolling a lane into view, focus, and `preventDefault`.
- Timers, toasts and the async clipboard write are not modelled. So are the copy-fallback dialog's opening and the "copied" flag, and the command palette's own query state and its reset on open. Only the palette's list for a given query is modelled.
- The `USERNAME` constant of the middleware is not modelled, because it is never read.
- The 401 response body and headers are a single constant challenge.
- React's batching and rendering are modelled as one method per handler or effect, with effect order made explicit where it matters (see Findings).
- `ProficiencyVisualized.Render`: the toggle's local state is a parameter (the mode).

## Findings

| source | as written | input that shows it | evidently intended | confidence | as-written member | corrected member |
|---|---|---|---|---|---|---|
| middleware.ts:21-22 | the password is the second colon-separated field of the decoded credentials | Basic credentials decoding to `x:skills:more` pass | the password is everything after the first colon (section 2 of RFC 7617), so `skills:more` is refused | not executed | Middleware.TrailingFieldAccepted | Middleware.MiddlewareRfc7617 |
| components/DesignSkillsMatrix.tsx:604-608 | the lanes' persist effects (children) run before the page's load effect, writing `{}` over both stored maps before they are read | a reload with `{"frontend-dev":5}` stored comes up empty and stores `{}` | the stored selections are loaded on reload and persisted unchanged | not executed | DesignSkillsMatrix.MatrixPage.MountAsWritten | DesignSkillsMatrix.MatrixPage.Mount |
