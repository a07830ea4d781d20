/**
 * The portfolio page: which section is shown (`active`) and which case
 * study is open (`caseId`), kept in step with the URL; the command palette
 * (its filter and what each command does); the keyboard shortcuts; and the
 * complexity dots of a case study card. Rendering, animation, the clipboard
 * and toasts are not modelled.
 */
module PortfolioMock {
  import opened Wrappers
  import opened Strings

  // ---------------------------------------------------------------------------
  // Case study summaries and the complexity dots
  // ---------------------------------------------------------------------------

  /** The fields of a case study summary the model uses. */
  datatype CaseSummary = CaseSummary(id: string, title: string, complexity: int)

  /** `CASES`, in display order. */
  const CASES: seq<CaseSummary> := [
    CaseSummary("il5-marketplace", "IL5 Marketplace: procurement & approvals", 4),
    CaseSummary("helpdesk-triage", "Salesforce Help Desk: requestor experience", 3),
    CaseSummary("design-system", "Design system governance: arMUI alignment", 2)]

  /** `Complexity`: five dots, dot `i` filled when `i < n`. */
  function ComplexityDots(n: int): (dots: seq<bool>)
    ensures |dots| == 5
    ensures forall i :: 0 <= i < 5 ==> (dots[i] <==> i < n)
  {
    seq(5, i requires 0 <= i < 5 => i < n)
  }

  /** The number of filled dots. */
  function FilledDots(dots: seq<bool>): nat {
    if dots == [] then 0 else (if dots[0] then 1 else 0) + FilledDots(dots[1..])
  }

  /** `n` clamped to the five dots. */
  function ClampDots(n: int): nat {
    if n < 0 then 0 else if n > 5 then 5 else n
  }

  /**
   * Exactly `min(max(n, 0), 5)` dots are filled, and they are the leading
   * ones: a filled dot never follows an empty one.
   */
  lemma {:induction false} DotsFilled(n: int)
    ensures FilledDots(ComplexityDots(n)) == ClampDots(n)
    ensures forall i, j :: 0 <= i < j < 5 && ComplexityDots(n)[j] ==> ComplexityDots(n)[i]
  {
    FilledFrom(ComplexityDots(n), n, 0);
  }

  lemma {:induction false} FilledFrom(dots: seq<bool>, n: int, m: nat)
    requires |dots| == 5 && m <= 5
    requires forall i :: 0 <= i < 5 ==> (dots[i] <==> i < n)
    ensures FilledDots(dots[m..]) == if ClampDots(n) >= m then ClampDots(n) - m else 0
    decreases 5 - m
  {
    if m < 5 {
      assert dots[m..][1..] == dots[m + 1..];
      FilledFrom(dots, n, m + 1);
    }
  }

  /** Every listed case study fills between two and four of its dots. */
  lemma {:induction false} CaseComplexities()
    ensures forall c :: c in CASES ==> 2 <= FilledDots(ComplexityDots(c.complexity)) <= 4
  {
    forall c | c in CASES ensures 2 <= FilledDots(ComplexityDots(c.complexity)) <= 4 {
      DotsFilled(c.complexity);
    }
  }

  // ---------------------------------------------------------------------------
  // Routes: what the page shows, and how it follows the URL
  // ---------------------------------------------------------------------------

  /** The section shown and the open case study (`null` is `None`). */
  datatype Route = Route(active: string, caseId: Option<string>)

  /** A route change and the URL it pushes, if any. */
  datatype Nav = Nav(route: Route, push: Option<string>)

  const CASE_STUDIES_PATH: string := "/case-studies"
  const CASE_STUDY_PREFIX: string := "/case-studies/"
  const CASE_KEY_PREFIX: string := "case:"

  /** `key.split(":")[1]`: the text between the first and the second colon. */
  function CaseIdOf(key: string): (id: string)
    requires ':' in key
    ensures ':' !in id
  {
    SplitSecond(key, ':');
    Split(key, ':')[1]
  }

  /** `onNavigate`: the new route and the URL pushed, for every key. */
  function Navigation(key: string): (n: Nav)
    ensures n.push.None? <==> !StartsWith(key, CASE_KEY_PREFIX) && key !in {"home", "work", "resume", "contact"}
    ensures n.route.caseId.Some? <==> StartsWith(key, CASE_KEY_PREFIX)
  {
    if StartsWith(key, CASE_KEY_PREFIX) then
      assert key[4] == ':';
      var id := CaseIdOf(key);
      Nav(Route("work", Some(id)), Some(CASE_STUDY_PREFIX + id))
    else if key == "home" then Nav(Route("home", None), Some("/"))
    else if key == "work" then Nav(Route("work", None), Some(CASE_STUDIES_PATH))
    else if key == "resume" then Nav(Route("resume", None), Some("/resume"))
    else if key == "contact" then Nav(Route("contact", None), Some("/contact"))
    else Nav(Route(key, None), None)
  }

  /** The pathname effect: the route a URL shows; a missing pathname shows home. */
  function PathState(pathname: Option<string>): (r: Route)
    ensures r.active in {"work", "resume", "contact", "home"}
    ensures r.active == "work" <==> pathname.Some? && StartsWith(pathname.value, CASE_STUDIES_PATH)
    ensures r.caseId.Some? ==> r.active == "work" && r.caseId.value != ""
  {
    if pathname.Some? && StartsWith(pathname.value, CASE_STUDIES_PATH) then
      if pathname.value == CASE_STUDIES_PATH then Route("work", None)
      else
        var slug := ReplaceFirst(pathname.value, CASE_STUDY_PREFIX, "");
        Route("work", if slug == "" then None else Some(slug))
    else if pathname == Some("/resume") then Route("resume", None)
    else if pathname == Some("/contact") then Route("contact", None)
    else Route("home", None)
  }

  /** The first render's section: `initialRoute` when truthy, else derived from the URL. */
  function InitialActive(initialRoute: Option<string>, pathname: Option<string>): (a: string)
    ensures initialRoute.Some? && initialRoute.value != "" ==> a == initialRoute.value
  {
    if initialRoute.Some? && initialRoute.value != "" then initialRoute.value
    else if pathname.Some? && StartsWith(pathname.value, CASE_STUDIES_PATH) then "work"
    else if pathname == Some("/resume") then "resume"
    else if pathname == Some("/contact") then "contact"
    else "home"
  }

  /**
   * Without `initialRoute`, the first render already shows the section the
   * pathname effect will settle on.
   */
  lemma {:induction false} InitialAgreesWithSync(pathname: Option<string>)
    ensures InitialActive(None, pathname) == PathState(pathname).active
  {
  }

  /**
   * With `initialRoute`, the pathname effect still wins once it runs: a page
   * mounted with "resume" on "/" shows home.
   */
  lemma {:induction false} SyncOverridesInitialRoute()
    ensures InitialActive(Some("resume"), Some("/")) == "resume"
    ensures PathState(Some("/")) == Route("home", None)
  {
  }

  /**
   * The four section keys push a URL whose pathname effect gives back the
   * same route, so navigating and then following the URL agree.
   */
  lemma {:induction false} SectionNavigationSyncs(key: string)
    requires key in {"home", "work", "resume", "contact"}
    ensures Navigation(key).push.Some?
    ensures PathState(Navigation(key).push) == Navigation(key).route
  {
    PrefixAt(key, CASE_KEY_PREFIX, 1);
    if key == "work" {
      assert StartsWith(CASE_STUDIES_PATH, CASE_STUDIES_PATH);
    }
  }

  /** `"case:" + id` opens the study `id`, for an id without a colon. */
  lemma {:induction false} CaseKeyId(id: string)
    requires ':' !in id
    ensures StartsWith(CASE_KEY_PREFIX + id, CASE_KEY_PREFIX)
    ensures CaseIdOf(CASE_KEY_PREFIX + id) == id
  {
    assert CASE_KEY_PREFIX + id == Join(["case", id], ":");
    SplitJoin(["case", id], ':');
  }

  /**
   * Opening a case study by key pushes its URL, and the pathname effect on
   * that URL opens the same study.
   */
  lemma {:induction false} CaseNavigationSyncs(id: string)
    requires id != "" && ':' !in id
    ensures Navigation(CASE_KEY_PREFIX + id) == Nav(Route("work", Some(id)), Some(CASE_STUDY_PREFIX + id))
    ensures PathState(Some(CASE_STUDY_PREFIX + id)) == Route("work", Some(id))
  {
    CaseKeyId(id);
    var path := CASE_STUDY_PREFIX + id;
    assert StartsWith(path, CASE_STUDIES_PATH) by {
      assert path[..|CASE_STUDIES_PATH|] == CASE_STUDIES_PATH;
    }
    assert path != CASE_STUDIES_PATH by {
      assert |path| > |CASE_STUDIES_PATH|;
    }
    ReplacePrefix(CASE_STUDY_PREFIX, id);
  }

  /** The section paths match exactly: "/resume/" shows home, as does a missing pathname. */
  lemma {:induction false} PathEdgeCases()
    ensures PathState(Some("/resume/")) == Route("home", None)
    ensures PathState(Some("/contact")) == Route("contact", None)
    ensures PathState(None) == Route("home", None)
  {
    PrefixAt("/resume/", CASE_STUDIES_PATH, 1);
    PrefixAt("/contact", CASE_STUDIES_PATH, 2);
  }

  /**
   * Below "/case-studies/", the slug is everything after that prefix: the
   * bare prefix shows the list, and a deeper path such as
   * "/case-studies/atlas/notes" keeps its inner slash.
   */
  lemma {:induction false} CaseStudyPath(slug: string)
    ensures PathState(Some(CASE_STUDY_PREFIX + slug)) == Route("work", if slug == "" then None else Some(slug))
  {
    var path := CASE_STUDY_PREFIX + slug;
    assert path[..|CASE_STUDIES_PATH|] == CASE_STUDIES_PATH;
    assert |path| > |CASE_STUDIES_PATH|;
    ReplacePrefix(CASE_STUDY_PREFIX, slug);
  }

  /**
   * "/case-studiesX" is a case study path, but "/case-studies/" does not
   * occur in it, so its slug is the whole path.
   */
  lemma {:induction false} UnslashedCaseStudyPath()
    ensures PathState(Some("/case-studiesX")) == Route("work", Some("/case-studiesX"))
  {
    var x := "/case-studiesX";
    assert x[..|CASE_STUDIES_PATH|] == CASE_STUDIES_PATH;
    PrefixAt(x, CASE_STUDY_PREFIX, 13);
    NoOccurrenceInShorter(x[1..], CASE_STUDY_PREFIX);
    assert FirstOccurrence(x, CASE_STUDY_PREFIX) == None;
  }

  /** `CASES.find((c) => c.id === caseId) || null`. */
  function SelectedCase(caseId: Option<string>): (c: Option<CaseSummary>)
    ensures c.Some? ==> c.value in CASES && caseId == Some(c.value.id)
    ensures c.None? ==> caseId.None? || forall k :: k in CASES ==> k.id != caseId.value
  {
    if caseId.None? then None
    else if CASES[0].id == caseId.value then Some(CASES[0])
    else if CASES[1].id == caseId.value then Some(CASES[1])
    else if CASES[2].id == caseId.value then Some(CASES[2])
    else None
  }

  /** The case ids are distinct, so each id opens its own study. */
  lemma {:induction false} SelectedCaseOwn(i: nat)
    requires i < |CASES|
    ensures SelectedCase(Some(CASES[i].id)) == Some(CASES[i])
  {
    assert CASES[0].id[0] == 'i' && CASES[1].id[0] == 'h' && CASES[2].id[0] == 'd';
  }

  // ---------------------------------------------------------------------------
  // The command palette
  // ---------------------------------------------------------------------------

  /** One palette command. */
  datatype PaletteItem = PaletteItem(key: string, text: string, hint: string)

  /** The fixed commands, before the case studies. */
  const BASE_COMMANDS: seq<PaletteItem> := [
    PaletteItem("home", "Home", "Navigate"),
    PaletteItem("route:/case-studies", "Case Studies", "Navigate"),
    PaletteItem("route:/resume", "Resume", "Navigate"),
    PaletteItem("route:/contact", "Contact", "Navigate"),
    PaletteItem("copy:email", "Email", "Action")]

  /** One "Open case study" command per case study, in order. */
  function CaseCommands(cases: seq<CaseSummary>): (r: seq<PaletteItem>)
    ensures |r| == |cases|
    ensures forall i :: 0 <= i < |cases| ==> r[i] == PaletteItem(CASE_KEY_PREFIX + cases[i].id, cases[i].title, "Open case study")
  {
    seq(|cases|, i requires 0 <= i < |cases| => PaletteItem(CASE_KEY_PREFIX + cases[i].id, cases[i].title, "Open case study"))
  }

  /** Every palette command: the five fixed ones, then one per case study in order. */
  function PaletteItems(): (r: seq<PaletteItem>)
    ensures |r| == |BASE_COMMANDS| + |CASES| && r[..|BASE_COMMANDS|] == BASE_COMMANDS
    ensures forall i :: 0 <= i < |CASES| ==> r[|BASE_COMMANDS| + i].key == CASE_KEY_PREFIX + CASES[i].id
  {
    BASE_COMMANDS + CaseCommands(CASES)
  }

  /** `xs` is `ys` with some elements left out, the rest in their order. */
  predicate Subsequence<T(==)>(xs: seq<T>, ys: seq<T>)
    decreases |ys|
  {
    if xs == [] then true
    else if ys == [] then false
    else (xs[0] == ys[0] && Subsequence(xs[1..], ys[1..])) || Subsequence(xs, ys[1..])
  }

  /** `items.filter((x) => x.label.toLowerCase().includes(term))`. */
  function Matching(items: seq<PaletteItem>, term: string): (r: seq<PaletteItem>)
    ensures forall x :: x in r <==> x in items && Contains(Lower(x.text), term)
    ensures Subsequence(r, items)
  {
    if items == [] then []
    else
      var rest := Matching(items[1..], term);
      assert forall x :: x in items <==> x == items[0] || x in items[1..];
      if Contains(Lower(items[0].text), term) then [items[0]] + rest else rest
  }

  /** The palette list for query `q`: everything for a blank query, else the matching commands. */
  function FilterPalette(q: string): (r: seq<PaletteItem>)
    ensures Subsequence(r, PaletteItems())
    ensures forall x :: x in r <==> x in PaletteItems() && Contains(Lower(x.text), Lower(Trim(q)))
  {
    var term := Lower(Trim(q));
    if term == [] then
      MatchingEmpty(PaletteItems());
      assert Matching(PaletteItems(), term) == PaletteItems();
      PaletteItems()
    else Matching(PaletteItems(), term)
  }

  /** The empty term occurs in every label. */
  lemma {:induction false} MatchingEmpty(items: seq<PaletteItem>)
    ensures Matching(items, []) == items
  {
    if items != [] {
      assert OccursAt(Lower(items[0].text), [], 0);
      MatchingEmpty(items[1..]);
    }
  }

  /**
   * The palette filter: a query of whitespace alone lists every command,
   * just as filtering by the empty term would; any query lists, in palette
   * order, exactly the commands whose lower-cased label contains the
   * trimmed, lower-cased query.
   */
  lemma {:induction false} FilterPaletteSpec(q: string)
    ensures (forall i :: 0 <= i < |q| ==> IsSpace(q[i])) ==>
      FilterPalette(q) == PaletteItems() == Matching(PaletteItems(), Lower(Trim(q)))
    ensures forall x :: x in FilterPalette(q) <==> x in PaletteItems() && Contains(Lower(x.text), Lower(Trim(q)))
    ensures Subsequence(FilterPalette(q), PaletteItems())
  {
    TrimEmpty(q);
    MatchingEmpty(PaletteItems());
  }

  /** What choosing a palette command does. */
  datatype PaletteAction =
    | CopyEmail                              // copy the address; the palette stays open
    | RouteCommand(target: Option<string>)   // navigate to the section for the path, if any; close
    | NavigateKey(key: string)               // `onNavigate(key)`; close

  const ROUTE_PREFIX: string := "route:"

  /** The section key a `route:` path leads to. */
  function SectionForPath(path: string): (k: Option<string>)
    ensures k.Some? <==> path in {"/resume", "/contact", "/case-studies"}
  {
    if path == "/resume" then Some("resume")
    else if path == "/contact" then Some("contact")
    else if path == CASE_STUDIES_PATH then Some("work")
    else None
  }

  /** The palette's click handler. */
  function Dispatch(key: string): (a: PaletteAction)
    ensures a == CopyEmail <==> key == "copy:email"
    ensures a.RouteCommand? <==> StartsWith(key, ROUTE_PREFIX)
    ensures a.NavigateKey? ==> a.key == key
  {
    PrefixAt(key, ROUTE_PREFIX, 0);
    if key == "copy:email" then CopyEmail
    else if StartsWith(key, ROUTE_PREFIX) then RouteCommand(SectionForPath(ReplaceFirst(key, ROUTE_PREFIX, "")))
    else NavigateKey(key)
  }

  /**
   * Each `route:` command leads to the section whose navigation pushes the
   * very path named in the command.
   */
  lemma {:induction false} RouteCommandsPushTheirPath(path: string)
    requires path in {"/case-studies", "/resume", "/contact"}
    ensures Dispatch(ROUTE_PREFIX + path).RouteCommand?
    ensures Dispatch(ROUTE_PREFIX + path).target.Some?
    ensures Navigation(Dispatch(ROUTE_PREFIX + path).target.value).push == Some(path)
  {
    assert StartsWith(ROUTE_PREFIX + path, ROUTE_PREFIX);
    ReplacePrefix(ROUTE_PREFIX, path);
    assert (ROUTE_PREFIX + path) != "copy:email" by {
      assert (ROUTE_PREFIX + path)[0] != 'c';
    }
    var k := SectionForPath(path).value;
    assert !StartsWith(k, CASE_KEY_PREFIX) by {
      assert k[0] != 'c' || k[1] != 'a';
    }
  }

  /** A `case:` key is handed to the navigation as it is. */
  lemma {:induction false} CaseKeyDispatch(id: string)
    ensures Dispatch(CASE_KEY_PREFIX + id) == NavigateKey(CASE_KEY_PREFIX + id)
  {
    var key := CASE_KEY_PREFIX + id;
    assert key[0] == 'c';
    assert key != "copy:email" by {
      assert key[1] == 'a';
    }
    assert !StartsWith(key, ROUTE_PREFIX);
  }

  /** The case study ids are non-empty and free of colons. */
  lemma {:induction false} CaseIdsPlain(i: nat)
    requires i < |CASES|
    ensures CASES[i].id != "" && ':' !in CASES[i].id
  {
    if i == 0 {
      assert CASES[0].id == "il5-marketplace";
    } else if i == 1 {
      assert CASES[1].id == "helpdesk-triage";
    } else {
      assert CASES[2].id == "design-system";
    }
  }

  /** Each case study command opens its own study at its own URL. */
  lemma {:induction false} CaseCommandsOpenTheirStudy(i: nat)
    requires i < |CASES|
    ensures PaletteItems()[5 + i].key == CASE_KEY_PREFIX + CASES[i].id
    ensures Dispatch(PaletteItems()[5 + i].key) == NavigateKey(CASE_KEY_PREFIX + CASES[i].id)
    ensures Navigation(CASE_KEY_PREFIX + CASES[i].id) == Nav(Route("work", Some(CASES[i].id)), Some(CASE_STUDY_PREFIX + CASES[i].id))
  {
    var id := CASES[i].id;
    assert PaletteItems()[5 + i].key == CASE_KEY_PREFIX + id by {
      assert PaletteItems()[5 + i] == CaseCommands(CASES)[i];
    }
    CaseKeyDispatch(id);
    CaseIdsPlain(i);
    CaseNavigationSyncs(id);
  }


  // ---------------------------------------------------------------------------
  // The page state
  // ---------------------------------------------------------------------------

  /** The page's state and the URLs pushed to the router so far. */
  class Portfolio {
    var active: string
    var caseId: Option<string>
    var cmdOpen: bool
    var copyFallbackOpen: bool
    var history: seq<string>

    /** The first render: the initial section and `initialCaseId ?? null`; nothing open. */
    constructor(initialRoute: Option<string>, initialCaseId: Option<string>, pathname: Option<string>)
      ensures active == InitialActive(initialRoute, pathname) && caseId == initialCaseId
      ensures !cmdOpen && !copyFallbackOpen && history == []
    {
      if initialRoute.Some? && initialRoute.value != "" {
        active := initialRoute.value;
      } else if pathname.Some? && StartsWith(pathname.value, CASE_STUDIES_PATH) {
        active := "work";
      } else if pathname == Some("/resume") {
        active := "resume";
      } else if pathname == Some("/contact") {
        active := "contact";
      } else {
        active := "home";
      }
      caseId := initialCaseId;
      cmdOpen := false;
      copyFallbackOpen := false;
      history := [];
    }

    /** The pathname effect: the route follows the URL; nothing else changes. */
    method SyncPath(pathname: Option<string>)
      modifies this
      ensures Route(active, caseId) == PathState(pathname)
      ensures cmdOpen == old(cmdOpen) && copyFallbackOpen == old(copyFallbackOpen) && history == old(history)
    {
      if pathname.Some? && StartsWith(pathname.value, CASE_STUDIES_PATH) {
        active := "work";
        if pathname.value == CASE_STUDIES_PATH {
          caseId := None;
          return;
        }
        var slug := ReplaceFirst(pathname.value, CASE_STUDY_PREFIX, "");
        caseId := if slug == "" then None else Some(slug);
        return;
      }
      if pathname == Some("/resume") {
        active := "resume";
        caseId := None;
        return;
      }
      if pathname == Some("/contact") {
        active := "contact";
        caseId := None;
        return;
      }
      active := "home";
      caseId := None;
    }

    /** `onNavigate`: the route changes as `Navigation` says and its URL, if any, is pushed. */
    method Navigate(key: string)
      modifies this
      ensures Route(active, caseId) == Navigation(key).route
      ensures history == old(history) + (if Navigation(key).push.Some? then [Navigation(key).push.value] else [])
      ensures cmdOpen == old(cmdOpen) && copyFallbackOpen == old(copyFallbackOpen)
    {
      if StartsWith(key, CASE_KEY_PREFIX) {
        assert key[4] == ':';
        SplitSecond(key, ':');
        var id := Split(key, ':')[1];
        active := "work";
        caseId := Some(id);
        history := history + [CASE_STUDY_PREFIX + id];
        return;
      }
      if key == "home" {
        active := "home";
        caseId := None;
        history := history + ["/"];
        return;
      }
      if key == "work" {
        active := "work";
        caseId := None;
        history := history + [CASE_STUDIES_PATH];
        return;
      }
      if key == "resume" {
        active := "resume";
        caseId := None;
        history := history + ["/resume"];
        return;
      }
      if key == "contact" {
        active := "contact";
        caseId := None;
        history := history + ["/contact"];
        return;
      }
      active := key;
      if key != "work" {
        caseId := None;
      }
    }

    /**
     * The keyboard handler: Cmd/Ctrl+K (either letter case) opens the
     * palette; Escape closes it and the copy dialog; other keys do nothing.
     */
    method HotKey(meta: bool, ctrl: bool, key: string)
      modifies this
      ensures (meta || ctrl) && Lower(key) == "k" ==> cmdOpen && copyFallbackOpen == old(copyFallbackOpen)
      ensures !((meta || ctrl) && Lower(key) == "k") && key == "Escape" ==> !cmdOpen && !copyFallbackOpen
      ensures !((meta || ctrl) && Lower(key) == "k") && key != "Escape" ==>
        cmdOpen == old(cmdOpen) && copyFallbackOpen == old(copyFallbackOpen)
      ensures active == old(active) && caseId == old(caseId) && history == old(history)
    {
      if (meta || ctrl) && Lower(key) == "k" {
        cmdOpen := true;
        return;
      }
      if key == "Escape" {
        cmdOpen := false;
        copyFallbackOpen := false;
      }
    }

    /** The search button in the top bar opens the palette. */
    method OpenSearch()
      modifies this
      ensures cmdOpen
      ensures active == old(active) && caseId == old(caseId) && history == old(history)
      ensures copyFallbackOpen == old(copyFallbackOpen)
    {
      cmdOpen := true;
    }

    /**
     * Choosing a palette command: copying leaves everything as it was (the
     * clipboard is not modelled); a `route:` command navigates to its
     * section, if any, and closes; any other command navigates by its key
     * and closes.
     */
    method PaletteSelect(key: string)
      requires cmdOpen
      modifies this
      ensures Dispatch(key) == CopyEmail ==>
        active == old(active) && caseId == old(caseId) && history == old(history) && cmdOpen
      ensures Dispatch(key) == RouteCommand(None) ==>
        active == old(active) && caseId == old(caseId) && history == old(history) && !cmdOpen
      ensures Dispatch(key).RouteCommand? && Dispatch(key).target.Some? ==>
        var n := Navigation(Dispatch(key).target.value);
        Route(active, caseId) == n.route && history == old(history) + [n.push.value] && !cmdOpen
      ensures Dispatch(key).NavigateKey? ==>
        var n := Navigation(key);
        Route(active, caseId) == n.route && !cmdOpen &&
        history == old(history) + (if n.push.Some? then [n.push.value] else [])
      ensures copyFallbackOpen == old(copyFallbackOpen)
    {
      if key == "copy:email" {
        return;
      }
      if StartsWith(key, ROUTE_PREFIX) {
        var path := ReplaceFirst(key, ROUTE_PREFIX, "");
        if path == "/resume" {
          Navigate("resume");
        }
        if path == "/contact" {
          Navigate("contact");
        }
        if path == CASE_STUDIES_PATH {
          Navigate("work");
        }
        cmdOpen := false;
        return;
      }
      Navigate(key);
      cmdOpen := false;
    }

    /** A case row's `onOpen` handler: show the study; the handler itself pushes no URL. */
    method OpenCase(id: string)
      modifies this
      ensures Route(active, caseId) == Route("work", Some(id))
      ensures history == old(history) && cmdOpen == old(cmdOpen) && copyFallbackOpen == old(copyFallbackOpen)
    {
      active := "work";
      caseId := Some(id);
    }

    /**
     * A click on a case row, a link to the study's URL. A click with Meta or
     * Ctrl held, or with the middle button (`newTab`), returns before the
     * handler and leaves the page as it is. Otherwise the handler runs
     * `onOpen`; the link then leaves a click with Shift or Alt held
     * (`shiftOrAlt`) to the browser, which opens the URL elsewhere without
     * pushing it, and on a plain click pushes the study's URL, which the
     * pathname effect maps back to the same study.
     */
    method ClickCaseRow(id: string, newTab: bool, shiftOrAlt: bool)
      modifies this
      ensures newTab ==> active == old(active) && caseId == old(caseId) && history == old(history)
      ensures !newTab ==> Route(active, caseId) == Route("work", Some(id))
      ensures !newTab && shiftOrAlt ==> history == old(history)
      ensures !newTab && !shiftOrAlt ==> history == old(history) + [CASE_STUDY_PREFIX + id]
      ensures !newTab && !shiftOrAlt && id != "" ==> PathState(Some(history[|history| - 1])) == Route(active, caseId)
      ensures cmdOpen == old(cmdOpen) && copyFallbackOpen == old(copyFallbackOpen)
    {
      if newTab {
        return;
      }
      OpenCase(id);
      if shiftOrAlt {
        return;
      }
      history := history + [CASE_STUDY_PREFIX + id];
      CaseStudyPath(id);
    }

    /** The study's back button: close the study and push the list's URL. */
    method BackToList()
      modifies this
      ensures caseId == None && active == old(active)
      ensures history == old(history) + [CASE_STUDIES_PATH]
      ensures cmdOpen == old(cmdOpen) && copyFallbackOpen == old(copyFallbackOpen)
    {
      caseId := None;
      history := history + [CASE_STUDIES_PATH];
    }
  }

  /** What the deep-link walk-through relies on, for the second case study. */
  lemma {:induction false} DeepLinkFacts()
    ensures Lower("K") == "k"
    ensures PaletteItems()[6].key == CASE_KEY_PREFIX + CASES[1].id
    ensures var key, id := CASE_KEY_PREFIX + CASES[1].id, CASES[1].id;
      && Dispatch(key) == NavigateKey(key)
      && Navigation(key) == Nav(Route("work", Some(id)), Some(CASE_STUDY_PREFIX + id))
      && PathState(Some(CASE_STUDY_PREFIX + id)) == Route("work", Some(id))
      && SelectedCase(Some(id)) == Some(CASES[1])
    ensures PathState(Some(CASE_STUDIES_PATH)) == Route("work", None)
  {
    var key, id := PaletteItems()[6].key, CASES[1].id;
    assert key == CASE_KEY_PREFIX + id && Dispatch(key) == NavigateKey(key) by {
      CaseCommandsOpenTheirStudy(1);
    }
    CaseIdsPlain(1);
    CaseNavigationSyncs(id);
    SelectedCaseOwn(1);
    ListPath();
  }

  /** The list's own path shows the list. */
  lemma {:induction false} ListPath()
    ensures PathState(Some(CASE_STUDIES_PATH)) == Route("work", None)
  {
    assert StartsWith(CASE_STUDIES_PATH, CASE_STUDIES_PATH);
  }

  /**
   * A visit: landing on "/", Ctrl+K, choosing the help desk study; the
   * router then reports the pushed URL and the pathname effect keeps the
   * same study open; the back button returns to the list.
   */
  method DeepLinkScenario() returns (onOpen: Route, synced: Route, shown: Option<CaseSummary>, back: Route)
    ensures onOpen == Route("work", Some(CASES[1].id))
    ensures synced == onOpen
    ensures shown == Some(CASES[1])
    ensures back == Route("work", None)
  {
    var id := CASES[1].id;
    var key := CASE_KEY_PREFIX + id;
    DeepLinkFacts();
    assert PaletteItems()[6].key == key;
    var page := new Portfolio(None, None, Some("/"));
    page.SyncPath(Some("/"));
    page.HotKey(false, true, "K");
    assert page.cmdOpen;
    page.PaletteSelect(key);
    onOpen := Route(page.active, page.caseId);
    assert onOpen == Route("work", Some(id));
    assert page.history[|page.history| - 1] == CASE_STUDY_PREFIX + id;
    page.SyncPath(Some(page.history[|page.history| - 1]));
    synced := Route(page.active, page.caseId);
    shown := SelectedCase(page.caseId);
    page.BackToList();
    page.SyncPath(Some(page.history[|page.history| - 1]));
    back := Route(page.active, page.caseId);
  }
}
