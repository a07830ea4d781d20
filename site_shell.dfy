/**
 * The site shell: the navigation bar shared by the standalone pages, which
 * highlights the entry for the current path, and the class-name joiner the
 * components use.
 */
module SiteShell {
  import opened Wrappers
  import opened Strings

  // ---------------------------------------------------------------------------
  // cx: joining the truthy class names
  // ---------------------------------------------------------------------------

  /**
   * The arguments JavaScript treats as truthy: `false`, `undefined` and
   * `null` are `None`; the empty string is falsy too.
   */
  function Truthy(args: seq<Option<string>>): (r: seq<string>)
    ensures |r| <= |args|
    ensures forall s :: s in r <==> Some(s) in args && s != ""
  {
    if args == [] then []
    else
      var rest := Truthy(args[1..]);
      assert forall s :: Some(s) in args <==> Some(s) == args[0] || Some(s) in args[1..];
      if args[0].Some? && args[0].value != "" then [args[0].value] + rest else rest
  }

  /** `cx`: the truthy class names joined with single spaces; empty exactly when no argument is truthy. */
  function Cx(args: seq<Option<string>>): (r: string)
    ensures r == "" <==> forall i :: 0 <= i < |args| ==> args[i].None? || args[i].value == ""
  {
    var t := Truthy(args);
    if t != [] then
      assert t[0] in t;
      JoinNonEmpty(t, " ");
      Join(t, " ")
    else
      Join(t, " ")
  }

  /** Dropping the falsy arguments distributes over concatenation. */
  lemma {:induction false} TruthyAppend(a: seq<Option<string>>, b: seq<Option<string>>)
    ensures Truthy(a + b) == Truthy(a) + Truthy(b)
  {
    if a == [] {
      assert a + b == b;
    } else {
      assert (a + b)[0] == a[0] && (a + b)[1..] == a[1..] + b;
      TruthyAppend(a[1..], b);
    }
  }

  /**
   * When no class name holds a space, splitting the result at spaces gives
   * back exactly the truthy arguments, in order: nothing falsy leaks in and
   * nothing truthy is lost.
   */
  lemma {:induction false} CxSplits(args: seq<Option<string>>)
    requires Truthy(args) != []
    requires forall i :: 0 <= i < |args| && args[i].Some? ==> ' ' !in args[i].value
    ensures Split(Cx(args), ' ') == Truthy(args)
  {
    var t := Truthy(args);
    forall i | 0 <= i < |t| ensures ' ' !in t[i] {
      assert t[i] in t;
    }
    SplitJoin(t, ' ');
  }

  /** Appending falsy arguments changes nothing; appending a truthy one adds it after one space. */
  lemma {:induction false} CxAppend(args: seq<Option<string>>, c: string)
    ensures Cx(args + [None]) == Cx(args)
    ensures Cx(args + [Some("")]) == Cx(args)
    ensures c != "" ==> Cx(args + [Some(c)]) == if Truthy(args) == [] then c else Cx(args) + " " + c
  {
    TruthyAppend(args, [None]);
    TruthyAppend(args, [Some("")]);
    assert Truthy([None]) == [] && Truthy([Some("")]) == [];
    assert Truthy(args) + [] == Truthy(args);
    if c != "" {
      TruthyAppend(args, [Some(c)]);
      assert Truthy([Some(c)]) == [c];
      if Truthy(args) != [] {
        JoinAppend(Truthy(args), [c], " ");
      } else {
        assert Truthy(args + [Some(c)]) == [c];
      }
    }
  }

  // ---------------------------------------------------------------------------
  // The navigation bar
  // ---------------------------------------------------------------------------

  /** One navigation entry. */
  datatype NavItem = NavItem(text: string, href: string)

  /** `NAV`, in display order. */
  const NAV: seq<NavItem> := [
    NavItem("Home", "/"),
    NavItem("Case Studies", "/case-studies"),
    NavItem("Resume", "/resume"),
    NavItem("Contact", "/contact"),
    NavItem("Skills Matrix", "/skills-matrix")]

  /** An entry is highlighted on its own path, and (except Home) on every path it prefixes. */
  predicate IsOn(pathname: string, href: string) {
    pathname == href || (href != "/" && StartsWith(pathname, href))
  }

  /** The highlight of every entry, in display order. */
  function Highlights(pathname: string): (r: seq<bool>)
    ensures |r| == |NAV|
    ensures forall i :: 0 <= i < |NAV| ==> (r[i] <==> IsOn(pathname, NAV[i].href))
  {
    seq(|NAV|, i requires 0 <= i < |NAV| => IsOn(pathname, NAV[i].href))
  }

  /**
   * Home is highlighted only on "/" itself; the prefix test is on raw text,
   * so "/resumes" highlights Resume and a case study page highlights Case
   * Studies.
   */
  lemma {:induction false} HighlightCases(pathname: string)
    ensures Highlights(pathname)[0] <==> pathname == "/"
    ensures Highlights("/case-studies/atlas")[1]
    ensures Highlights("/resumes")[2]
    ensures !Highlights("/")[4]
  {
    assert StartsWith("/case-studies/atlas", "/case-studies");
    assert StartsWith("/resumes", "/resume");
  }

  /** A prefix of at least three characters fixes the path's second and third characters. */
  lemma {:induction false} PrefixChars(pathname: string, href: string)
    ensures StartsWith(pathname, href) && |href| >= 3 ==> pathname[1] == href[1] && pathname[2] == href[2]
  {
    if StartsWith(pathname, href) && |href| >= 3 {
      assert pathname[..|href|][1] == href[1] && pathname[..|href|][2] == href[2];
    }
  }

  /** No path highlights two entries: no entry's path is a prefix of another's. */
  lemma {:induction false} AtMostOneHighlight(pathname: string, i: nat, j: nat)
    requires i < j < |NAV|
    ensures !(Highlights(pathname)[i] && Highlights(pathname)[j])
  {
    PrefixChars(pathname, NAV[i].href);
    PrefixChars(pathname, NAV[j].href);
  }
}
