/**
 * The edge check in front of the Skills Matrix route: HTTP Basic
 * authentication (section 2 of RFC 7617) with a fixed password. Base64
 * decoding is the parameter `decode` (the server's decoder is lenient and
 * never fails); the response is the decision only.
 */
module Middleware {
  import opened Wrappers
  import opened Strings

  const PASSWORD: string := "skills"
  const PROTECTED_PREFIX: string := "/skills-matrix"

  /** What the middleware answers: let the request through, or challenge it. */
  datatype Response =
    | Next
    | Unauthorized(status: int, body: string, wwwAuthenticate: string)

  /** The challenge sent with every refusal. */
  const CHALLENGE: Response :=
    Unauthorized(401, "Authentication required", "Basic realm=\"Skills Matrix\"")

  /**
   * `const [scheme, encoded] = auth.split(" ")` and the scheme test: the
   * second space-separated piece when the first is "basic" in any letter
   * case and the second is not empty.
   */
  function EncodedCredentials(auth: string): (r: Option<string>)
    ensures r.Some? ==> r.value != "" && ' ' !in r.value
  {
    var pieces := Split(auth, ' ');
    if Lower(pieces[0]) == "basic" && |pieces| > 1 && pieces[1] != "" then Some(pieces[1]) else None
  }

  /** `const [, pass] = decoded.split(":")`: the second colon-separated piece, if there is one. */
  function PassPiece(decoded: string): (r: Option<string>)
    ensures r.Some? <==> ':' in decoded
    ensures r.Some? ==> ':' !in r.value
  {
    var pieces := Split(decoded, ':');
    SplitSecond(decoded, ':');
    if |pieces| > 1 then Some(pieces[1]) else None
  }

  /**
   * `middleware`: requests outside the protected prefix pass; inside it, a
   * request passes only with Basic credentials whose password piece is the
   * password; everything else gets the challenge.
   */
  function Middleware(pathname: string, authorization: Option<string>, decode: string -> string): (r: Response)
    ensures !StartsWith(pathname, PROTECTED_PREFIX) ==> r == Next
    ensures r != Next ==> r == CHALLENGE
    ensures StartsWith(pathname, PROTECTED_PREFIX) && (authorization.None? || authorization.value == "") ==>
      r == CHALLENGE
  {
    if !StartsWith(pathname, PROTECTED_PREFIX) then Next
    else if authorization.Some? && authorization.value != "" then
      match EncodedCredentials(authorization.value)
      case Some(encoded) =>
        if PassPiece(decode(encoded)) == Some(PASSWORD) then Next else CHALLENGE
      case None => CHALLENGE
    else CHALLENGE
  }

  /**
   * The decoded credentials the middleware accepts: any text without a colon,
   * a colon, the password, and then either nothing or a colon followed by
   * anything.
   */
  predicate AcceptedAsWritten(decoded: string) {
    exists n :: 0 <= n < |decoded| && decoded[n] == ':' && ':' !in decoded[..n] &&
      AfterUser(decoded[n + 1..])
  }

  /** The text after the first colon starts with the password, ended by the end of text or a colon. */
  predicate AfterUser(rest: string) {
    StartsWith(rest, PASSWORD) && (|rest| == |PASSWORD| || rest[|PASSWORD|] == ':')
  }

  /** The password piece is the password exactly when the credentials have the accepted shape. */
  lemma {:induction false} PassPieceIff(decoded: string)
    ensures PassPiece(decoded) == Some(PASSWORD) <==> AcceptedAsWritten(decoded)
  {
    SplitSecond(decoded, ':');
    match IndexOf(decoded, ':')
    case None =>
    case Some(n) =>
      var rest := decoded[n + 1..];
      assert BetweenFirstAndSecond(decoded, ':') == PieceOf(rest);
      PieceOfIff(rest);
      if AcceptedAsWritten(decoded) {
        var m :| 0 <= m < |decoded| && decoded[m] == ':' && ':' !in decoded[..m] && AfterUser(decoded[m + 1..]);
        FirstColonUnique(decoded, n, m);
      }
  }

  /** The text of `rest` up to its first colon. */
  function PieceOf(rest: string): Option<string> {
    match IndexOf(rest, ':')
    case None => Some(rest)
    case Some(j) => Some(rest[..j])
  }

  lemma {:induction false} PieceOfIff(rest: string)
    ensures PieceOf(rest) == Some(PASSWORD) <==> AfterUser(rest)
  {
    assert ':' !in PASSWORD;
    match IndexOf(rest, ':')
    case None =>
      if AfterUser(rest) {
        assert rest == rest[..|PASSWORD|];
      }
    case Some(j) =>
  }

  /** Two positions that are each the first colon are the same position. */
  lemma {:induction false} FirstColonUnique(s: string, n: int, m: int)
    requires 0 <= n < |s| && s[n] == ':' && ':' !in s[..n]
    requires 0 <= m < |s| && s[m] == ':' && ':' !in s[..m]
    ensures n == m
  {
  }

  /**
   * The decision in full: a request on the protected prefix passes exactly
   * when it carries a non-empty Authorization header whose scheme is
   * "basic" in any case, followed after one space by a non-empty credential
   * that decodes to an accepted shape. The user name is never looked at.
   */
  lemma {:induction false} MiddlewareIff(pathname: string, authorization: Option<string>, decode: string -> string)
    requires StartsWith(pathname, PROTECTED_PREFIX)
    ensures Middleware(pathname, authorization, decode) == Next <==>
      && authorization.Some? && authorization.value != ""
      && EncodedCredentials(authorization.value).Some?
      && AcceptedAsWritten(decode(EncodedCredentials(authorization.value).value))
  {
    if authorization.Some? && EncodedCredentials(authorization.value).Some? {
      PassPieceIff(decode(EncodedCredentials(authorization.value).value));
    }
  }

  /** The route directory named by the `matcher` of the middleware's `config`. */
  const MATCHED_DIR: string := "/skills-matrix/"

  /**
   * The route matcher `"/skills-matrix/:path*"`: the framework runs the
   * middleware only on the route itself and on the paths below it.
   */
  predicate Matched(pathname: string) {
    pathname == PROTECTED_PREFIX || StartsWith(pathname, MATCHED_DIR)
  }

  /** Every path the matcher admits passes the middleware's own prefix test. */
  lemma {:induction false} MatchedIsPrefixed(pathname: string)
    requires Matched(pathname)
    ensures StartsWith(pathname, PROTECTED_PREFIX)
  {
    if pathname != PROTECTED_PREFIX {
      assert MATCHED_DIR[..|PROTECTED_PREFIX|] == PROTECTED_PREFIX;
      assert pathname[..|PROTECTED_PREFIX|] == pathname[..|MATCHED_DIR|][..|PROTECTED_PREFIX|];
    }
  }

  /**
   * A request as the application sees it: the matcher first, then the
   * middleware. Only matched paths can be challenged, and a matched request
   * without credentials always is.
   */
  function Handle(pathname: string, authorization: Option<string>, decode: string -> string): (r: Response)
    ensures r != Next ==> r == CHALLENGE && Matched(pathname)
    ensures Matched(pathname) && (authorization.None? || authorization.value == "") ==> r == CHALLENGE
  {
    if !Matched(pathname) then Next
    else
      MatchedIsPrefixed(pathname);
      Middleware(pathname, authorization, decode)
  }

  /**
   * The decision for a request: it passes exactly when the matcher skips its
   * path, or it carries Basic credentials of an accepted shape.
   */
  lemma {:induction false} HandleIff(pathname: string, authorization: Option<string>, decode: string -> string)
    ensures Handle(pathname, authorization, decode) == Next <==>
      || !Matched(pathname)
      || (&& authorization.Some? && authorization.value != ""
          && EncodedCredentials(authorization.value).Some?
          && AcceptedAsWritten(decode(EncodedCredentials(authorization.value).value)))
  {
    if Matched(pathname) {
      MatchedIsPrefixed(pathname);
      MiddlewareIff(pathname, authorization, decode);
    }
  }

  /**
   * Which paths are guarded. The middleware's own test is a raw prefix, so on
   * its own it would challenge "/skills-matrixX"; the matcher never sends
   * that path to it, so the application lets it through.
   */
  lemma {:induction false} GuardedPaths(decode: string -> string)
    ensures Handle("/about", None, decode) == Next
    ensures Handle("/skills-matrix", None, decode) == CHALLENGE
    ensures Handle("/skills-matrix/anything", Some(""), decode) == CHALLENGE
    ensures Handle("/skills-matrixX", None, decode) == Next
    ensures Middleware("/skills-matrixX", None, decode) == CHALLENGE
  {
    assert StartsWith("/skills-matrix/anything", MATCHED_DIR);
    assert !StartsWith("/skills-matrixX", MATCHED_DIR) by {
      assert "/skills-matrixX"[14] != MATCHED_DIR[14];
    }
    assert StartsWith("/skills-matrixX", PROTECTED_PREFIX);
    assert !Matched("/about");
  }

  /** The scheme is matched in any letter case; a second space before the credential leaves it empty and refused. */
  lemma {:induction false} SchemeCases(decode: string -> string, enc: string)
    requires enc != "" && ' ' !in enc
    ensures EncodedCredentials("basic" + " " + enc) == Some(enc)
    ensures EncodedCredentials("BASIC" + " " + enc) == Some(enc)
    ensures EncodedCredentials("Basic" + " " + enc) == Some(enc)
    ensures EncodedCredentials("Basic  " + enc) == None
    ensures EncodedCredentials("Bearer" + " " + enc) == None
  {
    SchemeAnyCase(enc);
    BearerRefused(enc);
    DoubleSpace(enc);
  }

  /** "basic", "BASIC" and "Basic" are all the Basic scheme. */
  lemma {:induction false} SchemeAnyCase(enc: string)
    requires enc != "" && ' ' !in enc
    ensures EncodedCredentials("basic" + " " + enc) == Some(enc)
    ensures EncodedCredentials("BASIC" + " " + enc) == Some(enc)
    ensures EncodedCredentials("Basic" + " " + enc) == Some(enc)
  {
    LowerSchemes();
    SchemeWord("basic", enc);
    SchemeWord("BASIC", enc);
    SchemeWord("Basic", enc);
  }

  /** Another scheme is refused. */
  lemma {:induction false} BearerRefused(enc: string)
    requires enc != "" && ' ' !in enc
    ensures EncodedCredentials("Bearer" + " " + enc) == None
  {
    LowerSchemes();
    SchemeWord("Bearer", enc);
  }

  /** The letter cases of the scheme name that were tried above. */
  lemma {:induction false} LowerSchemes()
    ensures Lower("basic") == "basic" && Lower("BASIC") == "basic" && Lower("Basic") == "basic"
    ensures Lower("Bearer") != "basic"
  {
    assert Lower("Bearer")[1] == 'e';
  }

  /** A one-word scheme, one space and a credential: the credential is taken exactly when the scheme reads "basic". */
  lemma {:induction false} SchemeWord(scheme: string, enc: string)
    requires ' ' !in scheme && enc != "" && ' ' !in enc
    ensures EncodedCredentials(scheme + " " + enc) == if Lower(scheme) == "basic" then Some(enc) else None
  {
    TwoPieces(scheme, enc);
  }

  /** Two spaces after the scheme leave an empty second piece. */
  lemma {:induction false} DoubleSpace(enc: string)
    requires ' ' !in enc
    ensures EncodedCredentials("Basic  " + enc) == None
  {
    assert Split("Basic  " + enc, ' ') == Split(Join(["Basic", "", enc], " "), ' ') by {
      assert Join(["", enc], " ") == " " + enc by {
        assert ["", enc][1..] == [enc];
      }
      assert ["Basic", "", enc][1..] == ["", enc];
      assert "Basic  " + enc == Join(["Basic", "", enc], " ");
    }
    SplitJoin(["Basic", "", enc], ' ');
  }

  /** `scheme + " " + enc` splits into exactly those two pieces. */
  lemma {:induction false} TwoPieces(scheme: string, enc: string)
    requires ' ' !in scheme && ' ' !in enc
    ensures Split(scheme + " " + enc, ' ') == [scheme, enc]
  {
    assert scheme + " " + enc == Join([scheme, enc], " ");
    SplitJoin([scheme, enc], ' ');
  }

  /**
   * Which credentials pass: the user name is ignored, credentials without a
   * colon are refused, and so is a password with anything but a colon after it.
   */
  lemma {:induction false} CredentialCases(user: string)
    requires ':' !in user
    ensures AcceptedAsWritten(user + ":" + PASSWORD)
    ensures !AcceptedAsWritten(user + ":" + PASSWORD + "x")
    ensures !AcceptedAsWritten(user)
    ensures !AcceptedAsWritten(user + ":wrong")
  {
    var n := |user|;
    assert (user + ":" + PASSWORD)[n + 1..] == PASSWORD;
    assert (user + ":" + PASSWORD)[..n] == user;
    NotAcceptedAfterUser(user, PASSWORD + "x");
    NotAcceptedAfterUser(user, "wrong");
  }

  /** With the first colon right after `user`, acceptance is decided by what follows it. */
  lemma {:induction false} NotAcceptedAfterUser(user: string, rest: string)
    requires ':' !in user && !AfterUser(rest)
    ensures !AcceptedAsWritten(user + ":" + rest)
  {
    var s := user + ":" + rest;
    assert s[|user|] == ':' && s[..|user|] == user && s[|user| + 1..] == rest;
    forall m | 0 <= m < |s| && s[m] == ':' && ':' !in s[..m]
      ensures m == |user|
    {
      FirstColonUnique(s, |user|, m);
    }
  }

  // ---------------------------------------------------------------------------
  // The password as section 2 of RFC 7617 defines it
  // ---------------------------------------------------------------------------

  /**
   * Section 2 of RFC 7617: the user-id runs up to the first colon and the
   * password is everything after it, colons included.
   */
  function Rfc7617Password(decoded: string): (r: Option<string>)
    ensures r.Some? <==> ':' in decoded
  {
    match IndexOf(decoded, ':')
    case None => None
    case Some(n) => Some(decoded[n + 1..])
  }

  /** The decision with the password read as the whole text after the first colon. */
  function MiddlewareRfc7617(pathname: string, authorization: Option<string>, decode: string -> string): (r: Response)
    ensures !StartsWith(pathname, PROTECTED_PREFIX) ==> r == Next
    ensures r != Next ==> r == CHALLENGE
  {
    if !StartsWith(pathname, PROTECTED_PREFIX) then Next
    else if authorization.Some? && authorization.value != "" then
      match EncodedCredentials(authorization.value)
      case Some(encoded) =>
        if Rfc7617Password(decode(encoded)) == Some(PASSWORD) then Next else CHALLENGE
      case None => CHALLENGE
    else CHALLENGE
  }

  /** Under section 2 of RFC 7617, credentials pass exactly when they are a colon-free user-id, a colon and the password. */
  lemma {:induction false} Rfc7617PasswordIff(decoded: string)
    ensures Rfc7617Password(decoded) == Some(PASSWORD) <==>
      exists n :: 0 <= n < |decoded| && ':' !in decoded[..n] && decoded == decoded[..n] + ":" + PASSWORD
  {
    match IndexOf(decoded, ':')
    case None =>
    case Some(n) =>
      if Rfc7617Password(decoded) == Some(PASSWORD) {
        assert decoded == decoded[..n] + [decoded[n]] + decoded[n + 1..];
      }
      if exists m :: 0 <= m < |decoded| && ':' !in decoded[..m] && decoded == decoded[..m] + ":" + PASSWORD {
        var m :| 0 <= m < |decoded| && ':' !in decoded[..m] && decoded == decoded[..m] + ":" + PASSWORD;
        assert decoded[m] == ':';
        FirstColonUnique(decoded, n, m);
        assert decoded[m + 1..] == PASSWORD;
      }
  }

  /**
   * The discrepancy: with credentials `x:skills:more`, the password under
   * section 2 of RFC 7617 is "skills:more", which is wrong, yet the
   * middleware as written lets the request through; read per the RFC, it
   * is refused. Both read "x:skills" alike.
   */
  lemma {:induction false} TrailingFieldAccepted(decode: string -> string, enc: string)
    requires enc != "" && ' ' !in enc && decode(enc) == "x:skills:more"
    ensures Middleware("/skills-matrix", Some("Basic " + enc), decode) == Next
    ensures MiddlewareRfc7617("/skills-matrix", Some("Basic " + enc), decode) == CHALLENGE
  {
    var auth := "Basic " + enc;
    assert EncodedCredentials(auth) == Some(enc) by {
      SchemeWord("Basic", enc);
      LowerSchemes();
    }
    assert StartsWith("/skills-matrix", PROTECTED_PREFIX);
    TrailingFieldReadings();
    DecidedByCredentials("/skills-matrix", auth, enc, decode);
  }

  /** On the protected prefix with Basic credentials, each reading decides by its password alone. */
  lemma {:induction false} DecidedByCredentials(pathname: string, auth: string, enc: string, decode: string -> string)
    requires StartsWith(pathname, PROTECTED_PREFIX) && EncodedCredentials(auth) == Some(enc)
    ensures Middleware(pathname, Some(auth), decode) ==
      if PassPiece(decode(enc)) == Some(PASSWORD) then Next else CHALLENGE
    ensures MiddlewareRfc7617(pathname, Some(auth), decode) ==
      if Rfc7617Password(decode(enc)) == Some(PASSWORD) then Next else CHALLENGE
  {
  }

  /** The two readings of `x:skills:more`: the second field, and everything after the first colon. */
  lemma {:induction false} TrailingFieldReadings()
    ensures PassPiece("x:skills:more") == Some(PASSWORD)
    ensures Rfc7617Password("x:skills:more") == Some("skills:more") != Some(PASSWORD)
  {
    TrailingPassPiece();
    TrailingRfc7617();
  }

  /** The middleware's reading of `x:skills:more`: the second colon-separated piece. */
  lemma {:induction false} TrailingPassPiece()
    ensures PassPiece("x:skills:more") == Some(PASSWORD)
  {
    var xs := ["x", "skills", "more"];
    assert forall i :: 0 <= i < |xs| ==> ':' !in xs[i];
    assert "x:skills:more" == Join(xs, ":");
    SplitJoin(xs, ':');
  }

  /** The RFC's reading of `x:skills:more`: everything after the first colon. */
  lemma {:induction false} TrailingRfc7617()
    ensures Rfc7617Password("x:skills:more") == Some("skills:more") != Some(PASSWORD)
  {
    var s := "x:skills:more";
    assert s[0] != ':' && s[1] == ':';
    assert IndexOf(s, ':') == Some(1) by {
      assert s[1..][0] == ':';
    }
    assert s[2..] == "skills:more";
    assert |"skills:more"| != |PASSWORD|;
  }

  /** On credentials without a second colon the two readings agree. */
  lemma {:induction false} ReadingsAgreeWithoutSecondColon(decoded: string)
    requires ':' in decoded
    requires ':' !in decoded[IndexOf(decoded, ':').value + 1..]
    ensures PassPiece(decoded) == Rfc7617Password(decoded)
  {
    SplitSecond(decoded, ':');
  }
}
