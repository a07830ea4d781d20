/**
 * The client-side password gate around the Skills Matrix page: nothing is
 * shown until the page is running in the browser; from then on the
 * protected content is always rendered, in the clear once unlocked and
 * blurred and inert under a password form while locked (so it is never
 * withheld from the browser, only hidden). A correct password is kept
 * in session storage under the gate's key, so later visits in the same
 * browser session pass straight through.
 */
module PasswordGate {
  import opened Wrappers

  const CORRECT_PASSWORD: string := "skills"

  /** Session storage holds the correct password under `key`. */
  predicate Unlocked(session: map<string, string>, key: string) {
    key in session && session[key] == CORRECT_PASSWORD
  }

  /** The password form laid over the locked page: the field's text and whether the error shows. */
  datatype PasswordForm = PasswordForm(field: string, showError: bool)

  /** What the gate renders. */
  datatype GateView =
    | Blank                                                  // before the first client-side effect: nothing
    | Page(childrenBlurred: bool, form: Option<PasswordForm>) // the protected children, and the form over them if any

  /** The unlocked page: the children in the clear, no form. */
  const CONTENT: GateView := Page(false, None)

  /** The locked page: the children blurred, under the form. */
  function Locked(field: string, showError: bool): GateView {
    Page(true, Some(PasswordForm(field, showError)))
  }

  class Gate {
    const storageKey: string
    var password: string
    var isAuthenticated: bool
    var error: bool
    var isClient: bool
    /** The browser's session storage, which the gate reads and writes. */
    var session: map<string, string>

    /**
     * The gate's invariant: it is only ever authenticated with the password
     * stored under its key; it never shows the error while authenticated;
     * and before mounting nothing has happened yet.
     */
    predicate Valid()
      reads this
    {
      && (isAuthenticated ==> Unlocked(session, storageKey))
      && (error ==> !isAuthenticated)
      && (!isClient ==> !isAuthenticated && !error && password == "")
    }

    /** The initial state: empty field, not authenticated, no error, not yet on the client. */
    constructor(storageKey: string, session: map<string, string>)
      ensures Valid()
      ensures this.storageKey == storageKey && this.session == session
      ensures password == "" && !isAuthenticated && !error && !isClient
    {
      this.storageKey := storageKey;
      this.session := session;
      password := "";
      isAuthenticated := false;
      error := false;
      isClient := false;
    }

    /**
     * The mount effect: the gate is now on the client, and it is
     * authenticated exactly when session storage already holds the password.
     */
    method Mount()
      requires Valid() && !isClient
      modifies this
      ensures Valid()
      ensures isClient
      ensures isAuthenticated <==> Unlocked(session, storageKey)
      ensures session == old(session) && password == old(password) && error == old(error)
    {
      isClient := true;
      if storageKey in session && session[storageKey] == CORRECT_PASSWORD {
        isAuthenticated := true;
      }
    }

    /** Typing in the field (only shown while locked): the text replaces the field and clears the error. */
    method Change(value: string)
      requires Valid() && isClient && !isAuthenticated
      modifies this
      ensures Valid()
      ensures password == value && !error
      ensures isClient && !isAuthenticated && session == old(session)
    {
      password := value;
      error := false;
    }

    /**
     * Submitting the form (only shown while locked). The correct password is
     * stored under the key and unlocks the gate; anything else shows the
     * error and empties the field, leaving storage alone. The write is not
     * guarded: when session storage refuses it (`writeOk` false) the
     * handler stops there, and the gate stays locked with no error shown.
     */
    method Submit(writeOk: bool)
      requires Valid() && isClient && !isAuthenticated
      modifies this
      ensures Valid() && isClient
      ensures old(password) == CORRECT_PASSWORD && writeOk ==>
        && isAuthenticated && !error && password == old(password)
        && session == old(session)[storageKey := CORRECT_PASSWORD]
      ensures old(password) == CORRECT_PASSWORD && !writeOk ==>
        && !isAuthenticated && error == old(error) && password == old(password)
        && session == old(session)
      ensures old(password) != CORRECT_PASSWORD ==>
        && !isAuthenticated && error && password == ""
        && session == old(session)
    {
      if password == CORRECT_PASSWORD {
        if !writeOk {
          return;
        }
        session := session[storageKey := password];
        isAuthenticated := true;
        error := false;
      } else {
        error := true;
        password := "";
      }
    }

    /**
     * The render: nothing before mounting; afterwards always the children,
     * blurred under the form exactly while locked, and in the clear only
     * with the password stored under the key.
     */
    function View(): (v: GateView)
      reads this
      requires Valid()
      ensures v == Blank <==> !isClient
      ensures v.Page? ==> (v.childrenBlurred <==> !isAuthenticated) && (v.form.Some? <==> !isAuthenticated)
      ensures v.Page? && !v.childrenBlurred ==> Unlocked(session, storageKey)
      ensures v.Page? && v.form.Some? ==> v.form.value == PasswordForm(password, error)
    {
      if !isClient then Blank
      else if isAuthenticated then CONTENT
      else Locked(password, error)
    }
  }

  /**
   * One browser session: a first visit shows nothing, then the form; a
   * wrong password shows the error with an empty field; typing clears the
   * error; the right password shows the content; and a second gate with the
   * same key, mounted later in the same session, opens without asking.
   */
  method SessionScenario(key: string, session: map<string, string>)
      returns (beforeMount: GateView, locked: GateView, wrong: GateView, typing: GateView,
               unlocked: GateView, revisit: GateView)
    requires !Unlocked(session, key)
    ensures beforeMount == Blank
    ensures locked == Locked("", false)
    ensures wrong == Locked("", true)
    ensures typing == Locked(CORRECT_PASSWORD, false)
    ensures unlocked == CONTENT
    ensures revisit == CONTENT
  {
    var g := new Gate(key, session);
    beforeMount := g.View();
    g.Mount();
    locked := g.View();
    g.Change("skill");
    g.Submit(true);
    wrong := g.View();
    g.Change(CORRECT_PASSWORD);
    typing := g.View();
    g.Submit(true);
    unlocked := g.View();
    var again := new Gate(key, g.session);
    again.Mount();
    revisit := again.View();
  }
}
