/**
 The signed-in user. The sign-in gate turns its form into a `UserProfile`
 (a verified user on login, a pending one on signup), the profile page lets
 an administrator verify a pending user, and logging out drops the profile.
 The session is `Option<UserProfile>`: `None` while the gate is shown.
 */
module Auth {

  import opened Nullable

  datatype Status = Verified | Pending

  /** `UserProfile`. `nin` is optional in the record and never filled in. */
  datatype UserProfile = UserProfile(name: string, email: string, status: Status, nin: Option<string>)

  /** The text fields of the sign-in form; the uploaded NIN document is not
      modelled. */
  datatype AuthForm = AuthForm(name: string, email: string, password: string, nin: string)

  /** `value || fallback` on strings: the empty string is the only falsy one. */
  function OrDefault(value: string, fallback: string): (r: string)
    ensures value != "" ==> r == value
    ensures value == "" ==> r == fallback
  {
    if value == "" then fallback else value
  }

  /** `AuthGate.handleSubmit`. Login stands for the demo account: a fixed name,
      the typed email (or a demo address when none was typed), verified.
      Signup creates a pending user from the typed name (or "New User") and
      the typed email. Neither stores a NIN. */
  function Submit(isLoginView: bool, form: AuthForm): (u: UserProfile)
    ensures isLoginView ==> u.status == Verified && u.name == "Ibrahim Musa"
    ensures isLoginView && form.email != "" ==> u.email == form.email
    ensures isLoginView && form.email == "" ==> u.email == "student@fud.edu.ng"
    ensures !isLoginView ==> u.status == Pending && u.email == form.email
    ensures !isLoginView && form.name != "" ==> u.name == form.name
    ensures !isLoginView && form.name == "" ==> u.name == "New User"
    ensures u.nin == None
  {
    if isLoginView then
      UserProfile(name := "Ibrahim Musa", email := OrDefault(form.email, "student@fud.edu.ng"), status := Verified, nin := None)
    else
      UserProfile(name := OrDefault(form.name, "New User"), email := form.email, status := Pending, nin := None)
  }

  /** Nothing is checked: the password and the NIN play no part in the
      profile, and login ignores the typed name as well. */
  lemma SubmitIgnoresCredentials(isLoginView: bool, form: AuthForm, password: string, nin: string, name: string)
    ensures Submit(isLoginView, form.(password := password, nin := nin)) == Submit(isLoginView, form)
    ensures Submit(true, form.(name := name)) == Submit(true, form)
  {
  }

  /** A submitted profile always has a name, and a login always has an email;
      a signup keeps whatever email was typed, the empty one included. */
  lemma SubmitFillsBlanks(form: AuthForm)
    ensures Submit(true, form).name != "" && Submit(true, form).email != ""
    ensures Submit(false, form).name != ""
    ensures Submit(false, form).email == "" <==> form.email == ""
  {
  }

  /** What the browser's constraint validation demands before it lets the
      form submit: email and password are `required` in both views, name and
      NIN only on signup, and a `required` text field accepts any non-empty
      value. Email syntax and the required NIN document are not modelled. */
  predicate BrowserAccepts(isLoginView: bool, form: AuthForm) {
    form.email != "" && form.password != "" && (!isLoginView ==> form.name != "" && form.nin != "")
  }

  /** Through the rendered form, whose submission the browser blocks until the
      required fields are filled, the fallbacks are never used: the profile
      carries the typed email, and on signup the typed name. */
  lemma AcceptedFormsSkipFallbacks(isLoginView: bool, form: AuthForm)
    requires BrowserAccepts(isLoginView, form)
    ensures Submit(isLoginView, form).email == form.email
    ensures !isLoginView ==> Submit(isLoginView, form).name == form.name
  {
  }

  /** `handleVerifyUser`: a signed-in user becomes verified and keeps every
      other field; no user stays no user. */
  function Verify(session: Option<UserProfile>): (r: Option<UserProfile>)
    ensures r.None? <==> session.None?
    ensures r.Some? ==> r.value.status == Verified
    ensures r.Some? ==> r.value.name == session.value.name && r.value.email == session.value.email
    ensures r.Some? ==> r.value.nin == session.value.nin
  {
    match session
    case None => None
    case Some(u) => Some(u.(status := Verified))
  }

  /** Verifying twice is verifying once, and a verified user is left as is. */
  lemma VerifyIdempotent(session: Option<UserProfile>)
    ensures Verify(Verify(session)) == Verify(session)
    ensures session.Some? && session.value.status == Verified ==> Verify(session) == session
  {
  }

  /** A signup followed by verification gives the profile a login would give,
      except for the name and email, which stay the ones typed. */
  lemma SignupThenVerify(form: AuthForm)
    ensures Verify(Some(Submit(false, form))) ==
      Some(UserProfile(name := OrDefault(form.name, "New User"), email := form.email, status := Verified, nin := None))
    ensures Verify(Some(Submit(false, form))).value.status == Submit(true, form).status
  {
  }

  // ---------------------------------------------------------------------------
  // The session over a sequence of user actions
  // ---------------------------------------------------------------------------

  datatype SessionEvent = SubmitForm(isLoginView: bool, form: AuthForm) | VerifyUser | Logout

  /** One user action. The gate, and with it the form, is shown only while
      nobody is signed in; the dashboard's verify and logout act on the
      current session (logout is `setUser(null)`). */
  function Step(session: Option<UserProfile>, e: SessionEvent): (r: Option<UserProfile>)
    ensures e.Logout? ==> r.None?
    ensures e.SubmitForm? && session.Some? ==> r == session
    ensures e.SubmitForm? && session.None? ==> r.Some? && r.value.status == (if e.isLoginView then Verified else Pending)
  {
    match e
    case SubmitForm(isLoginView, form) => if session.None? then Some(Submit(isLoginView, form)) else session
    case VerifyUser => Verify(session)
    case Logout => None
  }

  function Run(session: Option<UserProfile>, es: seq<SessionEvent>): Option<UserProfile>
    decreases |es|
  {
    if es == [] then session else Run(Step(session, es[0]), es[1..])
  }

  /** What every profile the app produces satisfies: it has a name and no NIN. */
  predicate WellFormed(session: Option<UserProfile>) {
    session.Some? ==> session.value.name != "" && session.value.nin == None
  }

  /** Every session reachable from a well-formed one is well-formed; in
      particular every profile reached from the signed-out start. */
  lemma {:induction false} RunKeepsWellFormed(session: Option<UserProfile>, es: seq<SessionEvent>)
    requires WellFormed(session)
    ensures WellFormed(Run(session, es))
    decreases |es|
  {
    if es != [] {
      RunKeepsWellFormed(Step(session, es[0]), es[1..]);
    }
  }

  /** Until a logout, a signed-in user stays signed in with the same name and
      email, and a verified user stays verified. */
  lemma {:induction false} SignedInUntilLogout(session: Option<UserProfile>, es: seq<SessionEvent>)
    requires session.Some? && Logout !in es
    ensures Run(session, es).Some?
    ensures Run(session, es).value.name == session.value.name
    ensures Run(session, es).value.email == session.value.email
    ensures session.value.status == Verified ==> Run(session, es).value.status == Verified
    decreases |es|
  {
    if es != [] {
      assert es[0] != Logout && Logout !in es[1..];
      SignedInUntilLogout(Step(session, es[0]), es[1..]);
    }
  }
}
