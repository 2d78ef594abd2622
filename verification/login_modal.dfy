/** The login dialog: its open flag, its two-field form, and the handler that
    logs in on a non-empty token reply. */
module LoginModal {
  import opened Entities
  import opened Rules
  import opened AuthContext

  datatype LoginForm = LoginForm(email: string, password: string)

  const Blank := LoginForm("", "")

  datatype LoginModalState = LoginModalState(open: bool, values: LoginForm)

  ghost predicate Valid(k: Checks, f: LoginForm)
  {
    RequiredEmail(k, f.email) && PasswordField(f.password)
  }

  /** `disabled={!formik.dirty || !formik.isValid}`. */
  ghost predicate SubmitDisabled(k: Checks, m: LoginModalState)
  {
    !SubmitEnabled(m.values, Blank, Valid(k, m.values))
  }

  /** `toggleModal`: flip the open flag and reset the form. */
  function Toggle(m: LoginModalState): (r: LoginModalState)
    ensures r.open == !m.open
    ensures r.values == Blank
  {
    LoginModalState(!m.open, Blank)
  }

  /** Toggling twice restores the open flag and leaves an empty form, and
      after any toggle the submit button is disabled until the user types. */
  lemma ToggleTwice(k: Checks, m: LoginModalState)
    ensures Toggle(Toggle(m)) == m.(values := Blank)
    ensures SubmitDisabled(k, Toggle(m))
  {
  }

  /** The submit handler once the server has answered with `reply`: a
      non-empty token logs in and toggles the dialog; an empty reply changes
      nothing. */
  function OnLoginReply(m: LoginModalState, s: Session, reply: Token, decode: Token -> Claims)
    : (r: (LoginModalState, Session))
    ensures reply == "" ==> r == (m, s)
    ensures reply != "" ==> r.1 == Login(s, reply, decode) && r.0.open == !m.open
  {
    if |reply| > 0 then (Toggle(m), Login(s, reply, decode)) else (m, s)
  }

  /** The form is only rendered while the dialog is open, so a successful
      login closes the dialog, empties the form and authenticates the
      session with the reply's claims. */
  lemma SuccessfulLoginCloses(m: LoginModalState, s: Session, reply: Token, decode: Token -> Claims)
    requires m.open && reply != ""
    ensures var (m', s') := OnLoginReply(m, s, reply, decode);
      && !m'.open && m'.values == Blank
      && s'.isAuthenticated && s'.storedToken == Some(reply) && s'.userData == decode(reply)
  {
  }

  /** The login reply keeps the session store's invariant: from a consistent
      session the result is consistent, and a non-empty reply leaves the
      session authenticated exactly because a token is stored. */
  lemma LoginReplyConsistent(m: LoginModalState, s: Session, reply: Token, decode: Token -> Claims)
    requires Consistent(s, decode)
    ensures Consistent(OnLoginReply(m, s, reply, decode).1, decode)
    ensures reply != "" ==> AuthMatchesStorage(OnLoginReply(m, s, reply, decode).1)
    ensures reply == "" ==> OnLoginReply(m, s, reply, decode).1 == s
  {
  }

  /** The blank form cannot be submitted. */
  lemma BlankDisabled(k: Checks, open: bool)
    ensures SubmitDisabled(k, LoginModalState(open, Blank))
  {
  }
}
