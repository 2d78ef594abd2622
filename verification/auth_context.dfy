/** The session store: a persisted token plus the `isAuthenticated` flag and
    the decoded `userData`, with the startup effect, `login` and `logout` as
    transitions. Token decoding is a parameter `decode` the model does not
    interpret. */
module AuthContext {
  import opened Entities

  type Token = string

  /** `storedToken` is the "token" entry of local storage. */
  datatype Session = Session(storedToken: Option<Token>, isAuthenticated: bool, userData: Claims)

  /** `if (token)`: present and not the empty string. */
  predicate Truthy(stored: Option<Token>)
  {
    stored.Some? && stored.value != ""
  }

  /** The state before the startup effect has run. */
  function Fresh(stored: Option<Token>): (s: Session)
    ensures s.storedToken == stored && !s.isAuthenticated && s.userData == NoClaims
  {
    Session(stored, false, NoClaims)
  }

  /** The startup effect: a truthy stored token authenticates the session
      with the token's claims; otherwise the fresh state stays. */
  function Startup(stored: Option<Token>, decode: Token -> Claims): (s: Session)
    ensures s.storedToken == stored
    ensures s.isAuthenticated <==> Truthy(stored)
    ensures Truthy(stored) ==> s.userData == decode(stored.value)
    ensures !Truthy(stored) ==> s == Fresh(stored)
  {
    var s0 := Fresh(stored);
    if Truthy(stored) then s0.(isAuthenticated := true, userData := decode(stored.value)) else s0
  }

  /** `login(t)`: persist `t`, authenticate, decode. */
  function Login(s: Session, t: Token, decode: Token -> Claims): (r: Session)
    ensures r.storedToken == Some(t) && r.isAuthenticated && r.userData == decode(t)
  {
    s.(storedToken := Some(t), isAuthenticated := true, userData := decode(t))
  }

  /** `logout()`: forget the token, drop the claims. */
  function Logout(s: Session): (r: Session)
    ensures r.storedToken == None && !r.isAuthenticated && r.userData == NoClaims
  {
    s.(storedToken := None, isAuthenticated := false, userData := NoClaims)
  }

  /** What every reachable session satisfies: an authenticated session holds
      a token whose claims it shows, an anonymous one shows no claims. */
  predicate Consistent(s: Session, decode: Token -> Claims)
  {
    && (s.isAuthenticated ==> s.storedToken.Some? && s.userData == decode(s.storedToken.value))
    && (!s.isAuthenticated ==> s.userData == NoClaims)
  }

  /** The stronger "authenticated iff a token is stored". */
  predicate AuthMatchesStorage(s: Session)
  {
    s.isAuthenticated <==> s.storedToken.Some?
  }

  lemma StartupConsistent(stored: Option<Token>, decode: Token -> Claims)
    ensures Consistent(Startup(stored, decode), decode)
  {
  }

  lemma LoginConsistent(s: Session, t: Token, decode: Token -> Claims)
    ensures Consistent(Login(s, t, decode), decode)
    ensures AuthMatchesStorage(Login(s, t, decode))
  {
  }

  lemma LogoutConsistent(s: Session, decode: Token -> Claims)
    ensures Consistent(Logout(s), decode)
    ensures AuthMatchesStorage(Logout(s))
  {
  }

  /** Startup gives "authenticated iff a token is stored" unless the stored
      token is the empty string, which JavaScript reads as false. */
  lemma StartupStorageMatch(stored: Option<Token>, decode: Token -> Claims)
    ensures AuthMatchesStorage(Startup(stored, decode)) <==> stored != Some("")
  {
  }

  /** Before the effect runs the session is consistent but ignores storage:
      it matches storage only when nothing is stored, and the effect changes
      it exactly when the stored token is truthy. */
  lemma FreshBeforeEffect(stored: Option<Token>, decode: Token -> Claims)
    ensures Consistent(Fresh(stored), decode)
    ensures AuthMatchesStorage(Fresh(stored)) <==> stored.None?
    ensures Startup(stored, decode) != Fresh(stored) <==> Truthy(stored)
  {
  }

  /** What `login` and `logout` persist is what a reload restores: the
      startup effect on the stored token rebuilds the same session (for a
      non-empty token, which is the only kind the login dialog passes on). */
  lemma ReloadRestoresSession(s: Session, t: Token, decode: Token -> Claims)
    ensures t != "" ==> Startup(Login(s, t, decode).storedToken, decode) == Login(s, t, decode)
    ensures t == "" ==> !Startup(Login(s, t, decode).storedToken, decode).isAuthenticated
    ensures Startup(Logout(s).storedToken, decode) == Logout(s)
  {
  }

  /** `login(t)` forgets the previous session entirely. */
  lemma LoginIgnoresPrevious(s1: Session, s2: Session, t: Token, decode: Token -> Claims)
    ensures Login(s1, t, decode) == Login(s2, t, decode)
  {
  }

  lemma LogoutIdempotent(s: Session)
    ensures Logout(Logout(s)) == Logout(s)
  {
  }

  /** Logging in and then out is indistinguishable from starting with no
      stored token. */
  lemma LoginThenLogoutIsFreshStart(s: Session, t: Token, decode: Token -> Claims)
    ensures Logout(Login(s, t, decode)) == Startup(None, decode)
  {
  }

  /** Any sequence of logins and logouts after startup keeps the session
      consistent. */
  datatype Event = LoginWith(token: Token) | LogoutNow

  function Run(s: Session, events: seq<Event>, decode: Token -> Claims): Session
    decreases |events|
  {
    if events == [] then s
    else
      var next := match events[0]
        case LoginWith(t) => Login(s, t, decode)
        case LogoutNow => Logout(s);
      Run(next, events[1..], decode)
  }

  lemma {:induction false} RunConsistent(stored: Option<Token>, events: seq<Event>, decode: Token -> Claims)
    ensures Consistent(Run(Startup(stored, decode), events, decode), decode)
  {
    RunPreservesConsistent(Startup(stored, decode), events, decode);
  }

  lemma {:induction false} RunPreservesConsistent(s: Session, events: seq<Event>, decode: Token -> Claims)
    requires Consistent(s, decode)
    ensures Consistent(Run(s, events, decode), decode)
    decreases |events|
  {
    if events != [] {
      var next := match events[0]
        case LoginWith(t) => Login(s, t, decode)
        case LogoutNow => Logout(s);
      RunPreservesConsistent(next, events[1..], decode);
    }
  }

  /** Once any login or logout has happened, "authenticated iff a token is
      stored" holds and keeps holding. */
  lemma {:induction false} RunMatchesStorage(s: Session, events: seq<Event>, decode: Token -> Claims)
    requires events != [] || AuthMatchesStorage(s)
    ensures AuthMatchesStorage(Run(s, events, decode))
    decreases |events|
  {
    if events != [] {
      var next := match events[0]
        case LoginWith(t) => Login(s, t, decode)
        case LogoutNow => Logout(s);
      RunMatchesStorage(next, events[1..], decode);
    }
  }
}
