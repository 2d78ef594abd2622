/** Which links the navigation bar and the footer render for a session. */
module Navigation {
  import opened Entities
  import opened AuthContext

  datatype NavItem =
    | AboutLink
    | FavoritesLink
    | MyCardsLink
    | SandboxLink
    | ProfileLink
    | LoginButton
    | RegisterLink

  datatype FooterItem = HomeIcon | FavoritesIcon | MyCardsIcon | SandboxIcon

  /** The four kinds of session the interface distinguishes. */
  datatype Role = Anonymous | Regular | Business | Admin

  function RoleOf(s: Session): Role
  {
    if !s.isAuthenticated then Anonymous
    else if s.userData.isAdmin then Admin
    else if s.userData.isBusiness then Business
    else Regular
  }

  /** The bar's items in rendering order: About; the authenticated block;
      then either the profile link or the login button and register link,
      decided by the presence of a user id. */
  function NavbarItems(s: Session): (r: seq<NavItem>)
    ensures AboutLink in r
    ensures FavoritesLink in r <==> s.isAuthenticated
    ensures MyCardsLink in r <==> s.isAuthenticated && (s.userData.isAdmin || s.userData.isBusiness)
    ensures SandboxLink in r <==> s.isAuthenticated && s.userData.isAdmin
    ensures ProfileLink in r <==> HasUserId(s.userData)
    ensures LoginButton in r <==> !HasUserId(s.userData)
    ensures RegisterLink in r <==> !HasUserId(s.userData)
  {
    var main := if s.isAuthenticated then
      [FavoritesLink]
      + (if s.userData.isAdmin || s.userData.isBusiness then [MyCardsLink] else [])
      + (if s.userData.isAdmin then [SandboxLink] else [])
    else [];
    var account := if HasUserId(s.userData) then [ProfileLink] else [LoginButton, RegisterLink];
    [AboutLink] + main + account
  }

  /** The footer's icons in rendering order. */
  function FooterItems(s: Session): (r: seq<FooterItem>)
    ensures HomeIcon in r
    ensures FavoritesIcon in r <==> s.isAuthenticated
    ensures MyCardsIcon in r <==> s.isAuthenticated && (s.userData.isAdmin || s.userData.isBusiness)
    ensures SandboxIcon in r <==> s.isAuthenticated && s.userData.isAdmin
  {
    var main := if s.isAuthenticated then
      [FavoritesIcon]
      + (if s.userData.isAdmin || s.userData.isBusiness then [MyCardsIcon] else [])
      + (if s.userData.isAdmin then [SandboxIcon] else [])
    else [];
    [HomeIcon] + main
  }

  /** The same visibility stated per role. */
  lemma NavbarByRole(s: Session)
    ensures FavoritesLink in NavbarItems(s) <==> RoleOf(s) != Anonymous
    ensures MyCardsLink in NavbarItems(s) <==> RoleOf(s) == Business || RoleOf(s) == Admin
    ensures SandboxLink in NavbarItems(s) <==> RoleOf(s) == Admin
  {
  }

  /** Sandbox is never offered without My Cards. */
  lemma SandboxImpliesMyCards(s: Session)
    ensures SandboxLink in NavbarItems(s) ==> MyCardsLink in NavbarItems(s)
    ensures SandboxIcon in FooterItems(s) ==> MyCardsIcon in FooterItems(s)
  {
  }

  /** Exactly one of "profile" or "login and register" is offered. */
  lemma AccountEntryExclusive(s: Session)
    ensures (ProfileLink in NavbarItems(s)) != (LoginButton in NavbarItems(s))
    ensures LoginButton in NavbarItems(s) <==> RegisterLink in NavbarItems(s)
  {
  }

  /** The footer offers a page exactly when the navigation bar does. */
  lemma FooterAgreesWithNavbar(s: Session)
    ensures FavoritesIcon in FooterItems(s) <==> FavoritesLink in NavbarItems(s)
    ensures MyCardsIcon in FooterItems(s) <==> MyCardsLink in NavbarItems(s)
    ensures SandboxIcon in FooterItems(s) <==> SandboxLink in NavbarItems(s)
  {
  }

  /** In a consistent session the profile link implies the page links for
      authenticated users: an anonymous session carries no user id. */
  lemma ProfileImpliesAuthenticated(s: Session, decode: Token -> Claims)
    requires Consistent(s, decode)
    ensures ProfileLink in NavbarItems(s) ==> FavoritesLink in NavbarItems(s)
  {
  }
}
