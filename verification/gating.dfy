/** How the pages' own guards relate to the links that lead to them. */
module Gating {
  import opened Entities
  import opened AuthContext
  import opened CardLists
  import opened Navigation
  import MyCards
  import Favorites
  import Sandbox

  /** The sandbox renders its admin view exactly for the sessions that are
      offered the Sandbox link, which are the admin sessions. */
  lemma SandboxGuardMatchesLink(s: Session)
    ensures Sandbox.ShowsAdminView(s) <==> SandboxLink in NavbarItems(s)
    ensures Sandbox.ShowsAdminView(s) <==> RoleOf(s) == Admin
  {
  }

  /** The favourites page renders its grid exactly for the sessions that
      are offered the Favorites link. */
  lemma FavoritesGuardMatchesLink(cards: seq<Card>, s: Session)
    ensures Favorites.View(cards, s).Grid? <==> FavoritesLink in NavbarItems(s)
    ensures Favorites.View(cards, s).Grid? <==> RoleOf(s) != Anonymous
  {
  }

  /** The "my cards" page guards on login only: every session offered the
      link sees the grid, and so does a regular user who opens the page
      directly. */
  lemma MyCardsGuardWiderThanLink(p: MyCards.MyCardsPage, s: Session)
    ensures MyCards.View(p, s).Grid? <==> RoleOf(s) != Anonymous
    ensures MyCards.View(p, s).Grid? ==> MyCards.View(p, s).cards == p.cards
    ensures MyCardsLink in NavbarItems(s) ==> MyCards.View(p, s).Grid?
    ensures RoleOf(s) == Regular ==> MyCards.View(p, s).Grid? && MyCardsLink !in NavbarItems(s)
  {
  }
}
