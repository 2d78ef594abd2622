/** The home page: every card, filtered by the search term, with like, edit
    and delete handlers and admin-only controls. */
module Home {
  import opened Entities
  import opened Seqs
  import opened AuthContext
  import opened CardLists
  import opened Navigation

  /** `current` is `currentCard`, which starts as `{}` (no card). */
  datatype HomePage = HomePage(cards: seq<Card>, current: Option<Card>, showEdit: bool, showConfirm: bool)

  /** The controls rendered on one card. */
  datatype CardControls = CardControls(deleteButton: bool, editButton: bool, likeButton: bool, likedStyle: bool)

  /** The page on mount, once its first fetch resolves. */
  function Loaded(fetched: seq<Card>, term: string): (p: HomePage)
    ensures p.cards == SearchFilter(fetched, term)
    ensures p.current == None && !p.showEdit && !p.showConfirm
  {
    HomePage(SearchFilter(fetched, term), None, false, false)
  }

  /** The mount fetch and a later re-run agree: the page shows exactly the
      fetched cards whose title matches the term (all of them for the empty
      term), and a refetch of a freshly mounted page is the page mounted with
      the new reply and term. */
  lemma MountShowsMatches(fetched: seq<Card>, term: string, fetched2: seq<Card>, term2: string)
    ensures forall c :: c in Loaded(fetched, term).cards <==> c in fetched && MatchesSearch(c, term)
    ensures Loaded(fetched, "").cards == fetched
    ensures Refetched(Loaded(fetched, term), fetched2, term2) == Loaded(fetched2, term2)
  {
    SearchEmptyKeepsAll(fetched);
  }

  /** The fetch effect re-running for a new search term: only the list is
      replaced; the selected card and the dialogs stay as they were. */
  function Refetched(p: HomePage, fetched: seq<Card>, term: string): (r: HomePage)
    ensures r.cards == SearchFilter(fetched, term)
    ensures r.current == p.current && r.showEdit == p.showEdit && r.showConfirm == p.showConfirm
  {
    p.(cards := SearchFilter(fetched, term))
  }

  /** `handleLike`: a reply (`Some`) replaces the cards with the returned id;
      a rejection (`None`) leaves the page as it was. */
  function OnLikeReply(p: HomePage, reply: Option<Card>): (r: HomePage)
    ensures r.current == p.current && r.showEdit == p.showEdit && r.showConfirm == p.showConfirm
    ensures |r.cards| == |p.cards|
    ensures reply.None? ==> r == p
    ensures reply.Some? ==> forall i :: 0 <= i < |p.cards| ==>
      r.cards[i] == (if p.cards[i].id == reply.value.id then reply.value else p.cards[i])
  {
    match reply
    case None => p
    case Some(updated) => p.(cards := ApplyLikeReply(p.cards, updated))
  }

  /** The trash or pencil button: remember the card and open a dialog. */
  function SelectForDelete(p: HomePage, c: Card): (r: HomePage)
    ensures r.current == Some(c) && r.showConfirm && r.cards == p.cards && r.showEdit == p.showEdit
  {
    p.(current := Some(c), showConfirm := true)
  }

  function SelectForEdit(p: HomePage, c: Card): (r: HomePage)
    ensures r.current == Some(c) && r.showEdit && r.cards == p.cards && r.showConfirm == p.showConfirm
  {
    p.(current := Some(c), showEdit := true)
  }

  /** The confirmation's Confirm button: `handleDeleteCard` runs and the
      dialog closes; on success exactly the cards with the current id go,
      every other card keeps its multiplicity and order. */
  function OnDeleteReply(p: HomePage, ok: bool): (r: HomePage)
    ensures r.current == p.current && r.showEdit == p.showEdit && !r.showConfirm
    ensures !ok ==> r.cards == p.cards
    ensures ok ==> forall c :: c in r.cards <==> c in p.cards && Some(c.id) != CurrentId(p.current)
    ensures ok ==> forall c: Card :: Some(c.id) != CurrentId(p.current) ==>
      multiset(r.cards)[c] == multiset(p.cards)[c]
    ensures ok ==> IsSubsequence(r.cards, p.cards)
  {
    var cards := if ok then RemoveById(p.cards, CurrentId(p.current)) else p.cards;
    p.(cards := cards, showConfirm := false)
  }

  /** Cancel, the close icon or a click on the backdrop: the confirmation
      closes and nothing else changes. */
  function CancelConfirm(p: HomePage): (r: HomePage)
    ensures !r.showConfirm && r.cards == p.cards && r.current == p.current && r.showEdit == p.showEdit
  {
    p.(showConfirm := false)
  }

  /** Deleting goes to the card whose trash button was pressed: a confirmed
      success removes exactly the cards with its id and closes the dialog; a
      failure or a cancel leaves the list as it was. */
  lemma DeleteSelectedCard(p: HomePage, c: Card, ok: bool)
    ensures var r := OnDeleteReply(SelectForDelete(p, c), ok);
      && !r.showConfirm
      && (ok ==> forall d :: d in r.cards ==> d.id != c.id)
      && (ok ==> forall d: Card :: d.id != c.id ==> multiset(r.cards)[d] == multiset(p.cards)[d])
      && (!ok ==> r.cards == p.cards)
    ensures CancelConfirm(SelectForDelete(p, c)).cards == p.cards
  {
  }

  /** Editing goes to the card whose pencil button was pressed: the reply
      replaces exactly the cards with its id, and the dialog closes. */
  lemma EditSelectedCard(p: HomePage, c: Card, reply: Card)
    ensures var r := OnEditSubmitted(SelectForEdit(p, c), Some(reply));
      && !r.showEdit && |r.cards| == |p.cards|
      && forall i :: 0 <= i < |p.cards| ==>
           r.cards[i] == (if p.cards[i].id == c.id then reply else p.cards[i])
  {
  }

  /** A search change while the edit dialog is open does not lose the
      selection: the submit still replaces the selected card in the new
      list. */
  lemma EditSurvivesRefetch(p: HomePage, c: Card, fetched: seq<Card>, term: string, reply: Card)
    ensures var q := Refetched(SelectForEdit(p, c), fetched, term);
      var r := OnEditSubmitted(q, Some(reply));
      && q.showEdit && q.current == Some(c)
      && |r.cards| == |q.cards|
      && forall i :: 0 <= i < |q.cards| ==>
           r.cards[i] == (if q.cards[i].id == c.id then reply else q.cards[i])
  {
  }

  /** `handleCreateOrUpdateCard`: the reply replaces the card with the
      current id; the edit dialog is closed whatever the server answered. */
  function OnEditSubmitted(p: HomePage, reply: Option<Card>): (r: HomePage)
    ensures !r.showEdit
    ensures r.current == p.current && r.showConfirm == p.showConfirm
    ensures |r.cards| == |p.cards|
    ensures reply.None? ==> r.cards == p.cards
    ensures reply.Some? ==> forall i :: 0 <= i < |p.cards| ==>
      r.cards[i] == (if Some(p.cards[i].id) == CurrentId(p.current) then reply.value else p.cards[i])
  {
    var cards := match reply
      case None => p.cards
      case Some(updated) => ReplaceById(p.cards, CurrentId(p.current), updated);
    p.(cards := cards, showEdit := false)
  }

  /** Delete and edit buttons follow `userData.isAdmin`; the like button
      follows `isAuthenticated`; the filled heart marks a card liked by the
      session's user. */
  function Controls(c: Card, s: Session): (k: CardControls)
    ensures k.deleteButton <==> s.userData.isAdmin
    ensures k.editButton <==> s.userData.isAdmin
    ensures k.likeButton <==> s.isAuthenticated
    ensures k.likedStyle <==> s.isAuthenticated && s.userData.id.Some? && s.userData.id.value in c.likes
  {
    CardControls(s.userData.isAdmin, s.userData.isAdmin, s.isAuthenticated, LikedBy(c, s))
  }

  /** In a consistent session the controls follow the role: delete and edit
      for admins only, the like button for every logged-in role. */
  lemma ControlsByRole(c: Card, s: Session, decode: Token -> Claims)
    requires Consistent(s, decode)
    ensures Controls(c, s).deleteButton <==> RoleOf(s) == Admin
    ensures Controls(c, s).editButton <==> RoleOf(s) == Admin
    ensures Controls(c, s).likeButton <==> RoleOf(s) != Anonymous
    ensures Controls(c, s).likedStyle ==> Controls(c, s).likeButton
  {
  }

  /** The admin controls test only the claim, but in a consistent session an
      anonymous user holds no claims, so they never show without a login. */
  lemma AdminControlsNeedLogin(c: Card, s: Session, decode: Token -> Claims)
    requires Consistent(s, decode)
    ensures Controls(c, s).deleteButton ==> Controls(c, s).likeButton
  {
  }
}
