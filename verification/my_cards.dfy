/** The "my cards" page: the user's own cards, one dialog shared by creating
    (no current card) and editing (a current card). */
module MyCards {
  import opened Entities
  import opened Seqs
  import opened AuthContext
  import opened CardLists
  import CardModal

  /** `current` is `currentCard`, which starts as `null`. */
  datatype MyCardsPage = MyCardsPage(cards: seq<Card>, current: Option<Card>, showModal: bool, showConfirm: bool)

  /** The page on mount, once its first fetch resolves. */
  function Loaded(fetched: seq<Card>, term: string): (p: MyCardsPage)
    ensures p.cards == SearchFilter(fetched, term)
    ensures p.current == None && !p.showModal && !p.showConfirm
  {
    MyCardsPage(SearchFilter(fetched, term), None, false, false)
  }

  /** The mount fetch and a later re-run agree: the page shows exactly the
      fetched cards whose title matches the term (all of them for the empty
      term), and a refetch of a freshly mounted page is the page mounted with
      the new reply and term. On the mounted page the "+" tile as written
      creates: nothing has set `currentCard` yet. */
  lemma MountShowsMatches(fetched: seq<Card>, term: string, fetched2: seq<Card>, term2: string, created: Card)
    ensures forall c :: c in Loaded(fetched, term).cards <==> c in fetched && MatchesSearch(c, term)
    ensures Loaded(fetched, "").cards == fetched
    ensures Refetched(Loaded(fetched, term), fetched2, term2) == Loaded(fetched2, term2)
    ensures OnSubmitReply(OpenCreateTileAsWritten(Loaded(fetched, term)), Some(created)).cards
         == [created] + Loaded(fetched, term).cards
  {
    SearchEmptyKeepsAll(fetched);
  }

  /** The fetch effect re-running for a new search term: only the list is
      replaced; `currentCard` and the dialogs stay as they were. */
  function Refetched(p: MyCardsPage, fetched: seq<Card>, term: string): (r: MyCardsPage)
    ensures r.cards == SearchFilter(fetched, term)
    ensures r.current == p.current && r.showModal == p.showModal && r.showConfirm == p.showConfirm
  {
    p.(cards := SearchFilter(fetched, term))
  }

  /** The grid is rendered only for an authenticated session. */
  function View(p: MyCardsPage, s: Session): (v: PageView)
    ensures v.PleaseLogin? <==> !s.isAuthenticated
    ensures v.Grid? ==> v.cards == p.cards
  {
    if s.isAuthenticated then Grid(p.cards) else PleaseLogin
  }

  function OnLikeReply(p: MyCardsPage, reply: Option<Card>): (r: MyCardsPage)
    ensures r.current == p.current && r.showModal == p.showModal && r.showConfirm == p.showConfirm
    ensures |r.cards| == |p.cards|
    ensures reply.None? ==> r == p
    ensures reply.Some? ==> forall i :: 0 <= i < |p.cards| ==>
      r.cards[i] == (if p.cards[i].id == reply.value.id then reply.value else p.cards[i])
  {
    match reply
    case None => p
    case Some(updated) => p.(cards := ApplyLikeReply(p.cards, updated))
  }

  /** The confirmation's Confirm button: `handleDeleteCard` runs and the
      dialog closes; on success exactly the cards with the current id go,
      every other card keeps its multiplicity and order. */
  function OnDeleteReply(p: MyCardsPage, ok: bool): (r: MyCardsPage)
    ensures r.current == p.current && r.showModal == p.showModal && !r.showConfirm
    ensures !ok ==> r.cards == p.cards
    ensures ok ==> forall c :: c in r.cards <==> c in p.cards && Some(c.id) != CurrentId(p.current)
    ensures ok ==> forall c: Card :: Some(c.id) != CurrentId(p.current) ==>
      multiset(r.cards)[c] == multiset(p.cards)[c]
    ensures ok ==> IsSubsequence(r.cards, p.cards)
  {
    var cards := if ok then RemoveById(p.cards, CurrentId(p.current)) else p.cards;
    p.(cards := cards, showConfirm := false)
  }

  /** The trash button: remember the card and ask for confirmation. */
  function SelectForDelete(p: MyCardsPage, c: Card): (r: MyCardsPage)
    ensures r.current == Some(c) && r.showConfirm && r.cards == p.cards && r.showModal == p.showModal
  {
    p.(current := Some(c), showConfirm := true)
  }

  /** Cancel, the close icon or a click on the backdrop. */
  function CancelConfirm(p: MyCardsPage): (r: MyCardsPage)
    ensures !r.showConfirm && r.cards == p.cards && r.current == p.current && r.showModal == p.showModal
  {
    p.(showConfirm := false)
  }

  /** Deleting goes to the card whose trash button was pressed: a confirmed
      success removes exactly the cards with its id; a failure or a cancel
      leaves the list as it was. Either way the card stays current. */
  lemma DeleteSelectedCard(p: MyCardsPage, c: Card, ok: bool)
    ensures var r := OnDeleteReply(SelectForDelete(p, c), ok);
      && !r.showConfirm && r.current == Some(c)
      && (ok ==> forall d :: d in r.cards ==> d.id != c.id)
      && (ok ==> forall d: Card :: d.id != c.id ==> multiset(r.cards)[d] == multiset(p.cards)[d])
      && (!ok ==> r.cards == p.cards)
    ensures CancelConfirm(SelectForDelete(p, c)).cards == p.cards
  {
  }

  /** The pencil button on a card. */
  function OpenEdit(p: MyCardsPage, c: Card): (r: MyCardsPage)
    ensures r.current == Some(c) && r.showModal && r.cards == p.cards && r.showConfirm == p.showConfirm
  {
    p.(current := Some(c), showModal := true)
  }

  /** The "+" tile as the page renders it: it opens the dialog and leaves
      `currentCard` as it was. */
  function OpenCreateTileAsWritten(p: MyCardsPage): (r: MyCardsPage)
    ensures r.showModal && r.current == p.current && r.cards == p.cards && r.showConfirm == p.showConfirm
  {
    p.(showModal := true)
  }

  /** The "+" tile as intended: it opens the dialog with no current card. */
  function OpenCreateTile(p: MyCardsPage): (r: MyCardsPage)
    ensures r.showModal && r.current == None && r.cards == p.cards
  {
    p.(current := None, showModal := true)
  }

  /** `handleCreateOrUpdateCard`: with no current card the created card goes
      in front of the list; with one, the reply replaces the card with its
      id. Either way the dialog closes; a rejection changes no card. */
  function OnSubmitReply(p: MyCardsPage, reply: Option<Card>): (r: MyCardsPage)
    ensures !r.showModal
    ensures r.current == p.current && r.showConfirm == p.showConfirm
    ensures reply.None? ==> r.cards == p.cards
    ensures reply.Some? && p.current.None? ==>
      |r.cards| == |p.cards| + 1 && r.cards[0] == reply.value && r.cards[1..] == p.cards
    ensures reply.Some? && p.current.Some? ==>
      |r.cards| == |p.cards| &&
      forall i :: 0 <= i < |p.cards| ==>
        r.cards[i] == (if p.cards[i].id == p.current.value.id then reply.value else p.cards[i])
  {
    var cards := match reply
      case None => p.cards
      case Some(c) =>
        if p.current.None? then [c] + p.cards
        else ReplaceById(p.cards, CurrentId(p.current), c);
    p.(cards := cards, showModal := false)
  }

  /** The pencil button opens the dialog prefilled with that card, and the
      submit replaces exactly the cards with its id and closes the dialog. */
  lemma EditTargetsOpenedCard(p: MyCardsPage, c: Card, reply: Card)
    ensures CardModal.InitialFrom(OpenEdit(p, c).current) == CardModal.InitialFrom(Some(c))
    ensures var r := OnSubmitReply(OpenEdit(p, c), Some(reply));
      && !r.showModal && |r.cards| == |p.cards|
      && forall i :: 0 <= i < |p.cards| ==>
           r.cards[i] == (if p.cards[i].id == c.id then reply else p.cards[i])
  {
  }

  /** After an edit, the "+" tile as written submits an update of the card
      just edited: no card is added to the list. */
  lemma CreateTileAsWrittenUpdates(p: MyCardsPage, edited: Card, reply1: Card, reply2: Card)
    ensures
      var q := OpenCreateTileAsWritten(OnSubmitReply(OpenEdit(p, edited), Some(reply1)));
      q.current == Some(edited) && |OnSubmitReply(q, Some(reply2)).cards| == |q.cards|
  {
  }

  /** A concrete run of the above: one card "a" is edited, then the "+" tile
      is used to create a card titled "Beta". The request goes out as an
      update of "a", the server returns "a" retitled, and the list still
      holds one card: "a" was overwritten and nothing was created. */
  lemma CreateTileAsWrittenExample()
    ensures
      var a := Card("a", "Alpha", "", "", "", "", "", Image("", ""), Address("", "", "", "", "", ""), 1, [], "");
      var p := MyCardsPage([a], None, false, false);
      var q := OpenCreateTileAsWritten(OnSubmitReply(OpenEdit(p, a), Some(a)));
      OnSubmitReply(q, Some(a.(title := "Beta"))).cards == [a.(title := "Beta")]
  {
  }

  /** Neither a search change nor a delete clears `currentCard`. After an
      edit and a refetch, the "+" tile as written still submits an update of
      the edited card; after a delete it submits an update of the deleted
      card. In neither case does a card get created. */
  lemma CreateTileDefectSurvivesRefetch(p: MyCardsPage, edited: Card, other: Card, reply1: Card,
                                        fetched: seq<Card>, term: string, reply2: Card)
    ensures
      var q := OpenCreateTileAsWritten(Refetched(OnSubmitReply(OpenEdit(p, edited), Some(reply1)), fetched, term));
      q.current == Some(edited) && |OnSubmitReply(q, Some(reply2)).cards| == |q.cards|
    ensures
      var q := OpenCreateTileAsWritten(OnDeleteReply(SelectForDelete(p, other), true));
      q.current == Some(other) && |OnSubmitReply(q, Some(reply2)).cards| == |q.cards|
  {
  }

  /** With the intended tile, a successful submit always creates: the new
      card comes first and the previous list follows unchanged. */
  lemma CreateTileCreates(p: MyCardsPage, created: Card)
    ensures
      var r := OnSubmitReply(OpenCreateTile(p), Some(created));
      r.cards[0] == created && r.cards[1..] == p.cards && !r.showModal
  {
  }

  /** The dialog the "+" tile opens takes its initial values from the
      current card: as written it shows the card edited last, as intended it
      is blank. */
  lemma CreateTilePrefill(p: MyCardsPage, edited: Card)
    ensures CardModal.InitialFrom(OpenCreateTileAsWritten(OpenEdit(p, edited)).current)
         == CardModal.InitialFrom(Some(edited))
    ensures CardModal.InitialFrom(OpenCreateTile(OpenEdit(p, edited)).current) == CardModal.Blank
  {
  }

  /** What the user can do on the page. A button on a card (trash, pencil
      or heart) sits inside the card's own click target, so the click also
      reaches `handelCardClick` and leaves for that card's details page. */
  datatype PageEvent =
    | Search(fetched: seq<Card>, term: string)
    | LikeArrives(reply: Option<Card>)
    | ClickTile
    | SubmitArrives(reply: Option<Card>)
    | ClickCardButton(card: Card)

  /** Either still on the page, or navigated to a card's details page (which
      unmounts this page and drops its state). */
  datatype Outcome = OnPage(page: MyCardsPage) | LeftFor(cardId: string)

  function Step(p: MyCardsPage, e: PageEvent): (o: Outcome)
    ensures e.ClickCardButton? <==> o.LeftFor?
    ensures e.ClickCardButton? ==> o.cardId == e.card.id
  {
    match e
    case Search(fetched, term) => OnPage(Refetched(p, fetched, term))
    case LikeArrives(reply) => OnPage(OnLikeReply(p, reply))
    case ClickTile => OnPage(OpenCreateTileAsWritten(p))
    case SubmitArrives(reply) => OnPage(OnSubmitReply(p, reply))
    case ClickCardButton(c) => LeftFor(c.id)
  }

  /** A sequence of events, stopping at the first that leaves the page. */
  function RunEvents(p: MyCardsPage, es: seq<PageEvent>): Outcome
    decreases |es|
  {
    if es == [] then OnPage(p)
    else match Step(p, es[0])
      case OnPage(q) => RunEvents(q, es[1..])
      case LeftFor(id) => LeftFor(id)
  }

  /** Without a card-button click nothing on the page sets `currentCard`:
      from a page with no current card, every run that stays on the page
      ends with none. */
  lemma {:induction false} StayingKeepsNoCurrent(p: MyCardsPage, es: seq<PageEvent>)
    requires p.current.None?
    ensures RunEvents(p, es).OnPage? ==> RunEvents(p, es).page.current.None?
    decreases |es|
  {
    if es != [] {
      match Step(p, es[0])
      case OnPage(q) => StayingKeepsNoCurrent(q, es[1..]);
      case LeftFor(_) =>
    }
  }

  /** So as long as card-button clicks navigate away, the "+" tile as written
      behaves as intended on every state the user can reach: a submit from
      it prepends the created card. */
  lemma CreateTileReachableCreates(fetched: seq<Card>, term: string, es: seq<PageEvent>, created: Card)
    ensures var o := RunEvents(Loaded(fetched, term), es);
      o.OnPage? ==>
        var r := OnSubmitReply(OpenCreateTileAsWritten(o.page), Some(created));
        r.cards == [created] + o.page.cards
  {
    StayingKeepsNoCurrent(Loaded(fetched, term), es);
  }
}
