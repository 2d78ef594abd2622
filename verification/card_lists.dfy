/** The reconciliation the card pages apply to their local list once the
    server has answered: the title search filter, replace-by-id after a like
    or an update, remove-by-id after a delete, and the "liked by me" test. */
module CardLists {
  import opened Entities
  import opened Seqs
  import opened Text
  import opened AuthContext

  /** What a card page shows in its main area. */
  datatype PageView = PleaseLogin | Grid(cards: seq<Card>)

  /** `card.title.toLowerCase().includes(searchTerm.toLowerCase())`. */
  predicate MatchesSearch(c: Card, term: string)
  {
    Includes(Lower(c.title), Lower(term))
  }

  /** The list a page keeps from a fetched list for the current search term. */
  function SearchFilter(cards: seq<Card>, term: string): (r: seq<Card>)
    ensures forall c :: c in r ==> c in cards && MatchesSearch(c, term)
    ensures forall c :: c in cards && MatchesSearch(c, term) ==> c in r
    ensures forall c :: multiset(r)[c] == if MatchesSearch(c, term) then multiset(cards)[c] else 0
    ensures IsSubsequence(r, cards)
  {
    FilterCount(cards, c => MatchesSearch(c, term));
    FilterSubsequence(cards, c => MatchesSearch(c, term));
    Filter(cards, c => MatchesSearch(c, term))
  }

  /** A card matches exactly when its lowered title contains the lowered
      term at some position. */
  lemma MatchesSearchMeaning(c: Card, term: string)
    ensures MatchesSearch(c, term) <==> exists i: int :: OccursAt(Lower(c.title), Lower(term), i)
  {
    var title, t := Lower(c.title), Lower(term);
    IncludesIffOccurs(title, t);
    assert MatchesSearch(c, term) == Includes(title, t);
    assert (exists i :: OccursAt(title, t, i)) <==> Includes(title, t);
    assert title == Lower(c.title);
    assert (exists i :: OccursAt(Lower(c.title), Lower(term), i)) <==> Includes(title, t);
  }

  /** An empty search term keeps every card. */
  lemma SearchEmptyKeepsAll(cards: seq<Card>)
    ensures SearchFilter(cards, "") == cards
  {
    forall i | 0 <= i < |cards|
      ensures MatchesSearch(cards[i], "")
    {
      IncludesEmpty(Lower(cards[i].title));
    }
    FilterKeepsAll(cards, c => MatchesSearch(c, ""));
  }

  /** The search does not distinguish a term from its lower-case form. */
  lemma SearchIgnoresTermCase(cards: seq<Card>, term: string)
    ensures SearchFilter(cards, Lower(term)) == SearchFilter(cards, term)
  {
    LowerIdempotent(term);
    FilterAgreeing(cards, c => MatchesSearch(c, Lower(term)), c => MatchesSearch(c, term));
  }

  /** The id a handler reads from `currentCard`; `{}` and `null` have none. */
  function CurrentId(current: Option<Card>): (id: Option<string>)
    ensures id.Some? <==> current.Some?
    ensures current.Some? ==> id.value == current.value.id
  {
    match current
    case None => None
    case Some(c) => Some(c.id)
  }

  /** `cards.map(card => card._id === id ? reply : card)`. */
  function ReplaceById(cards: seq<Card>, id: Option<string>, reply: Card): (r: seq<Card>)
    ensures |r| == |cards|
    ensures forall i :: 0 <= i < |cards| && Some(cards[i].id) == id ==> r[i] == reply
    ensures forall i :: 0 <= i < |cards| && Some(cards[i].id) != id ==> r[i] == cards[i]
  {
    ReplaceWhere(cards, (c: Card) => Some(c.id) == id, _ => reply)
  }

  /** The like handler: the card the server returns replaces every card with
      the same id, so the list keeps its length and its sequence of ids. */
  function ApplyLikeReply(cards: seq<Card>, updated: Card): (r: seq<Card>)
    ensures |r| == |cards|
    ensures forall i :: 0 <= i < |cards| ==> r[i].id == cards[i].id
    ensures forall i :: 0 <= i < |cards| && cards[i].id == updated.id ==> r[i] == updated
    ensures forall i :: 0 <= i < |cards| && cards[i].id != updated.id ==> r[i] == cards[i]
  {
    ReplaceById(cards, Some(updated.id), updated)
  }

  /** `cards.filter(card => card._id !== id)`: no card with that id is left,
      every other card stays with its multiplicity and in order. */
  function RemoveById(cards: seq<Card>, id: Option<string>): (r: seq<Card>)
    ensures forall c :: c in r ==> Some(c.id) != id
    ensures forall c :: c in cards && Some(c.id) != id ==> c in r
    ensures forall c: Card :: Some(c.id) != id ==> multiset(r)[c] == multiset(cards)[c]
    ensures forall c :: c in r ==> c in cards
    ensures IsSubsequence(r, cards)
  {
    FilterCount(cards, (c: Card) => Some(c.id) != id);
    FilterSubsequence(cards, (c: Card) => Some(c.id) != id);
    Filter(cards, (c: Card) => Some(c.id) != id)
  }

  /** Removing by an id no card carries changes nothing. */
  lemma RemoveAbsentId(cards: seq<Card>, id: Option<string>)
    requires forall i :: 0 <= i < |cards| ==> Some(cards[i].id) != id
    ensures RemoveById(cards, id) == cards
  {
    FilterKeepsAll(cards, (c: Card) => Some(c.id) != id);
  }

  /** `isAuthenticated && card.likes.includes(userData._id)`; an undefined id
      is in no list of likes. */
  predicate LikedBy(c: Card, s: Session)
  {
    s.isAuthenticated && s.userData.id.Some? && s.userData.id.value in c.likes
  }
}
