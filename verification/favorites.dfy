/** The favourites page: every card matching the search, rendered only when
    the session's user has liked it. */
module Favorites {
  import opened Entities
  import opened Seqs
  import opened AuthContext
  import opened CardLists

  /** What the page renders from its list: the message for an anonymous
      session, otherwise the liked cards (the others render nothing). */
  function View(cards: seq<Card>, s: Session): (v: PageView)
    ensures v.PleaseLogin? <==> !s.isAuthenticated
    ensures v.Grid? ==> forall c :: c in v.cards <==> c in cards && LikedBy(c, s)
    ensures v.Grid? ==> forall c :: multiset(v.cards)[c] == if LikedBy(c, s) then multiset(cards)[c] else 0
    ensures v.Grid? ==> IsSubsequence(v.cards, cards)
  {
    if !s.isAuthenticated then PleaseLogin
    else
      FilterCount(cards, c => LikedBy(c, s));
      FilterSubsequence(cards, c => LikedBy(c, s));
      Grid(Filter(cards, c => LikedBy(c, s)))
  }

  /** The like handler, the same replace-by-returned-id as elsewhere. */
  function OnLikeReply(cards: seq<Card>, reply: Option<Card>): (r: seq<Card>)
    ensures |r| == |cards|
    ensures reply.None? ==> r == cards
    ensures reply.Some? ==> forall i :: 0 <= i < |cards| ==>
      r[i] == (if cards[i].id == reply.value.id then reply.value else cards[i])
  {
    match reply
    case None => cards
    case Some(updated) => ApplyLikeReply(cards, updated)
  }

  /** The displayed cards are the fetched cards that match the search term
      and are liked by the user, in fetched order. */
  lemma DisplayedAfterLoad(fetched: seq<Card>, term: string, s: Session)
    requires s.isAuthenticated
    ensures View(SearchFilter(fetched, term), s).cards
         == Filter(fetched, c => MatchesSearch(c, term) && LikedBy(c, s))
  {
    FilterFilter(fetched, c => MatchesSearch(c, term), c => LikedBy(c, s),
      c => MatchesSearch(c, term) && LikedBy(c, s));
  }

  /** Un-liking a card on this page makes it disappear: once the reply no
      longer lists the user, no displayed card has its id. */
  lemma UnlikedCardDisappears(cards: seq<Card>, s: Session, reply: Card)
    requires s.isAuthenticated && s.userData.id.Some?
    requires s.userData.id.value !in reply.likes
    ensures forall c :: c in View(OnLikeReply(cards, Some(reply)), s).cards ==> c.id != reply.id
  {
    var after := OnLikeReply(cards, Some(reply));
    forall c | c in View(after, s).cards
      ensures c.id != reply.id
    {
      var i :| 0 <= i < |after| && after[i] == c;
      assert !LikedBy(reply, s);
      assert after[i] == (if cards[i].id == reply.id then reply else cards[i]);
    }
  }
}
