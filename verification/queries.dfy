/** The review queries of the API: the list of one watch list's reviews, the
    list of reviews whose author has a given username, and the "already
    reviewed" check the creation rule runs before it writes anything. */
module Queries {
  import opened Models

  /** The reviews of one watch list (the per-watch-list review list). */
  function ReviewsOfWatchList(reviews: map<ReviewId, Review>, wid: WatchListId): (ids: set<ReviewId>)
    ensures ids <= reviews.Keys
    ensures forall k :: k in ids <==> k in reviews && reviews[k].watchlist == wid
  {
    set k | k in reviews && reviews[k].watchlist == wid
  }

  /** The reviews written by one user. */
  function ReviewsByAuthor(reviews: map<ReviewId, Review>, author: UserId): set<ReviewId> {
    set k | k in reviews && reviews[k].author == author
  }

  /** The users whose username is `name`. */
  function UsersNamed(users: map<UserId, User>, name: string): set<UserId> {
    set u | u in users && users[u].username == name
  }

  /** The username filter: the query parameter may be absent, and a filter on
      an absent username matches no row, since no stored username is null. */
  function ReviewsByUsername(users: map<UserId, User>, reviews: map<ReviewId, Review>, username: Option<string>): (ids: set<ReviewId>)
    ensures ids <= reviews.Keys
    ensures username.None? ==> ids == {}
    ensures forall k :: k in ids <==> k in reviews && username.Some? && reviews[k].author in users
                                      && users[reviews[k].author].username == username.value
  {
    if username.None? then {}
    else
      var authors := UsersNamed(users, username.value);
      set k | k in reviews && reviews[k].author in authors
  }

  /** The "already reviewed" check: does some review by `author` for watch
      list `wid` exist? */
  predicate HasReviewed(reviews: map<ReviewId, Review>, author: UserId, wid: WatchListId) {
    exists k :: k in reviews && reviews[k].author == author && reviews[k].watchlist == wid
  }

  /** At most one review per (author, watch list) pair. */
  predicate UniqueAuthorship(reviews: map<ReviewId, Review>) {
    forall k1, k2 ::
      (k1 in reviews && k2 in reviews && reviews[k1].author == reviews[k2].author
       && reviews[k1].watchlist == reviews[k2].watchlist) ==> k1 == k2
  }

  predicate UniqueUsernames(users: map<UserId, User>) {
    forall u1, u2 :: u1 in users && u2 in users && users[u1].username == users[u2].username ==> u1 == u2
  }

  /** The "already reviewed" check asks exactly whether the two lists meet. */
  lemma HasReviewedMeansListsMeet(reviews: map<ReviewId, Review>, author: UserId, wid: WatchListId)
    ensures HasReviewed(reviews, author, wid) <==> ReviewsOfWatchList(reviews, wid) * ReviewsByAuthor(reviews, author) != {}
  {
    if HasReviewed(reviews, author, wid) {
      var k :| k in reviews && reviews[k].author == author && reviews[k].watchlist == wid;
      assert k in ReviewsOfWatchList(reviews, wid) * ReviewsByAuthor(reviews, author);
    }
  }

  /** Under the uniqueness rule, a watch list's review list holds at most one
      review by any one author. */
  lemma AtMostOneReviewPerAuthor(reviews: map<ReviewId, Review>, wid: WatchListId, author: UserId)
    requires UniqueAuthorship(reviews)
    ensures |ReviewsOfWatchList(reviews, wid) * ReviewsByAuthor(reviews, author)| <= 1
  {
    var both := ReviewsOfWatchList(reviews, wid) * ReviewsByAuthor(reviews, author);
    if both != {} {
      var k :| k in both;
      forall k' | k' in both ensures k' == k {
        assert reviews[k'].author == reviews[k].author && reviews[k'].watchlist == reviews[k].watchlist;
      }
      assert both == {k};
    }
  }

  /** With unique usernames and every author stored, filtering by a user's
      username gives exactly that user's reviews, and filtering by a username
      nobody has gives nothing. */
  lemma UsernameFilterIsAuthorFilter(users: map<UserId, User>, reviews: map<ReviewId, Review>, name: string)
    requires UniqueUsernames(users)
    requires forall k :: k in reviews ==> reviews[k].author in users
    ensures forall u :: u in users && users[u].username == name ==>
              ReviewsByUsername(users, reviews, Some(name)) == ReviewsByAuthor(reviews, u)
    ensures UsersNamed(users, name) == {} ==> ReviewsByUsername(users, reviews, Some(name)) == {}
  {
    forall u | u in users && users[u].username == name
      ensures ReviewsByUsername(users, reviews, Some(name)) == ReviewsByAuthor(reviews, u)
    {
      forall k | k in ReviewsByUsername(users, reviews, Some(name))
        ensures k in ReviewsByAuthor(reviews, u)
      {
        assert users[reviews[k].author].username == users[u].username;
      }
    }
  }

  /** Removing reviews, or rewriting them without moving any to another
      watch list, can only shrink a watch list's review list. */
  lemma ListShrinksWhenReviewsKeepTheirWatchList(before: map<ReviewId, Review>, after: map<ReviewId, Review>, wid: WatchListId)
    requires forall k :: k in after ==> k in before && after[k].watchlist == before[k].watchlist
    ensures ReviewsOfWatchList(after, wid) <= ReviewsOfWatchList(before, wid)
    ensures |ReviewsOfWatchList(after, wid)| <= |ReviewsOfWatchList(before, wid)|
  {
    assert ReviewsOfWatchList(after, wid) <= ReviewsOfWatchList(before, wid);
    SubsetCardinality(ReviewsOfWatchList(after, wid), ReviewsOfWatchList(before, wid));
  }

  lemma SubsetCardinality<T>(a: set<T>, b: set<T>)
    requires a <= b
    ensures |a| <= |b|
  {
    assert b == a + (b - a);
  }

  /** Inserting a review under a new id adds that id to its watch list's
      review list and to its author's, and changes no other list. */
  lemma ListsAfterInsert(reviews: map<ReviewId, Review>, k: ReviewId, r: Review, wid: WatchListId, author: UserId)
    requires k !in reviews
    ensures ReviewsOfWatchList(reviews[k := r], wid)
         == ReviewsOfWatchList(reviews, wid) + (if r.watchlist == wid then {k} else {})
    ensures ReviewsByAuthor(reviews[k := r], author)
         == ReviewsByAuthor(reviews, author) + (if r.author == author then {k} else {})
  {
  }

  /** Adding an account under a new id with a username nobody has keeps
      usernames unique. */
  lemma InsertKeepsUniqueUsernames(users: map<UserId, User>, id: UserId, username: string)
    requires UniqueUsernames(users) && id !in users
    requires UsersNamed(users, username) == {}
    ensures UniqueUsernames(users[id := User(username)])
  {
    assert forall u :: u in users ==> users[u].username != username by {
      forall u | u in users ensures users[u].username != username {
        assert u in UsersNamed(users, username) <==> users[u].username == username;
      }
    }
  }

  /** Inserting a review for a pair nobody has reviewed makes it the one
      review of that pair. */
  lemma InsertedIsOnlyReviewOfPair(reviews: map<ReviewId, Review>, k: ReviewId, r: Review)
    requires k !in reviews
    requires !HasReviewed(reviews, r.author, r.watchlist)
    ensures ReviewsOfWatchList(reviews[k := r], r.watchlist) * ReviewsByAuthor(reviews[k := r], r.author) == {k}
  {
    HasReviewedMeansListsMeet(reviews, r.author, r.watchlist);
    ListsAfterInsert(reviews, k, r, r.watchlist, r.author);
  }

  /** Inserting a review for a pair nobody has reviewed keeps the uniqueness
      rule. */
  lemma InsertKeepsUniqueAuthorship(reviews: map<ReviewId, Review>, k: ReviewId, r: Review)
    requires UniqueAuthorship(reviews) && k !in reviews
    requires !HasReviewed(reviews, r.author, r.watchlist)
    ensures UniqueAuthorship(reviews[k := r])
  {
    var m := reviews[k := r];
    assert forall j :: j in reviews ==> !(reviews[j].author == r.author && reviews[j].watchlist == r.watchlist);
    forall k1, k2 | k1 in m && k2 in m && m[k1].author == m[k2].author && m[k1].watchlist == m[k2].watchlist
      ensures k1 == k2
    {
      if k1 != k && k2 != k {
        assert reviews[k1].author == reviews[k2].author && reviews[k1].watchlist == reviews[k2].watchlist;
      }
    }
  }
}
