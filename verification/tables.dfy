/** The consistency rules of the four stored tables (users, platforms, watch
    lists, reviews) and the row sets the cascading deletes leave behind, with
    the proofs that every change the handlers make keeps the rules. */
module Tables {
  import opened Models
  import opened Rating
  import opened Queries

  /** Referential integrity and field bounds of the four tables, the two
      uniqueness rules (usernames; one review per author and watch list), the
      shape of every watch list's aggregate, and the bound its count keeps
      over the reviews still stored: the count includes every review ever
      created for the watch list, and no delete lowers it. */
  ghost predicate Consistent(
    users: map<UserId, User>,
    platforms: map<PlatformId, StreamPlatform>,
    watchlists: map<WatchListId, WatchList>,
    reviews: map<ReviewId, Review>)
  {
    && UniqueUsernames(users)
    && (forall p :: p in platforms ==> PlatformFieldsValid(platforms[p]))
    && (forall w :: w in watchlists ==>
          WatchListFieldsValid(watchlists[w]) && AggregateSound(watchlists[w]) && watchlists[w].platform in platforms)
    && (forall k :: k in reviews ==>
          ReviewFieldsValid(reviews[k]) && reviews[k].watchlist in watchlists && reviews[k].author in users)
    && UniqueAuthorship(reviews)
    && CountsCoverReviews(watchlists, reviews)
  }

  /** No watch list has more stored reviews than its count of ratings. */
  ghost predicate CountsCoverReviews(watchlists: map<WatchListId, WatchList>, reviews: map<ReviewId, Review>) {
    forall w {:trigger watchlists[w]} :: w in watchlists ==> |ReviewsOfWatchList(reviews, w)| <= watchlists[w].numberRating
  }

  /** The watch lists left once platform `pid` is deleted: those on another
      platform, unchanged. */
  function WatchListsOffPlatform(watchlists: map<WatchListId, WatchList>, pid: PlatformId): (ws: map<WatchListId, WatchList>)
    ensures forall w :: w in ws <==> w in watchlists && watchlists[w].platform != pid
    ensures forall w :: w in ws ==> ws[w] == watchlists[w]
  {
    map w | w in watchlists && watchlists[w].platform != pid :: watchlists[w]
  }

  /** The reviews left once every watch list outside `kept` is deleted: those
      of a kept watch list, unchanged. */
  function ReviewsWithin(reviews: map<ReviewId, Review>, kept: set<WatchListId>): (rs: map<ReviewId, Review>)
    ensures forall k :: k in rs <==> k in reviews && reviews[k].watchlist in kept
    ensures forall k :: k in rs ==> rs[k] == reviews[k]
  {
    map k | k in reviews && reviews[k].watchlist in kept :: reviews[k]
  }

  /** The reviews left once user `uid` is deleted: those by someone else,
      unchanged. */
  function ReviewsNotBy(reviews: map<ReviewId, Review>, uid: UserId): (rs: map<ReviewId, Review>)
    ensures forall k :: k in rs <==> k in reviews && reviews[k].author != uid
    ensures forall k :: k in rs ==> rs[k] == reviews[k]
  {
    map k | k in reviews && reviews[k].author != uid :: reviews[k]
  }

  /** Consistency survives removing rows and rewriting review fields validly,
      as long as no review moves to another author or watch list, no watch
      list changes, and what is left refers only to rows that are left. */
  lemma RemovalKeepsConsistent(
    users: map<UserId, User>,
    platforms: map<PlatformId, StreamPlatform>,
    watchlists: map<WatchListId, WatchList>,
    reviews: map<ReviewId, Review>,
    users': map<UserId, User>,
    platforms': map<PlatformId, StreamPlatform>,
    watchlists': map<WatchListId, WatchList>,
    reviews': map<ReviewId, Review>)
    requires Consistent(users, platforms, watchlists, reviews)
    requires forall u :: u in users' ==> u in users && users'[u] == users[u]
    requires forall p :: p in platforms' ==> p in platforms && platforms'[p] == platforms[p]
    requires forall w :: w in watchlists' ==> w in watchlists && watchlists'[w] == watchlists[w]
    requires forall w :: w in watchlists' ==> watchlists'[w].platform in platforms'
    requires forall k :: k in reviews' ==>
               (k in reviews && reviews'[k].watchlist == reviews[k].watchlist
                && reviews'[k].author == reviews[k].author && ReviewFieldsValid(reviews'[k]))
    requires forall k :: k in reviews' ==> reviews'[k].watchlist in watchlists' && reviews'[k].author in users'
    ensures Consistent(users', platforms', watchlists', reviews')
  {
    forall w | w in watchlists' ensures |ReviewsOfWatchList(reviews', w)| <= watchlists'[w].numberRating {
      ListShrinksWhenReviewsKeepTheirWatchList(reviews, reviews', w);
      assert watchlists'[w] == watchlists[w];
    }
    forall k1, k2 | k1 in reviews' && k2 in reviews' && reviews'[k1].author == reviews'[k2].author
                    && reviews'[k1].watchlist == reviews'[k2].watchlist
      ensures k1 == k2
    {
      assert reviews[k1].author == reviews[k2].author && reviews[k1].watchlist == reviews[k2].watchlist;
    }
    forall u1, u2 | u1 in users' && u2 in users' && users'[u1].username == users'[u2].username
      ensures u1 == u2
    {
      assert users[u1].username == users[u2].username;
    }
  }

  /** Deleting a platform together with its watch lists and their reviews
      keeps the tables consistent. */
  lemma DeletePlatformKeepsConsistent(
    users: map<UserId, User>,
    platforms: map<PlatformId, StreamPlatform>,
    watchlists: map<WatchListId, WatchList>,
    reviews: map<ReviewId, Review>,
    pid: PlatformId)
    requires Consistent(users, platforms, watchlists, reviews)
    ensures Consistent(users, platforms - {pid}, WatchListsOffPlatform(watchlists, pid),
                       ReviewsWithin(reviews, WatchListsOffPlatform(watchlists, pid).Keys))
  {
    var ws := WatchListsOffPlatform(watchlists, pid);
    RemovalKeepsConsistent(users, platforms, watchlists, reviews, users, platforms - {pid}, ws, ReviewsWithin(reviews, ws.Keys));
  }

  /** Deleting a watch list together with its reviews keeps the tables
      consistent. */
  lemma DeleteWatchListKeepsConsistent(
    users: map<UserId, User>,
    platforms: map<PlatformId, StreamPlatform>,
    watchlists: map<WatchListId, WatchList>,
    reviews: map<ReviewId, Review>,
    wid: WatchListId)
    requires Consistent(users, platforms, watchlists, reviews)
    ensures Consistent(users, platforms, watchlists - {wid}, ReviewsWithin(reviews, watchlists.Keys - {wid}))
  {
    RemovalKeepsConsistent(users, platforms, watchlists, reviews,
                           users, platforms, watchlists - {wid}, ReviewsWithin(reviews, watchlists.Keys - {wid}));
  }

  /** Deleting a user together with the reviews they wrote keeps the tables
      consistent. */
  lemma DeleteUserKeepsConsistent(
    users: map<UserId, User>,
    platforms: map<PlatformId, StreamPlatform>,
    watchlists: map<WatchListId, WatchList>,
    reviews: map<ReviewId, Review>,
    uid: UserId)
    requires Consistent(users, platforms, watchlists, reviews)
    ensures Consistent(users - {uid}, platforms, watchlists, ReviewsNotBy(reviews, uid))
  {
    RemovalKeepsConsistent(users, platforms, watchlists, reviews,
                           users - {uid}, platforms, watchlists, ReviewsNotBy(reviews, uid));
  }

  /** Deleting one review keeps the tables consistent and leaves every
      aggregate as it was. */
  lemma DeleteReviewKeepsConsistent(
    users: map<UserId, User>,
    platforms: map<PlatformId, StreamPlatform>,
    watchlists: map<WatchListId, WatchList>,
    reviews: map<ReviewId, Review>,
    k: ReviewId)
    requires Consistent(users, platforms, watchlists, reviews)
    ensures Consistent(users, platforms, watchlists, reviews - {k})
  {
    RemovalKeepsConsistent(users, platforms, watchlists, reviews, users, platforms, watchlists, reviews - {k});
  }

  /** Rewriting the rating, description and active flag of a stored review
      with values that pass the field validators keeps the tables consistent
      and leaves every aggregate as it was. */
  lemma UpdateReviewKeepsConsistent(
    users: map<UserId, User>,
    platforms: map<PlatformId, StreamPlatform>,
    watchlists: map<WatchListId, WatchList>,
    reviews: map<ReviewId, Review>,
    k: ReviewId, rating: int, description: Option<string>, active: bool)
    requires Consistent(users, platforms, watchlists, reviews)
    requires k in reviews && RatingValid(rating) && DescriptionFits(description)
    ensures Consistent(users, platforms, watchlists,
                       reviews[k := reviews[k].(rating := rating, description := description, active := active)])
  {
    var r := reviews[k].(rating := rating, description := description, active := active);
    RemovalKeepsConsistent(users, platforms, watchlists, reviews, users, platforms, watchlists, reviews[k := r]);
  }

  /** Inserting a valid review under a new id keeps the tables consistent
      when it refers to stored rows, reviews a pair nobody had reviewed, and
      its watch list already counts more ratings than it has stored reviews. */
  lemma InsertReviewKeepsConsistent(
    users: map<UserId, User>,
    platforms: map<PlatformId, StreamPlatform>,
    watchlists: map<WatchListId, WatchList>,
    reviews: map<ReviewId, Review>,
    id: ReviewId, review: Review)
    requires Consistent(users, platforms, watchlists, reviews)
    requires id !in reviews && ReviewFieldsValid(review)
    requires review.watchlist in watchlists && review.author in users
    requires !HasReviewed(reviews, review.author, review.watchlist)
    requires |ReviewsOfWatchList(reviews, review.watchlist)| < watchlists[review.watchlist].numberRating
    ensures Consistent(users, platforms, watchlists, reviews[id := review])
  {
    InsertKeepsUniqueAuthorship(reviews, id, review);
    InsertKeepsCounts(watchlists, reviews, id, review);
  }

  /** Inserting a review under a new id keeps every count at or above its
      list's size when the review's own watch list had a count to spare. */
  lemma InsertKeepsCounts(
    watchlists: map<WatchListId, WatchList>,
    reviews: map<ReviewId, Review>,
    id: ReviewId, review: Review)
    requires CountsCoverReviews(watchlists, reviews)
    requires id !in reviews && review.watchlist in watchlists
    requires |ReviewsOfWatchList(reviews, review.watchlist)| < watchlists[review.watchlist].numberRating
    ensures CountsCoverReviews(watchlists, reviews[id := review])
  {
    forall w | w in watchlists
      ensures |ReviewsOfWatchList(reviews[id := review], w)| <= watchlists[w].numberRating
    {
      ListsAfterInsert(reviews, id, review, w, review.author);
      assert |ReviewsOfWatchList(reviews, w) + {id}| <= |ReviewsOfWatchList(reviews, w)| + 1;
    }
  }

  /** A creation that passed its checks keeps the tables consistent: the
      review's watch list counts one more valid rating, and the new review
      refers to stored rows and reviews a pair nobody had reviewed. */
  lemma CreateKeepsConsistent(
    users: map<UserId, User>,
    platforms: map<PlatformId, StreamPlatform>,
    watchlists: map<WatchListId, WatchList>,
    reviews: map<ReviewId, Review>,
    id: ReviewId, review: Review)
    requires Consistent(users, platforms, watchlists, reviews)
    requires id !in reviews && ReviewFieldsValid(review)
    requires review.watchlist in watchlists && review.author in users
    requires !HasReviewed(reviews, review.author, review.watchlist)
    ensures Consistent(users, platforms,
                       watchlists[review.watchlist := Record(watchlists[review.watchlist], review.rating)],
                       reviews[id := review])
  {
    var wid := review.watchlist;
    RecordWithoutInsertOvercounts(watchlists, reviews, wid, review.author, review.rating);
    RecordWithoutInsertKeepsConsistent(users, platforms, watchlists, reviews, wid, review.rating);
    InsertReviewKeepsConsistent(users, platforms, watchlists[wid := Record(watchlists[wid], review.rating)], reviews, id, review);
  }

  /** Adding a watch list with the declared defaults under a stored platform
      keeps the tables consistent; no review refers to it yet. */
  lemma AddWatchListKeepsConsistent(
    users: map<UserId, User>,
    platforms: map<PlatformId, StreamPlatform>,
    watchlists: map<WatchListId, WatchList>,
    reviews: map<ReviewId, Review>,
    id: WatchListId, title: string, storyline: string, platform: PlatformId)
    requires Consistent(users, platforms, watchlists, reviews)
    requires id !in watchlists && platform in platforms && |title| <= WatchListTitleMax
    ensures Consistent(users, platforms, watchlists[id := NewWatchList(title, storyline, platform)], reviews)
  {
    var watchlists' := watchlists[id := NewWatchList(title, storyline, platform)];
    forall w | w in watchlists'
      ensures |ReviewsOfWatchList(reviews, w)| <= watchlists'[w].numberRating
    {
      if w == id {
        assert ReviewsOfWatchList(reviews, w) == {};
      } else {
        assert watchlists'[w] == watchlists[w];
      }
    }
  }

  /** Counting a valid rating for a stored watch list without inserting any
      review keeps the tables consistent: no rule ties a count to the number
      of stored reviews from above. */
  lemma RecordWithoutInsertKeepsConsistent(
    users: map<UserId, User>,
    platforms: map<PlatformId, StreamPlatform>,
    watchlists: map<WatchListId, WatchList>,
    reviews: map<ReviewId, Review>,
    wid: WatchListId, rating: int)
    requires Consistent(users, platforms, watchlists, reviews)
    requires wid in watchlists && RatingValid(rating)
    ensures Consistent(users, platforms, watchlists[wid := Record(watchlists[wid], rating)], reviews)
  {
    RecordKeepsAggregateSound(watchlists[wid], rating);
    var watchlists' := watchlists[wid := Record(watchlists[wid], rating)];
    forall w | w in watchlists'
      ensures |ReviewsOfWatchList(reviews, w)| <= watchlists'[w].numberRating
    {
      if w != wid {
        assert watchlists'[w] == watchlists[w];
      }
    }
  }

  /** Counting a rating without storing its review leaves the watch list
      counting more ratings than it has stored reviews, and the author still
      has no review of it. */
  lemma RecordWithoutInsertOvercounts(
    watchlists: map<WatchListId, WatchList>,
    reviews: map<ReviewId, Review>,
    wid: WatchListId, author: UserId, rating: int)
    requires CountsCoverReviews(watchlists, reviews)
    requires wid in watchlists && !HasReviewed(reviews, author, wid)
    ensures |ReviewsOfWatchList(reviews, wid)| < Record(watchlists[wid], rating).numberRating
    ensures ReviewsOfWatchList(reviews, wid) * ReviewsByAuthor(reviews, author) == {}
  {
    assert |ReviewsOfWatchList(reviews, wid)| <= watchlists[wid].numberRating;
    HasReviewedMeansListsMeet(reviews, author, wid);
  }
}
