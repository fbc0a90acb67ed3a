/** The request handlers that change or look up stored rows, over one store
    holding every table: the review-creation rule with its aggregate update,
    the review detail update and delete, the platform and watch-list detail
    lookups and deletes with their cascades, and the user cascade. */
module Views {
  import opened Models
  import opened Rating
  import opened Queries
  import opened Tables

  /** Why a request failed. */
  datatype ApiError =
    | NotFound                        // a detail lookup found no row: 404
    | Invalid(errors: seq<FieldError>)  // the submitted fields failed validation: 400
    | AlreadyReviewed                 // the author already reviewed this watch list: 400
    | WatchListLookupFailed           // the creation rule's lookup found no watch list
    | SaveFailed                      // the review insert raised after the watch list was saved

  datatype Result<T> = Ok(value: T) | Err(error: ApiError)

  datatype Outcome = Done | Failed(error: ApiError)

  class Store {
    var users: map<UserId, User>
    var platforms: map<PlatformId, StreamPlatform>
    var watchlists: map<WatchListId, WatchList>
    var reviews: map<ReviewId, Review>
    // The next primary key each table hands out (auto-increment).
    var nextUserId: nat
    var nextPlatformId: nat
    var nextWatchListId: nat
    var nextReviewId: nat

    ghost predicate Valid()
      reads this
    {
      && Consistent(users, platforms, watchlists, reviews)
      && (forall u :: u in users ==> u < nextUserId)
      && (forall p :: p in platforms ==> p < nextPlatformId)
      && (forall w :: w in watchlists ==> w < nextWatchListId)
      && (forall k :: k in reviews ==> k < nextReviewId)
    }

    constructor ()
      ensures Valid()
      ensures users == map[] && platforms == map[] && watchlists == map[] && reviews == map[]
    {
      users, platforms, watchlists, reviews := map[], map[], map[], map[];
      nextUserId, nextPlatformId, nextWatchListId, nextReviewId := 0, 0, 0, 0;
    }

    /** Registers an account; the username must be non-empty and not taken. */
    method AddUser(username: string) returns (id: UserId)
      requires Valid()
      requires username != [] && UsersNamed(users, username) == {}
      modifies this
      ensures Valid()
      ensures id !in old(users) && users == old(users)[id := User(username)]
      ensures platforms == old(platforms) && watchlists == old(watchlists) && reviews == old(reviews)
    {
      id := nextUserId;
      InsertKeepsUniqueUsernames(users, id, username);
      nextUserId := nextUserId + 1;
      users := users[id := User(username)];
    }

    /** Inserts a platform whose fields are within their column bounds. */
    method AddPlatform(p: StreamPlatform) returns (id: PlatformId)
      requires Valid()
      requires PlatformFieldsValid(p)
      modifies this
      ensures Valid()
      ensures id !in old(platforms) && platforms == old(platforms)[id := p]
      ensures users == old(users) && watchlists == old(watchlists) && reviews == old(reviews)
    {
      id := nextPlatformId;
      nextPlatformId := nextPlatformId + 1;
      platforms := platforms[id := p];
    }

    /** Inserts a watch list under an existing platform, with the declared
        defaults: active, no ratings counted, average 0.0. */
    method AddWatchList(title: string, storyline: string, platform: PlatformId) returns (id: WatchListId)
      requires Valid()
      requires platform in platforms && |title| <= WatchListTitleMax
      modifies this
      ensures Valid()
      ensures id !in old(watchlists) && watchlists == old(watchlists)[id := NewWatchList(title, storyline, platform)]
      ensures users == old(users) && platforms == old(platforms) && reviews == old(reviews)
    {
      id := nextWatchListId;
      AddWatchListKeepsConsistent(users, platforms, watchlists, reviews, id, title, storyline, platform);
      nextWatchListId := nextWatchListId + 1;
      watchlists := watchlists[id := NewWatchList(title, storyline, platform)];
    }

    /** The platform detail lookup: the row, or NotFound. */
    method GetPlatform(id: PlatformId) returns (r: Result<StreamPlatform>)
      ensures r.Ok? <==> id in platforms
      ensures r.Ok? ==> r.value == platforms[id]
      ensures r.Err? ==> r.error == NotFound
    {
      if id !in platforms {
        return Err(NotFound);
      }
      r := Ok(platforms[id]);
    }

    /** The watch-list detail lookup: the row, or NotFound. */
    method GetWatchList(id: WatchListId) returns (r: Result<WatchList>)
      ensures r.Ok? <==> id in watchlists
      ensures r.Ok? ==> r.value == watchlists[id]
      ensures r.Err? ==> r.error == NotFound
    {
      if id !in watchlists {
        return Err(NotFound);
      }
      r := Ok(watchlists[id]);
    }

    /** The review detail lookup: the row, or NotFound. */
    method GetReview(id: ReviewId) returns (r: Result<Review>)
      ensures r.Ok? <==> id in reviews
      ensures r.Ok? ==> r.value == reviews[id]
      ensures r.Err? ==> r.error == NotFound
    {
      if id !in reviews {
        return Err(NotFound);
      }
      r := Ok(reviews[id]);
    }

    /** The review-creation rule, with its last step storing the review. The
        submitted fields are validated first; then the watch list is looked
        up, a second review by the same author is refused, and only then is
        the watch list saved with its updated aggregate and the review
        inserted (description trimmed, `active` defaulting to true). Every
        failure leaves the store as it was. */
    method CreateReview(wid: WatchListId, author: UserId, rating: int, description: Option<string>, active: Option<bool>)
      returns (r: Result<ReviewId>)
      requires Valid()
      requires author in users
      modifies this
      ensures Valid()
      ensures users == old(users) && platforms == old(platforms)
      ensures r.Err? ==> watchlists == old(watchlists) && reviews == old(reviews)
      ensures CheckReviewFields(rating, description) != [] ==>
                r == Err(Invalid(CheckReviewFields(rating, description)))
      ensures CheckReviewFields(rating, description) == [] && wid !in old(watchlists) ==>
                r == Err(WatchListLookupFailed)
      ensures CheckReviewFields(rating, description) == [] && wid in old(watchlists) && HasReviewed(old(reviews), author, wid) ==>
                r == Err(AlreadyReviewed)
      ensures r.Ok? <==> CheckReviewFields(rating, description) == [] && wid in old(watchlists)
                         && !HasReviewed(old(reviews), author, wid)
      ensures r.Ok? ==> r.value !in old(reviews)
                        && reviews == old(reviews)[r.value := NewReview(author, rating, description, active, wid)]
      ensures r.Ok? ==> watchlists == old(watchlists)[wid := Record(old(watchlists)[wid], rating)]
      ensures r.Ok? ==> watchlists[wid].numberRating == old(watchlists)[wid].numberRating + 1
      ensures r.Ok? && old(watchlists)[wid].numberRating == 0 ==> watchlists[wid].avgReview == rating as real
      ensures r.Ok? && old(watchlists)[wid].numberRating > 0 ==>
                watchlists[wid].avgReview == (old(watchlists)[wid].avgReview + rating as real) / 2.0
    {
      var errors := CheckReviewFields(rating, description);
      if errors != [] {
        return Err(Invalid(errors));
      }
      if wid !in watchlists {
        return Err(WatchListLookupFailed);
      }
      var watchlist := watchlists[wid];
      if HasReviewed(reviews, author, wid) {
        return Err(AlreadyReviewed);
      }
      if watchlist.numberRating == 0 {
        watchlist := watchlist.(avgReview := rating as real);
      } else {
        watchlist := watchlist.(avgReview := (watchlist.avgReview + rating as real) / 2.0);
      }
      watchlist := watchlist.(numberRating := watchlist.numberRating + 1);
      RecordWithoutInsertOvercounts(watchlists, reviews, wid, author, rating);
      SaveWatchList(wid, watchlist, rating);
      var id := InsertReview(NewReview(author, rating, description, active, wid));
      r := Ok(id);
    }

    /** The first write of a creation: the watch list with its updated
        aggregate. */
    method SaveWatchList(wid: WatchListId, watchlist: WatchList, rating: int)
      requires Valid()
      requires wid in watchlists && RatingValid(rating)
      requires watchlist == Record(watchlists[wid], rating)
      modifies this
      ensures Valid()
      ensures users == old(users) && platforms == old(platforms) && reviews == old(reviews)
      ensures watchlists == old(watchlists)[wid := watchlist]
    {
      RecordWithoutInsertKeepsConsistent(users, platforms, watchlists, reviews, wid, rating);
      watchlists := watchlists[wid := watchlist];
    }

    /** The second write of a creation: the new review under a fresh id. Its
        watch list must already have counted its rating. */
    method InsertReview(review: Review) returns (id: ReviewId)
      requires Valid()
      requires review.watchlist in watchlists && review.author in users && ReviewFieldsValid(review)
      requires !HasReviewed(reviews, review.author, review.watchlist)
      requires |ReviewsOfWatchList(reviews, review.watchlist)| < watchlists[review.watchlist].numberRating
      modifies this
      ensures Valid()
      ensures users == old(users) && platforms == old(platforms) && watchlists == old(watchlists)
      ensures id !in old(reviews) && reviews == old(reviews)[id := review]
    {
      id := nextReviewId;
      InsertReviewKeepsConsistent(users, platforms, watchlists, reviews, id, review);
      reviews, nextReviewId := reviews[id := review], nextReviewId + 1;
    }

    /** The review-creation rule as written. Its last step hands the
        serializer an extra `status` value that no review column takes, so
        the review insert fails after the watch list has been saved: a
        creation that passes every check counts and blends the rating, stores
        no review and fails. The author has then still not reviewed the watch
        list, so the same request is accepted again and counts again. */
    method CreateReviewAsWritten(wid: WatchListId, author: UserId, rating: int, description: Option<string>, active: Option<bool>)
      returns (r: Result<ReviewId>)
      requires Valid()
      requires author in users
      modifies this
      ensures Valid()
      ensures users == old(users) && platforms == old(platforms) && reviews == old(reviews)
      ensures r.Err?
      ensures CheckReviewFields(rating, description) != [] ==>
                r == Err(Invalid(CheckReviewFields(rating, description))) && watchlists == old(watchlists)
      ensures CheckReviewFields(rating, description) == [] && wid !in old(watchlists) ==>
                r == Err(WatchListLookupFailed) && watchlists == old(watchlists)
      ensures CheckReviewFields(rating, description) == [] && wid in old(watchlists) && HasReviewed(old(reviews), author, wid) ==>
                r == Err(AlreadyReviewed) && watchlists == old(watchlists)
      ensures r == Err(SaveFailed) <==> CheckReviewFields(rating, description) == [] && wid in old(watchlists)
                                        && !HasReviewed(old(reviews), author, wid)
      ensures r == Err(SaveFailed) ==> watchlists == old(watchlists)[wid := Record(old(watchlists)[wid], rating)]
                                       && !HasReviewed(reviews, author, wid)
    {
      var errors := CheckReviewFields(rating, description);
      if errors != [] {
        return Err(Invalid(errors));
      }
      if wid !in watchlists {
        return Err(WatchListLookupFailed);
      }
      var watchlist := watchlists[wid];
      if HasReviewed(reviews, author, wid) {
        return Err(AlreadyReviewed);
      }
      if watchlist.numberRating == 0 {
        watchlist := watchlist.(avgReview := rating as real);
      } else {
        watchlist := watchlist.(avgReview := (watchlist.avgReview + rating as real) / 2.0);
      }
      watchlist := watchlist.(numberRating := watchlist.numberRating + 1);
      SaveWatchList(wid, watchlist, rating);
      r := Err(SaveFailed);
    }

    /** The review detail update: replaces the rating, description (stored
        trimmed) and active flag of an existing review. The author and the watch list stay, and
        no watch list's aggregate is recomputed. */
    method UpdateReview(id: ReviewId, rating: int, description: Option<string>, active: bool)
      returns (r: Result<Review>)
      requires Valid()
      modifies this
      ensures Valid()
      ensures users == old(users) && platforms == old(platforms) && watchlists == old(watchlists)
      ensures id !in old(reviews) ==> r == Err(NotFound)
      ensures id in old(reviews) && CheckReviewFields(rating, description) != [] ==>
                r == Err(Invalid(CheckReviewFields(rating, description)))
      ensures r.Err? ==> reviews == old(reviews)
      ensures r.Ok? <==> id in old(reviews) && CheckReviewFields(rating, description) == []
      ensures r.Ok? ==> r.value == old(reviews)[id].(rating := rating, description := CleanDescription(description), active := active)
                        && reviews == old(reviews)[id := r.value]
    {
      if id !in reviews {
        return Err(NotFound);
      }
      var errors := CheckReviewFields(rating, description);
      if errors != [] {
        return Err(Invalid(errors));
      }
      UpdateReviewKeepsConsistent(users, platforms, watchlists, reviews, id, rating, CleanDescription(description), active);
      var review := reviews[id].(rating := rating, description := CleanDescription(description), active := active);
      reviews := reviews[id := review];
      r := Ok(review);
    }

    /** The review detail delete: removes one review. No watch list's
        aggregate is recomputed. */
    method DeleteReview(id: ReviewId) returns (o: Outcome)
      requires Valid()
      modifies this
      ensures Valid()
      ensures users == old(users) && platforms == old(platforms) && watchlists == old(watchlists)
      ensures o.Done? <==> id in old(reviews)
      ensures o.Failed? ==> o.error == NotFound && reviews == old(reviews)
      ensures o.Done? ==> reviews == old(reviews) - {id}
    {
      if id !in reviews {
        return Failed(NotFound);
      }
      DeleteReviewKeepsConsistent(users, platforms, watchlists, reviews, id);
      reviews := reviews - {id};
      o := Done;
    }

    /** The watch-list detail delete: removes the watch list and, by the
        cascade, every review of it. */
    method DeleteWatchList(id: WatchListId) returns (o: Outcome)
      requires Valid()
      modifies this
      ensures Valid()
      ensures users == old(users) && platforms == old(platforms)
      ensures o.Done? <==> id in old(watchlists)
      ensures o.Failed? ==> o.error == NotFound && watchlists == old(watchlists) && reviews == old(reviews)
      ensures o.Done? ==> watchlists == old(watchlists) - {id}
                          && reviews == ReviewsWithin(old(reviews), old(watchlists).Keys - {id})
      ensures ReviewsOfWatchList(reviews, id) == {}
    {
      if id !in watchlists {
        return Failed(NotFound);
      }
      DeleteWatchListKeepsConsistent(users, platforms, watchlists, reviews, id);
      watchlists, reviews := watchlists - {id}, ReviewsWithin(reviews, watchlists.Keys - {id});
      o := Done;
    }

    /** The platform detail delete: removes the platform, by the cascade
        every watch list on it, and by the next cascade every review of
        those watch lists. */
    method DeletePlatform(id: PlatformId) returns (o: Outcome)
      requires Valid()
      modifies this
      ensures Valid()
      ensures users == old(users)
      ensures o.Done? <==> id in old(platforms)
      ensures o.Failed? ==> o.error == NotFound && platforms == old(platforms)
                            && watchlists == old(watchlists) && reviews == old(reviews)
      ensures o.Done? ==> platforms == old(platforms) - {id}
                          && watchlists == WatchListsOffPlatform(old(watchlists), id)
                          && reviews == ReviewsWithin(old(reviews), watchlists.Keys)
      ensures forall w :: w in watchlists ==> watchlists[w].platform != id
    {
      if id !in platforms {
        return Failed(NotFound);
      }
      DeletePlatformKeepsConsistent(users, platforms, watchlists, reviews, id);
      var kept := WatchListsOffPlatform(watchlists, id);
      platforms, watchlists, reviews := platforms - {id}, kept, ReviewsWithin(reviews, kept.Keys);
      o := Done;
    }

    /** Deleting an account removes, by the cascade, every review it wrote. */
    method DeleteUser(id: UserId)
      requires Valid()
      requires id in users
      modifies this
      ensures Valid()
      ensures users == old(users) - {id}
      ensures platforms == old(platforms) && watchlists == old(watchlists)
      ensures reviews == ReviewsNotBy(old(reviews), id)
      ensures ReviewsByAuthor(reviews, id) == {}
    {
      DeleteUserKeepsConsistent(users, platforms, watchlists, reviews, id);
      users, reviews := users - {id}, ReviewsNotBy(reviews, id);
    }
  }
  /** The start of the aggregate walk-through: two users, the Netflix
      platform and one fresh watch list on it, no reviews yet. */
  method TwoUsersAndOneWatchList() returns (store: Store, alice: UserId, bob: UserId, boy: WatchListId)
    ensures fresh(store) && store.Valid()
    ensures alice in store.users && bob in store.users && alice != bob
    ensures boy in store.watchlists && store.watchlists[boy].numberRating == 0
    ensures store.reviews == map[]
  {
    store := new Store();
    alice := store.AddUser("alice");
    assert "alice"[0] != "bob"[0];
    assert UsersNamed(store.users, "bob") == {};
    bob := store.AddUser("bob");
    var netflix := store.AddPlatform(StreamPlatform("Netflix", "standard streaming", "http://netflix.org"));
    boy := store.AddWatchList("the boy", "the boy survived and he said Alhamdulilah", netflix);
  }

  /** The aggregate walk-through: on a fresh watch list, a review of 4 by one
      user and of 2 by another leave the average at 3.0 over two ratings. */
  method AggregateScenario() {
    var store, alice, bob, boy := TwoUsersAndOneWatchList();
    var first := store.CreateReview(boy, alice, 4, None, None);
    assert first.Ok?;
    assert store.reviews.Keys == {first.value} && store.reviews[first.value].author == alice;
    assert store.watchlists[boy].avgReview == 4.0 && store.watchlists[boy].numberRating == 1;

    var second := store.CreateReview(boy, bob, 2, None, Some(false));
    assert second.Ok?;
    assert store.watchlists[boy].avgReview == 3.0 && store.watchlists[boy].numberRating == 2;
  }

  /** The duplicate walk-through: once a user has reviewed a watch list, a
      second review by the same user is refused and changes nothing. */
  method DuplicateScenario() {
    var store, user, _, boy := TwoUsersAndOneWatchList();
    TrimKeepsTrimmed("good movie");
    TrimKeepsTrimmed("great movie");
    assert DescriptionValid(Some("good movie")) && DescriptionValid(Some("great movie"));
    var first := store.CreateReview(boy, user, 4, Some("good movie"), None);
    assert first.Ok? && store.reviews[first.value].author == user;
    var again := store.CreateReview(boy, user, 5, Some("great movie"), Some(true));
    assert again == Err(AlreadyReviewed);
    assert store.watchlists[boy].avgReview == 4.0 && store.watchlists[boy].numberRating == 1;
  }

  /** The detail walk-through: updating a review leaves the aggregate alone,
      and deleting the platform takes the watch list and its review with it. */
  method CascadeScenario() {
    var store := new Store();
    var alice := store.AddUser("alice");
    var netflix := store.AddPlatform(StreamPlatform("Netflix", "standard streaming", "http://netflix.org"));
    var boy := store.AddWatchList("the boy", "the boy survived and he said Alhamdulilah", netflix);
    var first := store.CreateReview(boy, alice, 4, None, None);
    assert first.Ok?;

    var updated := store.UpdateReview(first.value, 1, None, false);
    assert updated.Ok? && store.watchlists[boy].avgReview == 4.0;

    var gone := store.DeletePlatform(netflix);
    assert gone.Done? && boy !in store.watchlists && first.value !in store.reviews;

    var missing := store.GetPlatform(netflix);
    assert missing == Err(NotFound);
  }

  /** The lost-insert walk-through: with the creation rule as written, a
      review of 4 fails after counting, and retrying it fails again after
      counting again, so the watch list counts two ratings with no review
      stored. */
  method LostInsertScenario() {
    var store := new Store();
    var user := store.AddUser("test");
    var netflix := store.AddPlatform(StreamPlatform("Netflix", "standard streaming", "http://netflix.org"));
    var boy := store.AddWatchList("the boy", "the boy survived and he said Alhamdulilah", netflix);
    TrimKeepsTrimmed("good movie");
    assert DescriptionValid(Some("good movie"));
    var first := store.CreateReviewAsWritten(boy, user, 4, Some("good movie"), None);
    assert first == Err(SaveFailed);
    var retry := store.CreateReviewAsWritten(boy, user, 4, Some("good movie"), None);
    assert retry == Err(SaveFailed);
    assert store.watchlists[boy].numberRating == 2 && store.watchlists[boy].avgReview == 4.0;
    assert store.reviews == map[];
  }
}
