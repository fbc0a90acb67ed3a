# Gameon review store

A model of the data core of the Gameon API, a Django REST Framework service
that tracks streaming platforms, the watch lists (titles) they carry, and the
reviews users write about those titles.

The model covers four things.

- **The stored rows.** These are the platform, watch-list and review tables
  and the user accounts that author reviews. They carry their column bounds,
  their defaults and the rating validators (module `Models`).
- **The review aggregate.** Every watch list keeps a count of ratings and an
  average, `avg_review`. The review-creation rule moves that average as a
  running blend: the first rating is taken as it is, and every later rating
  is averaged with the current value (module `Rating`).
- **The review queries.** These are the per-watch-list review list, the
  username filter, and the "already reviewed" check (module `Queries`).
- **The handlers that change state** (module `Views`). They act on one
  `Store` object that holds all four tables:
  - review creation, with its checks in the framework's order;
  - the review detail update and delete;
  - the platform and watch-list detail lookups and deletes, with the
    cascades the foreign keys declare.

  The rules every handler preserves are collected in module `Tables`:
  - referential integrity;
  - field bounds;
  - unique usernames;
  - one review per author and watch list;
  - an aggregate that is either the untouched default or inside 1..5;
  - no watch list storing more reviews than its count.

Four walk-throughs in `Views` run short sequences of requests on the model:
- `AggregateScenario`: ratings 4 then 2 by two users leave 3.0 over two
  ratings.
- `DuplicateScenario`: a second review by the same user is refused and
  changes nothing. This is the refusal `test_review_create` expects. In that
  test the first review is written directly through the ORM; here it is
  created through the API.
- `CascadeScenario`: an update leaves the aggregate alone, and a platform
  delete takes its watch list and reviews with it.
- `LostInsertScenario`: the creation rule as written (see Findings) counts
  a rating twice without storing a review.

Order of checks in review creation: `ReviewCreate` is a `CreateAPIView`, so
the serializer's field validation runs before `perform_create`. A bad rating
or a blank or over-long description is therefore reported even when the
watch list does not exist. The model checks in the same order:
1. field errors;
2. the watch-list lookup;
3. the duplicate check.

Only then does it write: first the watch list with its new aggregate, then
the review.

A missing watch list in review creation is not a 404. `perform_create` calls
`WatchList.objects.get`, which raises `WatchList.DoesNotExist`. That exception
is neither caught nor turned into a 404 by the framework, so the request ends
in an unhandled server error. The model returns a distinct error,
`WatchListLookupFailed`, and changes nothing. The detail views, by contrast,
catch `DoesNotExist` and answer 404; there the model returns `NotFound`.

## Model

| member | source | states |
|---|---|---|
| Models.Trim | gameon/models.py:28 | the whitespace trimming of the description field: the result is no longer than the text and neither starts nor ends with whitespace |
| Models.TrimCutsOnlyWhitespace | gameon/models.py:28 | what trimming keeps is one slice of the text, and everything cut off before and after it is whitespace |
| Models.TrimKeepsTrimmed | gameon/models.py:28 | text that neither starts nor ends with whitespace is kept as it is |
| Models.TrimIdempotent | gameon/models.py:28 | trimming trimmed text changes nothing |
| Models.CleanDescription | gameon/models.py:28 | a null description stays null and text is stored trimmed; the stored value is non-empty, fits 200 characters and holds no null character exactly when the submitted one passes validation |
| Models.RatingErrors | gameon/models.py:27 | the minimum and maximum validators report exactly the rating below 1 and the rating above 5 |
| Models.DescriptionErrors | gameon/models.py:28 | the description reports blank text (empty after trimming) on its own; text that is not blank reports a trimmed length over 200 characters and a null character in the trimmed text, each exactly when it occurs, so both can appear together; no error exactly when the description is null or passes all three |
| Models.CheckReviewFields | gameon/models.py:27-28 | no error exactly when the rating is within the 1 and 5 validators and the description is null or, trimmed, neither blank, nor over 200 characters, nor holding a null character; each validator's error is present exactly when that validator fails |
| Models.NewWatchList | gameon/models.py:13-19 | a new watch list is active, with average 0.0 and no ratings counted, and keeps the given title, storyline and platform; it is valid exactly when the title fits 250 characters |
| Models.NewReview | gameon/models.py:25-30 | a new review keeps its author, rating and watch list, stores the description trimmed, and is active unless the submission sets it false (the declared default is true); it satisfies the stored-row rules exactly when the field validators report nothing |
| Rating.Blend | gameon/api/views.py:49-52 | with nothing counted yet, the new average is the rating; otherwise the average moves half the way toward the rating and stays between the old average and the rating |
| Rating.Record | gameon/api/views.py:49-54 | counting a rating raises the count by one, sets the average to the blend, and changes no other field of the watch list |
| Rating.RecordKeepsAggregateSound | gameon/api/views.py:49-54 | counting a valid rating keeps the aggregate sound: either the 0.0 default with nothing counted, or an average within 1..5 |
| Rating.Replay | gameon/api/views.py:49-54 | counting ratings one after another, as repeated creations do, raises the count by their number and changes nothing but the aggregate |
| Rating.ReplayWithin | gameon/api/views.py:49-54 | after any sequence of ratings within bounds, once anything is counted the average stays within those bounds |
| Rating.ReplayFromNewIsSound | gameon/models.py:18-19 | starting from the declared defaults, any sequence of valid ratings leaves the count equal to their number and the aggregate sound |
| Rating.BlendIsNotTheMean | gameon/api/views.py:49-52 | ratings 1, 1, 4 on a fresh watch list leave an average of 2.5, not their mean of 2, so the aggregate is a running blend |
| Queries.ReviewsOfWatchList | gameon/api/views.py:69-71 | the per-watch-list review list holds exactly the stored reviews of that watch list; `Queries.ListsAfterInsert` and `Queries.ListShrinksWhenReviewsKeepTheirWatchList` state how it changes |
| Queries.HasReviewed | gameon/api/views.py:45-46 | the "already reviewed" check: some stored review has this author and this watch list; `Queries.HasReviewedMeansListsMeet` ties it to the two review lists |
| Queries.ReviewsByUsername | gameon/api/views.py:28-30 | the username filter returns exactly the stored reviews whose author has that username; without the query parameter it returns nothing |
| Queries.UsernameFilterIsAuthorFilter | gameon/api/views.py:28-30 | with unique usernames, filtering by a user's name gives exactly that user's reviews, and an unknown name gives none |
| Queries.HasReviewedMeansListsMeet | gameon/api/views.py:44-46 | the "already reviewed" check holds exactly when the watch list's review list and the author's reviews share a review |
| Queries.AtMostOneReviewPerAuthor | gameon/api/views.py:45-47 | under the uniqueness rule, a watch list's review list holds at most one review by any one author |
| Queries.ListShrinksWhenReviewsKeepTheirWatchList | gameon/api/views.py:69-71 | removing reviews, or rewriting them in place, can only shrink a watch list's review list |
| Queries.ListsAfterInsert | gameon/api/views.py:69-71 | inserting a review adds its id to its own watch list's list and its author's list, and to no other list |
| Queries.InsertedIsOnlyReviewOfPair | gameon/api/views.py:44-57 | a review inserted for a pair not yet reviewed becomes the only review of that author for that watch list |
| Queries.InsertKeepsUniqueAuthorship | gameon/api/views.py:45-47 | inserting a review for a pair not yet reviewed keeps the one-review-per-author-and-watch-list rule |
| Tables.WatchListsOffPlatform | gameon/models.py:16 | the platform cascade keeps exactly the watch lists on other platforms, unchanged |
| Tables.ReviewsWithin | gameon/models.py:30 | the watch-list cascade keeps exactly the reviews of the kept watch lists, unchanged |
| Tables.ReviewsNotBy | gameon/models.py:26 | the user cascade keeps exactly the reviews by other users, unchanged |
| Tables.RemovalKeepsConsistent | gameon/models.py:25-30 | removing rows, or rewriting review fields validly in place, keeps the tables consistent as long as what is left refers only to rows that are left |
| Tables.DeletePlatformKeepsConsistent | gameon/api/views.py:125-134 | deleting a platform with its watch lists and their reviews keeps the tables consistent |
| Tables.DeleteWatchListKeepsConsistent | gameon/api/views.py:202-211 | deleting a watch list with its reviews keeps the tables consistent |
| Tables.DeleteUserKeepsConsistent | gameon/models.py:26 | deleting a user with the reviews they wrote keeps the tables consistent |
| Tables.DeleteReviewKeepsConsistent | gameon/api/views.py:74-77 | deleting one review keeps the tables consistent with every watch list untouched |
| Tables.UpdateReviewKeepsConsistent | gameon/api/views.py:74-77 | validly rewriting a review's rating, description and active flag keeps the tables consistent with every watch list untouched |
| Tables.RecordWithoutInsertKeepsConsistent | gameon/api/views.py:49-55 | saving a watch list with one more valid rating counted keeps the tables consistent, before any review is inserted |
| Tables.RecordWithoutInsertOvercounts | gameon/api/views.py:49-55 | once the rating is counted and before its review is stored, the watch list counts more ratings than it has stored reviews, and the author still has no review of it |
| Tables.InsertReviewKeepsConsistent | gameon/api/views.py:57 | inserting a valid review of a pair nobody reviewed, into a watch list that has already counted it, keeps the tables consistent |
| Tables.InsertKeepsCounts | gameon/api/views.py:57 | inserting one review into a watch list with a count to spare keeps every count at least its number of stored reviews |
| Tables.CreateKeepsConsistent | gameon/api/views.py:40-57 | a creation that passed its checks keeps every table rule, including a sound aggregate and one review per author and watch list |
| Tables.AddWatchListKeepsConsistent | gameon/models.py:13-19 | inserting a watch list with its defaults under a stored platform keeps the tables consistent |
| Views.Store.constructor | gameon/models.py:5-32 | the store starts with four empty tables that satisfy every table rule |
| Views.Store.AddUser | gameon/tests.py:14 | registering an account under a non-empty, unused username (account creation refuses an empty one) adds it under a fresh id and keeps the store valid |
| Views.Store.AddPlatform | gameon/models.py:5-8 | inserting a platform within its column bounds adds it under a fresh id and keeps the store valid |
| Views.Store.AddWatchList | gameon/models.py:13-19 | inserting a watch list under a stored platform adds it under a fresh id with the declared defaults |
| Views.Store.GetPlatform | gameon/api/views.py:99-108 | the platform detail returns the stored row, or NotFound exactly when there is none |
| Views.Store.GetWatchList | gameon/api/views.py:173-184 | the watch-list detail returns the stored row, or NotFound exactly when there is none |
| Views.Store.GetReview | gameon/api/views.py:74-77 | the review detail returns the stored row, or NotFound exactly when there is none |
| Views.Store.CreateReview | gameon/api/views.py:40-57 | field errors come first, then the failed watch-list lookup, then the duplicate refusal, and each failure changes nothing; success happens exactly when all checks pass, inserts the review under a fresh id, and updates only that watch list's aggregate (rating on a cold start, otherwise the half-way blend, with the count one higher) |
| Views.Store.SaveWatchList | gameon/api/views.py:54-55 | the first write of a creation stores the watch list with its updated aggregate, changes nothing else, and keeps the store valid |
| Views.Store.InsertReview | gameon/api/views.py:57 | the second write of a creation stores the review under a fresh id, changes nothing else, and keeps the store valid |
| Views.Store.CreateReviewAsWritten | gameon/api/views.py:40-57 | the same checks in the same order, but a creation that passes them saves the watch list with the rating counted and blended, stores no review, and fails; the author still has no review of the watch list afterwards |
| Views.Store.UpdateReview | gameon/api/views.py:74-77 | the review update gives NotFound for a missing id and field errors for invalid values, and changes nothing on either; otherwise it rewrites only the rating, the trimmed description and the active flag, and leaves every aggregate as it was |
| Views.Store.DeleteReview | gameon/api/views.py:74-77 | the review delete gives NotFound for a missing id; otherwise it removes exactly that review and leaves every aggregate as it was |
| Views.Store.DeleteWatchList | gameon/api/views.py:202-211 | the watch-list delete gives NotFound for a missing id; otherwise it removes the watch list and exactly its reviews; afterwards no review refers to it |
| Views.Store.DeletePlatform | gameon/api/views.py:125-134 | the platform delete gives NotFound for a missing id; otherwise it removes the platform, the watch lists on it and their reviews; afterwards no watch list refers to it |
| Views.Store.DeleteUser | gameon/models.py:26 | deleting an account removes exactly the reviews it wrote and keeps the store valid |
| Views.TwoUsersAndOneWatchList | gameon/tests.py:78-83 | the platform and the fresh watch list the review tests set up, with two distinct users instead of one and no review: nothing counted, no reviews stored |

## Findings

| source | as written | input that shows it | evidently intended | confidence | as-written member | corrected member |
|---|---|---|---|---|---|---|
| gameon/api/views.py:57 | `serializer.save` receives `status=status.HTTP_201_CREATED` and passes it on as a column value of the new review. No review column is called `status`, so the insert raises. By then `watchlist.save()` (views.py:55) has already stored the counted and blended aggregate, and no transaction undoes it. | rating 4 on a fresh watch list by a user who has not reviewed it: average 4.0 and count 1 are stored, no review is, and the request fails; the same request again is not refused as a duplicate and leaves count 2 (`Views.LostInsertScenario`; `Tables.RecordWithoutInsertOvercounts` shows the count exceeding the stored reviews) | `status` is the response's status code, not a column: the review is stored with the watch list and the request answers 201 | not executed; holds if `ReviewSerializer` is a plain model serializer, which is not part of this model | Views.Store.CreateReviewAsWritten | Views.Store.CreateReview |

## Left out

- The query-string filters of the review list (`filter_backends` and `filterset_fields` on `active`, `review_user__username` and `watchlist`, gameon/api/views.py:66-67). The model states the unfiltered per-watch-list list; `Queries.ReviewsByUsername` states the username filter on its own, without the combination with the list.
- Permissions (`IsAuthenticated`, `IsAdminOrReadOnly`, `IsReviewUserOrReadOnly`), throttles, pagination, search and URL routing. The model's callers are requests that already passed these checks; the authenticated user is a parameter.
- Platform and watch-list listing, and their POST and PUT success paths. Their serializers are not part of this model. Their PUT handlers share the 404 lookup, which `GetPlatform` and `GetWatchList` model.
- `ReviewSerializer` is not part of this model. It is taken to be a model serializer with the author and the watch list read-only, so an update cannot move a review. That serializer applies the model's validators. It turns the description column (`null=True`, not `blank=True`) into a text field that trims whitespace, refuses blank text and refuses text holding a null character (U+0000). It makes `active` optional, with the model default `True`.
- Models.CheckReviewFields: does not model the extra non-negative check a `PositiveIntegerField` adds for negative ratings, because how the serializer merges it with the minimum validator's message is not visible here. Such a rating is still refused through `RatingBelowMinimum`.
- Rating.Blend: computes in exact reals, not IEEE double precision. The model has no rounding.
- Timestamps (`created`, `update`), `__str__`, and the URL format of `website` (only its length is checked).
- Concurrency. Each handler runs as one sequential step, so two requests never interleave. The two writes of a creation run in order without a transaction. `Views.Store.CreateReviewAsWritten` models what the first write leaves behind when the second one fails.
- `number_rating` is an `IntegerField` and is modelled as a natural number with no upper bound.
- The `related_name` of the review foreign key differs between `models.py` and the migration; it names a reverse accessor only, and the model does not use it.
- User management beyond registering and deleting an account (passwords, tokens, the `user_app` views).
- Views.Store.CreateReview: the review lists after a creation are not stated in this method's contract, to keep the proof small. They follow from `Queries.ListsAfterInsert` and `Queries.InsertedIsOnlyReviewOfPair`.
- Views.Store.CreateReview: takes a JSON submission. A form-encoded submission that leaves out `active` stores `False` rather than the default, and one with an empty description stores null instead of the blank error. The model does not represent either.
- Views.Store.UpdateReview: takes every writable field as sent. A PUT that leaves out `active` or `description` keeps the stored value, and the model does not represent that.
- Reviews written outside the API (directly through the ORM, as the review tests' set-up does at `gameon/tests.py:84-86`, or through the admin site) do not raise the watch list's count. The store's rule that no watch list stores more reviews than its count excludes such states, so the model cannot represent them.
