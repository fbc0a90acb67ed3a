/** The aggregate a watch list keeps about its reviews. Each successful review
    creation counts one more rating and moves `avgReview`: the first rating is
    taken as it is, every later one is blended half-and-half with the current
    average. This is a running blend, not the arithmetic mean of the ratings. */
module Rating {
  import opened Models

  function Min(x: real, y: real): real { if x <= y then x else y }
  function Max(x: real, y: real): real { if x <= y then y else x }

  /** The new average after one more rating, given the current average and
      the number of ratings counted so far. */
  function Blend(avg: real, count: nat, rating: int): (r: real)
    ensures count == 0 ==> r == rating as real
    ensures count > 0 ==> r - avg == (rating as real - avg) / 2.0
    ensures count > 0 ==> Min(avg, rating as real) <= r <= Max(avg, rating as real)
  {
    if count == 0 then rating as real else (avg + rating as real) / 2.0
  }

  /** The watch list after one more rating has been counted. */
  function Record(w: WatchList, rating: int): (w': WatchList)
    ensures w'.numberRating == w.numberRating + 1
    ensures w'.avgReview == Blend(w.avgReview, w.numberRating, rating)
    ensures w' == w.(avgReview := w'.avgReview, numberRating := w'.numberRating)
  {
    w.(avgReview := Blend(w.avgReview, w.numberRating, rating), numberRating := w.numberRating + 1)
  }

  /** Which aggregates a watch list can carry: none counted and the 0.0
      default, or some counted and an average inside the rating range. */
  predicate AggregateSound(w: WatchList) {
    if w.numberRating == 0 then w.avgReview == 0.0
    else RatingMin as real <= w.avgReview <= RatingMax as real
  }

  /** Counting a valid rating keeps the aggregate sound. */
  lemma RecordKeepsAggregateSound(w: WatchList, rating: int)
    requires AggregateSound(w) && RatingValid(rating)
    ensures AggregateSound(Record(w, rating))
  {
  }

  /** The watch list after the ratings have been counted one after another,
      as repeated creations count them: the count grows by their number and
      nothing but the aggregate changes. */
  function Replay(w: WatchList, ratings: seq<int>): (r: WatchList)
    ensures r.numberRating == w.numberRating + |ratings|
    ensures r == w.(avgReview := r.avgReview, numberRating := r.numberRating)
    decreases |ratings|
  {
    if ratings == [] then w else Replay(Record(w, ratings[0]), ratings[1..])
  }

  predicate AllWithin(ratings: seq<int>, lo: real, hi: real) {
    forall i :: 0 <= i < |ratings| ==> lo <= ratings[i] as real <= hi
  }

  /** Whatever ratings within `lo..hi` are counted, once anything is counted
      the average lies within `lo..hi` too (the current average counting as
      one of the ratings seen). */
  lemma {:induction false} ReplayWithin(w: WatchList, ratings: seq<int>, lo: real, hi: real)
    requires AllWithin(ratings, lo, hi)
    requires w.numberRating == 0 || lo <= w.avgReview <= hi
    ensures Replay(w, ratings).numberRating == 0 || lo <= Replay(w, ratings).avgReview <= hi
    decreases |ratings|
  {
    if ratings != [] {
      var w1 := Record(w, ratings[0]);
      assert lo <= ratings[0] as real <= hi;
      assert AllWithin(ratings[1..], lo, hi) by {
        forall i | 0 <= i < |ratings[1..]| ensures lo <= ratings[1..][i] as real <= hi {
          assert ratings[1..][i] == ratings[i + 1];
        }
      }
      ReplayWithin(w1, ratings[1..], lo, hi);
    }
  }

  /** From the defaults of a new watch list, any sequence of valid ratings
      leaves the aggregate sound: the average stays inside 1..5 once a
      rating has been counted. */
  lemma ReplayFromNewIsSound(title: string, storyline: string, platform: PlatformId, ratings: seq<int>)
    requires forall i :: 0 <= i < |ratings| ==> RatingValid(ratings[i])
    ensures Replay(NewWatchList(title, storyline, platform), ratings).numberRating == |ratings|
    ensures AggregateSound(Replay(NewWatchList(title, storyline, platform), ratings))
  {
    var w := NewWatchList(title, storyline, platform);
    ReplayWithin(w, ratings, RatingMin as real, RatingMax as real);
    if ratings == [] {
      assert Replay(w, ratings) == w;
    }
  }

  /** The blend is not the mean: ratings 1, 1, 4 have mean 2 but leave the
      average at 2.5, because the latest rating always weighs one half. */
  lemma BlendIsNotTheMean(w: WatchList)
    requires w.numberRating == 0
    ensures Replay(w, [1, 1, 4]).avgReview == 2.5
    ensures Replay(w, [1, 1, 4]).numberRating == 3
  {
    assert [1, 1, 4][1..] == [1, 4];
    assert [1, 4][1..] == [4];
    assert [4][1..] == [];
  }
}
