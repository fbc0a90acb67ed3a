/** The three stored entities of the app (stream platforms, watch lists and
    reviews), the users that author reviews, the column bounds and defaults
    they are declared with, and the field checks the rating validators and
    length limits impose. */
module Models {

  type UserId = nat
  type PlatformId = nat
  type WatchListId = nat
  type ReviewId = nat

  datatype Option<+T> = None | Some(value: T)

  // Column bounds (max_length of the character fields).
  const PlatformNameMax: nat := 40
  const PlatformAboutMax: nat := 150
  const PlatformWebsiteMax: nat := 100
  const WatchListTitleMax: nat := 250
  const ReviewDescriptionMax: nat := 200

  // Bounds of the two rating validators.
  const RatingMin: int := 1
  const RatingMax: int := 5

  /** An account that can author reviews; only the username is observable here. */
  datatype User = User(username: string)

  datatype StreamPlatform = StreamPlatform(name: string, about: string, website: string)

  /** A watchable title. `avgReview` and `numberRating` are the aggregate the
      review-creation rule maintains; clients never write them directly. */
  datatype WatchList = WatchList(
    title: string,
    storyline: string,
    platform: PlatformId,
    active: bool,
    avgReview: real,
    numberRating: nat)

  datatype Review = Review(
    author: UserId,
    rating: int,
    description: Option<string>,
    active: bool,
    watchlist: WatchListId)

  predicate PlatformFieldsValid(p: StreamPlatform) {
    |p.name| <= PlatformNameMax && |p.about| <= PlatformAboutMax && |p.website| <= PlatformWebsiteMax
  }

  predicate WatchListFieldsValid(w: WatchList) {
    |w.title| <= WatchListTitleMax
  }

  predicate RatingValid(rating: int) {
    RatingMin <= rating <= RatingMax
  }

  /** The characters Python's `str.strip()` removes: those `str.isspace()`
      accepts. */
  predicate IsWhitespace(c: char) {
    || ('\t' <= c <= '\r')
    || ('\U{1C}' <= c <= ' ')
    || c == '\U{85}' || c == '\U{A0}' || c == '\U{1680}'
    || ('\U{2000}' <= c <= '\U{200A}')
    || c == '\U{2028}' || c == '\U{2029}' || c == '\U{202F}' || c == '\U{205F}' || c == '\U{3000}'
  }

  /** The whitespace trimming a character field applies to submitted text:
      whitespace is cut from both ends until neither end is whitespace. */
  function Trim(s: string): (t: string)
    ensures |t| <= |s|
    ensures t == [] || (!IsWhitespace(t[0]) && !IsWhitespace(t[|t| - 1]))
    decreases |s|
  {
    if s != [] && IsWhitespace(s[0]) then Trim(s[1..])
    else if s != [] && IsWhitespace(s[|s| - 1]) then Trim(s[..|s| - 1])
    else s
  }

  /** `t` is the slice of `s` starting at `i`, and everything of `s` around
      it is whitespace. */
  predicate CutFrom(s: string, t: string, i: nat) {
    && i + |t| <= |s| && t == s[i..i + |t|]
    && (forall k :: 0 <= k < i ==> IsWhitespace(s[k]))
    && (forall k :: i + |t| <= k < |s| ==> IsWhitespace(s[k]))
  }

  /** What trimming keeps is the slice of the text starting at `i`, and
      everything it cuts off around that slice is whitespace. */
  lemma {:induction false} TrimCutsOnlyWhitespace(s: string) returns (i: nat)
    ensures CutFrom(s, Trim(s), i)
    decreases |s|
  {
    if s != [] && IsWhitespace(s[0]) {
      var j := TrimCutsOnlyWhitespace(s[1..]);
      CutFromLeadingSpace(s, Trim(s), j);
      i := j + 1;
    } else if s != [] && IsWhitespace(s[|s| - 1]) {
      i := TrimCutsOnlyWhitespace(s[..|s| - 1]);
      CutFromTrailingSpace(s, Trim(s), i);
    } else {
      i := 0;
    }
  }

  lemma CutFromLeadingSpace(s: string, t: string, j: nat)
    requires s != [] && IsWhitespace(s[0]) && CutFrom(s[1..], t, j)
    ensures CutFrom(s, t, j + 1)
  {
    assert s[1..][j..j + |t|] == s[j + 1..j + 1 + |t|];
    forall k | 0 < k < j + 1 ensures IsWhitespace(s[k]) {
      assert s[k] == s[1..][k - 1];
    }
    forall k | j + 1 + |t| <= k < |s| ensures IsWhitespace(s[k]) {
      assert s[k] == s[1..][k - 1];
    }
  }

  lemma CutFromTrailingSpace(s: string, t: string, i: nat)
    requires s != [] && IsWhitespace(s[|s| - 1]) && CutFrom(s[..|s| - 1], t, i)
    ensures CutFrom(s, t, i)
  {
    var p := s[..|s| - 1];
    assert p[i..i + |t|] == s[i..i + |t|];
    forall k | i + |t| <= k < |p| ensures IsWhitespace(s[k]) {
      assert s[k] == p[k];
    }
  }

  /** Text that neither starts nor ends with whitespace is kept as it is. */
  lemma TrimKeepsTrimmed(s: string)
    requires s == [] || (!IsWhitespace(s[0]) && !IsWhitespace(s[|s| - 1]))
    ensures Trim(s) == s
  {
  }

  /** Trimming twice trims nothing more. */
  lemma TrimIdempotent(s: string)
    ensures Trim(Trim(s)) == Trim(s)
  {
    TrimKeepsTrimmed(Trim(s));
  }

  /** The character a text field refuses to store. */
  const NullCharacter: char := '\0'

  /** A submitted description passes when it is null, or when its trimmed
      text is not blank, fits the column and holds no null character. */
  predicate DescriptionValid(description: Option<string>) {
    description.None? ||
    (Trim(description.value) != [] && |Trim(description.value)| <= ReviewDescriptionMax
     && NullCharacter !in Trim(description.value))
  }

  /** What a stored description satisfies: null, or text that is not empty,
      fits the column and holds no null character. */
  predicate DescriptionFits(description: Option<string>) {
    description.None? || (0 < |description.value| <= ReviewDescriptionMax && NullCharacter !in description.value)
  }

  /** The description as stored: null stays null, text is stored trimmed. It
      fits the column exactly when the submitted description passes, and it
      passes exactly when the submitted one does. */
  function CleanDescription(description: Option<string>): (c: Option<string>)
    ensures c.None? <==> description.None?
    ensures c.Some? ==> c.value == Trim(description.value)
    ensures DescriptionFits(c) <==> DescriptionValid(description)
    ensures DescriptionValid(c) <==> DescriptionValid(description)
  {
    match description
    case None => None
    case Some(text) => TrimIdempotent(text); Some(Trim(text))
  }

  predicate ReviewFieldsValid(r: Review) {
    RatingValid(r.rating) && DescriptionFits(r.description)
  }

  /** One complaint about a submitted review field, as a field validator reports it. */
  datatype FieldError =
    | RatingBelowMinimum | RatingAboveMaximum
    | DescriptionBlank | DescriptionTooLong | DescriptionHasNullCharacter

  /** The errors of the two rating validators. */
  function RatingErrors(rating: int): (errors: seq<FieldError>)
    ensures errors == [] <==> RatingValid(rating)
    ensures RatingBelowMinimum in errors <==> rating < RatingMin
    ensures RatingAboveMaximum in errors <==> rating > RatingMax
    ensures DescriptionBlank !in errors && DescriptionTooLong !in errors && DescriptionHasNullCharacter !in errors
    ensures |errors| <= 1
  {
    if rating < RatingMin then [RatingBelowMinimum]
    else if rating > RatingMax then [RatingAboveMaximum]
    else []
  }

  /** The errors of the description field. Blank text is refused on its
      own (the column does not allow it); other text is trimmed and then
      checked by both the length limit and the null-character refusal, each
      reporting its own error. */
  function DescriptionErrors(description: Option<string>): (errors: seq<FieldError>)
    ensures errors == [] <==> DescriptionValid(description)
    ensures DescriptionBlank in errors <==> description.Some? && Trim(description.value) == []
    ensures DescriptionTooLong in errors <==> description.Some? && |Trim(description.value)| > ReviewDescriptionMax
    ensures DescriptionHasNullCharacter in errors <==>
              description.Some? && Trim(description.value) != [] && NullCharacter in Trim(description.value)
    ensures RatingBelowMinimum !in errors && RatingAboveMaximum !in errors
    ensures |errors| <= 2
  {
    match description
    case None => []
    case Some(text) =>
      var t := Trim(text);
      if t == [] then [DescriptionBlank]
      else (if |t| > ReviewDescriptionMax then [DescriptionTooLong] else [])
           + (if NullCharacter in t then [DescriptionHasNullCharacter] else [])
  }

  /** Runs the review field validators: the minimum and maximum rating
      validators, and the blank refusal, the length limit and the
      null-character refusal of the description. Every failing validator
      contributes its own error. */
  function CheckReviewFields(rating: int, description: Option<string>): (errors: seq<FieldError>)
    ensures errors == [] <==> RatingValid(rating) && DescriptionValid(description)
    ensures RatingBelowMinimum in errors <==> rating < RatingMin
    ensures RatingAboveMaximum in errors <==> rating > RatingMax
    ensures DescriptionBlank in errors <==> description.Some? && Trim(description.value) == []
    ensures DescriptionTooLong in errors <==> description.Some? && |Trim(description.value)| > ReviewDescriptionMax
    ensures DescriptionHasNullCharacter in errors <==>
              description.Some? && Trim(description.value) != [] && NullCharacter in Trim(description.value)
    ensures |errors| <= 3
  {
    RatingErrors(rating) + DescriptionErrors(description)
  }

  /** A watch list as freshly inserted: active, with no reviews counted and an
      average of 0.0. */
  function NewWatchList(title: string, storyline: string, platform: PlatformId): (w: WatchList)
    ensures w.active && w.avgReview == 0.0 && w.numberRating == 0
    ensures w.title == title && w.storyline == storyline && w.platform == platform
    ensures |title| <= WatchListTitleMax <==> WatchListFieldsValid(w)
  {
    WatchList(title, storyline, platform, true, 0.0, 0)
  }

  /** A review as freshly inserted from a submission: the description is
      stored trimmed, and `active` takes its declared default, true, when the
      submission leaves it out (`None`). */
  function NewReview(author: UserId, rating: int, description: Option<string>, active: Option<bool>, watchlist: WatchListId): (r: Review)
    ensures r.active <==> active.None? || active.value
    ensures r.author == author && r.rating == rating && r.watchlist == watchlist
    ensures r.description == CleanDescription(description)
    ensures ReviewFieldsValid(r) <==> CheckReviewFields(rating, description) == []
  {
    Review(author, rating, CleanDescription(description), if active.None? then true else active.value, watchlist)
  }
}
