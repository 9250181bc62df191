/** The review service: reviews live in the "reviews" collection, and every create or delete
    recomputes the reviewee's average rating on their profile. */
module ReviewServices {
  import opened Common
  import opened Reviews
  import opened UserProfiles
  import opened Firestore
  import opened Ratings
  import opened UserProfileServices

  /** What the review service reports as a user's name: the profile's displayName (which may be
      null), or "Unknown User" when there is no profile. */
  function DisplayNameOf(uid: string, profiles: map<string, ProfileRecord>): Option<string>
  {
    if uid in profiles then profiles[uid].displayName else Some(UnknownUser)
  }

  /** `populateReviewFromUser(review, names)`: a review with an author gets the author's uid and
      the name the map holds for it, or "Unknown User" when the map has no entry. */
  function WithReviewer(r: ReviewRecord, names: map<string, Option<string>>): (d: ReviewRecord)
    ensures r.fromUserFirebaseUid.None? ==> d == r
    ensures r.fromUserFirebaseUid.Some? ==> d.fromUser.Some? && d.fromUser.value.firebaseUid == r.fromUserFirebaseUid
    ensures r.fromUserFirebaseUid.Some? && r.fromUserFirebaseUid.value in names ==>
      d.fromUser.value.displayName == names[r.fromUserFirebaseUid.value]
    ensures r.fromUserFirebaseUid.Some? && r.fromUserFirebaseUid.value !in names ==>
      d.fromUser.value.displayName == Some(UnknownUser)
    ensures d.(fromUser := r.fromUser) == r
  {
    match r.fromUserFirebaseUid
    case None => r
    case Some(uid) =>
      r.(fromUser := Some(ReviewUser(r.fromUserFirebaseUid, if uid in names then names[uid] else Some(UnknownUser))))
  }

  /** A review as the service shows it: its author's name looked up in the profiles. */
  function Reviewed(r: ReviewRecord, profiles: map<string, ProfileRecord>): (d: ReviewRecord)
    ensures d.rating == r.rating
  {
    match r.fromUserFirebaseUid
    case None => r
    case Some(uid) => r.(fromUser := Some(ReviewUser(r.fromUserFirebaseUid, DisplayNameOf(uid, profiles))))
  }

  /** Fetching the names of a set of authors and then populating a review by one of them shows
      that author's profile name. */
  lemma PopulatedFromFetchedNames(r: ReviewRecord, names: map<string, Option<string>>, profiles: map<string, ProfileRecord>)
    requires r.fromUserFirebaseUid.Some? ==> r.fromUserFirebaseUid.value in names
    requires forall u :: u in names ==> names[u] == DisplayNameOf(u, profiles)
    ensures WithReviewer(r, names) == Reviewed(r, profiles)
  {
  }

  /** The `createdAt` field of every review addressed to uid: the input of the query
      `whereEqualTo("toUserFirebaseUid", uid).orderBy("createdAt", DESCENDING)`. */
  function ReviewField(reviews: map<string, ReviewRecord>, uid: string): (field: map<string, Option<string>>)
    ensures forall id :: id in field <==> id in reviews && reviews[id].toUserFirebaseUid == Some(uid)
    ensures forall id :: id in field ==> field[id] == reviews[id].createdAt
  {
    map id | id in reviews && reviews[id].toUserFirebaseUid == Some(uid) :: reviews[id].createdAt
  }

  /** The ratings of the given reviews, in order. */
  function RatingsAt(ids: seq<string>, reviews: map<string, ReviewRecord>): (r: seq<int>)
    requires forall i :: 0 <= i < |ids| ==> ids[i] in reviews
    ensures |r| == |ids| && forall i :: 0 <= i < |ids| ==> r[i] == reviews[ids[i]].rating
  {
    seq(|ids|, i requires 0 <= i < |ids| => reviews[ids[i]].rating)
  }

  /** Every stored review carries a rating between 1 and 5. */
  predicate RatingsValid(reviews: map<string, ReviewRecord>)
  {
    forall id :: id in reviews ==> 1 <= reviews[id].rating <= 5
  }

  /** The profiles after the reviewee's rating is set: only an existing profile under a
      non-empty uid changes, and only in its rating. */
  function RatedProfiles(profiles: map<string, ProfileRecord>, uid: string, rating: int): (r: map<string, ProfileRecord>)
    ensures r.Keys == profiles.Keys
    ensures forall u :: u in profiles && u != uid ==> r[u] == profiles[u]
    ensures uid != "" && uid in profiles ==> r[uid] == profiles[uid].(rating := Some(rating))
    ensures uid == "" || uid !in profiles ==> r == profiles
  {
    if uid != "" && uid in profiles then profiles[uid := profiles[uid].(rating := Some(rating))] else profiles
  }

  /** The profile write `recalculateAndSaveUserRating` makes, whichever way it ends, leaves the
      profiles with uid's rating set. */
  lemma RatingWritten(before: map<string, ProfileRecord>, after: map<string, ProfileRecord>, uid: string, rating: int, o: Outcome)
    requires var updates := map["rating" := Number(Some(rating))];
      (o.Fail? ==> after == before)
      && (o == Done ==> uid != "" && uid in before && after == before[uid := ApplyUpdates(before[uid], updates)])
      && (uid != "" && uid in before ==> o == Done)
    ensures after == RatedProfiles(before, uid, rating)
  {
    if o == Done {
      RatingUpdate(before[uid], rating);
    }
  }

  /** `after` is `before` with uid's rating set to the mean over every review addressed to uid. */
  ghost predicate RatingRecomputed(reviews: map<string, ReviewRecord>, before: map<string, ProfileRecord>, after: map<string, ProfileRecord>, uid: string)
  {
    exists ids :: IsQueryOrder(ids, ReviewField(reviews, uid))
      && (forall i :: 0 <= i < |ids| ==> ids[i] in reviews)
      && after == RatedProfiles(before, uid, UserRating(RatingsAt(ids, reviews)))
  }

  /** The ratings of a list of reviews, in order. */
  function RatingsOf(rs: seq<ReviewRecord>): (r: seq<int>)
    ensures |r| == |rs| && forall i :: 0 <= i < |rs| ==> r[i] == rs[i].rating
  {
    seq(|rs|, i requires 0 <= i < |rs| => rs[i].rating)
  }

  /** Averaging the ratings of the listed reviews is averaging over every review addressed to
      the user. */
  lemma RecomputedFromList(rs: seq<ReviewRecord>, ids: seq<string>, reviews: map<string, ReviewRecord>, profiles: map<string, ProfileRecord>,
                           before: map<string, ProfileRecord>, after: map<string, ProfileRecord>, uid: string)
    requires IsQueryOrder(ids, ReviewField(reviews, uid)) && |rs| == |ids|
    requires forall i :: 0 <= i < |ids| ==> ids[i] in reviews && rs[i] == Reviewed(reviews[ids[i]].(id := Some(ids[i])), profiles)
    requires after == RatedProfiles(before, uid, UserRating(RatingsOf(rs)))
    ensures RatingRecomputed(reviews, before, after, uid)
  {
    var ratings := RatingsAt(ids, reviews);
    forall i | 0 <= i < |rs| ensures RatingsOf(rs)[i] == ratings[i] {
      assert rs[i] == Reviewed(reviews[ids[i]].(id := Some(ids[i])), profiles);
    }
    assert RatingsOf(rs) == ratings;
  }

  /** When every review passed the 1..5 check and the user has at least one, the recomputed
      rating lies in [1.00, 5.00]. */
  lemma RecomputedRatingInRange(ids: seq<string>, reviews: map<string, ReviewRecord>, uid: string, id: string)
    requires IsQueryOrder(ids, ReviewField(reviews, uid))
    requires RatingsValid(reviews)
    requires id in reviews && reviews[id].toUserFirebaseUid == Some(uid)
    ensures forall i :: 0 <= i < |ids| ==> ids[i] in reviews
    ensures 100 <= UserRating(RatingsAt(ids, reviews)) <= 500
  {
    var field := ReviewField(reviews, uid);
    assert id in field;
    assert |ids| >= 1;
    var ratings := RatingsAt(ids, reviews);
    assert forall i :: 0 <= i < |ratings| ==> 1 <= ratings[i] <= 5 by {
      forall i | 0 <= i < |ratings| ensures 1 <= ratings[i] <= 5 {
        assert ids[i] in field;
      }
    }
    UserRatingInRange(ratings);
  }

  /** A user nobody has reviewed gets the rating 0.00. */
  lemma UnreviewedRatingIsZero(ids: seq<string>, reviews: map<string, ReviewRecord>, uid: string)
    requires IsQueryOrder(ids, ReviewField(reviews, uid))
    requires forall id :: id in reviews ==> reviews[id].toUserFirebaseUid != Some(uid)
    ensures forall i :: 0 <= i < |ids| ==> ids[i] in reviews
    ensures UserRating(RatingsAt(ids, reviews)) == 0
  {
    assert ReviewField(reviews, uid).Keys == {};
    QueryOrderLength(ids, ReviewField(reviews, uid));
  }

  /** The arguments `createReview` accepts: both uids present and a rating from 1 to 5. */
  predicate ValidReviewInput(r: ReviewRecord)
  {
    !NullOrEmpty(r.fromUserFirebaseUid) && !NullOrEmpty(r.toUserFirebaseUid) && 1 <= r.rating <= 5
  }

  /** The review `createReview` stores under the generated id: defaults applied and the author
      named from their profile. */
  function CreatedReview(review: ReviewRecord, now: string, newId: string, profiles: map<string, ProfileRecord>): (r: ReviewRecord)
    requires review.fromUserFirebaseUid.Some?
    ensures r.id == Some(newId)
    ensures r.fromUser == Some(ReviewUser(review.fromUserFirebaseUid, DisplayNameOf(review.fromUserFirebaseUid.value, profiles)))
    ensures r.(id := review.id, fromUser := review.fromUser) == Reviews.InitDefaultsOf(review, now)
  {
    Reviews.InitDefaultsOf(review, now).(
      fromUser := Some(ReviewUser(review.fromUserFirebaseUid, DisplayNameOf(review.fromUserFirebaseUid.value, profiles))),
      id := Some(newId))
  }

  /** The review service. */
  class ReviewService {
    const db: Database
    const userProfiles: UserProfileService

    constructor (userProfiles: UserProfileService)
      ensures db == userProfiles.db && this.userProfiles == userProfiles
    {
      db := userProfiles.db;
      this.userProfiles := userProfiles;
    }

    /** The review service and the profile service share one database. */
    predicate Valid()
    {
      userProfiles.db == db
    }

    /** `fetchDisplayNamesForUids(uids)`: every requested uid mapped to its profile's name, or
        to "Unknown User" when it has no profile; an empty request gives an empty map. */
    method FetchDisplayNamesForUids(uids: seq<string>) returns (names: map<string, Option<string>>)
      ensures |uids| == 0 ==> names == map[]
      ensures forall u :: u in names <==> u in uids
      ensures forall u :: u in names ==> names[u] == DisplayNameOf(u, db.profiles)
    {
      names := map[];
      if |uids| == 0 {
        return;
      }
      var i := 0;
      while i < |uids|
        invariant 0 <= i <= |uids|
        invariant forall u :: u in names <==> u in uids[..i]
        invariant forall u :: u in names ==> names[u] == DisplayNameOf(u, db.profiles)
      {
        var uid := uids[i];
        if uid in db.profiles {
          names := names[uid := db.profiles[uid].displayName];
        } else {
          names := names[uid := Some(UnknownUser)];
        }
        assert uids[..i + 1] == uids[..i] + [uid];
        i := i + 1;
      }
      assert uids[..i] == uids;
    }

    /** `populateReviewFromUser(review, names)` on the review object. */
    method PopulateReviewFromUser(review: Review, names: map<string, Option<string>>)
      modifies review
      ensures review.Value() == WithReviewer(old(review.Value()), names)
    {
      if review.fromUserFirebaseUid.Some? {
        var uid := review.fromUserFirebaseUid.value;
        var name := if uid in names then names[uid] else Some(UnknownUser);
        review.SetFromUser(Some(ReviewUser(review.fromUserFirebaseUid, name)));
      }
    }

    /** `getReviewsToUser(uid)`: the reviews addressed to uid, newest first, each with its id
        and its author's name. */
    method GetReviewsToUser(uid: string) returns (rs: seq<ReviewRecord>, ghost ids: seq<string>)
      ensures IsQueryOrder(ids, ReviewField(db.reviews, uid)) && |rs| == |ids|
      ensures forall i :: 0 <= i < |ids| ==> ids[i] in db.reviews && rs[i] == Reviewed(db.reviews[ids[i]].(id := Some(ids[i])), db.profiles)
    {
      var field := ReviewField(db.reviews, uid);
      var order := QueryOrder(field);
      ids := order;
      assert forall i :: 0 <= i < |order| ==> order[i] in field;
      // the distinct non-null authors, in query order
      var authors: seq<string> := [];
      var i := 0;
      while i < |order|
        invariant 0 <= i <= |order|
        invariant forall k :: 0 <= k < i ==> db.reviews[order[k]].fromUserFirebaseUid.Some? ==>
          db.reviews[order[k]].fromUserFirebaseUid.value in authors
      {
        var from := db.reviews[order[i]].fromUserFirebaseUid;
        if from.Some? && from.value !in authors {
          authors := authors + [from.value];
        }
        i := i + 1;
      }
      var names := FetchDisplayNamesForUids(authors);
      rs := [];
      i := 0;
      while i < |order|
        invariant 0 <= i <= |order|
        invariant |rs| == i
        invariant forall k :: 0 <= k < i ==> rs[k] == Reviewed(db.reviews[order[k]].(id := Some(order[k])), db.profiles)
      {
        var review := new Review.FromRecord(db.reviews[order[i]]);
        review.SetId(Some(order[i]));
        PopulateReviewFromUser(review, names);
        PopulatedFromFetchedNames(db.reviews[order[i]].(id := Some(order[i])), names, db.profiles);
        rs := rs + [review.Value()];
        i := i + 1;
      }
    }

    /** The summing loop of `recalculateAndSaveUserRating`: the sum and the number of the
        ratings of the listed reviews. */
    static method TotalRating(reviews: seq<ReviewRecord>) returns (total: int, count: nat)
      ensures total == Sum(RatingsOf(reviews)) && count == |reviews|
    {
      total, count := 0, 0;
      while count < |reviews|
        invariant 0 <= count <= |reviews|
        invariant total == Sum(RatingsOf(reviews)[..count])
      {
        assert RatingsOf(reviews)[..count + 1][..count] == RatingsOf(reviews)[..count];
        total := total + reviews[count].rating;
        count := count + 1;
      }
      assert RatingsOf(reviews)[..count] == RatingsOf(reviews);
    }

    /** `recalculateAndSaveUserRating(uid)`: the mean of the ratings of every review addressed
        to uid, rounded half up to two decimals (0 when there is none), is written as the
        profile's rating and nothing else changes; a failed write is swallowed. */
    method RecalculateAndSaveUserRating(uid: string)
      requires Valid()
      modifies db`profiles
      ensures RatingRecomputed(db.reviews, old(db.profiles), db.profiles, uid)
    {
      var reviews, ids := GetReviewsToUser(uid);
      var total, count := TotalRating(reviews);
      var newRating := 0;
      if count > 0 {
        newRating := RoundHalfUpDiv(100 * total, count);
      }
      assert newRating == UserRating(RatingsOf(reviews));
      // a failure of the update (no such profile, an empty uid) is logged and ignored
      var updates := map["rating" := Number(Some(newRating))];
      assert |updates| == 1;
      var o := userProfiles.UpdateUserProfileFields(uid, updates);
      RatingWritten(old(db.profiles), db.profiles, uid, newRating, o);
      RecomputedFromList(reviews, ids, db.reviews, old(db.profiles), old(db.profiles), db.profiles, uid);
    }

    /** `createReview(review)`: the arguments are checked before the store is touched; then the
        review is stored under a generated id with its author's name, and the reviewee's rating
        is recomputed over all their reviews, this one included. */
    method CreateReview(review: ReviewRecord, now: string, newId: string) returns (r: Result<ReviewRecord>)
      requires Valid()
      modifies db`reviews, db`profiles
      ensures r.Err? <==> !ValidReviewInput(review)
      ensures r.Err? ==> r.error == IllegalArgument && db.reviews == old(db.reviews) && db.profiles == old(db.profiles)
      ensures r.Ok? ==>
        r.value == CreatedReview(review, now, newId, old(db.profiles))
        && db.reviews == old(db.reviews)[newId := r.value]
      ensures r.Ok? ==> RatingRecomputed(db.reviews, old(db.profiles), db.profiles, review.toUserFirebaseUid.value)
      ensures RatingsValid(old(db.reviews)) ==> RatingsValid(db.reviews)
    {
      if review.fromUserFirebaseUid.None? || review.fromUserFirebaseUid.value == "" {
        return Err(IllegalArgument);
      }
      if review.toUserFirebaseUid.None? || review.toUserFirebaseUid.value == "" {
        return Err(IllegalArgument);
      }
      if review.rating < 1 || review.rating > 5 {
        return Err(IllegalArgument);
      }
      var created := new Review.FromRecord(review);
      created.InitDefaults(now);
      var author := review.fromUserFirebaseUid.value;
      if author in db.profiles {
        created.SetFromUser(Some(ReviewUser(review.fromUserFirebaseUid, db.profiles[author].displayName)));
      } else {
        created.SetFromUser(Some(ReviewUser(review.fromUserFirebaseUid, Some(UnknownUser))));
      }
      created.SetId(Some(newId));
      db.reviews := db.reviews[newId := created.Value()];
      RecalculateAndSaveUserRating(created.toUserFirebaseUid.value);
      r := Ok(created.Value());
    }

    /** `deleteReview(id)`: a missing review is reported and one without a reviewee refused,
        both before anything is removed; otherwise the review is removed and the reviewee's
        rating recomputed over the reviews that remain. */
    method DeleteReview(id: string) returns (o: Outcome)
      requires Valid()
      modifies db`reviews, db`profiles
      ensures id !in old(db.reviews) ==> o == Fail(ResourceNotFound)
      ensures id in old(db.reviews) && old(db.reviews)[id].toUserFirebaseUid.None? ==> o == Fail(RuntimeFailure)
      ensures id in old(db.reviews) && old(db.reviews)[id].toUserFirebaseUid.Some? ==> o == Done
      ensures o.Fail? ==> db.reviews == old(db.reviews) && db.profiles == old(db.profiles)
      ensures o == Done ==> id in old(db.reviews) && old(db.reviews)[id].toUserFirebaseUid.Some?
      ensures o == Done ==>
        var reviewee := old(db.reviews)[id].toUserFirebaseUid.value;
        db.reviews == old(db.reviews) - {id} && RatingRecomputed(db.reviews, old(db.profiles), db.profiles, reviewee)
    {
      if id !in db.reviews {
        return Fail(ResourceNotFound);
      }
      var reviewee := db.reviews[id].toUserFirebaseUid;
      if reviewee.None? {
        return Fail(RuntimeFailure);
      }
      db.reviews := db.reviews - {id};
      RecalculateAndSaveUserRating(reviewee.value);
      o := Done;
    }
  }
}
