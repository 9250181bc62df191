/** A review: the document stored in the `reviews` collection, and the mutable object the
    review service fills in. */
module Reviews {
  import opened Common

  /** The author of a review as shown beside it. */
  datatype ReviewUser = ReviewUser(firebaseUid: Option<string>, displayName: Option<string>)

  /** The stored fields of a review. `rating` is a primitive int and so never null. */
  datatype ReviewRecord = ReviewRecord(
    id: Option<string>,
    rating: int,
    comment: Option<string>,
    toUserFirebaseUid: Option<string>,
    fromUserFirebaseUid: Option<string>,
    createdAt: Option<string>,
    barterPostId: Option<string>,
    fromUser: Option<ReviewUser>)

  /** The review after `initDefaults()` at clock reading `now`. */
  function InitDefaultsOf(r: ReviewRecord, now: string): (d: ReviewRecord)
    ensures !NullOrEmpty(d.createdAt) || now == ""
    ensures !NullOrEmpty(r.createdAt) ==> d.createdAt == r.createdAt
    ensures NullOrEmpty(r.createdAt) ==> d.createdAt == Some(now)
    ensures d.(createdAt := r.createdAt) == r
  {
    r.(createdAt := if NullOrEmpty(r.createdAt) then Some(now) else r.createdAt)
  }

  /** The mutable `Review` object. */
  class Review {
    var id: Option<string>
    var rating: int
    var comment: Option<string>
    var toUserFirebaseUid: Option<string>
    var fromUserFirebaseUid: Option<string>
    var createdAt: Option<string>
    var barterPostId: Option<string>
    var fromUser: Option<ReviewUser>

    /** The object's fields as a document. */
    function Value(): ReviewRecord
      reads this
    {
      ReviewRecord(id, rating, comment, toUserFirebaseUid, fromUserFirebaseUid, createdAt, barterPostId, fromUser)
    }

    /** An object holding the given fields: the request body, or `toObject(Review.class)`,
        which also fills `id` from the document id. */
    constructor FromRecord(r: ReviewRecord)
      ensures Value() == r
    {
      id, rating, comment, toUserFirebaseUid := r.id, r.rating, r.comment, r.toUserFirebaseUid;
      fromUserFirebaseUid, createdAt, barterPostId, fromUser := r.fromUserFirebaseUid, r.createdAt, r.barterPostId, r.fromUser;
    }

    /** `initDefaults()`, with the clock reading passed in: a null or empty createdAt becomes
        now; nothing else changes. */
    method InitDefaults(now: string)
      modifies this
      ensures Value() == InitDefaultsOf(old(Value()), now)
    {
      if createdAt.None? || createdAt.value == "" {
        createdAt := Some(now);
      }
    }

    method SetId(v: Option<string>)
      modifies this
      ensures Value() == old(Value()).(id := v)
    {
      id := v;
    }

    /** `setFromUser` replaces the embedded author and nothing else. */
    method SetFromUser(v: Option<ReviewUser>)
      modifies this
      ensures Value() == old(Value()).(fromUser := v)
    {
      fromUser := v;
    }
  }
}
