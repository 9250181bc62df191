/** A barter post: the document stored in the `barterPosts` collection and the mutable
    object the services fill in and pass around. */
module BarterPosts {
  import opened Common
  import opened AvailabilityRanges

  /** The stored fields of a post; every one of them may be null. The `type` field is
      called `postType` here because `type` is a Dafny keyword. */
  datatype PostRecord = PostRecord(
    id: Option<string>,
    userFirebaseUid: Option<string>,
    title: Option<string>,
    description: Option<string>,
    postType: Option<string>,
    tags: Option<seq<string>>,
    preferredExchange: Option<string>,
    imageUrl: Option<string>,
    location: Option<string>,
    availability: Option<seq<AvailabilityRange>>,
    status: Option<string>,
    createdAt: Option<string>,
    displayName: Option<string>,
    profileImageUrl: Option<string>)

  /** A post whose every field is null, as `new BarterPost()` leaves it. */
  const EmptyPost: PostRecord :=
    PostRecord(None, None, None, None, None, None, None, None, None, None, None, None, None, None)

  /** The status a post gets when it has none. */
  const OpenStatus: string := "open"

  /** The post after `initDefaults()` at clock reading `now`. */
  function InitDefaultsOf(p: PostRecord, now: string): (r: PostRecord)
    ensures r.createdAt.Some? && !NullOrEmpty(r.status)
    ensures p.createdAt.Some? ==> r.createdAt == p.createdAt
    ensures p.createdAt.None? ==> r.createdAt == Some(now)
    ensures !NullOrEmpty(p.status) ==> r.status == p.status
    ensures NullOrEmpty(p.status) ==> r.status == Some(OpenStatus)
    ensures r.(createdAt := p.createdAt, status := p.status) == p
  {
    p.(createdAt := if p.createdAt.None? then Some(now) else p.createdAt,
       status := if NullOrEmpty(p.status) then Some(OpenStatus) else p.status)
  }

  /** initDefaults is idempotent, whatever the clock reads the second time. */
  lemma InitDefaultsIdempotent(p: PostRecord, now: string, later: string)
    ensures InitDefaultsOf(InitDefaultsOf(p, now), later) == InitDefaultsOf(p, now)
  {
  }

  /** The mutable `BarterPost` object. */
  class BarterPost {
    var id: Option<string>
    var userFirebaseUid: Option<string>
    var title: Option<string>
    var description: Option<string>
    var postType: Option<string>
    var tags: Option<seq<string>>
    var preferredExchange: Option<string>
    var imageUrl: Option<string>
    var location: Option<string>
    var availability: Option<seq<AvailabilityRange>>
    var status: Option<string>
    var createdAt: Option<string>
    var displayName: Option<string>
    var profileImageUrl: Option<string>

    /** The object's fields as a document. */
    function Value(): PostRecord
      reads this
    {
      PostRecord(id, userFirebaseUid, title, description, postType, tags, preferredExchange, imageUrl,
                 location, availability, status, createdAt, displayName, profileImageUrl)
    }

    /** `new BarterPost()` */
    constructor ()
      ensures Value() == EmptyPost
    {
      id, userFirebaseUid, title, description, postType := None, None, None, None, None;
      tags, preferredExchange, imageUrl, location, availability := None, None, None, None, None;
      status, createdAt, displayName, profileImageUrl := None, None, None, None;
    }

    /** `toObject(BarterPost.class)`: an object holding the fields of a stored document. */
    constructor FromRecord(r: PostRecord)
      ensures Value() == r
    {
      id, userFirebaseUid, title, description, postType := r.id, r.userFirebaseUid, r.title, r.description, r.postType;
      tags, preferredExchange, imageUrl, location := r.tags, r.preferredExchange, r.imageUrl, r.location;
      availability, status, createdAt := r.availability, r.status, r.createdAt;
      displayName, profileImageUrl := r.displayName, r.profileImageUrl;
    }

    /** `initDefaults()`, with the clock reading passed in: a null createdAt becomes now and a
        null or empty status becomes "open"; nothing else changes. */
    method InitDefaults(now: string)
      modifies this
      ensures Value() == InitDefaultsOf(old(Value()), now)
    {
      if createdAt.None? {
        createdAt := Some(now);
      }
      if status.None? || status.value == "" {
        status := Some(OpenStatus);
      }
    }

    method SetId(v: Option<string>)
      modifies this
      ensures Value() == old(Value()).(id := v)
    {
      id := v;
    }

    method SetUserFirebaseUid(v: Option<string>)
      modifies this
      ensures Value() == old(Value()).(userFirebaseUid := v)
    {
      userFirebaseUid := v;
    }

    method SetTitle(v: Option<string>)
      modifies this
      ensures Value() == old(Value()).(title := v)
    {
      title := v;
    }

    method SetDescription(v: Option<string>)
      modifies this
      ensures Value() == old(Value()).(description := v)
    {
      description := v;
    }

    method SetType(v: Option<string>)
      modifies this
      ensures Value() == old(Value()).(postType := v)
    {
      postType := v;
    }

    method SetTags(v: Option<seq<string>>)
      modifies this
      ensures Value() == old(Value()).(tags := v)
    {
      tags := v;
    }

    method SetPreferredExchange(v: Option<string>)
      modifies this
      ensures Value() == old(Value()).(preferredExchange := v)
    {
      preferredExchange := v;
    }

    method SetImageUrl(v: Option<string>)
      modifies this
      ensures Value() == old(Value()).(imageUrl := v)
    {
      imageUrl := v;
    }

    method SetLocation(v: Option<string>)
      modifies this
      ensures Value() == old(Value()).(location := v)
    {
      location := v;
    }

    method SetAvailability(v: Option<seq<AvailabilityRange>>)
      modifies this
      ensures Value() == old(Value()).(availability := v)
    {
      availability := v;
    }

    method SetStatus(v: Option<string>)
      modifies this
      ensures Value() == old(Value()).(status := v)
    {
      status := v;
    }

    method SetCreatedAt(v: Option<string>)
      modifies this
      ensures Value() == old(Value()).(createdAt := v)
    {
      createdAt := v;
    }

    method SetDisplayName(v: Option<string>)
      modifies this
      ensures Value() == old(Value()).(displayName := v)
    {
      displayName := v;
    }

    method SetProfileImageUrl(v: Option<string>)
      modifies this
      ensures Value() == old(Value()).(profileImageUrl := v)
    {
      profileImageUrl := v;
    }
  }
}
