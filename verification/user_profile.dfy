/** A user profile: the document stored in the `user_profiles` collection under the user's
    Firebase uid, and the mutable object the services fill in. */
module UserProfiles {
  import opened Common

  /** The stored fields of a profile. `rating` is a Java Double; it is kept here in
      hundredths of a star, the precision the rating recomputation rounds to. */
  datatype ProfileRecord = ProfileRecord(
    id: Option<string>,
    firebaseUid: Option<string>,
    displayName: Option<string>,
    email: Option<string>,
    location: Option<string>,
    bio: Option<string>,
    skillsOffered: Option<seq<string>>,
    needs: Option<seq<string>>,
    rating: Option<int>,
    createdAt: Option<string>,
    profileImageUrl: Option<string>)

  /** A profile whose every field is null, as `new UserProfile()` leaves it. */
  const EmptyProfile: ProfileRecord :=
    ProfileRecord(None, None, None, None, None, None, None, None, None, None, None)

  /** The profile after `initDefaults()` at clock reading `now`. */
  function InitDefaultsOf(p: ProfileRecord, now: string): (r: ProfileRecord)
    ensures r.createdAt.Some? && r.rating.Some? && r.bio.Some?
    ensures r.createdAt == (if p.createdAt.None? then Some(now) else p.createdAt)
    ensures r.rating == (if p.rating.None? then Some(0) else p.rating)
    ensures r.bio == (if p.bio.None? then Some("") else p.bio)
    ensures r.(createdAt := p.createdAt, rating := p.rating, bio := p.bio) == p
  {
    p.(createdAt := if p.createdAt.None? then Some(now) else p.createdAt,
       rating := if p.rating.None? then Some(0) else p.rating,
       bio := if p.bio.None? then Some("") else p.bio)
  }

  /** initDefaults is idempotent, whatever the clock reads the second time. */
  lemma InitDefaultsIdempotent(p: ProfileRecord, now: string, later: string)
    ensures InitDefaultsOf(InitDefaultsOf(p, now), later) == InitDefaultsOf(p, now)
  {
  }

  /** The mutable `UserProfile` object. */
  class UserProfile {
    var id: Option<string>
    var firebaseUid: Option<string>
    var displayName: Option<string>
    var email: Option<string>
    var location: Option<string>
    var bio: Option<string>
    var skillsOffered: Option<seq<string>>
    var needs: Option<seq<string>>
    var rating: Option<int>
    var createdAt: Option<string>
    var profileImageUrl: Option<string>

    /** The object's fields as a document. */
    function Value(): ProfileRecord
      reads this
    {
      ProfileRecord(id, firebaseUid, displayName, email, location, bio, skillsOffered, needs, rating,
                    createdAt, profileImageUrl)
    }

    /** `toObject(UserProfile.class)`: an object holding the fields of a stored document. */
    constructor FromRecord(r: ProfileRecord)
      ensures Value() == r
    {
      id, firebaseUid, displayName, email, location := r.id, r.firebaseUid, r.displayName, r.email, r.location;
      bio, skillsOffered, needs, rating := r.bio, r.skillsOffered, r.needs, r.rating;
      createdAt, profileImageUrl := r.createdAt, r.profileImageUrl;
    }

    /** `initDefaults()`, with the clock reading passed in: a null createdAt becomes now, a
        null rating 0 and a null bio the empty string; nothing else changes. */
    method InitDefaults(now: string)
      modifies this
      ensures Value() == InitDefaultsOf(old(Value()), now)
    {
      if createdAt.None? {
        createdAt := Some(now);
      }
      if rating.None? {
        rating := Some(0);
      }
      if bio.None? {
        bio := Some("");
      }
    }

    method SetId(v: Option<string>)
      modifies this
      ensures Value() == old(Value()).(id := v)
    {
      id := v;
    }

    method SetDisplayName(v: Option<string>)
      modifies this
      ensures Value() == old(Value()).(displayName := v)
    {
      displayName := v;
    }

    method SetLocation(v: Option<string>)
      modifies this
      ensures Value() == old(Value()).(location := v)
    {
      location := v;
    }

    method SetBio(v: Option<string>)
      modifies this
      ensures Value() == old(Value()).(bio := v)
    {
      bio := v;
    }

    method SetSkillsOffered(v: Option<seq<string>>)
      modifies this
      ensures Value() == old(Value()).(skillsOffered := v)
    {
      skillsOffered := v;
    }

    method SetNeeds(v: Option<seq<string>>)
      modifies this
      ensures Value() == old(Value()).(needs := v)
    {
      needs := v;
    }

    method SetCreatedAt(v: Option<string>)
      modifies this
      ensures Value() == old(Value()).(createdAt := v)
    {
      createdAt := v;
    }

    method SetProfileImageUrl(v: Option<string>)
      modifies this
      ensures Value() == old(Value()).(profileImageUrl := v)
    {
      profileImageUrl := v;
    }
  }
}
