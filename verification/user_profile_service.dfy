/** The user-profile service: profiles are stored in the "user_profiles" collection under the
    owner's Firebase uid. */
module UserProfileServices {
  import opened Common
  import opened Text
  import opened UserProfiles
  import opened Images
  import opened Firestore

  /** A value in the field map of a partial `update`: a string, a number (the rating, in
      hundredths) or a list of strings, each of which may be null. */
  datatype FieldValue =
    | Text(text: Option<string>)
    | Number(number: Option<int>)
    | TextList(list: Option<seq<string>>)

  /** The fields of a profile document. */
  datatype Field =
    | Id | FirebaseUid | DisplayName | Email | Location | Bio | SkillsOffered | Needs | Rating
    | CreatedAt | ProfileImageUrl

  /** The name under which a field is stored. */
  function FieldName(f: Field): string
  {
    match f
    case Id => "id"
    case FirebaseUid => "firebaseUid"
    case DisplayName => "displayName"
    case Email => "email"
    case Location => "location"
    case Bio => "bio"
    case SkillsOffered => "skillsOffered"
    case Needs => "needs"
    case Rating => "rating"
    case CreatedAt => "createdAt"
    case ProfileImageUrl => "profileImageUrl"
  }

  /** The stored value of a field. */
  function FieldOf(p: ProfileRecord, f: Field): FieldValue
  {
    match f
    case Id => Text(p.id)
    case FirebaseUid => Text(p.firebaseUid)
    case DisplayName => Text(p.displayName)
    case Email => Text(p.email)
    case Location => Text(p.location)
    case Bio => Text(p.bio)
    case SkillsOffered => TextList(p.skillsOffered)
    case Needs => TextList(p.needs)
    case Rating => Number(p.rating)
    case CreatedAt => Text(p.createdAt)
    case ProfileImageUrl => Text(p.profileImageUrl)
  }

  predicate SameKind(a: FieldValue, b: FieldValue)
  {
    (a.Text? && b.Text?) || (a.Number? && b.Number?) || (a.TextList? && b.TextList?)
  }

  /** The update map assigns field f a value of its type. */
  predicate Applies(p: ProfileRecord, updates: map<string, FieldValue>, f: Field)
  {
    FieldName(f) in updates && SameKind(updates[FieldName(f)], FieldOf(p, f))
  }

  /** Two profiles that agree on every field are equal. */
  lemma FieldsDetermineProfile(a: ProfileRecord, b: ProfileRecord)
    requires forall f :: FieldOf(a, f) == FieldOf(b, f)
    ensures a == b
  {
    assert FieldOf(a, Id) == FieldOf(b, Id);
    assert FieldOf(a, FirebaseUid) == FieldOf(b, FirebaseUid);
    assert FieldOf(a, DisplayName) == FieldOf(b, DisplayName);
    assert FieldOf(a, Email) == FieldOf(b, Email);
    assert FieldOf(a, Location) == FieldOf(b, Location);
    assert FieldOf(a, Bio) == FieldOf(b, Bio);
    assert FieldOf(a, SkillsOffered) == FieldOf(b, SkillsOffered);
    assert FieldOf(a, Needs) == FieldOf(b, Needs);
    assert FieldOf(a, Rating) == FieldOf(b, Rating);
    assert FieldOf(a, CreatedAt) == FieldOf(b, CreatedAt);
    assert FieldOf(a, ProfileImageUrl) == FieldOf(b, ProfileImageUrl);
  }

  function NewText(updates: map<string, FieldValue>, name: string, current: Option<string>): Option<string>
  {
    if name in updates && updates[name].Text? then updates[name].text else current
  }

  function NewList(updates: map<string, FieldValue>, name: string, current: Option<seq<string>>): Option<seq<string>>
  {
    if name in updates && updates[name].TextList? then updates[name].list else current
  }

  function NewNumber(updates: map<string, FieldValue>, name: string, current: Option<int>): Option<int>
  {
    if name in updates && updates[name].Number? then updates[name].number else current
  }

  /** `docRef.update(updates)` on a stored profile: every listed field takes its new value and
      every other field keeps its stored one. */
  function ApplyUpdates(p: ProfileRecord, updates: map<string, FieldValue>): (r: ProfileRecord)
    ensures forall f :: Applies(p, updates, f) ==> FieldOf(r, f) == updates[FieldName(f)]
    ensures forall f :: !Applies(p, updates, f) ==> FieldOf(r, f) == FieldOf(p, f)
  {
    ProfileRecord(
      NewText(updates, "id", p.id),
      NewText(updates, "firebaseUid", p.firebaseUid),
      NewText(updates, "displayName", p.displayName),
      NewText(updates, "email", p.email),
      NewText(updates, "location", p.location),
      NewText(updates, "bio", p.bio),
      NewList(updates, "skillsOffered", p.skillsOffered),
      NewList(updates, "needs", p.needs),
      NewNumber(updates, "rating", p.rating),
      NewText(updates, "createdAt", p.createdAt),
      NewText(updates, "profileImageUrl", p.profileImageUrl))
  }

  /** An update that names no profile field changes nothing. */
  lemma UpdateOfNoFieldIsIdentity(p: ProfileRecord, updates: map<string, FieldValue>)
    requires forall f :: FieldName(f) !in updates
    ensures ApplyUpdates(p, updates) == p
  {
    var r := ApplyUpdates(p, updates);
    forall f ensures FieldOf(r, f) == FieldOf(p, f) {
      assert !Applies(p, updates, f);
    }
    FieldsDetermineProfile(r, p);
  }

  /** Writing the rating alone changes the rating and no other field. */
  lemma RatingUpdate(p: ProfileRecord, rating: int)
    ensures ApplyUpdates(p, map["rating" := Number(Some(rating))]) == p.(rating := Some(rating))
  {
    var updates := map["rating" := Number(Some(rating))];
    var r := ApplyUpdates(p, updates);
    forall f ensures FieldOf(r, f) == FieldOf(p.(rating := Some(rating)), f) {
      if f == Rating {
        assert Applies(p, updates, f);
      } else {
        assert FieldName(f) != "rating";
        assert !Applies(p, updates, f);
      }
    }
    FieldsDetermineProfile(r, p.(rating := Some(rating)));
  }

  /** The profile `createUser` stores: defaults applied, an empty creation date replaced by the
      clock, and the image URL the upload produced (null without an image). */
  function NewProfileOf(user: ProfileRecord, now: string, imageUrl: Option<string>): (r: ProfileRecord)
    ensures r.createdAt == (if NullOrEmpty(user.createdAt) then Some(now) else user.createdAt)
    ensures r.rating == (if user.rating.None? then Some(0) else user.rating)
    ensures r.bio == (if user.bio.None? then Some("") else user.bio)
    ensures r.profileImageUrl == imageUrl
    ensures r.(createdAt := user.createdAt, rating := user.rating, bio := user.bio, profileImageUrl := user.profileImageUrl) == user
  {
    var d := InitDefaultsOf(user, now);
    d.(createdAt := if d.createdAt == Some("") then Some(now) else d.createdAt, profileImageUrl := imageUrl)
  }

  /** The merge of `updateUser`: each of displayName, location, bio, skillsOffered and needs is
      replaced when the incoming value is non-null; the image is handled apart. */
  function MergeProfile(existing: ProfileRecord, incoming: ProfileRecord): (r: ProfileRecord)
    ensures r.displayName == (if incoming.displayName.Some? then incoming.displayName else existing.displayName)
    ensures r.location == (if incoming.location.Some? then incoming.location else existing.location)
    ensures r.bio == (if incoming.bio.Some? then incoming.bio else existing.bio)
    ensures r.skillsOffered == (if incoming.skillsOffered.Some? then incoming.skillsOffered else existing.skillsOffered)
    ensures r.needs == (if incoming.needs.Some? then incoming.needs else existing.needs)
    ensures r.(displayName := existing.displayName, location := existing.location, bio := existing.bio,
               skillsOffered := existing.skillsOffered, needs := existing.needs) == existing
  {
    existing.(
      displayName := if incoming.displayName.Some? then incoming.displayName else existing.displayName,
      location := if incoming.location.Some? then incoming.location else existing.location,
      bio := if incoming.bio.Some? then incoming.bio else existing.bio,
      skillsOffered := if incoming.skillsOffered.Some? then incoming.skillsOffered else existing.skillsOffered,
      needs := if incoming.needs.Some? then incoming.needs else existing.needs)
  }

  /** The fields a general edit never touches: the rating, email, creation date and uid. */
  lemma MergeKeepsProtectedFields(existing: ProfileRecord, incoming: ProfileRecord)
    ensures var r := MergeProfile(existing, incoming);
      r.rating == existing.rating && r.email == existing.email && r.createdAt == existing.createdAt
      && r.firebaseUid == existing.firebaseUid && r.id == existing.id
      && r.profileImageUrl == existing.profileImageUrl
  {
  }

  /** An edit that carries no field leaves the profile as it was, and merging is idempotent. */
  lemma MergeIdentityAndIdempotence(existing: ProfileRecord, incoming: ProfileRecord)
    ensures MergeProfile(existing, EmptyProfile) == existing
    ensures MergeProfile(MergeProfile(existing, incoming), incoming) == MergeProfile(existing, incoming)
  {
  }

  /** The profile image after `updateUser`: the new upload's URL, null when the literal "null"
      was sent, and the stored URL otherwise. */
  function NewImageUrl(existing: Option<string>, incoming: Option<string>, uploaded: Option<string>): Option<string>
  {
    if uploaded.Some? then uploaded
    else if incoming == Some("null") then None
    else existing
  }

  /** The profile service. */
  class UserProfileService {
    const db: Database
    const images: ImageUploadService

    constructor (db: Database, images: ImageUploadService)
      ensures this.db == db && this.images == images
    {
      this.db := db;
      this.images := images;
    }

    /** `getUserProfileByFirebaseUid(uid)`: empty for a missing document; otherwise the stored
        profile with its id set to the uid and its defaults applied. */
    method GetUserProfileByFirebaseUid(uid: string, now: string) returns (r: Option<ProfileRecord>)
      ensures uid !in db.profiles <==> r.None?
      ensures r.Some? ==> r.value == InitDefaultsOf(db.profiles[uid].(id := Some(uid)), now)
      ensures r.Some? ==> r.value.id == Some(uid) && r.value.rating.Some? && r.value.bio.Some? && r.value.createdAt.Some?
    {
      if uid !in db.profiles {
        return None;
      }
      var user := new UserProfile.FromRecord(db.profiles[uid]);
      user.SetId(Some(uid));
      user.InitDefaults(now);
      r := Some(user.Value());
    }

    /** `createUser(user, image)`: defaults are applied and a non-empty image is uploaded before
        the uid is checked; without a uid nothing is stored, otherwise the profile is written
        under its uid (replacing any profile there) and returned with that id. */
    method CreateUser(user: ProfileRecord, image: seq<bv8>, now: string, publicId: string, format: string, version: string)
      returns (r: Result<ProfileRecord>)
      modifies db`profiles, images.media`publicIds
      ensures r.Err? <==> NullOrEmpty(user.firebaseUid)
      ensures r.Err? ==> r.error == IllegalArgument && db.profiles == old(db.profiles)
      ensures r.Ok? ==>
        var stored := NewProfileOf(user, now, if |image| > 0 then Some(SecureUrl(images.media.cloudName, version, publicId, format)) else None);
        db.profiles == old(db.profiles)[user.firebaseUid.value := stored]
        && r.value == stored.(id := user.firebaseUid)
      ensures images.media.publicIds == if |image| > 0 then old(images.media.publicIds) + {publicId} else old(images.media.publicIds)
    {
      var profile := new UserProfile.FromRecord(user);
      profile.InitDefaults(now);
      if profile.createdAt.None? || profile.createdAt.value == "" {
        profile.SetCreatedAt(Some(now));
      }
      if |image| > 0 {
        var url := images.UploadImage(image, publicId, format, version);
        profile.SetProfileImageUrl(Some(url.value));
      } else {
        profile.SetProfileImageUrl(None);
      }
      var docId := profile.firebaseUid;
      if docId.None? || docId.value == "" {
        return Err(IllegalArgument);
      }
      db.profiles := db.profiles[docId.value := profile.Value()];
      profile.SetId(docId);
      r := Ok(profile.Value());
    }

    /** `updateUser(uid, updated, newImage)`: a missing profile is reported before anything is
        written; otherwise the merge is applied, a new image replaces the old one (whose deletion
        may fail silently), the literal "null" removes the image, and the whole profile is
        written back. */
    method UpdateUser(uid: string, updated: ProfileRecord, newImage: seq<bv8>, publicId: string, format: string, version: string)
      returns (r: Result<ProfileRecord>)
      modifies db`profiles, images.media`publicIds
      ensures uid !in old(db.profiles) ==>
        r == Err(ResourceNotFound) && db.profiles == old(db.profiles) && images.media.publicIds == old(images.media.publicIds)
      ensures uid in old(db.profiles) ==>
        var existing := old(db.profiles)[uid];
        var uploaded := if |newImage| > 0 then Some(SecureUrl(images.media.cloudName, version, publicId, format)) else None;
        var stored := MergeProfile(existing, updated).(profileImageUrl := NewImageUrl(existing.profileImageUrl, updated.profileImageUrl, uploaded));
        r == Ok(stored.(id := Some(uid))) && db.profiles == old(db.profiles)[uid := stored]
      ensures uid in old(db.profiles) ==>
        var existingUrl := old(db.profiles)[uid].profileImageUrl;
        images.media.publicIds ==
          if |newImage| > 0 then AfterDelete(existingUrl, old(images.media.publicIds) + {publicId})
          else if updated.profileImageUrl == Some("null") then AfterDelete(existingUrl, old(images.media.publicIds))
          else old(images.media.publicIds)
    {
      if uid !in db.profiles {
        return Err(ResourceNotFound);
      }
      var existing := new UserProfile.FromRecord(db.profiles[uid]);
      ApplyEdits(existing, updated);
      if |newImage| > 0 {
        var url := images.UploadImage(newImage, publicId, format, version);
        if !NullOrEmpty(existing.profileImageUrl) {
          // a failed deletion of the old image is logged and ignored
          var _ := images.DeleteImage(existing.profileImageUrl);
        }
        existing.SetProfileImageUrl(Some(url.value));
      } else if updated.profileImageUrl == Some("null") {
        if !NullOrEmpty(existing.profileImageUrl) {
          var _ := images.DeleteImage(existing.profileImageUrl);
        }
        existing.SetProfileImageUrl(None);
      }
      db.profiles := db.profiles[uid := existing.Value()];
      existing.SetId(Some(uid));
      r := Ok(existing.Value());
    }

    /** The field-by-field merge of `updateUser` on the stored profile object. */
    static method ApplyEdits(existing: UserProfile, updated: ProfileRecord)
      modifies existing
      ensures existing.Value() == MergeProfile(old(existing.Value()), updated)
    {
      if updated.displayName.Some? {
        existing.SetDisplayName(updated.displayName);
      }
      if updated.location.Some? {
        existing.SetLocation(updated.location);
      }
      if updated.bio.Some? {
        existing.SetBio(updated.bio);
      }
      if updated.skillsOffered.Some? {
        existing.SetSkillsOffered(updated.skillsOffered);
      }
      if updated.needs.Some? {
        existing.SetNeeds(updated.needs);
      }
    }

    /** `updateUserProfileFields(uid, updates)`: an empty uid is refused, an empty update does
        nothing, a missing profile is reported, and otherwise exactly the listed fields change. */
    method UpdateUserProfileFields(uid: string, updates: map<string, FieldValue>) returns (o: Outcome)
      modifies db`profiles
      ensures uid == "" ==> o == Fail(IllegalArgument)
      ensures uid != "" && |updates| == 0 ==> o == Done
      ensures uid != "" && |updates| > 0 && uid !in old(db.profiles) ==> o == Fail(ResourceNotFound)
      ensures uid != "" && |updates| > 0 && uid in old(db.profiles) ==> o == Done
      ensures o.Fail? || |updates| == 0 ==> db.profiles == old(db.profiles)
      ensures o == Done && |updates| > 0 ==>
        uid in old(db.profiles) && db.profiles == old(db.profiles)[uid := ApplyUpdates(old(db.profiles)[uid], updates)]
    {
      if uid == "" {
        return Fail(IllegalArgument);
      }
      if |updates| == 0 {
        return Done;
      }
      if uid !in db.profiles {
        return Fail(ResourceNotFound);
      }
      db.profiles := db.profiles[uid := ApplyUpdates(db.profiles[uid], updates)];
      o := Done;
    }

    /** `deleteUser(id)`: a missing profile is reported; otherwise its image is deleted (a
        failure is logged and ignored) and the profile removed. */
    method DeleteUser(id: string) returns (o: Outcome)
      modifies db`profiles, images.media`publicIds
      ensures id !in old(db.profiles) ==>
        o == Fail(ResourceNotFound) && db.profiles == old(db.profiles) && images.media.publicIds == old(images.media.publicIds)
      ensures id in old(db.profiles) ==>
        o == Done && db.profiles == old(db.profiles) - {id}
        && images.media.publicIds == AfterDelete(old(db.profiles)[id].profileImageUrl, old(images.media.publicIds))
    {
      if id !in db.profiles {
        return Fail(ResourceNotFound);
      }
      var url := db.profiles[id].profileImageUrl;
      if !NullOrEmpty(url) {
        var _ := images.DeleteImage(url);
      }
      db.profiles := db.profiles - {id};
      o := Done;
    }
  }
}
