/** The post service: the filtered, paginated listing of posts, and the creation, edit view,
    update and deletion of a post by its owner. */
module BarterPostServices {
  import opened Common
  import opened BarterPosts
  import opened UserProfiles
  import opened Firestore
  import opened Images
  import opened PostListing

  /** The owner uid of each post, in order. */
  function Owners(posts: seq<PostRecord>): (r: seq<Option<string>>)
    ensures |r| == |posts|
    ensures forall i :: 0 <= i < |posts| ==> r[i] == posts[i].userFirebaseUid
  {
    seq(|posts|, i requires 0 <= i < |posts| => posts[i].userFirebaseUid)
  }

  /** The post `createPost` stores: the request's content, with the clock reading as createdAt,
      the requester as owner, status "open", the owner's display name and image joined in, the
      uploaded image's URL (or none) and the generated id. Nothing the client sent for these
      fields survives. */
  function NewPost(request: PostRecord, uid: string, now: string, owner: Option<ProfileRecord>, imageUrl: Option<string>, id: string)
    : (p: PostRecord)
    ensures p.id == Some(id) && p.userFirebaseUid == Some(uid) && p.createdAt == Some(now)
    ensures p.status == Some(OpenStatus) && p.imageUrl == imageUrl
    ensures owner.Some? ==> p.displayName == owner.value.displayName && p.profileImageUrl == owner.value.profileImageUrl
    ensures owner.None? ==> p.displayName == Some(UnknownUser) && p.profileImageUrl.None?
    ensures p.(id := request.id, userFirebaseUid := request.userFirebaseUid, createdAt := request.createdAt,
               status := request.status, imageUrl := request.imageUrl, displayName := request.displayName,
               profileImageUrl := request.profileImageUrl) == request
  {
    WithOwner(request.(createdAt := Some(now), userFirebaseUid := Some(uid), status := Some(OpenStatus),
                       imageUrl := imageUrl, id := Some(id)), owner)
  }

  /** A new post is selected by the default listing query and by a listing of its owner's
      posts: it is open, and the query filters on location and tags are off. */
  lemma NewPostIsListed(request: PostRecord, uid: string, now: string, owner: Option<ProfileRecord>, imageUrl: Option<string>,
                        id: string, q: ListingQuery)
    requires q.status == "" || q.status == OpenStatus
    requires q.uploaderId == "" || q.uploaderId == uid
    requires q.location == "" && !TagFilterApplies(q.skillCategories)
    ensures MatchesQuery(NewPost(request, uid, now, owner, imageUrl, id), q)
  {
  }

  /** What `getPostByIdForEdit(id, requester)` answers: a missing post is not found; a post
      without an owner cannot be compared and fails; a post of someone else is refused; the
      owner gets the post with its id and the owner's display name and image. */
  function EditView(id: string, requester: string, posts: map<string, PostRecord>, profiles: map<string, ProfileRecord>)
    : (r: Result<PostRecord>)
    ensures r.Ok? <==> id in posts && posts[id].userFirebaseUid == Some(requester)
    ensures id !in posts ==> r == Err(ResourceNotFound)
    ensures id in posts && posts[id].userFirebaseUid.None? ==> r == Err(RuntimeFailure)
    ensures id in posts && posts[id].userFirebaseUid.Some? && posts[id].userFirebaseUid != Some(requester) ==>
      r == Err(UnauthorizedAccess)
    ensures r.Ok? ==> r.value.id == Some(id) && r.value.userFirebaseUid == Some(requester)
    ensures r.Ok? ==>
      r.value.(displayName := posts[id].displayName, profileImageUrl := posts[id].profileImageUrl) == posts[id].(id := Some(id))
    ensures r.Ok? && requester in profiles ==>
      r.value.displayName == profiles[requester].displayName && r.value.profileImageUrl == profiles[requester].profileImageUrl
    ensures r.Ok? && requester !in profiles ==>
      r.value.displayName == Some(UnknownUser) && r.value.profileImageUrl == None
  {
    if id !in posts then Err(ResourceNotFound)
    else if posts[id].userFirebaseUid.None? then Err(RuntimeFailure)
    else if posts[id].userFirebaseUid != Some(requester) then Err(UnauthorizedAccess)
    else Ok(WithOwner(posts[id].(id := Some(id)), OwnerProfile(posts[id], profiles)))
  }

  /** The owner of a post just created can open it for editing, and nobody else can. */
  lemma NewPostEditableOnlyByOwner(posts: map<string, PostRecord>, profiles: map<string, ProfileRecord>, request: PostRecord,
                                   uid: string, now: string, imageUrl: Option<string>, id: string, requester: string)
    ensures var stored := posts[id := NewPost(request, uid, now, OwnerProfile(request.(userFirebaseUid := Some(uid)), profiles), imageUrl, id)];
      EditView(id, requester, stored, profiles).Ok? <==> requester == uid
  {
  }

  /** The fields `updatePost` copies from the request: each one the request carries (not null)
      replaces the stored value; id, owner, createdAt, image and owner details stay. */
  function MergePost(existing: PostRecord, request: PostRecord): (r: PostRecord)
    ensures r.title == (if request.title.Some? then request.title else existing.title)
    ensures r.description == (if request.description.Some? then request.description else existing.description)
    ensures r.postType == (if request.postType.Some? then request.postType else existing.postType)
    ensures r.tags == (if request.tags.Some? then request.tags else existing.tags)
    ensures r.preferredExchange == (if request.preferredExchange.Some? then request.preferredExchange else existing.preferredExchange)
    ensures r.location == (if request.location.Some? then request.location else existing.location)
    ensures r.availability == (if request.availability.Some? then request.availability else existing.availability)
    ensures r.status == (if request.status.Some? then request.status else existing.status)
    ensures r.id == existing.id && r.userFirebaseUid == existing.userFirebaseUid && r.createdAt == existing.createdAt
    ensures r.imageUrl == existing.imageUrl && r.displayName == existing.displayName
    ensures r.profileImageUrl == existing.profileImageUrl
  {
    PostRecord(existing.id, existing.userFirebaseUid, Pick(request.title, existing.title),
               Pick(request.description, existing.description), Pick(request.postType, existing.postType),
               Pick(request.tags, existing.tags), Pick(request.preferredExchange, existing.preferredExchange),
               existing.imageUrl, Pick(request.location, existing.location),
               Pick(request.availability, existing.availability), Pick(request.status, existing.status),
               existing.createdAt, existing.displayName, existing.profileImageUrl)
  }

  /** The value a request carries for a field, or the stored one when it carries none. */
  function Pick<T>(sent: Option<T>, stored: Option<T>): Option<T>
  {
    if sent.Some? then sent else stored
  }

  /** A request carrying nothing changes nothing, and applying the same request twice is the
      same as applying it once. */
  lemma MergePostIdentityAndIdempotence(existing: PostRecord, request: PostRecord)
    ensures MergePost(existing, EmptyPost) == existing
    ensures MergePost(MergePost(existing, request), request) == MergePost(existing, request)
  {
  }

  /** The post `updatePost` stores: the request merged in, the image URL the image handling
      settled on, and the owner's current display name and image. Its id, owner and creation
      time are the stored post's. */
  function UpdatedPost(existing: PostRecord, request: PostRecord, imageUrl: Option<string>, profiles: map<string, ProfileRecord>)
    : (p: PostRecord)
    requires existing.userFirebaseUid.Some?
    ensures p.id == existing.id && p.userFirebaseUid == existing.userFirebaseUid && p.createdAt == existing.createdAt
    ensures p.imageUrl == imageUrl
    ensures p.(displayName := existing.displayName, profileImageUrl := existing.profileImageUrl, imageUrl := existing.imageUrl)
      == MergePost(existing, request)
    ensures existing.userFirebaseUid.value in profiles ==>
      var owner := profiles[existing.userFirebaseUid.value];
      p.displayName == owner.displayName && p.profileImageUrl == owner.profileImageUrl
    ensures existing.userFirebaseUid.value !in profiles ==>
      p.displayName == Some(UnknownUser) && p.profileImageUrl == None
  {
    WithOwner(MergePost(existing, request).(imageUrl := imageUrl), OwnerProfile(existing, profiles))
  }

  /** A post without an owner puts a null uid among the distinct uids looked up. */
  lemma NullOwnerFails(posts: seq<PostRecord>, uids: seq<Option<string>>, distinct: seq<Option<string>>)
    requires uids == Owners(posts)
    requires forall u :: u in distinct <==> u in uids
    requires None in distinct
    ensures !AllOwned(posts)
  {
    var j :| 0 <= j < |uids| && uids[j] == None;
    assert posts[j].userFirebaseUid.None?;
  }

  /** When every distinct uid is a real one, every post has an owner and the lookups are the
      owners' uids, each once. */
  lemma OwnersFetchedOnce(posts: seq<PostRecord>, uids: seq<Option<string>>, distinct: seq<Option<string>>, fetched: seq<string>)
    requires uids == Owners(posts)
    requires forall u :: u in distinct <==> u in uids
    requires forall a, b :: 0 <= a < b < |distinct| ==> distinct[a] != distinct[b]
    requires |fetched| == |distinct| && forall j :: 0 <= j < |distinct| ==> distinct[j] == Some(fetched[j])
    ensures AllOwned(posts)
    ensures forall u :: u in fetched <==> Some(u) in uids
    ensures forall a, b :: 0 <= a < b < |fetched| ==> fetched[a] != fetched[b]
  {
    forall j | 0 <= j < |posts|
      ensures posts[j].userFirebaseUid.Some?
    {
      assert uids[j] in distinct;
    }
    forall u
      ensures u in fetched <==> Some(u) in uids
    {
      if u in fetched {
        var j :| 0 <= j < |fetched| && fetched[j] == u;
        assert distinct[j] == Some(u);
      }
      if Some(u) in distinct {
        var j :| 0 <= j < |distinct| && distinct[j] == Some(u);
        assert fetched[j] == u;
      }
    }
    forall a, b | 0 <= a < b < |fetched|
      ensures fetched[a] != fetched[b]
    {
      assert distinct[a] != distinct[b];
    }
  }

  class BarterPostService {
    const db: Database
    const images: ImageUploadService

    constructor (db: Database, images: ImageUploadService)
      ensures this.db == db && this.images == images
    {
      this.db := db;
      this.images := images;
    }

    /** `getFilteredPosts(…)`: the Firestore query selects and orders the posts; each distinct
        owner is looked up once (a post without an owner makes the lookup fail) and joined into
        the posts; the search and availability filters run in memory; and the requested page is
        cut out. The result is the listing for the query order `ids`, and `fetched` is the
        sequence of owner lookups. */
    method GetFilteredPosts(q: ListingQuery) returns (r: Result<seq<PostRecord>>, ghost ids: seq<string>, ghost fetched: seq<string>)
      ensures IsQueryOrder(ids, QueryField(db.posts, q))
      ensures r == Listing(ids, db.posts, db.profiles, q)
      ensures r.Ok? ==> forall i, j :: 0 <= i < j < |fetched| ==> fetched[i] != fetched[j]
      ensures r.Ok? ==> forall u :: u in fetched <==> Some(u) in Owners(Candidates(ids, db.posts))
    {
      var field := QueryField(db.posts, q);
      var order := QueryOrder(field);
      ids := order;
      QueryOrderLength(order, field);
      var posts, uids := QueryResult(order, db.posts);
      var distinct := Distinct(uids);
      var owners;
      owners, fetched := FetchOwners(distinct);
      if owners.None? {
        // looking up a null uid throws
        NullOwnerFails(posts, uids, distinct);
        return Err(RuntimeFailure), ids, fetched;
      }
      OwnersFetchedOnce(posts, uids, distinct, fetched);
      var joined := JoinOwners(posts, owners.value);
      // the in-memory filters, then the page
      var searched := SearchFilter(joined, q.searchTerm);
      var filtered := AvailabilityFilter(searched, q.availabilityFilter);
      r := Page(filtered, q.page, q.size);
    }

    /** The first pass over the query result: each post with its document id, and its owner. */
    static method QueryResult(order: seq<string>, stored: map<string, PostRecord>) returns (posts: seq<PostRecord>, uids: seq<Option<string>>)
      requires forall i :: 0 <= i < |order| ==> order[i] in stored
      ensures posts == Candidates(order, stored) && uids == Owners(posts)
    {
      posts, uids := [], [];
      var i := 0;
      while i < |order|
        invariant 0 <= i <= |order|
        invariant |posts| == i && |uids| == i
        invariant forall j :: 0 <= j < i ==> posts[j] == stored[order[j]].(id := Some(order[j]))
        invariant forall j :: 0 <= j < i ==> uids[j] == posts[j].userFirebaseUid
      {
        posts := posts + [stored[order[i]].(id := Some(order[i]))];
        uids := uids + [stored[order[i]].userFirebaseUid];
        i := i + 1;
      }
    }

    /** `stream().distinct()`: each element once, in order of first occurrence. */
    static method Distinct(uids: seq<Option<string>>) returns (distinct: seq<Option<string>>)
      ensures forall u :: u in distinct <==> u in uids
      ensures forall a, b :: 0 <= a < b < |distinct| ==> distinct[a] != distinct[b]
    {
      distinct := [];
      var i := 0;
      while i < |uids|
        invariant 0 <= i <= |uids|
        invariant forall u :: u in distinct <==> u in uids[..i]
        invariant forall a, b :: 0 <= a < b < |distinct| ==> distinct[a] != distinct[b]
      {
        assert uids[..i + 1] == uids[..i] + [uids[i]];
        if uids[i] !in distinct {
          distinct := distinct + [uids[i]];
        }
        i := i + 1;
      }
      assert uids[..|uids|] == uids;
    }

    /** One profile lookup per owner, in order: the profiles found, by uid, and the uids looked
        up; a null uid makes the lookup throw. */
    method FetchOwners(distinct: seq<Option<string>>) returns (owners: Option<map<string, ProfileRecord>>, ghost fetched: seq<string>)
      ensures owners.None? <==> None in distinct
      ensures owners.Some? ==> |fetched| == |distinct| && forall j :: 0 <= j < |distinct| ==> distinct[j] == Some(fetched[j])
      ensures owners.Some? ==> forall u :: u in owners.value <==> u in db.profiles && u in fetched
      ensures owners.Some? ==> forall u :: u in owners.value ==> owners.value[u] == db.profiles[u]
    {
      var found: map<string, ProfileRecord> := map[];
      fetched := [];
      var k := 0;
      while k < |distinct|
        invariant 0 <= k <= |distinct|
        invariant |fetched| == k
        invariant forall j :: 0 <= j < k ==> distinct[j] == Some(fetched[j])
        invariant forall u :: u in found <==> u in db.profiles && u in fetched
        invariant forall u :: u in found ==> found[u] == db.profiles[u]
      {
        if distinct[k].None? {
          return None, fetched;
        }
        var uid := distinct[k].value;
        if uid in db.profiles {
          found := found[uid := db.profiles[uid]];
        }
        fetched := fetched + [uid];
        k := k + 1;
      }
      owners := Some(found);
    }

    /** The enrichment pass: each post with its owner's profile from the lookups. */
    method JoinOwners(posts: seq<PostRecord>, owners: map<string, ProfileRecord>) returns (joined: seq<PostRecord>)
      requires AllOwned(posts)
      requires forall i :: 0 <= i < |posts| ==> (posts[i].userFirebaseUid.value in owners <==> posts[i].userFirebaseUid.value in db.profiles)
      requires forall u :: u in owners ==> u in db.profiles && owners[u] == db.profiles[u]
      ensures joined == Enrich(posts, db.profiles)
    {
      joined := [];
      var i := 0;
      while i < |posts|
        invariant 0 <= i <= |posts|
        invariant |joined| == i
        invariant forall j :: 0 <= j < i ==> joined[j] == WithOwner(posts[j], OwnerProfile(posts[j], db.profiles))
      {
        var uid := posts[i].userFirebaseUid.value;
        var owner := if uid in owners then Some(owners[uid]) else None;
        joined := joined + [WithOwner(posts[i], owner)];
        i := i + 1;
      }
    }

    /** The owner join the post operations repeat: the owner's display name and image, or
        "Unknown User" and no image when the owner has no profile. */
    method JoinOwner(post: BarterPost)
      requires post.userFirebaseUid.Some?
      modifies post
      ensures post.Value() == WithOwner(old(post.Value()), OwnerProfile(old(post.Value()), db.profiles))
    {
      var uid := post.userFirebaseUid.value;
      if uid in db.profiles {
        post.SetDisplayName(db.profiles[uid].displayName);
        post.SetProfileImageUrl(db.profiles[uid].profileImageUrl);
      } else {
        post.SetDisplayName(Some(UnknownUser));
        post.SetProfileImageUrl(None);
      }
    }

    /** `createPost(post, image, uid)`: the post gets the clock reading as createdAt, the
        requester as owner, status "open" and the owner's details; a non-empty image is uploaded
        and its URL recorded (otherwise there is no image); the post is stored under a generated
        id and returned. */
    method CreatePost(post: BarterPost, image: seq<bv8>, uid: string, now: string, newId: string,
                      publicId: string, format: string, version: string) returns (created: PostRecord)
      modifies post, db`posts, images.media`publicIds
      ensures created == post.Value()
      ensures var imageUrl := if |image| > 0 then Some(SecureUrl(images.media.cloudName, version, publicId, format)) else None;
        created == NewPost(old(post.Value()), uid, now, if uid in db.profiles then Some(db.profiles[uid]) else None, imageUrl, newId)
      ensures db.posts == old(db.posts)[newId := created]
      ensures images.media.publicIds == if |image| > 0 then old(images.media.publicIds) + {publicId} else old(images.media.publicIds)
    {
      post.SetCreatedAt(Some(now));
      post.SetUserFirebaseUid(Some(uid));
      post.SetStatus(Some(OpenStatus));
      JoinOwner(post);
      if |image| > 0 {
        var url := images.UploadImage(image, publicId, format, version);
        post.SetImageUrl(Some(url.value));
      } else {
        post.SetImageUrl(None);
      }
      post.SetId(Some(newId));
      db.posts := db.posts[newId := post.Value()];
      created := post.Value();
    }

    /** `getPostByIdForEdit(id, requester)`: reads the post and answers as EditView says;
        nothing is written. */
    method GetPostByIdForEdit(id: string, requester: string) returns (r: Result<PostRecord>)
      ensures r == EditView(id, requester, db.posts, db.profiles)
    {
      if id !in db.posts {
        return Err(ResourceNotFound);
      }
      var post := new BarterPost.FromRecord(db.posts[id]);
      if post.userFirebaseUid.None? {
        // comparing a null owner dereferences null
        return Err(RuntimeFailure);
      }
      if post.userFirebaseUid.value != requester {
        return Err(UnauthorizedAccess);
      }
      post.SetId(Some(id));
      JoinOwner(post);
      r := Ok(post.Value());
    }

    /** The field-by-field merge of `updatePost`. */
    static method ApplyEdits(existing: BarterPost, request: PostRecord)
      modifies existing
      ensures existing.Value() == MergePost(old(existing.Value()), request)
    {
      ApplyDescriptionEdits(existing, request);
      ApplyTermsEdits(existing, request);
    }

    /** The first half of the merge: title, description, type and tags. */
    static method ApplyDescriptionEdits(existing: BarterPost, request: PostRecord)
      modifies existing
      ensures existing.Value() == old(existing.Value()).(
        title := Pick(request.title, old(existing.title)), description := Pick(request.description, old(existing.description)),
        postType := Pick(request.postType, old(existing.postType)), tags := Pick(request.tags, old(existing.tags)))
    {
      if request.title.Some? {
        existing.SetTitle(request.title);
      }
      if request.description.Some? {
        existing.SetDescription(request.description);
      }
      if request.postType.Some? {
        existing.SetType(request.postType);
      }
      if request.tags.Some? {
        existing.SetTags(request.tags);
      }
    }

    /** The second half of the merge: preferred exchange, location, availability and status. */
    static method ApplyTermsEdits(existing: BarterPost, request: PostRecord)
      modifies existing
      ensures existing.Value() == old(existing.Value()).(
        preferredExchange := Pick(request.preferredExchange, old(existing.preferredExchange)),
        location := Pick(request.location, old(existing.location)),
        availability := Pick(request.availability, old(existing.availability)),
        status := Pick(request.status, old(existing.status)))
    {
      if request.preferredExchange.Some? {
        existing.SetPreferredExchange(request.preferredExchange);
      }
      if request.location.Some? {
        existing.SetLocation(request.location);
      }
      if request.availability.Some? {
        existing.SetAvailability(request.availability);
      }
      if request.status.Some? {
        existing.SetStatus(request.status);
      }
    }

    /** `updatePost(postId, request, newImage, requester)`: a missing post is not found and a
        post of someone else (or of nobody) is refused, both before any write. Otherwise the
        request is merged in; a non-empty new image is uploaded and replaces the image URL; a
        request image URL of "null" deletes the old image (a failed delete aborts the update
        before the write) and clears the URL; in every other case the old URL stays. The owner's
        details are joined in and the post is stored and returned. */
    method UpdatePost(postId: string, request: PostRecord, newImage: seq<bv8>, requester: string,
                      publicId: string, format: string, version: string) returns (r: Result<PostRecord>)
      modifies db`posts, images.media`publicIds
      ensures postId !in old(db.posts) ==>
        r == Err(ResourceNotFound) && db.posts == old(db.posts) && images.media.publicIds == old(images.media.publicIds)
      ensures postId in old(db.posts) && old(db.posts)[postId].userFirebaseUid != Some(requester) ==>
        r == Err(UnauthorizedAccess) && db.posts == old(db.posts) && images.media.publicIds == old(images.media.publicIds)
      ensures postId in old(db.posts) && old(db.posts)[postId].userFirebaseUid == Some(requester) && |newImage| > 0 ==>
        var url := SecureUrl(images.media.cloudName, version, publicId, format);
        r == Ok(UpdatedPost(old(db.posts)[postId], request, Some(url), db.profiles))
        && db.posts == old(db.posts)[postId := r.value]
        && images.media.publicIds == old(images.media.publicIds) + {publicId}
      ensures postId in old(db.posts) && old(db.posts)[postId].userFirebaseUid == Some(requester) && |newImage| == 0
              && request.imageUrl == Some("null") ==>
        var oldUrl := old(db.posts)[postId].imageUrl;
        var o := DeleteImageOutcome(oldUrl, old(images.media.publicIds));
        images.media.publicIds == AfterDelete(oldUrl, old(images.media.publicIds))
        && (o.Fail? ==> r == Err(o.error) && db.posts == old(db.posts))
        && (o == Done ==> r == Ok(UpdatedPost(old(db.posts)[postId], request, None, db.profiles))
                          && db.posts == old(db.posts)[postId := r.value])
      ensures postId in old(db.posts) && old(db.posts)[postId].userFirebaseUid == Some(requester) && |newImage| == 0
              && request.imageUrl != Some("null") ==>
        r == Ok(UpdatedPost(old(db.posts)[postId], request, old(db.posts)[postId].imageUrl, db.profiles))
        && db.posts == old(db.posts)[postId := r.value]
        && images.media.publicIds == old(images.media.publicIds)
    {
      if postId !in db.posts {
        return Err(ResourceNotFound);
      }
      var post := new BarterPost.FromRecord(db.posts[postId]);
      if post.userFirebaseUid != Some(requester) {
        return Err(UnauthorizedAccess);
      }
      ApplyEdits(post, request);
      if |newImage| > 0 {
        var url := images.UploadImage(newImage, publicId, format, version);
        post.SetImageUrl(Some(url.value));
      } else if request.imageUrl == Some("null") {
        if !NullOrEmpty(post.imageUrl) {
          var o := images.DeleteImage(post.imageUrl);
          if o.Fail? {
            return Err(o.error);
          }
        }
        post.SetImageUrl(None);
      }
      JoinOwner(post);
      db.posts := db.posts[postId := post.Value()];
      r := Ok(post.Value());
    }

    /** `deletePost(postId, requester)`: a missing post is not found and a post of someone else
        (or of nobody) is refused, both before anything changes. Otherwise its image is deleted
        (a failure is logged and ignored) and the post removed. */
    method DeletePost(postId: string, requester: string) returns (o: Outcome)
      modifies db`posts, images.media`publicIds
      ensures postId !in old(db.posts) ==>
        o == Fail(ResourceNotFound) && db.posts == old(db.posts) && images.media.publicIds == old(images.media.publicIds)
      ensures postId in old(db.posts) && old(db.posts)[postId].userFirebaseUid != Some(requester) ==>
        o == Fail(UnauthorizedAccess) && db.posts == old(db.posts) && images.media.publicIds == old(images.media.publicIds)
      ensures postId in old(db.posts) && old(db.posts)[postId].userFirebaseUid == Some(requester) ==>
        o == Done && db.posts == old(db.posts) - {postId}
        && images.media.publicIds == AfterDelete(old(db.posts)[postId].imageUrl, old(images.media.publicIds))
    {
      if postId !in db.posts {
        return Fail(ResourceNotFound);
      }
      var post := db.posts[postId];
      if post.userFirebaseUid != Some(requester) {
        return Fail(UnauthorizedAccess);
      }
      if !NullOrEmpty(post.imageUrl) {
        var _ := images.DeleteImage(post.imageUrl);
      }
      db.posts := db.posts - {postId};
      o := Done;
    }
  }
}
