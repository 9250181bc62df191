/** The rules of the post listing: which stored posts the Firestore query selects, how each is
    joined with its owner's profile, the in-memory search and availability filters, and the
    slice pagination. */
module PostListing {
  import opened Common
  import opened Text
  import opened Dates
  import opened AvailabilityRanges
  import opened BarterPosts
  import opened UserProfiles
  import opened Firestore

  /** The arguments of a listing request. An empty string stands for a null or empty argument,
      and an empty tag list for a null or empty one; `radius` and `urgency` are ignored by the
      service and are not part of the request here. */
  datatype ListingQuery = ListingQuery(
    uploaderId: string,
    searchTerm: string,
    skillCategories: seq<string>,
    location: string,
    availabilityFilter: string,
    status: string,
    page: int,
    size: int)

  /** The status the query filters on: the requested one, or "open" when none is given. */
  function EffectiveStatus(status: string): (s: string)
    ensures s != ""
    ensures status != "" ==> s == status
    ensures status == "" ==> s == OpenStatus
  {
    if status != "" then status else OpenStatus
  }

  /** `whereArrayContainsAny` accepts at most this many values. */
  const MaxQueryTags: int := 10

  /** The tag filter is applied only to a non-empty list of at most ten tags. */
  predicate TagFilterApplies(tags: seq<string>)
  {
    1 <= |tags| <= MaxQueryTags
  }

  /** The post's tag list shares at least one value with `tags`. */
  predicate SharesTag(p: PostRecord, tags: seq<string>)
  {
    p.tags.Some? && exists t :: t in p.tags.value && t in tags
  }

  /** The Firestore filters of the listing query. */
  predicate MatchesQuery(p: PostRecord, q: ListingQuery)
  {
    && p.status == Some(EffectiveStatus(q.status))
    && (q.uploaderId != "" ==> p.userFirebaseUid == Some(q.uploaderId))
    && (q.location != "" ==> p.location == Some(q.location))
    && (TagFilterApplies(q.skillCategories) ==> SharesTag(p, q.skillCategories))
  }

  /** The createdAt values of the posts the query selects, by document id: what the query
      orders. */
  function QueryField(posts: map<string, PostRecord>, q: ListingQuery): (field: map<string, Option<string>>)
    ensures forall id :: id in field <==> id in posts && MatchesQuery(posts[id], q)
    ensures forall id :: id in field ==> field[id] == posts[id].createdAt
  {
    map id | id in posts && MatchesQuery(posts[id], q) :: posts[id].createdAt
  }

  /** The posts of a query result, in its order, each carrying its document id. */
  function Candidates(ids: seq<string>, posts: map<string, PostRecord>): (r: seq<PostRecord>)
    requires forall i :: 0 <= i < |ids| ==> ids[i] in posts
    ensures |r| == |ids|
    ensures forall i :: 0 <= i < |ids| ==> r[i] == posts[ids[i]].(id := Some(ids[i]))
  {
    if ids == [] then [] else [posts[ids[0]].(id := Some(ids[0]))] + Candidates(ids[1..], posts)
  }

  /** The post with its owner's display name and image, or "Unknown User" and no image when the
      owner has no profile. */
  function WithOwner(p: PostRecord, owner: Option<ProfileRecord>): (r: PostRecord)
    ensures owner.Some? ==> r.displayName == owner.value.displayName && r.profileImageUrl == owner.value.profileImageUrl
    ensures owner.None? ==> r.displayName == Some(UnknownUser) && r.profileImageUrl == None
    ensures r.(displayName := p.displayName, profileImageUrl := p.profileImageUrl) == p
  {
    match owner
    case Some(u) => p.(displayName := u.displayName, profileImageUrl := u.profileImageUrl)
    case None => p.(displayName := Some(UnknownUser), profileImageUrl := None)
  }

  /** The profile stored for a post's owner, if any. */
  function OwnerProfile(p: PostRecord, profiles: map<string, ProfileRecord>): Option<ProfileRecord>
    requires p.userFirebaseUid.Some?
  {
    if p.userFirebaseUid.value in profiles then Some(profiles[p.userFirebaseUid.value]) else None
  }

  /** Every post has an owner. */
  predicate AllOwned(posts: seq<PostRecord>)
  {
    forall i :: 0 <= i < |posts| ==> posts[i].userFirebaseUid.Some?
  }

  /** Each post joined with its owner's profile. */
  function Enrich(posts: seq<PostRecord>, profiles: map<string, ProfileRecord>): (r: seq<PostRecord>)
    requires AllOwned(posts)
    ensures |r| == |posts|
    ensures forall i :: 0 <= i < |posts| ==> r[i] == WithOwner(posts[i], OwnerProfile(posts[i], profiles))
  {
    if posts == [] then [] else [WithOwner(posts[0], OwnerProfile(posts[0], profiles))] + Enrich(posts[1..], profiles)
  }

  /** The elements of s that `keep` accepts, in order (`stream().filter(…)`). */
  function Filter<T(!new)>(s: seq<T>, keep: T -> bool): (r: seq<T>)
    ensures |r| <= |s|
    ensures forall x :: x in r <==> x in s && keep(x)
  {
    if s == [] then []
    else if keep(s[0]) then [s[0]] + Filter(s[1..], keep)
    else Filter(s[1..], keep)
  }

  /** a is b with some elements removed, the rest kept in order. */
  predicate IsSubsequence<T(==)>(a: seq<T>, b: seq<T>)
    decreases |b|
  {
    a == [] || (b != [] && ((a[0] == b[0] && IsSubsequence(a[1..], b[1..])) || IsSubsequence(a, b[1..])))
  }

  /** Filtering only removes elements. */
  lemma {:induction false} FilterIsSubsequence<T(!new)>(s: seq<T>, keep: T -> bool)
    ensures IsSubsequence(Filter(s, keep), s)
  {
    if s != [] {
      FilterIsSubsequence(s[1..], keep);
      if !keep(s[0]) {
        assert Filter(s, keep) == Filter(s[1..], keep);
        if Filter(s, keep) != [] {
          assert IsSubsequence(Filter(s, keep), s[1..]);
        }
      }
    }
  }

  /** No element occurs twice. */
  predicate NoRepeats<T(==)>(s: seq<T>)
  {
    forall i, j :: 0 <= i < j < |s| ==> s[i] != s[j]
  }

  /** Every earlier element stands in relation `before` to every later one. */
  predicate SortedBy<T>(s: seq<T>, before: (T, T) -> bool)
  {
    forall i, j :: 0 <= i < j < |s| ==> before(s[i], s[j])
  }

  /** Removing elements keeps the order of the rest. */
  lemma {:induction false} SubsequenceKeepsOrder<T>(a: seq<T>, b: seq<T>, before: (T, T) -> bool)
    requires IsSubsequence(a, b) && SortedBy(b, before)
    ensures SortedBy(a, before)
    decreases |b|
  {
    if a != [] {
      assert b != [];
      assert SortedBy(b[1..], before) by {
        forall i, j | 0 <= i < j < |b[1..]| ensures before(b[1..][i], b[1..][j]) {
          assert b[1..][i] == b[i + 1] && b[1..][j] == b[j + 1];
        }
      }
      if a[0] == b[0] && IsSubsequence(a[1..], b[1..]) {
        SubsequenceKeepsOrder(a[1..], b[1..], before);
        SubsequenceMembers(a[1..], b[1..]);
        forall i, j | 0 <= i < j < |a| ensures before(a[i], a[j]) {
          if i == 0 {
            assert a[j] == a[1..][j - 1];
            assert a[j] in a[1..];
            assert a[j] in b[1..];
            var k :| 0 <= k < |b[1..]| && b[1..][k] == a[j];
            assert b[k + 1] == a[j];
          } else {
            assert a[i] == a[1..][i - 1] && a[j] == a[1..][j - 1];
          }
        }
      } else {
        SubsequenceKeepsOrder(a, b[1..], before);
      }
    }
  }

  /** Every element of a subsequence is an element of the whole. */
  lemma {:induction false} SubsequenceMembers<T>(a: seq<T>, b: seq<T>)
    requires IsSubsequence(a, b)
    ensures forall x :: x in a ==> x in b
    decreases |b|
  {
    if a != [] {
      if a[0] == b[0] && IsSubsequence(a[1..], b[1..]) {
        SubsequenceMembers(a[1..], b[1..]);
        assert forall x :: x in a ==> x == a[0] || x in a[1..];
      } else {
        SubsequenceMembers(a, b[1..]);
      }
    }
  }

  /** Subsequence is transitive: filtering twice only removes elements. */
  lemma {:induction false} SubsequenceTransitive<T>(a: seq<T>, b: seq<T>, c: seq<T>)
    requires IsSubsequence(a, b) && IsSubsequence(b, c)
    ensures IsSubsequence(a, c)
    decreases |c|
  {
    if a != [] {
      assert b != [] && c != [];
      if b[0] == c[0] && IsSubsequence(b[1..], c[1..]) {
        if a[0] == b[0] && IsSubsequence(a[1..], b[1..]) {
          SubsequenceTransitive(a[1..], b[1..], c[1..]);
        } else {
          SubsequenceTransitive(a, b[1..], c[1..]);
        }
      } else {
        SubsequenceTransitive(a, b, c[1..]);
      }
    }
  }

  /** The title, description or preferred exchange contains the lower-cased term, ignoring case;
      a null field never matches. */
  predicate MatchesSearch(p: PostRecord, lowerTerm: string)
  {
    || (p.title.Some? && Contains(ToLower(p.title.value), lowerTerm))
    || (p.description.Some? && Contains(ToLower(p.description.value), lowerTerm))
    || (p.preferredExchange.Some? && Contains(ToLower(p.preferredExchange.value), lowerTerm))
  }

  /** The search filter: nothing is removed for an empty term. */
  function SearchFilter(posts: seq<PostRecord>, searchTerm: string): seq<PostRecord>
  {
    if searchTerm == "" then posts else Filter(posts, p => MatchesSearch(p, ToLower(searchTerm)))
  }

  /** The post has availability ranges and one of them covers the day. */
  predicate AvailableOn(p: PostRecord, day: Date)
  {
    p.availability.Some? && p.availability.value != [] &&
    exists r :: r in p.availability.value && Covers(r, day)
  }

  /** The availability filter: nothing is removed for an empty filter or one that is not a
      `YYYY-MM-DD` date. */
  function AvailabilityFilter(posts: seq<PostRecord>, filter: string): seq<PostRecord>
  {
    if filter == "" then posts
    else match ParseLocalDate(filter)
      case None => posts
      case Some(day) => Filter(posts, p => AvailableOn(p, day))
  }

  function Min(a: int, b: int): int
  {
    if a <= b then a else b
  }

  /** `subList(page*size, min(page*size + size, n))` when the page starts inside the list, the
      empty list otherwise. subList throws for a negative start or a negative size. */
  function Page<T>(s: seq<T>, page: int, size: int): (r: Result<seq<T>>)
    ensures r.Err? <==> page * size < |s| && (page * size < 0 || size < 0)
    ensures page >= 0 && size >= 0 ==> r.Ok?
  {
    var start := page * size;
    if start < |s| then
      if start < 0 || size < 0 then Err(RuntimeFailure) else Ok(s[start..Min(start + size, |s|)])
    else Ok([])
  }

  /** The in-memory filters applied to the joined query result. */
  function Filtered(posts: seq<PostRecord>, q: ListingQuery): seq<PostRecord>
  {
    AvailabilityFilter(SearchFilter(posts, q.searchTerm), q.availabilityFilter)
  }

  /** The listing for a query order `ids` of the selected posts: a post without an owner makes
      the profile lookup fail; otherwise the requested page of the filtered, joined posts. */
  function Listing(ids: seq<string>, posts: map<string, PostRecord>, profiles: map<string, ProfileRecord>, q: ListingQuery)
    : Result<seq<PostRecord>>
    requires forall i :: 0 <= i < |ids| ==> ids[i] in posts
  {
    var candidates := Candidates(ids, posts);
    if !AllOwned(candidates) then Err(RuntimeFailure)
    else Page(Filtered(Enrich(candidates, profiles), q), q.page, q.size)
  }

  // ---- Filters ----

  /** The in-memory filters only remove posts: the result is a subsequence of the joined query
      result. */
  lemma FilteredIsSubsequence(posts: seq<PostRecord>, q: ListingQuery)
    ensures IsSubsequence(Filtered(posts, q), posts)
  {
    var searched := SearchFilter(posts, q.searchTerm);
    if q.searchTerm != "" {
      FilterIsSubsequence(posts, p => MatchesSearch(p, ToLower(q.searchTerm)));
    } else {
      SubsequenceReflexive(posts);
    }
    if q.availabilityFilter != "" && ParseLocalDate(q.availabilityFilter).Some? {
      var day := ParseLocalDate(q.availabilityFilter).value;
      FilterIsSubsequence(searched, p => AvailableOn(p, day));
      SubsequenceTransitive(Filtered(posts, q), searched, posts);
    }
  }

  lemma {:induction false} SubsequenceReflexive<T>(s: seq<T>)
    ensures IsSubsequence(s, s)
  {
    if s != [] {
      SubsequenceReflexive(s[1..]);
    }
  }

  /** A post survives the in-memory filters exactly when it is in the joined query result, matches
      the search term (when one is given) and is available on the filter date (when the filter
      parses as a date). */
  lemma FilteredMembers(posts: seq<PostRecord>, q: ListingQuery, p: PostRecord)
    ensures p in Filtered(posts, q) <==>
      && p in posts
      && (q.searchTerm != "" ==> MatchesSearch(p, ToLower(q.searchTerm)))
      && (q.availabilityFilter != "" && ParseLocalDate(q.availabilityFilter).Some? ==>
            AvailableOn(p, ParseLocalDate(q.availabilityFilter).value))
  {
  }

  /** An availability filter that is not a date removes nothing. */
  lemma UnparseableAvailabilityKeepsAll(posts: seq<PostRecord>, filter: string)
    requires ParseLocalDate(filter).None?
    ensures AvailabilityFilter(posts, filter) == posts
  {
  }

  // ---- Order ----

  /** The sort key of a listed post: its createdAt and document id. */
  function PostKey(p: PostRecord): (Option<string>, string)
  {
    (p.createdAt, if p.id.Some? then p.id.value else "")
  }

  /** p is listed no later than p2 in descending createdAt order. */
  predicate ListedBefore(p: PostRecord, p2: PostRecord)
  {
    KeyLe(PostKey(p2), PostKey(p))
  }

  /** The posts of a query order, joined with their owners, are in descending createdAt order. */
  lemma CandidatesDescending(ids: seq<string>, posts: map<string, PostRecord>, profiles: map<string, ProfileRecord>, q: ListingQuery)
    requires IsQueryOrder(ids, QueryField(posts, q))
    requires AllOwned(Candidates(ids, posts))
    ensures SortedBy(Enrich(Candidates(ids, posts), profiles), ListedBefore)
  {
    var field := QueryField(posts, q);
    var c := Candidates(ids, posts);
    var e := Enrich(c, profiles);
    forall i, j | 0 <= i < j < |e| ensures ListedBefore(e[i], e[j]) {
      assert PostKey(e[i]) == Key(field, ids[i]);
      assert PostKey(e[j]) == Key(field, ids[j]);
    }
  }

  /** The filtered posts keep the descending createdAt order of the query. */
  lemma FilteredDescending(ids: seq<string>, posts: map<string, PostRecord>, profiles: map<string, ProfileRecord>, q: ListingQuery)
    requires IsQueryOrder(ids, QueryField(posts, q))
    requires AllOwned(Candidates(ids, posts))
    ensures SortedBy(Filtered(Enrich(Candidates(ids, posts), profiles), q), ListedBefore)
  {
    var e := Enrich(Candidates(ids, posts), profiles);
    CandidatesDescending(ids, posts, profiles, q);
    FilteredIsSubsequence(e, q);
    SubsequenceKeepsOrder(Filtered(e, q), e, ListedBefore);
  }

  // ---- Query and join ----

  /** p is the stored post `id`, selected by the query, joined with its owner's profile. */
  predicate JoinedFrom(p: PostRecord, id: string, posts: map<string, PostRecord>, profiles: map<string, ProfileRecord>, q: ListingQuery)
  {
    id in posts && MatchesQuery(posts[id], q) && posts[id].userFirebaseUid.Some? &&
    p == WithOwner(posts[id].(id := Some(id)), OwnerProfile(posts[id], profiles))
  }

  /** A joined post comes from a stored post the query selects, and carries that post's fields
      with the owner's display name and image; and every such post is joined. */
  lemma CandidateMembers(ids: seq<string>, posts: map<string, PostRecord>, profiles: map<string, ProfileRecord>, q: ListingQuery, p: PostRecord)
    requires IsQueryOrder(ids, QueryField(posts, q))
    requires AllOwned(Candidates(ids, posts))
    ensures p in Enrich(Candidates(ids, posts), profiles) <==> exists id :: JoinedFrom(p, id, posts, profiles, q)
  {
    if p in Enrich(Candidates(ids, posts), profiles) {
      JoinedHasSource(ids, posts, profiles, q, p);
    }
    if exists id :: JoinedFrom(p, id, posts, profiles, q) {
      var id :| JoinedFrom(p, id, posts, profiles, q);
      SourceIsJoined(ids, posts, profiles, q, p, id);
    }
  }

  lemma JoinedHasSource(ids: seq<string>, posts: map<string, PostRecord>, profiles: map<string, ProfileRecord>, q: ListingQuery, p: PostRecord)
    requires IsQueryOrder(ids, QueryField(posts, q))
    requires AllOwned(Candidates(ids, posts))
    requires p in Enrich(Candidates(ids, posts), profiles)
    ensures JoinedFrom(p, ids[IndexIn(Enrich(Candidates(ids, posts), profiles), p)], posts, profiles, q)
  {
    var i := IndexIn(Enrich(Candidates(ids, posts), profiles), p);
    assert ids[i] in QueryField(posts, q);
    assert Candidates(ids, posts)[i] == posts[ids[i]].(id := Some(ids[i]));
  }

  /** The position of an element in a sequence holding it. */
  ghost function IndexIn<T>(s: seq<T>, x: T): (i: nat)
    requires x in s
    ensures i < |s| && s[i] == x
  {
    if s[0] == x then 0 else 1 + IndexIn(s[1..], x)
  }

  lemma SourceIsJoined(ids: seq<string>, posts: map<string, PostRecord>, profiles: map<string, ProfileRecord>, q: ListingQuery, p: PostRecord, id: string)
    requires IsQueryOrder(ids, QueryField(posts, q))
    requires AllOwned(Candidates(ids, posts))
    requires JoinedFrom(p, id, posts, profiles, q)
    ensures p in Enrich(Candidates(ids, posts), profiles)
  {
    assert id in QueryField(posts, q);
    var i := IndexIn(ids, id);
    assert Enrich(Candidates(ids, posts), profiles)[i] == p;
  }

  /** Every listed post satisfies the query filters: the effective status, the uploader and
      location when given, and a shared tag when the tag filter applies; and it carries its
      owner's display name and image. */
  lemma ListedPostsMatch(ids: seq<string>, posts: map<string, PostRecord>, profiles: map<string, ProfileRecord>, q: ListingQuery, p: PostRecord)
    requires IsQueryOrder(ids, QueryField(posts, q))
    requires Listing(ids, posts, profiles, q).Ok?
    requires p in Listing(ids, posts, profiles, q).value
    ensures MatchesQuery(p, q)
    ensures p.userFirebaseUid.Some? && p.displayName == (if p.userFirebaseUid.value in profiles then profiles[p.userFirebaseUid.value].displayName else Some(UnknownUser))
    ensures q.searchTerm != "" ==> MatchesSearch(p, ToLower(q.searchTerm))
    ensures q.availabilityFilter != "" && ParseLocalDate(q.availabilityFilter).Some? ==>
      AvailableOn(p, ParseLocalDate(q.availabilityFilter).value)
  {
    var e := Enrich(Candidates(ids, posts), profiles);
    var f := Filtered(e, q);
    var start := q.page * q.size;
    if start < |f| {
      assert p in f;
    }
    FilteredMembers(e, q, p);
    CandidateMembers(ids, posts, profiles, q, p);
  }

  /** The listing is a function of the stored posts and profiles: every query order gives the
      same result. */
  lemma ListingDeterministic(a: seq<string>, b: seq<string>, posts: map<string, PostRecord>, profiles: map<string, ProfileRecord>, q: ListingQuery)
    requires IsQueryOrder(a, QueryField(posts, q)) && IsQueryOrder(b, QueryField(posts, q))
    ensures Listing(a, posts, profiles, q) == Listing(b, posts, profiles, q)
  {
    QueryOrderUnique(a, b, QueryField(posts, q));
  }

  // ---- Pagination ----

  /** A page of a non-negative page number and size is the slice starting at page*size, of length
      size or whatever is left of the list. */
  lemma PageContents<T>(s: seq<T>, page: int, size: int)
    requires page >= 0 && size >= 0
    ensures Page(s, page, size).Ok?
    ensures var r := Page(s, page, size).value;
      |r| == (if page * size >= |s| then 0 else Min(size, |s| - page * size)) &&
      forall i :: 0 <= i < |r| ==> r[i] == s[page * size + i]
  {
  }

  /** Every page holds at most size posts, and a page that starts at or past the end is empty. */
  lemma PageBounds<T>(s: seq<T>, page: int, size: int)
    ensures Page(s, page, size).Ok? && size >= 0 ==> |Page(s, page, size).value| <= size
    ensures page * size >= |s| ==> Page(s, page, size) == Ok([])
  {
  }

  /** The first k pages, one after another. */
  function FirstPages<T>(s: seq<T>, k: nat, size: int): seq<T>
    requires size >= 0
  {
    if k == 0 then [] else FirstPages(s, k - 1, size) + Page(s, k - 1, size).value
  }

  /** Consecutive pages concatenate to the front of the list. */
  lemma {:induction false} FirstPagesArePrefix<T>(s: seq<T>, k: nat, size: int)
    requires size >= 0
    ensures FirstPages(s, k, size) == s[..Min(k * size, |s|)]
  {
    if k > 0 {
      FirstPagesArePrefix(s, k - 1, size);
      var start := (k - 1) * size;
      assert k * size == start + size;
      PageContents(s, k - 1, size);
      if start < |s| {
        assert s[..Min(start, |s|)] + s[start..Min(start + size, |s|)] == s[..Min(start + size, |s|)];
      } else {
        assert Min(k * size, |s|) == |s|;
      }
    }
  }

  /** Pages with size > 0 cover the whole list once enough of them are taken. */
  lemma AllPagesCoverList<T>(s: seq<T>, size: int)
    requires size > 0
    ensures FirstPages(s, |s|, size) == s
  {
    FirstPagesArePrefix(s, |s|, size);
    assert |s| * size >= |s|;
  }

  lemma MulMonotone(a: int, b: int, c: int)
    requires a <= b && c >= 0
    ensures a * c <= b * c
  {
    assert b * c - a * c == (b - a) * c;
  }

  /** Different pages of a list without repeats share no element. */
  lemma PagesDisjoint<T>(s: seq<T>, p1: nat, p2: nat, size: int, x: T)
    requires size >= 0 && p1 < p2
    requires NoRepeats(s)
    requires x in Page(s, p1, size).value
    ensures x !in Page(s, p2, size).value
  {
    PageContents(s, p1, size);
    PageContents(s, p2, size);
    var a := Page(s, p1, size).value;
    var b := Page(s, p2, size).value;
    var i := IndexIn(a, x);
    var lo1, lo2 := p1 * size, p2 * size;
    MulMonotone(p1 + 1, p2, size);
    assert (p1 + 1) * size == lo1 + size;
    assert lo1 + i < lo2;
    assert x == s[lo1 + i];
  }

  /** The filtered posts of a query order are pairwise different: each carries its own document
      id. */
  lemma FilteredDistinct(ids: seq<string>, posts: map<string, PostRecord>, profiles: map<string, ProfileRecord>, q: ListingQuery)
    requires IsQueryOrder(ids, QueryField(posts, q))
    requires AllOwned(Candidates(ids, posts))
    ensures NoRepeats(Filtered(Enrich(Candidates(ids, posts), profiles), q))
  {
    var c := Candidates(ids, posts);
    var e := Enrich(c, profiles);
    var differ := (p: PostRecord, p2: PostRecord) => p != p2;
    forall i, j | 0 <= i < j < |e| ensures differ(e[i], e[j]) {
      assert e[i].id == c[i].id == Some(ids[i]);
      assert e[j].id == c[j].id == Some(ids[j]);
    }
    FilteredIsSubsequence(e, q);
    SubsequenceKeepsOrder(Filtered(e, q), e, differ);
  }

  /** A page of a list without repeats has no repeats. */
  lemma PageDistinct<T>(s: seq<T>, page: int, size: int)
    requires NoRepeats(s) && Page(s, page, size).Ok?
    ensures NoRepeats(Page(s, page, size).value)
  {
    var start := page * size;
    if start < |s| {
      var r := Page(s, page, size).value;
      forall i, j | 0 <= i < j < |r| ensures r[i] != r[j] {
        assert r[i] == s[start + i] && r[j] == s[start + j];
      }
    }
  }

  /** A listed page holds no post twice. */
  lemma ListingDistinct(ids: seq<string>, posts: map<string, PostRecord>, profiles: map<string, ProfileRecord>, q: ListingQuery)
    requires IsQueryOrder(ids, QueryField(posts, q))
    requires Listing(ids, posts, profiles, q).Ok?
    ensures NoRepeats(Listing(ids, posts, profiles, q).value)
  {
    assert AllOwned(Candidates(ids, posts));
    var f := Filtered(Enrich(Candidates(ids, posts), profiles), q);
    assert Listing(ids, posts, profiles, q) == Page(f, q.page, q.size);
    FilteredDistinct(ids, posts, profiles, q);
    PageDistinct(f, q.page, q.size);
  }

  /** Two different pages of the same listing share no post. */
  lemma ListingPagesDisjoint(ids: seq<string>, posts: map<string, PostRecord>, profiles: map<string, ProfileRecord>, q: ListingQuery, later: int, p: PostRecord)
    requires IsQueryOrder(ids, QueryField(posts, q))
    requires 0 <= q.page < later && q.size >= 0
    requires Listing(ids, posts, profiles, q).Ok? && p in Listing(ids, posts, profiles, q).value
    ensures Listing(ids, posts, profiles, q.(page := later)).Ok?
    ensures p !in Listing(ids, posts, profiles, q.(page := later)).value
  {
    var f := Filtered(Enrich(Candidates(ids, posts), profiles), q);
    assert Filtered(Enrich(Candidates(ids, posts), profiles), q.(page := later)) == f;
    FilteredDistinct(ids, posts, profiles, q);
    PagesDisjoint(f, q.page, later, q.size, p);
  }
}
