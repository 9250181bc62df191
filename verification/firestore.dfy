/** The Firestore database the services talk to, as one map per collection, and the order in
    which an `orderBy(field, DESCENDING)` query returns documents. */
module Firestore {
  import opened Common
  import opened Text
  import opened BarterPosts
  import opened UserProfiles
  import opened Reviews
  import opened ChatConversations
  import opened ChatMessages

  /** The collections, keyed by document id. The `messages` subcollection of every chat is
      flattened into one map keyed by (chat id, message id). */
  class Database {
    var posts: map<string, PostRecord>                  // "barterPosts"
    var profiles: map<string, ProfileRecord>            // "user_profiles", keyed by Firebase uid
    var reviews: map<string, ReviewRecord>              // "reviews"
    var chats: map<string, ChatRecord>                  // "chats"
    var messages: map<(string, string), MessageRecord>  // "chats/{chatId}/messages"

    /** An empty database. */
    constructor ()
      ensures posts == map[] && profiles == map[] && reviews == map[]
      ensures chats == map[] && messages == map[]
    {
      posts, profiles, reviews, chats, messages := map[], map[], map[], map[], map[];
    }
  }

  /** Firestore's ascending order of a string field that may hold null: null first, then
      strings in code-point (UTF-8 byte) order. */
  predicate FieldLe(a: Option<string>, b: Option<string>)
  {
    a.None? || (b.Some? && LexLe(a.value, b.value))
  }

  /** Ascending order of (field value, document id): Firestore breaks ties between equal
      field values by document id, in the direction of the last `orderBy`. */
  predicate KeyLe(a: (Option<string>, string), b: (Option<string>, string))
  {
    (a.0 != b.0 && FieldLe(a.0, b.0)) || (a.0 == b.0 && LexLe(a.1, b.1))
  }

  lemma FieldLeTotal(a: Option<string>, b: Option<string>)
    ensures FieldLe(a, b) || FieldLe(b, a)
    ensures FieldLe(a, b) && FieldLe(b, a) ==> a == b
  {
    if a.Some? && b.Some? {
      LexLeTotal(a.value, b.value);
      if LexLe(a.value, b.value) && LexLe(b.value, a.value) {
        LexLeAntisymmetric(a.value, b.value);
      }
    }
  }

  /** KeyLe is a total order. */
  lemma KeyLeTotal(a: (Option<string>, string), b: (Option<string>, string))
    ensures KeyLe(a, b) || KeyLe(b, a)
    ensures KeyLe(a, b) && KeyLe(b, a) ==> a == b
  {
    FieldLeTotal(a.0, b.0);
    LexLeTotal(a.1, b.1);
    if a.0 == b.0 && LexLe(a.1, b.1) && LexLe(b.1, a.1) {
      LexLeAntisymmetric(a.1, b.1);
    }
  }

  lemma KeyLeTransitive(a: (Option<string>, string), b: (Option<string>, string), c: (Option<string>, string))
    requires KeyLe(a, b) && KeyLe(b, c)
    ensures KeyLe(a, c)
  {
    FieldLeTotal(a.0, b.0);
    FieldLeTotal(b.0, c.0);
    FieldLeTotal(a.0, c.0);
    if a.0 == b.0 && b.0 == c.0 {
      LexLeTransitive(a.1, b.1, c.1);
    } else if a.0.Some? && b.0.Some? && c.0.Some? {
      LexLeTransitive(a.0.value, b.0.value, c.0.value);
    }
  }

  /** The sort key of document id under the field values of `field`. */
  function Key(field: map<string, Option<string>>, id: string): (Option<string>, string)
    requires id in field
  {
    (field[id], id)
  }

  /** ids lists documents of `field` in descending (field, id) order. */
  predicate Descending(ids: seq<string>, field: map<string, Option<string>>)
  {
    (forall i :: 0 <= i < |ids| ==> ids[i] in field) &&
    forall i, j :: 0 <= i < j < |ids| ==> KeyLe(Key(field, ids[j]), Key(field, ids[i]))
  }

  /** ids holds every document of `field` exactly once, in query order. */
  predicate IsQueryOrder(ids: seq<string>, field: map<string, Option<string>>)
  {
    Descending(ids, field) &&
    (forall k :: k in field ==> k in ids) &&
    (forall i, j :: 0 <= i < j < |ids| ==> ids[i] != ids[j])
  }

  /** Inserts k into a descending list before the first entry whose key is below k's. */
  method InsertDescending(ids: seq<string>, k: string, field: map<string, Option<string>>)
    returns (r: seq<string>, pos: nat)
    requires k in field && Descending(ids, field)
    ensures pos <= |ids| && r == ids[..pos] + [k] + ids[pos..]
    ensures Descending(r, field)
  {
    pos := 0;
    while pos < |ids| && KeyLe(Key(field, k), Key(field, ids[pos]))
      invariant pos <= |ids|
      invariant forall i :: 0 <= i < pos ==> KeyLe(Key(field, k), Key(field, ids[i]))
    {
      pos := pos + 1;
    }
    r := ids[..pos] + [k] + ids[pos..];
    if pos < |ids| {
      KeyLeTotal(Key(field, k), Key(field, ids[pos]));
      forall i | pos < i < |ids|
        ensures KeyLe(Key(field, ids[i]), Key(field, k))
      {
        KeyLeTransitive(Key(field, ids[i]), Key(field, ids[pos]), Key(field, k));
      }
    }
    forall i, j | 0 <= i < j < |r|
      ensures KeyLe(Key(field, r[j]), Key(field, r[i]))
    {
      if j < pos {
        assert r[i] == ids[i] && r[j] == ids[j];
      } else if j == pos {
        assert r[i] == ids[i];
      } else if i == pos {
        assert r[j] == ids[j - 1];
      } else if i < pos {
        assert r[i] == ids[i] && r[j] == ids[j - 1];
      } else {
        assert r[i] == ids[i - 1] && r[j] == ids[j - 1];
      }
    }
  }

  /** The ids of the documents of `field` as an `orderBy(field, DESCENDING)` query returns them. */
  method QueryOrder(field: map<string, Option<string>>) returns (ids: seq<string>)
    ensures IsQueryOrder(ids, field)
  {
    ids := [];
    var rest := field.Keys;
    while rest != {}
      invariant forall k :: k in field ==> k in rest || k in ids
      invariant forall k :: k in rest ==> k in field && k !in ids
      invariant Descending(ids, field)
      invariant forall i, j :: 0 <= i < j < |ids| ==> ids[i] != ids[j]
      decreases |rest|
    {
      var k :| k in rest;
      var pos;
      ghost var before := ids;
      ids, pos := InsertDescending(ids, k, field);
      forall i, j | 0 <= i < j < |ids|
        ensures ids[i] != ids[j]
      {
        if i < pos && j > pos {
          assert ids[i] == before[i] && ids[j] == before[j - 1];
        } else if i > pos {
          assert ids[i] == before[i - 1] && ids[j] == before[j - 1];
        } else if j < pos {
          assert ids[i] == before[i] && ids[j] == before[j];
        } else if i == pos {
          assert ids[j] == before[j - 1];
          assert ids[j] in before;
        } else {
          assert ids[i] == before[i];
          assert ids[i] in before;
        }
      }
      rest := rest - {k};
    }
  }

  /** A query order is determined by the matching documents: two query orders of the same
      documents are the same list. */
  lemma {:induction false} QueryOrderUnique(a: seq<string>, b: seq<string>, field: map<string, Option<string>>)
    requires IsQueryOrder(a, field) && IsQueryOrder(b, field)
    ensures a == b
    decreases |a|
  {
    QueryOrderLength(a, field);
    QueryOrderLength(b, field);
    if |a| > 0 {
      var x, y := a[0], b[0];
      FirstIsGreatest(a, field, y);
      FirstIsGreatest(b, field, x);
      KeyLeTotal(Key(field, x), Key(field, y));
      TailIsQueryOrder(a, field);
      TailIsQueryOrder(b, field);
      QueryOrderUnique(a[1..], b[1..], field - {x});
      assert a == [x] + a[1..] && b == [y] + b[1..];
    }
  }

  /** The first entry of a query order has the greatest key. */
  lemma FirstIsGreatest(ids: seq<string>, field: map<string, Option<string>>, k: string)
    requires IsQueryOrder(ids, field) && k in field
    ensures |ids| > 0 && KeyLe(Key(field, k), Key(field, ids[0]))
  {
    var i :| 0 <= i < |ids| && ids[i] == k;
    if i > 0 {
      assert KeyLe(Key(field, ids[i]), Key(field, ids[0]));
    } else {
      KeyLeTotal(Key(field, k), Key(field, k));
    }
  }

  /** Dropping the first entry of a query order leaves the query order of the other documents. */
  lemma TailIsQueryOrder(ids: seq<string>, field: map<string, Option<string>>)
    requires IsQueryOrder(ids, field) && |ids| > 0
    ensures IsQueryOrder(ids[1..], field - {ids[0]})
  {
    var t, f := ids[1..], field - {ids[0]};
    forall i | 0 <= i < |t| ensures t[i] in f {
      assert t[i] == ids[i + 1];
    }
    forall k | k in f ensures k in t {
      assert k in ids && k != ids[0];
    }
    forall i, j | 0 <= i < j < |t| ensures KeyLe(Key(f, t[j]), Key(f, t[i])) && t[i] != t[j] {
      assert t[i] == ids[i + 1] && t[j] == ids[j + 1];
    }
  }

  /** A query order has exactly one entry per matching document. */
  lemma QueryOrderLength(ids: seq<string>, field: map<string, Option<string>>)
    requires IsQueryOrder(ids, field)
    ensures |ids| == |field.Keys|
    ensures forall i :: 0 <= i < |ids| ==> ids[i] in field
  {
    DistinctCardinality(ids);
    assert (set i | 0 <= i < |ids| :: ids[i]) == field.Keys;
  }

  /** A list without repeats has as many elements as its set of elements. */
  lemma {:induction false} DistinctCardinality(s: seq<string>)
    requires forall i, j :: 0 <= i < j < |s| ==> s[i] != s[j]
    ensures |set i | 0 <= i < |s| :: s[i]| == |s|
  {
    if s != [] {
      var t := s[..|s| - 1];
      DistinctCardinality(t);
      assert (set i | 0 <= i < |s| :: s[i]) == (set i | 0 <= i < |t| :: t[i]) + {s[|s| - 1]};
      assert s[|s| - 1] !in (set i | 0 <= i < |t| :: t[i]);
    }
  }
}
