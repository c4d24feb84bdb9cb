/** The list-based queries of twitscan/query.py. A result row of
    `cursor.fetchall()` is a Python tuple; rows and the keys pulled out of them
    live in one universe of Python values, so that line 56's test of a whole
    row against a set of first components is stated as the code has it. */
module Query {
  import opened Types
  import opened Models
  import UserIngest

  datatype Value = IntV(i: int) | StrV(s: string) | TupleV(items: seq<Value>)

  /** A one-column result row `(v,)`. */
  function Row(v: Value): (r: Value)
  {
    TupleV([v])
  }

  /** The four SELECTs that `common_items_maker` is applied to. */
  datatype Select = EntourageSel | FollowersSel | FriendsSel | HashtagsSel

  /** `SELECT friend_follower_id FROM friend WHERE user_id == uid [AND flag IS TRUE]`. */
  function EdgeRows(edges: seq<Entourage>, uid: int, role: Role): (r: seq<Value>)
    ensures |r| <= |edges|
  {
    if |edges| == 0 then []
    else
      var e := edges[|edges| - 1];
      EdgeRows(edges[..|edges| - 1], uid, role) +
        (if e.userId == uid && Selects(role, e) then [Row(IntV(e.friendFollowerId))] else [])
  }

  /** The hashtag row belongs to a stored status written by `uid`. */
  predicate ByUser(db: Db, h: Hashtag, uid: int)
  {
    h.statusId in db.statuses && db.statuses[h.statusId].userId == uid
  }

  /** `SELECT hashtag_name FROM hashtag JOIN status ... WHERE status.user_id == uid`. */
  function HashtagRows(db: Db, rows: seq<Hashtag>, uid: int): (r: seq<Value>)
    ensures |r| <= |rows|
  {
    if |rows| == 0 then []
    else
      var h := rows[|rows| - 1];
      HashtagRows(db, rows[..|rows| - 1], uid) + (if ByUser(db, h, uid) then [Row(StrV(h.hashtagName))] else [])
  }

  function Rows(db: Db, sel: Select, uid: int): (r: seq<Value>)
  {
    match sel
    case EntourageSel => EdgeRows(db.entourages, uid, AnyEdge)
    case FollowersSel => EdgeRows(db.entourages, uid, FollowerEdge)
    case FriendsSel => EdgeRows(db.entourages, uid, FriendEdge)
    case HashtagsSel => HashtagRows(db, db.hashtags, uid)
  }

  /** `followers`, `friends` and `entourage` return `(id,)` for exactly the
      edges of `uid` with the flag set (any edge for `entourage`). */
  lemma {:induction false} EdgeRowsMeaning(edges: seq<Entourage>, uid: int, role: Role, x: Value)
    ensures x in EdgeRows(edges, uid, role) <==>
      exists i :: 0 <= i < |edges| && edges[i].userId == uid && Selects(role, edges[i]) &&
        x == Row(IntV(edges[i].friendFollowerId))
    decreases |edges|
  {
    if |edges| > 0 {
      var init := edges[..|edges| - 1];
      EdgeRowsMeaning(init, uid, role, x);
      if exists i :: 0 <= i < |init| && init[i].userId == uid && Selects(role, init[i]) && x == Row(IntV(init[i].friendFollowerId)) {
        var i :| 0 <= i < |init| && init[i].userId == uid && Selects(role, init[i]) && x == Row(IntV(init[i].friendFollowerId));
        assert edges[i] == init[i];
      }
      if exists i :: 0 <= i < |edges| && edges[i].userId == uid && Selects(role, edges[i]) && x == Row(IntV(edges[i].friendFollowerId)) {
        var i :| 0 <= i < |edges| && edges[i].userId == uid && Selects(role, edges[i]) && x == Row(IntV(edges[i].friendFollowerId));
        if i < |init| {
          assert init[i] == edges[i];
        }
      }
    }
  }

  /** `hashtags` returns `(name,)` for exactly the hashtag rows whose status
      is stored and written by `uid`; the join drops every other row. */
  lemma {:induction false} HashtagRowsMeaning(db: Db, rows: seq<Hashtag>, uid: int, x: Value)
    ensures x in HashtagRows(db, rows, uid) <==>
      exists i :: 0 <= i < |rows| && ByUser(db, rows[i], uid) && x == Row(StrV(rows[i].hashtagName))
    decreases |rows|
  {
    if |rows| > 0 {
      var init := rows[..|rows| - 1];
      HashtagRowsMeaning(db, init, uid, x);
      if exists i :: 0 <= i < |init| && ByUser(db, init[i], uid) && x == Row(StrV(init[i].hashtagName)) {
        var i :| 0 <= i < |init| && ByUser(db, init[i], uid) && x == Row(StrV(init[i].hashtagName));
        assert rows[i] == init[i];
      }
      if exists i :: 0 <= i < |rows| && ByUser(db, rows[i], uid) && x == Row(StrV(rows[i].hashtagName)) {
        var i :| 0 <= i < |rows| && ByUser(db, rows[i], uid) && x == Row(StrV(rows[i].hashtagName));
        if i < |init| {
          assert init[i] == rows[i];
        }
      }
    }
  }

  /** The select works row by row: the rows of a concatenation are the rows of
      each part, in order and with duplicates. */
  lemma {:induction false} HashtagRowsAppend(db: Db, a: seq<Hashtag>, b: seq<Hashtag>, uid: int)
    ensures HashtagRows(db, a + b, uid) == HashtagRows(db, a, uid) + HashtagRows(db, b, uid)
    decreases |b|
  {
    if |b| > 0 {
      var b' := b[..|b| - 1];
      assert (a + b)[..|a + b| - 1] == a + b';
      assert (a + b)[|a + b| - 1] == b[|b| - 1];
      HashtagRowsAppend(db, a, b', uid);
    } else {
      assert a + b == a;
    }
  }

  /** An example of HashtagRowsMeaning and HashtagRowsAppend: when every
      hashtag row belongs to `uid`, none is dropped or merged, so duplicate
      names give duplicate result rows. */
  lemma {:induction false} HashtagRowsKeepDuplicates(db: Db, rows: seq<Hashtag>, uid: int)
    requires forall i :: 0 <= i < |rows| ==> ByUser(db, rows[i], uid)
    ensures |HashtagRows(db, rows, uid)| == |rows|
    ensures forall i :: 0 <= i < |rows| ==> HashtagRows(db, rows, uid)[i] == Row(StrV(rows[i].hashtagName))
    decreases |rows|
  {
    if |rows| > 0 {
      HashtagRowsKeepDuplicates(db, rows[..|rows| - 1], uid);
    }
  }

  predicate Scalar(v: Value)
  {
    !v.TupleV?
  }

  /** Every row is a tuple with one scalar column. */
  predicate OneColumn(rows: seq<Value>)
  {
    forall i :: 0 <= i < |rows| ==> rows[i].TupleV? && |rows[i].items| == 1 && Scalar(rows[i].items[0])
  }

  /** Every row has a first column, so `item[0]` is defined. */
  predicate HasFirst(rows: seq<Value>)
  {
    forall i :: 0 <= i < |rows| ==> rows[i].TupleV? && |rows[i].items| >= 1
  }

  lemma {:induction false} RowsAreOneColumn(db: Db, sel: Select, uid: int)
    ensures OneColumn(Rows(db, sel, uid))
  {
    match sel
    case EntourageSel => EdgeRowsOneColumn(db.entourages, uid, AnyEdge);
    case FollowersSel => EdgeRowsOneColumn(db.entourages, uid, FollowerEdge);
    case FriendsSel => EdgeRowsOneColumn(db.entourages, uid, FriendEdge);
    case HashtagsSel => HashtagRowsOneColumn(db, db.hashtags, uid);
  }

  lemma {:induction false} EdgeRowsOneColumn(edges: seq<Entourage>, uid: int, role: Role)
    ensures OneColumn(EdgeRows(edges, uid, role))
    decreases |edges|
  {
    if |edges| > 0 {
      EdgeRowsOneColumn(edges[..|edges| - 1], uid, role);
    }
  }

  lemma {:induction false} HashtagRowsOneColumn(db: Db, rows: seq<Hashtag>, uid: int)
    ensures OneColumn(HashtagRows(db, rows, uid))
    decreases |rows|
  {
    if |rows| > 0 {
      HashtagRowsOneColumn(db, rows[..|rows| - 1], uid);
    }
  }

  function First(item: Value): (r: Value)
    requires item.TupleV? && |item.items| >= 1
  {
    item.items[0]
  }

  /** `item[0]` of every row, in order. */
  function Keys(rows: seq<Value>): (r: seq<Value>)
    requires HasFirst(rows)
    ensures |r| == |rows|
  {
    if |rows| == 0 then [] else Keys(rows[..|rows| - 1]) + [First(rows[|rows| - 1])]
  }

  /** `a_set` after the first loop: the first columns of A's rows. */
  function KeySet(rows: seq<Value>): (r: set<Value>)
    requires HasFirst(rows)
  {
    if |rows| == 0 then {} else KeySet(rows[..|rows| - 1]) + {First(rows[|rows| - 1])}
  }

  /** What the test `if ... in a_set` looks up: the whole row, as line 56
      is written, or its first column. */
  datatype Probe = WholeRow | FirstColumn

  function Probed(item: Value, probe: Probe): (r: Value)
    requires item.TupleV? && |item.items| >= 1
  {
    match probe
    case WholeRow => item
    case FirstColumn => First(item)
  }

  /** `common_list` after the second loop: `item[0]` for each of B's rows
      whose probe is in `keys`, in B's order. */
  function Common(keys: set<Value>, rowsB: seq<Value>, probe: Probe): (r: seq<Value>)
    requires HasFirst(rowsB)
    ensures |r| <= |rowsB|
  {
    if |rowsB| == 0 then []
    else
      var item := rowsB[|rowsB| - 1];
      Common(keys, rowsB[..|rowsB| - 1], probe) + (if Probed(item, probe) in keys then [First(item)] else [])
  }

  /** `common_items_maker(func)(a, b)` with `rowsA = func(a)`, `rowsB = func(b)`. */
  method CommonItems(rowsA: seq<Value>, rowsB: seq<Value>, probe: Probe) returns (commonList: seq<Value>)
    requires HasFirst(rowsA) && HasFirst(rowsB)
    ensures commonList == Common(KeySet(rowsA), rowsB, probe)
  {
    var aSet: set<Value> := {};
    commonList := [];
    for i := 0 to |rowsA|
      invariant aSet == KeySet(rowsA[..i])
    {
      assert rowsA[..i + 1][..i] == rowsA[..i];
      aSet := aSet + {First(rowsA[i])};
    }
    assert rowsA[..|rowsA|] == rowsA;
    for j := 0 to |rowsB|
      invariant commonList == Common(aSet, rowsB[..j], probe)
    {
      assert rowsB[..j + 1][..j] == rowsB[..j];
      var item := rowsB[j];
      if Probed(item, probe) in aSet {
        commonList := commonList + [First(item)];
      }
    }
    assert rowsB[..|rowsB|] == rowsB;
  }

  lemma {:induction false} KeySetScalars(rows: seq<Value>)
    requires OneColumn(rows)
    ensures forall k :: k in KeySet(rows) ==> Scalar(k)
    decreases |rows|
  {
    if |rows| > 0 {
      KeySetScalars(rows[..|rows| - 1]);
    }
  }

  /** As written, line 56 compares a whole row `(v,)` with a set of first
      components; for one-column rows nothing ever matches. */
  lemma {:induction false} WholeRowNeverMatches(rowsA: seq<Value>, rowsB: seq<Value>)
    requires OneColumn(rowsA) && OneColumn(rowsB)
    ensures Common(KeySet(rowsA), rowsB, WholeRow) == []
    decreases |rowsB|
  {
    KeySetScalars(rowsA);
    if |rowsB| > 0 {
      WholeRowNeverMatches(rowsA, rowsB[..|rowsB| - 1]);
    }
  }

  /** With the first column probed, an element of the result is a key of A
      that is also a key of B, and every such key shows up. */
  lemma {:induction false} CommonMembership(keys: set<Value>, rowsB: seq<Value>, x: Value)
    requires HasFirst(rowsB)
    ensures x in Common(keys, rowsB, FirstColumn) <==> x in keys && x in Keys(rowsB)
    decreases |rowsB|
  {
    if |rowsB| > 0 {
      CommonMembership(keys, rowsB[..|rowsB| - 1], x);
    }
  }

  /** The result follows B's rows: scanning B in two parts gives the two
      results one after the other. */
  lemma {:induction false} CommonFollowsB(keys: set<Value>, b1: seq<Value>, b2: seq<Value>, probe: Probe)
    requires HasFirst(b1) && HasFirst(b2)
    ensures HasFirst(b1 + b2)
    ensures Common(keys, b1 + b2, probe) == Common(keys, b1, probe) + Common(keys, b2, probe)
    decreases |b2|
  {
    ConcatHasFirst(b1, b2);
    if |b2| == 0 {
      assert b1 + b2 == b1;
    } else {
      var init := b2[..|b2| - 1];
      assert (b1 + b2)[..|b1 + b2| - 1] == b1 + init;
      assert (b1 + b2)[|b1 + b2| - 1] == b2[|b2| - 1];
      CommonFollowsB(keys, b1, init, probe);
    }
  }

  lemma ConcatHasFirst(b1: seq<Value>, b2: seq<Value>)
    requires HasFirst(b1) && HasFirst(b2)
    ensures HasFirst(b1 + b2)
  {
    forall i | 0 <= i < |b1 + b2|
      ensures (b1 + b2)[i].TupleV? && |(b1 + b2)[i].items| >= 1
    {
      if i < |b1| {
        assert (b1 + b2)[i] == b1[i];
      } else {
        assert (b1 + b2)[i] == b2[i - |b1|];
      }
    }
  }

  /** With the first column probed, a key of A occurs in the result as often
      as it occurs among B's keys; other values do not occur. */
  lemma {:induction false} CommonMultiplicity(keys: set<Value>, rowsB: seq<Value>, x: Value)
    requires HasFirst(rowsB)
    ensures multiset(Common(keys, rowsB, FirstColumn))[x] == if x in keys then multiset(Keys(rowsB))[x] else 0
    decreases |rowsB|
  {
    if |rowsB| > 0 {
      CommonMultiplicity(keys, rowsB[..|rowsB| - 1], x);
    }
  }

  /** `similarity(f, t)` with line 56 probing `probe`: `None` when either id
      is not stored, else the sizes of the common entourage and hashtag lists. */
  function SimilarityScore(db: Db, followerId: int, targetId: int, probe: Probe): (r: Option<nat>)
    ensures r.None? <==> followerId !in db.users || targetId !in db.users
  {
    if followerId !in db.users || targetId !in db.users then None
    else
      RowsAreOneColumn(db, EntourageSel, followerId);
      RowsAreOneColumn(db, EntourageSel, targetId);
      RowsAreOneColumn(db, HashtagsSel, followerId);
      RowsAreOneColumn(db, HashtagsSel, targetId);
      Some(|Common(KeySet(Rows(db, EntourageSel, followerId)), Rows(db, EntourageSel, targetId), probe)| +
           |Common(KeySet(Rows(db, HashtagsSel, followerId)), Rows(db, HashtagsSel, targetId), probe)|)
  }

  /** `similarity`, with the key test of line 56 on the first column. */
  method Similarity(db: Db, followerId: int, targetId: int) returns (r: Option<nat>)
    ensures r == SimilarityScore(db, followerId, targetId, FirstColumn)
  {
    var ids := [followerId, targetId];
    for k := 0 to 2
      invariant forall m :: 0 <= m < k ==> ids[m] in db.users
    {
      if UserIngest.CheckUser(db, None, Some(ids[k])) == Ok(None) {
        assert ids[k] !in db.users;
        return None;
      }
    }
    assert ids[0] in db.users && ids[1] in db.users;
    RowsAreOneColumn(db, EntourageSel, followerId);
    RowsAreOneColumn(db, EntourageSel, targetId);
    RowsAreOneColumn(db, HashtagsSel, followerId);
    RowsAreOneColumn(db, HashtagsSel, targetId);
    var commonEntourage := CommonItems(Rows(db, EntourageSel, followerId), Rows(db, EntourageSel, targetId), FirstColumn);
    var commonHashtags := CommonItems(Rows(db, HashtagsSel, followerId), Rows(db, HashtagsSel, targetId), FirstColumn);
    r := Some(|commonEntourage| + |commonHashtags|);
  }

  /** With line 56 as written and the hashtag join of line 42 corrected,
      `similarity` is `None` for an unknown id and 0 for every pair of stored
      users. (With line 42 as written, the hashtag select raises first.) */
  lemma SimilarityAsWrittenIsZero(db: Db, followerId: int, targetId: int)
    ensures SimilarityScore(db, followerId, targetId, WholeRow) ==
      if followerId in db.users && targetId in db.users then Some(0) else None
  {
    if followerId in db.users && targetId in db.users {
      RowsAreOneColumn(db, EntourageSel, followerId);
      RowsAreOneColumn(db, EntourageSel, targetId);
      RowsAreOneColumn(db, HashtagsSel, followerId);
      RowsAreOneColumn(db, HashtagsSel, targetId);
      WholeRowNeverMatches(Rows(db, EntourageSel, followerId), Rows(db, EntourageSel, targetId));
      WholeRowNeverMatches(Rows(db, HashtagsSel, followerId), Rows(db, HashtagsSel, targetId));
    }
  }

  /** With first columns compared, similarity is bounded by the target's own
      entourage and hashtag rows, which are the rows scanned. */
  lemma SimilarityBounds(db: Db, followerId: int, targetId: int)
    ensures SimilarityScore(db, followerId, targetId, FirstColumn).None? <==>
      followerId !in db.users || targetId !in db.users
    ensures SimilarityScore(db, followerId, targetId, FirstColumn).Some? ==>
      SimilarityScore(db, followerId, targetId, FirstColumn).value <=
        |Rows(db, EntourageSel, targetId)| + |Rows(db, HashtagsSel, targetId)|
  {
  }

  /** Two stored users whose only edges lead to the same follower 7. */
  function SharedEdgeDb(): (r: Db)
  {
    Db(map[1 := User(1, "a", 0, false, 0, 0, 0, 0), 2 := User(2, "b", 0, false, 0, 0, 0, 0)],
       map[], [], [], [], [],
       [Entourage(1, 7, false, true), Entourage(2, 7, false, true)])
  }

  lemma SharedEdgeRows(uid: int)
    requires uid == 1 || uid == 2
    ensures Rows(SharedEdgeDb(), EntourageSel, uid) == [Row(IntV(7))]
    ensures Rows(SharedEdgeDb(), HashtagsSel, uid) == []
  {
    var es := SharedEdgeDb().entourages;
    assert es[..1] == [Entourage(1, 7, false, true)];
    assert es[..1][..0] == [];
  }

  /** On `SharedEdgeDb`, with the hashtag join of line 42 corrected, the
      comparison of line 56 as written scores 0 and the first-column
      comparison scores 1. */
  lemma SharedEdgeExample()
    ensures SimilarityScore(SharedEdgeDb(), 1, 2, WholeRow) == Some(0)
    ensures SimilarityScore(SharedEdgeDb(), 1, 2, FirstColumn) == Some(1)
  {
    SharedEdgeRows(1);
    SharedEdgeRows(2);
    var rows := [Row(IntV(7))];
    assert rows[..0] == [];
    assert KeySet(rows) == {IntV(7)};
    assert Common({IntV(7)}, rows, FirstColumn) == [IntV(7)];
    assert Common({IntV(7)}, rows, WholeRow) == [];
  }

  /** `db_info()`: one count per table, under seven keys. */
  function DbInfo(db: Db): (info: map<string, int>)
    ensures info.Keys == {"user", "entourage", "interaction", "status", "mention", "urls", "hashtags"}
    ensures |info| == 7
    ensures info["user"] == |db.users| && info["status"] == |db.statuses|
    ensures info["entourage"] == |db.entourages| && info["interaction"] == |db.interactions|
    ensures info["mention"] == |db.mentions| && info["urls"] == |db.links| && info["hashtags"] == |db.hashtags|
  {
    map["user" := |db.users|,
        "entourage" := |db.entourages|,
        "interaction" := |db.interactions|,
        "status" := |db.statuses|,
        "mention" := |db.mentions|,
        "urls" := |db.links|,
        "hashtags" := |db.hashtags|]
  }
}
