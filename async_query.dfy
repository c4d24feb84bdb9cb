/** The set-based scoring of twitscan/async_query.py: entourage resolution,
    common sets, hashtag union, similarity, interaction and engagement. The
    ORM loads (`user.entourage`, `user.chirps`, `user.interacted_tweets`) and
    the lookups `user_by_id` / `status_by_id` read the store `db`. */
module AsyncQuery {
  import opened Types
  import opened Models

  function Elems(s: seq<User>): (r: set<User>)
  {
    set u | u in s
  }

  /** `[user_by_id(e.friend_follower_id) for e in user.entourage if <flag>]`
      with the `None`s dropped, in edge order. */
  function Reached(db: Db, edges: seq<Entourage>, uid: int, role: Role): (r: seq<User>)
    ensures |r| <= |edges|
    ensures forall k :: 0 <= k < |r| ==> r[k] in db.users.Values
  {
    if |edges| == 0 then []
    else
      var e := edges[|edges| - 1];
      var found := UserById(db, e.friendFollowerId);
      Reached(db, edges[..|edges| - 1], uid, role) +
        (if e.userId == uid && Selects(role, e) && found.Some? then [found.value] else [])
  }

  /** Edge `e` of `uid` carries the flag `role` asks for and leads to the stored `u`. */
  predicate Leads(db: Db, e: Entourage, uid: int, role: Role, u: User)
  {
    e.userId == uid && Selects(role, e) && e.friendFollowerId in db.users && db.users[e.friendFollowerId] == u
  }

  /** A user is reached exactly when some edge of `uid` with the right flag
      resolves to it; edges whose other party is not stored are dropped. */
  lemma {:induction false} ReachedMembership(db: Db, edges: seq<Entourage>, uid: int, role: Role, u: User)
    ensures u in Reached(db, edges, uid, role) <==>
      exists i :: 0 <= i < |edges| && Leads(db, edges[i], uid, role, u)
    decreases |edges|
  {
    if |edges| > 0 {
      var init := edges[..|edges| - 1];
      ReachedMembership(db, init, uid, role, u);
      if exists i :: 0 <= i < |init| && Leads(db, init[i], uid, role, u) {
        var i :| 0 <= i < |init| && Leads(db, init[i], uid, role, u);
        assert edges[i] == init[i];
      }
      if exists i :: 0 <= i < |edges| && Leads(db, edges[i], uid, role, u) {
        var i :| 0 <= i < |edges| && Leads(db, edges[i], uid, role, u);
        if i < |init| {
          assert init[i] == edges[i];
        }
      }
    }
  }

  /** `followers(user)`: stored users among `user`'s follower edges. */
  function Followers(db: Db, user: User): (r: seq<User>)
    ensures |r| <= |db.entourages|
    ensures forall k :: 0 <= k < |r| ==> r[k] in db.users.Values
  {
    Reached(db, db.entourages, user.userId, FollowerEdge)
  }

  /** `friends(user)`: stored users among `user`'s friend edges. */
  function Friends(db: Db, user: User): (r: seq<User>)
    ensures |r| <= |db.entourages|
    ensures forall k :: 0 <= k < |r| ==> r[k] in db.users.Values
  {
    Reached(db, db.entourages, user.userId, FriendEdge)
  }

  /** `entourage(user)`: stored users among all of `user`'s edges. */
  function EntourageOf(db: Db, user: User): (r: seq<User>)
    ensures |r| <= |db.entourages|
    ensures forall k :: 0 <= k < |r| ==> r[k] in db.users.Values
  {
    Reached(db, db.entourages, user.userId, AnyEdge)
  }

  /** Every friend and every follower is in the entourage, and everyone in
      the entourage is a friend or a follower when every edge carries a flag. */
  lemma EntourageCoversFriendsAndFollowers(db: Db, user: User)
    ensures Elems(Friends(db, user)) <= Elems(EntourageOf(db, user))
    ensures Elems(Followers(db, user)) <= Elems(EntourageOf(db, user))
    ensures (forall i :: 0 <= i < |db.entourages| ==> db.entourages[i].friend || db.entourages[i].follower) ==>
      Elems(EntourageOf(db, user)) == Elems(Friends(db, user)) + Elems(Followers(db, user))
  {
    forall u | u in Friends(db, user) ensures u in EntourageOf(db, user) {
      ReachedMembership(db, db.entourages, user.userId, FriendEdge, u);
      var i :| 0 <= i < |db.entourages| && Leads(db, db.entourages[i], user.userId, FriendEdge, u);
      ReachedMembership(db, db.entourages, user.userId, AnyEdge, u);
      assert Leads(db, db.entourages[i], user.userId, AnyEdge, u);
    }
    forall u | u in Followers(db, user) ensures u in EntourageOf(db, user) {
      ReachedMembership(db, db.entourages, user.userId, FollowerEdge, u);
      var i :| 0 <= i < |db.entourages| && Leads(db, db.entourages[i], user.userId, FollowerEdge, u);
      ReachedMembership(db, db.entourages, user.userId, AnyEdge, u);
      assert Leads(db, db.entourages[i], user.userId, AnyEdge, u);
    }
    if forall i :: 0 <= i < |db.entourages| ==> db.entourages[i].friend || db.entourages[i].follower {
      forall u | u in EntourageOf(db, user) ensures u in Friends(db, user) || u in Followers(db, user) {
        ReachedMembership(db, db.entourages, user.userId, AnyEdge, u);
        var i :| 0 <= i < |db.entourages| && Leads(db, db.entourages[i], user.userId, AnyEdge, u);
        if db.entourages[i].friend {
          ReachedMembership(db, db.entourages, user.userId, FriendEdge, u);
          assert Leads(db, db.entourages[i], user.userId, FriendEdge, u);
        } else {
          ReachedMembership(db, db.entourages, user.userId, FollowerEdge, u);
          assert Leads(db, db.entourages[i], user.userId, FollowerEdge, u);
        }
      }
    }
  }

  /** The users reached from both `a` and `b` along edges of `role`. */
  function CommonBy(db: Db, a: User, b: User, role: Role): (r: set<User>)
    ensures r <= Elems(Reached(db, db.entourages, a.userId, role))
    ensures r <= Elems(Reached(db, db.entourages, b.userId, role))
    ensures r <= db.users.Values
  {
    Elems(Reached(db, db.entourages, a.userId, role)) * Elems(Reached(db, db.entourages, b.userId, role))
  }

  /** `common_followers(a, b)`: the followers `a` and `b` share. */
  function CommonFollowers(db: Db, a: User, b: User): (r: set<User>)
    ensures r <= Elems(Followers(db, a)) && r <= Elems(Followers(db, b))
  {
    CommonBy(db, a, b, FollowerEdge)
  }

  /** `common_friends(a, b)`: the friends `a` and `b` share. */
  function CommonFriends(db: Db, a: User, b: User): (r: set<User>)
    ensures r <= Elems(Friends(db, a)) && r <= Elems(Friends(db, b))
  {
    CommonBy(db, a, b, FriendEdge)
  }

  /** `common_entourage(a, b)`: the entourage members `a` and `b` share. */
  function CommonEntourage(db: Db, a: User, b: User): (r: set<User>)
    ensures r <= Elems(EntourageOf(db, a)) && r <= Elems(EntourageOf(db, b))
  {
    CommonBy(db, a, b, AnyEdge)
  }

  /** A common friend is a stored user that a friend edge of `a` and a friend
      edge of `b` both lead to (likewise for followers with follower edges
      and for the entourage with any edge); the common sets are symmetric in
      their arguments. */
  lemma CommonSetsMeaning(db: Db, a: User, b: User, role: Role, u: User)
    ensures u in CommonBy(db, a, b, role) <==>
      (exists i :: 0 <= i < |db.entourages| && Leads(db, db.entourages[i], a.userId, role, u)) &&
      (exists j :: 0 <= j < |db.entourages| && Leads(db, db.entourages[j], b.userId, role, u))
    ensures CommonBy(db, a, b, role) == CommonBy(db, b, a, role)
    ensures CommonBy(db, a, b, role) <= Elems(Reached(db, db.entourages, a.userId, role))
    ensures CommonBy(db, a, b, role) <= Elems(Reached(db, db.entourages, b.userId, role))
  {
    ReachedMembership(db, db.entourages, a.userId, role, u);
    ReachedMembership(db, db.entourages, b.userId, role, u);
  }

  /** `hashtags_used(user)` as a value: every hashtag name on a stored status
      written by `uid`. */
  function HashtagsUsed(db: Db, uid: int): (r: set<string>)
    ensures forall h :: h in r <==> exists s :: s in ChirpIds(db, uid) && h in HashtagNames(db, s)
  {
    set h | h in db.hashtags && h.statusId in ChirpIds(db, uid) :: h.hashtagName
  }

  /** `hashtags_used`: the loop that grows `used_ht` chirp by chirp. */
  method CollectHashtags(db: Db, user: User) returns (used: set<string>)
    ensures used == HashtagsUsed(db, user.userId)
  {
    used := {};
    var todo := ChirpIds(db, user.userId);
    ghost var done: set<int> := {};
    while todo != {}
      invariant done + todo == ChirpIds(db, user.userId)
      invariant done !! todo
      invariant used == set h | h in db.hashtags && h.statusId in done :: h.hashtagName
      decreases todo
    {
      var chirp := Pick(todo);
      used := used + HashtagNames(db, chirp);
      todo := todo - {chirp};
      done := done + {chirp};
    }
  }

  /** `common_hashtags(a, b)`: the hashtags both users wrote. */
  function CommonHashtags(db: Db, a: User, b: User): (r: set<string>)
    ensures r <= HashtagsUsed(db, a.userId) && r <= HashtagsUsed(db, b.userId)
  {
    HashtagsUsed(db, a.userId) * HashtagsUsed(db, b.userId)
  }

  /** A common hashtag is one that both users wrote on some stored status of
      theirs; the set is symmetric and lies within each side's hashtags. */
  lemma CommonHashtagsMeaning(db: Db, a: User, b: User, h: string)
    ensures h in CommonHashtags(db, a, b) <==>
      (exists i :: 0 <= i < |db.hashtags| && db.hashtags[i].hashtagName == h && db.hashtags[i].statusId in ChirpIds(db, a.userId)) &&
      (exists j :: 0 <= j < |db.hashtags| && db.hashtags[j].hashtagName == h && db.hashtags[j].statusId in ChirpIds(db, b.userId))
    ensures CommonHashtags(db, a, b) == CommonHashtags(db, b, a)
    ensures CommonHashtags(db, a, b) <= HashtagsUsed(db, a.userId) && CommonHashtags(db, a, b) <= HashtagsUsed(db, b.userId)
  {
    if h in CommonHashtags(db, a, b) {
      var x :| x in db.hashtags && x.statusId in ChirpIds(db, a.userId) && x.hashtagName == h;
      var y :| y in db.hashtags && y.statusId in ChirpIds(db, b.userId) && y.hashtagName == h;
      var i :| 0 <= i < |db.hashtags| && db.hashtags[i] == x;
      var j :| 0 <= j < |db.hashtags| && db.hashtags[j] == y;
    }
  }

  /** `similarity(a, b)`: common friends and followers weigh 2, common hashtags 1. */
  function Similarity(db: Db, a: User, b: User): (r: nat)
    ensures r == 0 <==> CommonFriends(db, a, b) == {} && CommonFollowers(db, a, b) == {} && CommonHashtags(db, a, b) == {}
    ensures r >= |CommonHashtags(db, a, b)|
  {
    (|CommonFriends(db, a, b)| + |CommonFollowers(db, a, b)|) * 2 + |CommonHashtags(db, a, b)|
  }

  /** Similarity is symmetric, and no user is more similar to `a` than `a`
      itself, whose self-similarity counts its own friends, followers and
      hashtags. */
  lemma SimilarityProperties(db: Db, a: User, b: User)
    ensures Similarity(db, a, b) == Similarity(db, b, a)
    ensures Similarity(db, a, a) ==
      (|Elems(Friends(db, a))| + |Elems(Followers(db, a))|) * 2 + |HashtagsUsed(db, a.userId)|
    ensures Similarity(db, a, b) <= Similarity(db, a, a)
  {
    assert CommonFriends(db, a, b) == CommonFriends(db, b, a);
    assert CommonFollowers(db, a, b) == CommonFollowers(db, b, a);
    assert CommonHashtags(db, a, b) == CommonHashtags(db, b, a);
    assert CommonFriends(db, a, a) == Elems(Friends(db, a));
    assert CommonFollowers(db, a, a) == Elems(Followers(db, a));
    assert CommonHashtags(db, a, a) == HashtagsUsed(db, a.userId);
    SubsetSize(CommonFriends(db, a, b), Elems(Friends(db, a)));
    SubsetSize(CommonFollowers(db, a, b), Elems(Followers(db, a)));
    SubsetSize(CommonHashtags(db, a, b), HashtagsUsed(db, a.userId));
  }

  datatype Kind = Like | Retweet | Comment

  predicate HasKind(row: Interaction, kind: Kind)
  {
    match kind
    case Like => row.like
    case Retweet => row.retweet
    case Comment => row.comment
  }

  /** The row's status resolves through `status_by_id` and was written by `target`. */
  predicate Towards(db: Db, row: Interaction, target: int)
  {
    var s := StatusById(db, row.statusId);
    s.Some? && s.value.userId == target
  }

  /** Number of `rows` of kind `kind` whose status resolves to one by `target`. */
  function CountKind(db: Db, rows: seq<Interaction>, kind: Kind, target: int): (r: nat)
  {
    if |rows| == 0 then 0
    else
      var row := rows[|rows| - 1];
      CountKind(db, rows[..|rows| - 1], kind, target) + (if HasKind(row, kind) && Towards(db, row, target) then 1 else 0)
  }

  /** `interaction(a, b)`: over `a`'s interaction rows, a comment on a status
      by `b` weighs 3, a retweet 2, a like 1; unresolved statuses are skipped. */
  function InteractionScore(db: Db, a: User, b: User): (r: nat)
    ensures var rows := InteractedTweets(db.interactions, a.userId);
      r == 0 <==> (CountKind(db, rows, Comment, b.userId) == 0 && CountKind(db, rows, Retweet, b.userId) == 0 &&
                   CountKind(db, rows, Like, b.userId) == 0)
  {
    var rows := InteractedTweets(db.interactions, a.userId);
    3 * CountKind(db, rows, Comment, b.userId) + 2 * CountKind(db, rows, Retweet, b.userId)
      + CountKind(db, rows, Like, b.userId)
  }

  /** Reference definition: the weight of one row, all its flags counted. */
  function RowWeight(db: Db, row: Interaction, target: int): (r: nat)
  {
    if Towards(db, row, target) then
      (if row.comment then 3 else 0) + (if row.retweet then 2 else 0) + (if row.like then 1 else 0)
    else 0
  }

  function SumWeights(db: Db, rows: seq<Interaction>, target: int): (r: nat)
  {
    if |rows| == 0 then 0
    else SumWeights(db, rows[..|rows| - 1], target) + RowWeight(db, rows[|rows| - 1], target)
  }

  /** The per-category counts add up to the row-by-row weights, and each row
      weighs at most 6. */
  lemma {:induction false} CountsAreRowWeights(db: Db, rows: seq<Interaction>, target: int)
    ensures 3 * CountKind(db, rows, Comment, target) + 2 * CountKind(db, rows, Retweet, target)
      + CountKind(db, rows, Like, target) == SumWeights(db, rows, target)
    ensures SumWeights(db, rows, target) <= 6 * |rows|
    decreases |rows|
  {
    if |rows| > 0 {
      CountsAreRowWeights(db, rows[..|rows| - 1], target);
    }
  }

  /** `interaction(a, b)` is the sum of the weights of `a`'s rows towards
      `b`, hence at most 6 per row of `a.interacted_tweets`. */
  lemma InteractionBounds(db: Db, a: User, b: User)
    ensures InteractionScore(db, a, b) == SumWeights(db, InteractedTweets(db.interactions, a.userId), b.userId)
    ensures InteractionScore(db, a, b) <= 6 * |InteractedTweets(db.interactions, a.userId)|
  {
    CountsAreRowWeights(db, InteractedTweets(db.interactions, a.userId), b.userId);
  }

  lemma {:induction false} CountKindFrame(db: Db, db': Db, rows: seq<Interaction>, kind: Kind, target: int)
    requires db.statuses == db'.statuses
    ensures CountKind(db, rows, kind, target) == CountKind(db', rows, kind, target)
    decreases |rows|
  {
    if |rows| > 0 {
      CountKindFrame(db, db', rows[..|rows| - 1], kind, target);
    }
  }

  /** An interaction row whose status is not stored changes no interaction score. */
  lemma OrphanIgnored(db: Db, orphan: Interaction, a: User, b: User)
    requires orphan.statusId !in db.statuses
    ensures InteractionScore(db.(interactions := db.interactions + [orphan]), a, b) == InteractionScore(db, a, b)
  {
    var db' := db.(interactions := db.interactions + [orphan]);
    assert (db.interactions + [orphan])[..|db.interactions|] == db.interactions;
    var rows := InteractedTweets(db.interactions, a.userId);
    var rows' := InteractedTweets(db'.interactions, a.userId);
    assert rows' == rows + (if orphan.userId == a.userId then [orphan] else []);
    assert !Towards(db', orphan, b.userId);
    forall kind: Kind ensures CountKind(db', rows', kind, b.userId) == CountKind(db, rows, kind, b.userId) {
      CountKindFrame(db, db', rows, kind, b.userId);
      if orphan.userId == a.userId {
        assert rows'[..|rows'| - 1] == rows && rows'[|rows'| - 1] == orphan;
        assert CountKind(db', rows', kind, b.userId) == CountKind(db', rows, kind, b.userId);
      } else {
        assert rows' == rows;
      }
    }
  }

  /** `engagement(a, b)`: interaction counts twice, similarity once. */
  function Engagement(db: Db, a: User, b: User): (r: nat)
    ensures r >= Similarity(db, a, b)
    ensures r == 0 <==> InteractionScore(db, a, b) == 0 && Similarity(db, a, b) == 0
  {
    InteractionScore(db, a, b) * 2 + Similarity(db, a, b)
  }

  /** Engagement lies between the similarity and the similarity plus 12 per
      interaction row of `a`; its asymmetry is exactly that of interaction. */
  lemma EngagementBounds(db: Db, a: User, b: User)
    ensures Similarity(db, a, b) <= Engagement(db, a, b)
    ensures Engagement(db, a, b) <= 12 * |InteractedTweets(db.interactions, a.userId)| + Similarity(db, a, b)
    ensures Engagement(db, a, b) - Engagement(db, b, a) == 2 * (InteractionScore(db, a, b) - InteractionScore(db, b, a))
  {
    InteractionBounds(db, a, b);
    SimilarityProperties(db, a, b);
  }
}
