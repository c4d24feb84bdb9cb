/** twitscan/user.py: lookup-before-fetch (`check_user`, `scan`) and the ingest
    of a raw user (`save`, `add_entouage`, `_add_interactions`). The remote
    calls (`api.get_user`, `api.friends_ids`, `api.followers_ids`,
    `api.user_timeline`, `api.favorites`) are parameters holding their results. */
module UserIngest {
  import opened Types
  import opened Models
  import opened Raw

  /** Python truthiness of an optional screen name. */
  predicate Truthy(screenName: Option<string>)
  {
    screenName.Some? && screenName.value != ""
  }

  /** `check_user`: by screen name when it is truthy, otherwise by user id;
      absent means `None`, two rows with the screen name raise. */
  function CheckUser(db: Db, screenName: Option<string>, userId: Option<int>): (r: Result<Option<User>>)
    ensures r.Err? <==> Truthy(screenName) && |ScreenNameMatches(db, screenName.value)| > 1
    ensures r.Err? ==> r.error == MultipleResultsFound
    ensures r == Ok(None) <==>
      if Truthy(screenName) then ScreenNameMatches(db, screenName.value) == {}
      else userId.None? || userId.value !in db.users
    ensures r.Ok? && r.value.Some? && Truthy(screenName) ==>
      exists k :: k in db.users && ScreenNameMatches(db, screenName.value) == {k} && db.users[k] == r.value.value
    ensures r.Ok? && r.value.Some? && !Truthy(screenName) ==>
      userId.Some? && userId.value in db.users && db.users[userId.value] == r.value.value
  {
    if Truthy(screenName) then UserByScreenName(db, screenName.value)
    else if userId.None? then Ok(None)  // `User.user_id == None` matches no row
    else Ok(UserById(db, userId.value))
  }

  /** The `User` row that `save` builds from a raw user. */
  function UserRow(raw: RawUser): (u: User)
  {
    User(raw.id, raw.screenName, raw.createdAt, raw.verified,
         raw.favouritesCount, raw.statusesCount, raw.friendsCount, raw.followersCount)
  }

  /** `save(user)`: one `User` row keyed by the raw id; a row already stored
      under that key makes the insert fail. */
  method Save(session: Session, raw: RawUser) returns (ok: bool)
    requires session.Snapshot().Valid()
    modifies session
    ensures session.Snapshot().Valid()
    ensures ok <==> raw.id !in old(session.users)
    ensures ok ==> session.Snapshot() == old(session.Snapshot()).(users := old(session.users)[raw.id := UserRow(raw)])
    ensures !ok ==> session.Snapshot() == old(session.Snapshot())
  {
    ok := raw.id !in session.users;
    if ok {
      session.users := session.users[raw.id := UserRow(raw)];
    }
  }

  /** `scan`: a user already stored (by `check_user`) is returned as it is,
      without fetching; otherwise the fetched raw user is refused when
      protected and saved when not. `didFetch` says whether the remote lookup
      was used. */
  method Scan(session: Session, userId: Option<int>, screenName: Option<string>, fetched: RawUser)
    returns (r: Result<User>, didFetch: bool)
    requires session.Snapshot().Valid()
    modifies session
    ensures session.Snapshot().Valid()
    ensures userId.None? && screenName.None? ==>
      r == Err(AssertionError) && !didFetch && session.Snapshot() == old(session.Snapshot())
    ensures (userId.Some? || screenName.Some?) && CheckUser(old(session.Snapshot()), screenName, userId).Err? ==>
      r == Err(MultipleResultsFound) && !didFetch && session.Snapshot() == old(session.Snapshot())
    ensures ((userId.Some? || screenName.Some?) && CheckUser(old(session.Snapshot()), screenName, userId).Ok? &&
             CheckUser(old(session.Snapshot()), screenName, userId).value.Some?) ==>
      r == Ok(CheckUser(old(session.Snapshot()), screenName, userId).value.value) && !didFetch &&
      session.Snapshot() == old(session.Snapshot())
    ensures (userId.Some? || screenName.Some?) && CheckUser(old(session.Snapshot()), screenName, userId) == Ok(None) ==>
      didFetch &&
      (fetched.protected ==> r == Err(UserProtected) && session.Snapshot() == old(session.Snapshot())) &&
      (!fetched.protected && fetched.id in old(session.users) ==>
        r == Err(IntegrityError) && session.Snapshot() == old(session.Snapshot())) &&
      (!fetched.protected && fetched.id !in old(session.users) ==>
        r == Ok(UserRow(fetched)) &&
        session.Snapshot() == old(session.Snapshot()).(users := old(session.users)[fetched.id := UserRow(fetched)]))
  {
    didFetch := false;
    if userId.None? && screenName.None? {
      return Err(AssertionError), didFetch;
    }
    var found := CheckUser(session.Snapshot(), screenName, userId);
    if found.Err? {
      return Err(found.error), didFetch;
    }
    if found.value.Some? {
      return Ok(found.value.value), didFetch;
    }
    // `scan_twitter`: fetch, refuse a protected account, save
    didFetch := true;
    if fetched.protected {
      return Err(UserProtected), didFetch;
    }
    var ok := Save(session, fetched);
    if !ok {
      return Err(IntegrityError), didFetch;
    }
    r := Ok(UserRow(fetched));
  }

  function EdgeIds(rows: seq<Entourage>): (r: set<int>)
  {
    set e | e in rows :: e.friendFollowerId
  }

  lemma EdgeIdsAppend(rows: seq<Entourage>, e: Entourage)
    ensures EdgeIds(rows + [e]) == EdgeIds(rows) + {e.friendFollowerId}
  {
    assert forall r :: r in rows + [e] <==> r in rows || r == e;
  }

  /** `rows` holds one row per id of `ids`, owned by `uid` and flagged by
      membership in `friends` and `followers`. */
  ghost predicate EdgeRowsFor(rows: seq<Entourage>, ids: set<int>, uid: int, friends: set<int>, followers: set<int>)
  {
    EdgeIds(rows) == ids &&
    |rows| == |ids| &&
    (forall i, j :: 0 <= i < j < |rows| ==> rows[i].friendFollowerId != rows[j].friendFollowerId) &&
    (forall i :: 0 <= i < |rows| ==>
      rows[i].userId == uid &&
      rows[i].friend == (rows[i].friendFollowerId in friends) &&
      rows[i].follower == (rows[i].friendFollowerId in followers))
  }

  /** The rows `add_entouage` builds: one per distinct id of
      `friends ∪ followers`. */
  ghost predicate EntourageRowsFor(rows: seq<Entourage>, uid: int, friends: set<int>, followers: set<int>)
  {
    EdgeRowsFor(rows, friends + followers, uid, friends, followers)
  }

  lemma EdgeRowsStep(rows: seq<Entourage>, ids: set<int>, uid: int, friends: set<int>, followers: set<int>, ff: int)
    requires EdgeRowsFor(rows, ids, uid, friends, followers)
    requires ff !in ids
    ensures EdgeRowsFor(rows + [Entourage(uid, ff, ff in friends, ff in followers)], ids + {ff}, uid, friends, followers)
  {
    var e := Entourage(uid, ff, ff in friends, ff in followers);
    forall i | 0 <= i < |rows| ensures rows[i].friendFollowerId != ff {
      assert rows[i] in rows;
    }
    EdgeIdsAppend(rows, e);
  }

  /** No row built from `friends ∪ followers` has both flags false. */
  lemma EdgeRowsFlagged(rows: seq<Entourage>, uid: int, friends: set<int>, followers: set<int>)
    requires EntourageRowsFor(rows, uid, friends, followers)
    ensures forall i :: 0 <= i < |rows| ==> rows[i].friend || rows[i].follower
  {
    forall i | 0 <= i < |rows| ensures rows[i].friend || rows[i].follower {
      assert rows[i] in rows;
      assert rows[i].friendFollowerId in EdgeIds(rows);
    }
  }

  /** The loop of `add_entouage` that builds `persons`. */
  method BuildEntourage(uid: int, friends: set<int>, followers: set<int>) returns (persons: seq<Entourage>)
    ensures EntourageRowsFor(persons, uid, friends, followers)
    ensures forall i :: 0 <= i < |persons| ==> persons[i].friend || persons[i].follower
  {
    var friendsFollowers := followers + friends;
    persons := [];
    var todo := friendsFollowers;
    ghost var done: set<int> := {};
    while todo != {}
      invariant done + todo == friendsFollowers && done !! todo
      invariant EdgeRowsFor(persons, done, uid, friends, followers)
      decreases todo
    {
      var ff := Pick(todo);
      var isFriend := ff in friends;
      var isFollower := ff in followers;
      var person := Entourage(uid, ff, isFriend, isFollower);
      EdgeRowsStep(persons, done, uid, friends, followers, ff);
      persons := persons + [person];
      todo := todo - {ff};
      done := done + {ff};
    }
    assert done == friends + followers;
    EdgeRowsFlagged(persons, uid, friends, followers);
  }

  function Elements(ids: seq<int>): (r: set<int>)
  {
    set x | x in ids
  }

  /** `add_entouage(user)`: the store gains exactly the rows built above,
      after its existing entourage rows; nothing else changes. */
  method AddEntourage(session: Session, user: RawUser, friendIds: seq<int>, followerIds: seq<int>)
    modifies session
    ensures |session.entourages| >= |old(session.entourages)|
    ensures session.entourages[..|old(session.entourages)|] == old(session.entourages)
    ensures EntourageRowsFor(session.entourages[|old(session.entourages)|..], user.id,
      Elements(friendIds), Elements(followerIds))
    ensures session.Snapshot() == old(session.Snapshot()).(entourages := session.entourages)
  {
    var friends := Elements(friendIds);
    var followers := Elements(followerIds);
    var persons := BuildEntourage(user.id, friends, followers);
    session.entourages := session.entourages + persons;
    assert session.entourages[|old(session.entourages)|..] == persons;
  }

  function StatusIds(rows: seq<Interaction>): (r: set<int>)
  {
    set r | r in rows :: r.statusId
  }

  lemma StatusIdsAppend(rows: seq<Interaction>, r: Interaction)
    ensures StatusIds(rows + [r]) == StatusIds(rows) + {r.statusId}
  {
    assert forall x :: x in rows + [r] <==> x in rows || x == r;
  }

  /** `rows` holds one row per status id of `ids`, owned by `uid` and flagged
      by membership in `liked`, `retweeted` and `comments`. */
  ghost predicate StatusRowsFor(rows: seq<Interaction>, ids: set<int>, uid: int, liked: set<int>, retweeted: set<int>, comments: set<int>)
  {
    StatusIds(rows) == ids &&
    |rows| == |ids| &&
    (forall i, j :: 0 <= i < j < |rows| ==> rows[i].statusId != rows[j].statusId) &&
    (forall i :: 0 <= i < |rows| ==>
      rows[i].userId == uid &&
      rows[i].like == (rows[i].statusId in liked) &&
      rows[i].retweet == (rows[i].statusId in retweeted) &&
      rows[i].comment == (rows[i].statusId in comments))
  }

  /** The rows `_add_interactions` builds: one per distinct status id of
      `liked ∪ retweeted ∪ comments`. */
  ghost predicate InteractionRowsFor(rows: seq<Interaction>, uid: int, liked: set<int>, retweeted: set<int>, comments: set<int>)
  {
    StatusRowsFor(rows, liked + retweeted + comments, uid, liked, retweeted, comments)
  }

  lemma StatusRowsStep(rows: seq<Interaction>, ids: set<int>, uid: int, liked: set<int>, retweeted: set<int>, comments: set<int>, id: int)
    requires StatusRowsFor(rows, ids, uid, liked, retweeted, comments)
    requires id !in ids
    ensures StatusRowsFor(rows + [Interaction(uid, id, id in liked, id in retweeted, id in comments)],
      ids + {id}, uid, liked, retweeted, comments)
  {
    var r := Interaction(uid, id, id in liked, id in retweeted, id in comments);
    forall i | 0 <= i < |rows| ensures rows[i].statusId != id {
      assert rows[i] in rows;
    }
    StatusIdsAppend(rows, r);
  }

  /** No row built from `liked ∪ retweeted ∪ comments` has all flags false. */
  lemma StatusRowsFlagged(rows: seq<Interaction>, uid: int, liked: set<int>, retweeted: set<int>, comments: set<int>)
    requires InteractionRowsFor(rows, uid, liked, retweeted, comments)
    ensures forall i :: 0 <= i < |rows| ==> rows[i].like || rows[i].retweet || rows[i].comment
  {
    forall i | 0 <= i < |rows| ensures rows[i].like || rows[i].retweet || rows[i].comment {
      assert rows[i] in rows;
      assert rows[i].statusId in StatusIds(rows);
    }
  }

  /** The loop of `_add_interactions` that builds `interactions`. */
  method BuildInteractions(uid: int, liked: set<int>, retweeted: set<int>, comments: set<int>)
    returns (interactions: seq<Interaction>)
    ensures InteractionRowsFor(interactions, uid, liked, retweeted, comments)
    ensures forall i :: 0 <= i < |interactions| ==>
      interactions[i].like || interactions[i].retweet || interactions[i].comment
  {
    var statuses := liked + retweeted + comments;
    interactions := [];
    var todo := statuses;
    ghost var done: set<int> := {};
    while todo != {}
      invariant done + todo == statuses && done !! todo
      invariant StatusRowsFor(interactions, done, uid, liked, retweeted, comments)
      decreases todo
    {
      var status := Pick(todo);
      var isLike := status in liked;
      var isRetweet := status in retweeted;
      var isComment := status in comments;
      var interaction := Interaction(uid, status, isLike, isRetweet, isComment);
      StatusRowsStep(interactions, done, uid, liked, retweeted, comments, status);
      interactions := interactions + [interaction];
      todo := todo - {status};
      done := done + {status};
    }
    StatusRowsFlagged(interactions, uid, liked, retweeted, comments);
  }

  /** `retweeted`: ids of the user's own chirps that are retweets. */
  function Retweeted(chirps: seq<RawStatus>): (r: set<int>)
    ensures forall id :: id in r <==> exists i :: 0 <= i < |chirps| && chirps[i].isRetweet && chirps[i].id == id
  {
    set c | c in chirps && c.isRetweet :: c.id
  }

  /** `comments`: ids of the user's own chirps with a truthy `in_reply_to_status_id`. */
  function Comments(chirps: seq<RawStatus>): (r: set<int>)
    ensures forall id :: id in r <==> exists i :: 0 <= i < |chirps| && IsReply(chirps[i]) && chirps[i].id == id
  {
    set c | c in chirps && IsReply(c) :: c.id
  }

  /** `liked`: the ids of the user's favourites. */
  function Liked(favs: seq<RawStatus>): (r: set<int>)
    ensures forall id :: id in r <==> exists i :: 0 <= i < |favs| && favs[i].id == id
  {
    set f | f in favs :: f.id
  }

  /** `_add_interactions(user)`: `chirps` is the timeline, `favs` the
      favourites; the store gains exactly the rows built above. */
  method AddInteractions(session: Session, user: RawUser, chirps: seq<RawStatus>, favs: seq<RawStatus>)
    modifies session
    ensures |session.interactions| >= |old(session.interactions)|
    ensures session.interactions[..|old(session.interactions)|] == old(session.interactions)
    ensures InteractionRowsFor(session.interactions[|old(session.interactions)|..], user.id,
      Liked(favs), Retweeted(chirps), Comments(chirps))
    ensures session.Snapshot() == old(session.Snapshot()).(interactions := session.interactions)
  {
    var liked := Liked(favs);
    var retweeted := Retweeted(chirps);
    var comments := Comments(chirps);
    var interactions := BuildInteractions(user.id, liked, retweeted, comments);
    session.interactions := session.interactions + interactions;
    assert session.interactions[|old(session.interactions)|..] == interactions;
  }
}
