/** The relational store of twitscan/models.py. Tables keyed by a primary key
    that the code supplies (`user`, `status`) are maps from that key to the
    row; tables with an auto-increment key are sequences in insertion order.
    The ORM relationships (`user.entourage`, `user.chirps`,
    `user.interacted_tweets`, `status.user_mentions`) are filters over those
    tables. The `hashtag` and `link` tables and `status.hashtags` are assumed:
    the queries read them, but twitscan/models.py does not declare them. */
module Models {
  import opened Types

  datatype User = User(
    userId: int,
    screenName: string,
    createdAt: int,
    verified: bool,
    favoritesCount: int,
    statusCount: int,
    friendsCount: int,
    followersCount: int)

  datatype Status = Status(
    statusId: int,
    text: string,
    createdAt: int,
    favoriteCount: int,
    retweetCount: int,
    inReplyToStatusId: Option<int>,
    inReplyToUserId: Option<int>,
    isRetweet: bool,
    userId: int)

  /** The mentioned `userId` need not be a stored user. */
  datatype Mention = Mention(statusId: int, userId: int)

  /** Assumed table: read by the queries, not declared in twitscan/models.py. */
  datatype Hashtag = Hashtag(statusId: int, hashtagName: string)

  /** Assumed table, like `Hashtag`. */
  datatype Link = Link(statusId: int, link: string)

  datatype Interaction = Interaction(userId: int, statusId: int, like: bool, retweet: bool, comment: bool)

  /** An edge of `userId`'s entourage; `friendFollowerId` need not be stored. */
  datatype Entourage = Entourage(userId: int, friendFollowerId: int, friend: bool, follower: bool)

  datatype Db = Db(
    users: map<int, User>,
    statuses: map<int, Status>,
    mentions: seq<Mention>,
    hashtags: seq<Hashtag>,
    links: seq<Link>,
    interactions: seq<Interaction>,
    entourages: seq<Entourage>)
  {
    /** Primary keys agree with the rows they index, and mention and hashtag
        rows hang off a stored status (their foreign key). */
    ghost predicate Valid()
    {
      (forall k :: k in users ==> users[k].userId == k) &&
      (forall k :: k in statuses ==> statuses[k].statusId == k) &&
      (forall i :: 0 <= i < |mentions| ==> mentions[i].statusId in statuses) &&
      (forall i :: 0 <= i < |hashtags| ==> hashtags[i].statusId in statuses)
    }
  }

  /** `select(User).where(User.user_id == id)`: at most one row, by key. */
  function UserById(db: Db, id: int): (r: Option<User>)
    ensures r.Some? <==> id in db.users
    ensures r.Some? ==> r.value == db.users[id]
  {
    if id in db.users then Some(db.users[id]) else None
  }

  /** `query(Status).filter(Status.status_id == id).first()`. */
  function StatusById(db: Db, id: int): (r: Option<Status>)
    ensures r.Some? <==> id in db.statuses
    ensures r.Some? ==> r.value == db.statuses[id]
  {
    if id in db.statuses then Some(db.statuses[id]) else None
  }

  /** Keys of the users whose screen name is `name`. */
  function ScreenNameMatches(db: Db, name: string): (r: set<int>)
  {
    set k | k in db.users && db.users[k].screenName == name
  }

  lemma {:induction false} SubsetSize<T>(x: set<T>, y: set<T>)
    requires x <= y
    ensures |x| <= |y|
    decreases y
  {
    if x != {} {
      var e :| e in x;
      SubsetSize(x - {e}, y - {e});
    }
  }

  lemma SingletonMembersEqual<T>(s: set<T>, a: T, b: T)
    requires |s| == 1 && a in s && b in s
    ensures a == b
  {
    if a != b {
      assert |{a, b}| == 2;
      SubsetSize({a, b}, s);
    }
  }

  /** The one element of a singleton set. */
  function TheElement<T>(s: set<T>): (x: T)
    requires |s| == 1
    ensures s == {x}
  {
    assert s != {};
    var x :| x in s;
    assert forall a, b :: a in s && b in s ==> a == b by {
      forall a, b | a in s && b in s ensures a == b {
        SingletonMembersEqual(s, a, b);
      }
    }
    x
  }

  /** Some element of a non-empty set: the order in which Python iterates a set. */
  method Pick<T>(s: set<T>) returns (x: T)
    requires s != {}
    ensures x in s
  {
    x :| x in s;
  }

  /** `query(User).filter(User.screen_name == name).one_or_none()`: screen
      names are not a key, so two matching rows raise. */
  function UserByScreenName(db: Db, name: string): (r: Result<Option<User>>)
    ensures r == Err(MultipleResultsFound) <==> |ScreenNameMatches(db, name)| > 1
    ensures r == Ok(None) <==> ScreenNameMatches(db, name) == {}
    ensures r.Ok? && r.value.Some? ==>
      exists k :: k in db.users && ScreenNameMatches(db, name) == {k} && db.users[k] == r.value.value
  {
    var matches := ScreenNameMatches(db, name);
    if |matches| == 0 then Ok(None)
    else if |matches| > 1 then Err(MultipleResultsFound)
    else
      var k := TheElement(matches);
      Ok(Some(db.users[k]))
  }

  /** Which flag of an entourage edge a query selects on. */
  datatype Role = FriendEdge | FollowerEdge | AnyEdge

  predicate Selects(role: Role, e: Entourage)
  {
    match role
    case FriendEdge => e.friend
    case FollowerEdge => e.follower
    case AnyEdge => true
  }

  /** `user.interacted_tweets`: the interaction rows of `uid`, in table order. */
  function InteractedTweets(rows: seq<Interaction>, uid: int): (r: seq<Interaction>)
    ensures |r| <= |rows|
    ensures forall i :: 0 <= i < |r| ==> r[i].userId == uid && r[i] in rows
  {
    if |rows| == 0 then []
    else
      var last := rows[|rows| - 1];
      InteractedTweets(rows[..|rows| - 1], uid) + (if last.userId == uid then [last] else [])
  }

  /** Every interaction row of `uid` is in `user.interacted_tweets`, and nothing else is. */
  lemma {:induction false} InteractedTweetsMembership(rows: seq<Interaction>, uid: int, x: Interaction)
    ensures x in InteractedTweets(rows, uid) <==> x in rows && x.userId == uid
    decreases |rows|
  {
    if |rows| > 0 {
      var init := rows[..|rows| - 1];
      InteractedTweetsMembership(init, uid, x);
      assert rows == init + [rows[|rows| - 1]];
    }
  }

  /** The relationship keeps table order: a longer table extends the list. */
  lemma {:induction false} InteractedTweetsAppend(a: seq<Interaction>, b: seq<Interaction>, uid: int)
    ensures InteractedTweets(a + b, uid) == InteractedTweets(a, uid) + InteractedTweets(b, uid)
    decreases |b|
  {
    if |b| == 0 {
      assert a + b == a;
    } else {
      var init := b[..|b| - 1];
      assert (a + b)[..|a + b| - 1] == a + init;
      InteractedTweetsAppend(a, init, uid);
    }
  }

  /** Keys of `user.chirps`: the stored statuses written by `uid`. */
  function ChirpIds(db: Db, uid: int): (r: set<int>)
    ensures r <= db.statuses.Keys
    ensures forall k :: k in db.statuses ==> (k in r <==> db.statuses[k].userId == uid)
  {
    set k | k in db.statuses && db.statuses[k].userId == uid
  }

  /** `[h.hashtag_name for h in status.hashtags]`, as a set. */
  function HashtagNames(db: Db, statusId: int): (r: set<string>)
    ensures forall n :: n in r <==>
      exists i :: 0 <= i < |db.hashtags| && db.hashtags[i].statusId == statusId && db.hashtags[i].hashtagName == n
  {
    set h | h in db.hashtags && h.statusId == statusId :: h.hashtagName
  }

  /** `status.user_mentions`: the mention rows of one status, in table order. */
  function MentionsOf(mentions: seq<Mention>, statusId: int): (r: seq<Mention>)
    ensures |r| <= |mentions|
    ensures forall i :: 0 <= i < |r| ==> r[i].statusId == statusId
  {
    if |mentions| == 0 then []
    else
      var last := mentions[|mentions| - 1];
      MentionsOf(mentions[..|mentions| - 1], statusId) + (if last.statusId == statusId then [last] else [])
  }

  /** The SQLAlchemy session over the store: `session.add` and `add_all`
      append to or insert into these tables. */
  class Session {
    var users: map<int, User>
    var statuses: map<int, Status>
    var mentions: seq<Mention>
    var hashtags: seq<Hashtag>
    var links: seq<Link>
    var interactions: seq<Interaction>
    var entourages: seq<Entourage>

    /** The store as a value, for the read-only queries. */
    function Snapshot(): (r: Db)
      reads this
    {
      Db(users, statuses, mentions, hashtags, links, interactions, entourages)
    }

    constructor (db: Db)
      ensures Snapshot() == db
    {
      users, statuses, mentions := db.users, db.statuses, db.mentions;
      hashtags, links := db.hashtags, db.links;
      interactions, entourages := db.interactions, db.entourages;
    }
  }
}
