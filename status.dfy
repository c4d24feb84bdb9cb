/** twitscan/status.py: the existence-guarded insert of a status and its
    mentions. */
module StatusIngest {
  import opened Types
  import opened Models
  import opened Raw
  import Query

  /** `exists(raw)`: a stored status carries `raw.id` as its key. */
  function Exists(db: Db, raw: RawStatus): (r: bool)
    ensures r <==> raw.id in db.statuses
  {
    StatusById(db, raw.id).Some?
  }

  /** Under the key invariant, `exists` says that some stored row has
      `status_id == raw.id`. */
  lemma ExistsMeansRow(db: Db, raw: RawStatus)
    requires db.Valid()
    ensures Exists(db, raw) <==> exists k :: k in db.statuses && db.statuses[k].statusId == raw.id
  {
    if exists k :: k in db.statuses && db.statuses[k].statusId == raw.id {
      var k :| k in db.statuses && db.statuses[k].statusId == raw.id;
      assert k == raw.id;
    }
  }

  /** The `Status` row built from the raw status, every field copied. */
  function StatusRow(raw: RawStatus): (s: Status)
  {
    Status(raw.id, raw.text, raw.createdAt, raw.favoriteCount, raw.retweetCount,
           raw.inReplyToStatusId, raw.inReplyToUserId, raw.isRetweet, raw.userId)
  }

  /** One `Mention` per entry of `raw.user_mentions`, in order, duplicates kept. */
  function MentionRows(raw: RawStatus): (r: seq<Mention>)
    ensures |r| == |raw.userMentions|
    ensures forall i :: 0 <= i < |r| ==> r[i] == Mention(raw.id, raw.userMentions[i])
  {
    seq(|raw.userMentions|, i requires 0 <= i < |raw.userMentions| => Mention(raw.id, raw.userMentions[i]))
  }

  /** The store as the session sees it after `save_status(raw)`. */
  function Saved(db: Db, raw: RawStatus): (r: Db)
    ensures Exists(db, raw) ==> r == db
    ensures raw.id in r.statuses && r.statuses.Keys == db.statuses.Keys + {raw.id}
    ensures r.users == db.users && r.hashtags == db.hashtags && r.links == db.links
    ensures r.interactions == db.interactions && r.entourages == db.entourages
  {
    if Exists(db, raw) then db
    else db.(statuses := db.statuses[raw.id := StatusRow(raw)], mentions := db.mentions + MentionRows(raw))
  }

  /** `save_status(raw)`. On a new id the status and its mentions are added
      to the session, then `session.add()` with no argument raises. */
  method SaveStatus(session: Session, raw: RawStatus) returns (err: Option<Error>)
    modifies session
    ensures err == if Exists(old(session.Snapshot()), raw) then None else Some(TypeError)
    ensures session.Snapshot() == Saved(old(session.Snapshot()), raw)
  {
    if Exists(session.Snapshot(), raw) {
      return None;
    }
    var status := StatusRow(raw);
    var mentions := MentionRows(raw);
    session.statuses := session.statuses[raw.id := status];
    session.mentions := session.mentions + mentions;
    err := Some(TypeError);
  }

  /** Saving keeps the keys consistent and every mention attached to a
      stored status. */
  lemma SavedValid(db: Db, raw: RawStatus)
    requires db.Valid()
    ensures Saved(db, raw).Valid()
  {
    if !Exists(db, raw) {
      var db' := Saved(db, raw);
      forall i | 0 <= i < |db'.mentions|
        ensures db'.mentions[i].statusId in db'.statuses
      {
        if i >= |db.mentions| {
          assert db'.mentions[i] == MentionRows(raw)[i - |db.mentions|];
        } else {
          assert db'.mentions[i] == db.mentions[i];
        }
      }
    }
  }

  /** An already stored id leaves the store alone; a new one gains exactly
      the status row, keyed by `raw.id`. */
  lemma SavedStatuses(db: Db, raw: RawStatus)
    ensures Exists(db, raw) ==> Saved(db, raw) == db
    ensures !Exists(db, raw) ==>
      Saved(db, raw).statuses.Keys == db.statuses.Keys + {raw.id} &&
      Saved(db, raw).statuses[raw.id].statusId == raw.id &&
      Saved(db, raw).statuses[raw.id].userId == raw.userId &&
      forall k :: k in db.statuses ==> Saved(db, raw).statuses[k] == db.statuses[k]
  {
  }

  /** Saving the same raw status twice is saving it once. */
  lemma SavedIdempotent(db: Db, raw: RawStatus)
    ensures Saved(Saved(db, raw), raw) == Saved(db, raw)
  {
  }

  lemma {:induction false} MentionsOfAppend(ms: seq<Mention>, extra: seq<Mention>, statusId: int)
    ensures MentionsOf(ms + extra, statusId) == MentionsOf(ms, statusId) + MentionsOf(extra, statusId)
    decreases |extra|
  {
    if |extra| == 0 {
      assert ms + extra == ms;
    } else {
      var init := extra[..|extra| - 1];
      assert (ms + extra)[..|ms + extra| - 1] == ms + init;
      MentionsOfAppend(ms, init, statusId);
    }
  }

  lemma {:induction false} MentionsOfNone(ms: seq<Mention>, statusId: int)
    requires forall i :: 0 <= i < |ms| ==> ms[i].statusId != statusId
    ensures MentionsOf(ms, statusId) == []
    decreases |ms|
  {
    if |ms| > 0 {
      MentionsOfNone(ms[..|ms| - 1], statusId);
    }
  }

  lemma {:induction false} MentionsOfAll(ms: seq<Mention>, statusId: int)
    requires forall i :: 0 <= i < |ms| ==> ms[i].statusId == statusId
    ensures MentionsOf(ms, statusId) == ms
    decreases |ms|
  {
    if |ms| > 0 {
      MentionsOfAll(ms[..|ms| - 1], statusId);
      assert ms[..|ms| - 1] + [ms[|ms| - 1]] == ms;
    }
  }

  /** On a new id in a consistent store, the new status's `user_mentions`
      are exactly the freshly built list, in order. */
  lemma SavedMentions(db: Db, raw: RawStatus)
    requires db.Valid() && !Exists(db, raw)
    ensures MentionsOf(Saved(db, raw).mentions, raw.id) == MentionRows(raw)
  {
    assert Saved(db, raw).mentions == db.mentions + MentionRows(raw);
    MentionsOfAppend(db.mentions, MentionRows(raw), raw.id);
    forall i | 0 <= i < |db.mentions|
      ensures db.mentions[i].statusId != raw.id
    {
      assert db.mentions[i].statusId in db.statuses;
    }
    MentionsOfNone(db.mentions, raw.id);
    MentionsOfAll(MentionRows(raw), raw.id);
  }

  /** Table counts: a new id adds one status and one mention per entry of
      `user_mentions`; nothing else changes. */
  lemma SavedCounts(db: Db, raw: RawStatus)
    ensures var before, after := Query.DbInfo(db), Query.DbInfo(Saved(db, raw));
      after["status"] == before["status"] + (if Exists(db, raw) then 0 else 1) &&
      after["mention"] == before["mention"] + (if Exists(db, raw) then 0 else |raw.userMentions|) &&
      after["user"] == before["user"] && after["entourage"] == before["entourage"] &&
      after["interaction"] == before["interaction"] && after["urls"] == before["urls"] &&
      after["hashtags"] == before["hashtags"]
  {
  }
}
