/** twitscan/helpers.py: an unguarded insert of a status with its mentions,
    committed at once, and a no-op `add_user`. */
module Helpers {
  import opened Types
  import opened Models
  import opened Raw
  import StatusIngest

  /** `add_user(user)` evaluates `session` and returns. */
  method AddUser(session: Session, user: RawUser)
    ensures session.Snapshot() == old(session.Snapshot())
  {
  }

  /** The `Status` row `add_status` builds. Its favourite count is whatever
      the `favorites_count` attribute of the argument holds, passed here as
      `favoritesCount`. */
  function AddedRow(raw: RawStatus, favoritesCount: int): (s: Status)
    ensures s == StatusIngest.StatusRow(raw.(favoriteCount := favoritesCount))
    ensures s.statusId == raw.id && s.userId == raw.userId && s.favoriteCount == favoritesCount
  {
    Status(raw.id, raw.text, raw.createdAt, favoritesCount, raw.retweetCount,
           raw.inReplyToStatusId, raw.inReplyToUserId, raw.isRetweet, raw.userId)
  }

  /** `add_status(status)`: one `session.add` per mention, then the status,
      then `commit`. The rows wait in the session until the commit; a commit
      whose status key is already stored fails with IntegrityError and the
      transaction rolls back, leaving the store as it was. */
  method AddStatus(session: Session, raw: RawStatus, favoritesCount: int) returns (r: Option<Error>)
    modifies session
    ensures r.None? <==> raw.id !in old(session.statuses)
    ensures r.Some? ==> r.value == IntegrityError && session.Snapshot() == old(session.Snapshot())
    ensures r.None? ==> (session.Snapshot() ==
      old(session.Snapshot()).(statuses := old(session.statuses)[raw.id := AddedRow(raw, favoritesCount)],
                               mentions := old(session.mentions) + StatusIngest.MentionRows(raw)))
  {
    var newMentions := StatusIngest.MentionRows(raw);
    var pending: seq<Mention> := [];
    for i := 0 to |newMentions|
      invariant pending == newMentions[..i]
    {
      pending := pending + [newMentions[i]];
    }
    var newStatus := AddedRow(raw, favoritesCount);
    if newStatus.statusId in session.statuses {
      return Some(IntegrityError);
    }
    session.statuses := session.statuses[newStatus.statusId := newStatus];
    session.mentions := session.mentions + pending;
    r := None;
  }

  /** On a new key, `add_status` stores what `save_status` would when the
      favourite count it reads agrees with the raw status's own. */
  lemma AddedAgreesWithSaved(db: Db, raw: RawStatus)
    requires raw.id !in db.statuses
    ensures StatusIngest.Saved(db, raw) ==
      db.(statuses := db.statuses[raw.id := AddedRow(raw, raw.favoriteCount)],
          mentions := db.mentions + StatusIngest.MentionRows(raw))
  {
  }

  /** A successful `add_status` keeps the store consistent, and the new
      status's `user_mentions` are exactly the freshly built list. */
  lemma AddedValid(db: Db, raw: RawStatus, favoritesCount: int)
    requires db.Valid() && raw.id !in db.statuses
    ensures var db' := db.(statuses := db.statuses[raw.id := AddedRow(raw, favoritesCount)],
                           mentions := db.mentions + StatusIngest.MentionRows(raw));
      db'.Valid() && MentionsOf(db'.mentions, raw.id) == StatusIngest.MentionRows(raw)
  {
    var raw' := raw.(favoriteCount := favoritesCount);
    assert StatusIngest.MentionRows(raw') == StatusIngest.MentionRows(raw);
    StatusIngest.SavedValid(db, raw');
    StatusIngest.SavedMentions(db, raw');
  }
}
