/** The records the remote client hands to the ingest layer: tweepy's user
    object (the attributes the ingest reads) and the `TwitterStatus` filter
    of twitscan/scanner.py. Timestamps are kept as opaque integers. */
module Raw {
  import opened Types

  datatype RawUser = RawUser(
    id: int,
    screenName: string,
    createdAt: int,
    verified: bool,
    favouritesCount: int,
    statusesCount: int,
    friendsCount: int,
    followersCount: int,
    protected: bool)

  /** `TwitterStatus`: `None` reply fields are `Option.None`. */
  datatype RawStatus = RawStatus(
    userId: int,
    text: string,
    id: int,
    createdAt: int,
    favoriteCount: int,
    retweetCount: int,
    inReplyToScreenName: Option<string>,
    inReplyToStatusId: Option<int>,
    inReplyToUserId: Option<int>,
    isRetweet: bool,
    userMentions: seq<int>)

  /** Python truthiness of `in_reply_to_status_id`: `None` and `0` are false. */
  predicate IsReply(s: RawStatus)
  {
    s.inReplyToStatusId.Some? && s.inReplyToStatusId.value != 0
  }
}
