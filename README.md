# twitscan core in Dafny

This project models the scoring and ingest layer of twitscan. twitscan collects Twitter
accounts into a relational store (users, statuses, mentions, hashtags, interactions,
and friend/follower edges). It then scores how similar and how engaged two accounts are.

The store is a value `Models.Db`:
- Tables keyed by an id that the code supplies (`user`, `status`) are maps from the key to the row.
- Auto-increment tables (`mention`, `hashtag`, `link`, `interaction`, `friend`) are sequences in insertion order; query results are read in that order, which the database itself does not promise (see "## Left out").
- The ORM relationships (`user.entourage`, `user.chirps`, `user.interacted_tweets`, `status.user_mentions`) are filters over those tables.
- The `hashtag` and `link` tables and the `status.hashtags` relationship are assumed. The queries read them, but twitscan/models.py does not declare them.
- The code that writes to the session is imperative. It is a class `Models.Session` with one field per table.

Modules, one per source file:
- `AsyncQuery` (twitscan/async_query.py): set-based friends, followers and entourage; common sets; hashtag union; similarity, interaction and engagement scores.
- `Query` (twitscan/query.py): the one-column SQL selects as row lists; `common_items_maker`; `similarity`; `db_info`.
- `UserIngest` (twitscan/user.py): `check_user`, `scan`, `save`, `add_entouage`, `_add_interactions`.
- `StatusIngest` (twitscan/status.py) and `Helpers` (twitscan/helpers.py): the two status inserts.
- `Engagement` (twitscan/engagement.py): the `EngagementScore` class, whose score is computed once and then kept.
- `Twitter` (twitter.py): the follower-analysis filters. Every API result is an input value.
- `Imgs` (jobs/imgs.py): the 100-field profile-picture line and the sheet header.
- `Types`, `Raw` and `Text` are shared support: Option/Result/error kinds, the raw API records, and decimal rendering, joining and character counts.

Raised exceptions are values of one `Error` enumeration, one constructor per Python exception (`MultipleResultsFound`, `IntegrityError`, `KeyError`, `TypeError`, `ValueError`, `AssertionError`, `UserProtectedError`). Pure operations return them in a `Result`. The store-changing methods report them in the form their caller uses: `UserIngest.Save` returns an `ok` flag that is false exactly on the IntegrityError, and `StatusIngest.SaveStatus` and `Helpers.AddStatus` return an `Option<Error>` that is `None` when nothing was raised.

## Model

| member | source | states |
|---|---|---|
| Models.UserById | twitscan/user.py:19 | a user is found exactly when its id is a key of the user table, and it is the row under that key |
| Models.StatusById | twitscan/async_query.py:129-134 | a status is found exactly when its id is a key of the status table, and it is the row under that key |
| Models.UserByScreenName | twitscan/user.py:13-17 | `one_or_none` by screen name: MultipleResultsFound exactly when more than one user has the name; `None` exactly when none has it; otherwise the single stored user with that name |
| AsyncQuery.Followers | twitscan/async_query.py:15-23 | `followers(user)`: stored users only, at most one per edge (membership in AsyncQuery.ReachedMembership) |
| AsyncQuery.Friends | twitscan/async_query.py:25-33 | `friends(user)`: stored users only, at most one per edge |
| AsyncQuery.EntourageOf | twitscan/async_query.py:35-42 | `entourage(user)`: stored users only, at most one per edge |
| Models.InteractedTweets | twitscan/models.py:50 | `user.interacted_tweets`: rows of that user only, drawn from the table |
| Models.InteractedTweetsMembership | twitscan/models.py:50 | a row is in `user.interacted_tweets` exactly when it is an interaction row whose `user_id` is the user |
| Models.InteractedTweetsAppend | twitscan/models.py:50 | the relationship, read in table order, keeps that order: filtering a concatenated table is the concatenation of the filtered parts |
| Models.HashtagNames | twitscan/async_query.py:118 | a name is listed for a status exactly when some hashtag row of that status carries it |
| Models.ChirpIds | twitscan/models.py:46-48 | `user.chirps`: exactly the stored statuses whose `user_id` is the user |
| Models.MentionsOf | twitscan/models.py:26 | `status.user_mentions`: mention rows of that status only, at most the table's |
| AsyncQuery.ReachedMembership | twitscan/async_query.py:15-42 | a user is in `friends`/`followers`/`entourage` of `u` exactly when an edge of `u` with the `friend` flag (resp. the `follower` flag, or any edge) leads to that stored user; ids that do not resolve are dropped |
| AsyncQuery.EntourageCoversFriendsAndFollowers | twitscan/async_query.py:15-42 | friends and followers are both contained in the entourage; the entourage is exactly their union when every edge carries a flag |
| AsyncQuery.CommonBy | twitscan/async_query.py:45-60 | a common set lies within the users reached from each side and holds stored users only |
| AsyncQuery.CommonFollowers | twitscan/async_query.py:45-49 | `common_followers(a, b)` lies within the followers of `a` and within those of `b` |
| AsyncQuery.CommonFriends | twitscan/async_query.py:51-55 | `common_friends(a, b)` lies within the friends of `a` and within those of `b` |
| AsyncQuery.CommonEntourage | twitscan/async_query.py:57-60 | `common_entourage(a, b)` lies within the entourage of `a` and within that of `b` |
| AsyncQuery.CommonSetsMeaning | twitscan/async_query.py:45-60 | a common friend/follower/entourage member is one reached from both users; each common set is symmetric in the two users and contained in either side |
| AsyncQuery.HashtagsUsed | twitscan/async_query.py:114-120 | a name is used exactly when it is among the hashtag names of one of the user's stored statuses, the chirp-by-chirp union the loop builds |
| AsyncQuery.CollectHashtags | twitscan/async_query.py:114-120 | the loop that grows `used_ht` chirp by chirp ends with exactly the hashtag names on the user's stored statuses |
| AsyncQuery.CommonHashtags | twitscan/async_query.py:123-126 | `common_hashtags(a, b)` lies within each user's hashtags |
| AsyncQuery.CommonHashtagsMeaning | twitscan/async_query.py:123-126 | a common hashtag is one each user wrote on one of their statuses; the set is symmetric and contained in each side's hashtags |
| AsyncQuery.Similarity | twitscan/async_query.py:155-160 | `similarity(a, b)` is 0 exactly when the users share no friend, no follower and no hashtag, and is at least the common hashtag count |
| AsyncQuery.SimilarityProperties | twitscan/async_query.py:155-160 | similarity is symmetric; self-similarity is 2·(own friends + own followers) + own hashtags; no user scores higher with `a` than `a` itself |
| AsyncQuery.InteractionScore | twitscan/async_query.py:163-199 | `interaction(a, b)` is 0 exactly when `a` has no comment, retweet or like on a stored status by `b` |
| AsyncQuery.CountsAreRowWeights | twitscan/async_query.py:169-199 | 3·comments + 2·retweets + likes equals the sum of per-row weights, where a row with several flags counts in each category; the sum is at most 6 per row |
| AsyncQuery.InteractionBounds | twitscan/async_query.py:163-199 | `interaction(a, b)` is the row-weight sum over `a`'s interaction rows towards `b`, so it lies between 0 and 6·|a.interacted_tweets| |
| AsyncQuery.OrphanIgnored | twitscan/async_query.py:179-188 | an interaction row whose status does not resolve changes no interaction score and raises nothing |
| AsyncQuery.Engagement | twitscan/async_query.py:202-206 | `engagement(a, b)` is at least the similarity, and 0 exactly when both interaction and similarity are 0 |
| AsyncQuery.EngagementBounds | twitscan/async_query.py:202-206 | engagement = 2·interaction + similarity lies between the similarity and the similarity plus 12 per interaction row; its asymmetry is twice that of interaction |
| Query.EdgeRows | twitscan/query.py:11-37 | the edge selects return at most one row per entourage row |
| Query.EdgeRowsMeaning | twitscan/query.py:11-35 | `followers`/`friends`/`entourage` return `(friend_follower_id,)` exactly for the edges of the user with the `follower` flag, the `friend` flag, or any flag |
| Query.HashtagRows | twitscan/query.py:38-46 | the hashtag select returns at most one row per hashtag row |
| Query.HashtagRowsMeaning | twitscan/query.py:38-46 | `hashtags` returns `(hashtag_name,)` exactly for the hashtag rows whose status is stored and written by the user; every other row is dropped by the join |
| Query.HashtagRowsAppend | twitscan/query.py:38-46 | the select works row by row: the rows of a concatenated table are the rows of each part, in table order, duplicates kept |
| Query.HashtagRowsKeepDuplicates | twitscan/query.py:38-46 | an example of the two lemmas above: when every hashtag row belongs to the user, each gives one result row, duplicates kept |
| Query.RowsAreOneColumn | twitscan/query.py:11-46 | each of the four selects returns one-column rows holding a scalar |
| Query.Common | twitscan/query.py:55-57 | a `common_*` result is never longer than B's row list |
| Query.CommonItems | twitscan/query.py:49-59 | the two loops of `common_func` return the first column of each of B's rows whose probe is among A's first columns, in B's order |
| Query.CommonMembership | twitscan/query.py:51-58 | with the first column probed, a value is in the result exactly when it is a key of A and a key of B; A's rows only fill the lookup set |
| Query.CommonFollowsB | twitscan/query.py:55-57 | the result follows B's row order: B split in two gives the two partial results concatenated |
| Query.CommonMultiplicity | twitscan/query.py:55-57 | with the first column probed, a key of A occurs in the result as often as among B's keys; no other value occurs |
| Query.WholeRowNeverMatches | twitscan/query.py:53-57 | as written, with the whole row tested against first columns, the result is empty for one-column rows |
| Query.Similarity | twitscan/query.py:148-160 | `None` when either id is not stored; otherwise the common entourage count plus the common hashtag count, with first columns compared |
| Query.SimilarityBounds | twitscan/query.py:153-160 | the score is `None` exactly when an id is missing, and otherwise at most the target's entourage plus hashtag row counts |
| Query.SimilarityScore | twitscan/query.py:148-160 | `None` exactly when either id is not stored |
| Query.SimilarityAsWrittenIsZero | twitscan/query.py:148-160 | with line 56 as written and line 42's join corrected, `similarity` is `None` for an unknown id and 0 for every pair of stored users |
| Query.SharedEdgeExample | twitscan/query.py:53-57 | with line 42's join corrected, two users sharing follower 7 score 0 with line 56 as written and 1 with first columns compared |
| Query.DbInfo | twitscan/query.py:193-211 | `db_info` has exactly the seven keys user, entourage, interaction, status, mention, urls, hashtags, each mapped to the row count of its table (how `save_status` moves these counts is StatusIngest.SavedCounts) |
| UserIngest.CheckUser | twitscan/user.py:10-22 | looks up by screen name when it is truthy, otherwise by id; `None` exactly when nothing matches (always for a `None` id); MultipleResultsFound when several users share the name |
| UserIngest.Save | twitscan/user.py:126-144 | adds exactly one user row under the raw id with id, screen name, creation date, verified flag and four counters copied; an id already stored fails with the store unchanged; key consistency is kept |
| UserIngest.Scan | twitscan/user.py:24-57 | AssertionError when both identifiers are `None`; a user that `check_user` finds is returned unchanged with no fetch and no store change; otherwise the fetched user is refused when protected and saved and returned when not |
| UserIngest.BuildEntourage | twitscan/user.py:68-79 | one row per distinct id of friends ∪ followers, owned by the user, with `friend`/`follower` set by membership; no row has both flags false |
| UserIngest.EdgeRowsFlagged | twitscan/user.py:70-78 | no entourage row built from friends ∪ followers has both flags false |
| UserIngest.AddEntourage | twitscan/user.py:59-81 | the store's entourage rows gain exactly those rows after the existing ones; no other table changes |
| UserIngest.Liked | twitscan/user.py:99-101 | `liked` holds exactly the ids of the user's favourites |
| UserIngest.Retweeted | twitscan/user.py:103 | `retweeted` holds exactly the ids of own chirps that are retweets |
| UserIngest.Comments | twitscan/user.py:104-106 | `comments` holds exactly the ids of own chirps with a truthy `in_reply_to_status_id` (neither `None` nor 0) |
| UserIngest.BuildInteractions | twitscan/user.py:108-121 | one row per distinct status id of liked ∪ retweeted ∪ comments, with the three flags set by membership; no row has all three false |
| UserIngest.StatusRowsFlagged | twitscan/user.py:110-120 | no interaction row built from the union has all three flags false |
| UserIngest.AddInteractions | twitscan/user.py:83-123 | the store's interaction rows gain exactly those rows after the existing ones; no other table changes |
| StatusIngest.Exists | twitscan/status.py:6-12 | `exists(raw)` holds exactly when `raw.id` is a stored status key |
| StatusIngest.ExistsMeansRow | twitscan/status.py:6-12 | with consistent keys, `exists(raw)` holds exactly when some stored row has `status_id == raw.id` |
| StatusIngest.MentionRows | twitscan/status.py:29-32 | one mention per entry of `user_mentions`, in order with duplicates, each carrying the status id |
| StatusIngest.Saved | twitscan/status.py:14-34 | after `save_status` the id is a stored key; an existing id leaves the store as it was; only the status and mention tables change |
| StatusIngest.SaveStatus | twitscan/status.py:14-35 | an already stored id returns with the store unchanged; a new id adds the status and its mentions to the session, then the argument-less `session.add()` raises TypeError |
| StatusIngest.SavedStatuses | twitscan/status.py:14-33 | an existing id leaves the store alone; a new one adds exactly one status keyed by `raw.id` with its `user_id`, leaving other statuses as they were |
| StatusIngest.SavedIdempotent | twitscan/status.py:15-16 | saving the same raw status twice leaves the same store as saving it once |
| StatusIngest.SavedValid | twitscan/status.py:29-34 | saving keeps keys consistent and every mention attached to a stored status |
| StatusIngest.SavedMentions | twitscan/status.py:29-34 | on a new id the status's `user_mentions` are exactly the freshly built list |
| StatusIngest.SavedCounts | twitscan/status.py:33-34 | the status count grows by 1 and the mention count by `len(user_mentions)` on a new id; all other table counts stay |
| Helpers.AddUser | twitscan/helpers.py:5-7 | `add_user` leaves the store unchanged |
| Helpers.AddedRow | twitscan/helpers.py:19-30 | the status row carries `status.id`, `status.user_id` and the `favorites_count` read, other fields copied |
| Helpers.AddStatus | twitscan/helpers.py:10-32 | no existence check: the commit succeeds exactly when the id is new, adding the status and one mention per id; a stored id fails with IntegrityError and nothing is kept |
| Helpers.AddedAgreesWithSaved | twitscan/helpers.py:19-31 | on a new id, `add_status` stores what `save_status` would when the favourite count read agrees |
| Helpers.AddedValid | twitscan/helpers.py:11-31 | a successful `add_status` keeps the store consistent, and the new status's `user_mentions` are exactly the mentions built |
| Engagement.OrZero | twitscan/engagement.py:17-18 | a `None` (or 0) common count is stored as 0 |
| Engagement.EngagementScore.constructor | twitscan/engagement.py:4-23 | the fields are the arguments with falsy common counts as 0; no score is kept yet |
| Engagement.EngagementScore.Force | twitscan/engagement.py:31-39 | `_force` keeps comments + retweets + mentions + likes + common followers + common friends |
| Engagement.EngagementScore.Score | twitscan/engagement.py:25-29 | `score` returns the sum and keeps it; the sum is computed only when no score was kept |
| Engagement.Total | twitscan/engagement.py:31-39 | non-negative counters give a non-negative score |
| Engagement.TotalCountsEachOnce | twitscan/engagement.py:31-39 | each of the six counters adds to the score with weight one; the two user ids do not count |
| Engagement.TotalNonNegative | twitscan/engagement.py:31-39 | non-negative counters give a non-negative score no smaller than any counter |
| Engagement.Serialized | twitscan/engagement.py:47-49 | the dictionary has exactly the eight constructor fields plus `score` |
| Engagement.EngagementScore.Serialize | twitscan/engagement.py:47-49 | `serialize` forces the score and returns the eight fields and the score |
| Engagement.ParseArgs | twitscan/engagement.py:41-44 | KeyError exactly when `score` is missing; TypeError exactly when the other keys are not the constructor's eight; otherwise each of the eight fields is the dictionary's value under its keyword |
| Engagement.EngagementScore.Deserialize | twitscan/engagement.py:41-44 | a fresh record with the parsed fields and no kept score, or the parse error |
| Engagement.RoundTrip | twitscan/engagement.py:41-49 | deserialising a serialised record gives back its fields, so its recomputed score is the serialised one |
| Engagement.TamperedRejected | twitscan/engagement.py:41-44 | a dictionary without `score`, with an extra key, or missing a field is refused |
| Engagement.EngagementScore.Repr | twitscan/engagement.py:51-54 | `__repr__` forces the score and renders `EngagementScore(<user> -> <target>: <score>)` |
| Engagement.ReprText | twitscan/engagement.py:51-54 | the rendering starts with `EngagementScore(` and ends with `)` |
| Engagement.ReprSeparators | twitscan/engagement.py:51-54 | the rendering holds exactly one `>` and one `:` |
| Twitter.NewTwitterUser | twitter.py:23-35 | ValueError exactly for an empty screen name; otherwise the fetched data, with friend ids as a set |
| Twitter.GetComments | twitter.py:83-90 | every comment is one of the own tweets replying to the followed user's screen name |
| Twitter.CommentsComplete | twitter.py:83-90 | every own tweet replying to the followed user is kept |
| Twitter.CommentsInOrder | twitter.py:83-90 | comments keep the timeline order |
| Twitter.CountLikes | twitter.py:92-97 | likes are at most `len(favs)`; all favourites count exactly when all are by the followed user, and none count exactly when none is |
| Twitter.CountLikesAppend | twitter.py:92-97 | the count is additive over stretches of favourites, so it is the number of favourites authored by the followed user |
| Twitter.EmptyLists | twitter.py:150-152 | one key per follower screen name, each holding an empty list |
| Twitter.AppendRetweetsMeaning | twitter.py:153-163 | for one tweet: keys stay, each follower's list grows by the tweet once per qualifying retweet by that follower, and KeyError is raised exactly when a qualifying retweeter is not a key |
| Twitter.Retweeters | twitter.py:141-164 | on success the keys are exactly the followers' screen names; the only failure is KeyError |
| Twitter.RetweetersMeaning | twitter.py:141-164 | keys are the followers' screen names; each list is the participant's tweets in order, repeated once per retweet by an unprotected follower; KeyError exactly when such a retweeter's name is not a key |
| Twitter.RetweetersKeys | twitter.py:150-152 | every follower's screen name is a key of the result |
| Twitter.GetRetweeters | twitter.py:141-164 | the nested loops compute exactly that result |
| Twitter.Analyse | twitter.py:129-138 | analysed followers are unprotected followers paired with their retweet lists |
| Twitter.AnalyseComplete | twitter.py:129-138 | every unprotected follower is analysed |
| Twitter.FollowersResult | twitter.py:111-139 | ValueError exactly when the cap trips; on success no more entries than followers, each an unprotected follower |
| Twitter.GetFollowers | twitter.py:111-139 | ValueError exactly when the pages before the last already exceed 100 followers; otherwise the retweeter grouping's error or the analysed unprotected followers |
| Twitter.CapOvershoot | twitter.py:117-124 | a single page of 101 followers passes the cap, while any page after it raises |
| Imgs.UrlsOf | jobs/imgs.py:23-33 | at most one URL per follower id, none of them empty |
| Imgs.UrlsOfMembership | jobs/imgs.py:23-33 | a URL is collected exactly when some lookup yields it as a non-empty string; failed lookups are skipped |
| Imgs.UrlsOfAppend | jobs/imgs.py:23-33 | collected URLs keep the order of the follower ids |
| Imgs.Collected | jobs/imgs.py:32-35 | at most 100 URLs, the first ones in order |
| Imgs.CollectUrls | jobs/imgs.py:20-35 | the collecting loop, with `counter == len(data)` throughout and a stop at 100, yields exactly the first 100 usable URLs |
| Imgs.Padded | jobs/imgs.py:36-40 | exactly 100 entries: the collected URLs followed by empty fields |
| Imgs.FollowerPicUrls | jobs/imgs.py:15-41 | the result is the comma join of the padded 100 entries |
| Imgs.PicLineFields | jobs/imgs.py:36-41 | when no URL holds a comma, the line has 99 commas, that is 100 fields |
| Imgs.Columns | jobs/imgs.py:60 | the n column names are `follower_1` … `follower_n` |
| Imgs.Header | jobs/imgs.py:60-61 | the header starts with the `name` column |
| Imgs.HeaderFields | jobs/imgs.py:60-61 | the header `name,follower_1,…,follower_100` has 100 commas, that is 101 columns |

## Left out

- Query.SimilarityAsWrittenIsZero: "as written" keeps line 56 of twitscan/query.py as written but uses line 42's join corrected. With both lines as written, the hashtag select raises before line 56 matters.
- Query.SharedEdgeExample: the 0 shown for the as-written comparison assumes line 42's join corrected, as for Query.SimilarityAsWrittenIsZero.
- UserIngest.AddInteractions: models the evidently intended behaviour. twitscan/user.py:89 and :100 call `TwitterStatus`, which user.py never imports (imports at twitscan/user.py:1-8), so as written `_add_interactions` raises NameError on any non-empty timeline or favourites list.
- Helpers.AddUser: models the evidently intended behaviour. twitscan/helpers.py:2 imports `Friend` from twitscan.models, which defines no such class, so the module fails at import.
- Helpers.AddStatus: models the evidently intended behaviour; the same import at twitscan/helpers.py:2 keeps `add_status` from running as written.
- Models.Db: the `hashtag` and `link` tables and `status.hashtags` are assumed and give the evidently intended behaviour. twitscan/async_query.py:4-12 and twitscan/query.py:4 import `TwitscanUser` and `Hashtag`, and twitscan/async_query.py:118 reads `status.hashtags`, but twitscan/models.py declares none of them.
- The Twitter API (`api.get_user`, `favorites`, `user_timeline`, `friends_ids`, `followers_ids`, `followers` pages, `retweets`) is not modelled. What it returns is an input.
- Logging, `print`, `tqdm` and debug output are not modelled.
- Async database access (twitscan/async_query.py:63-112) is not modelled. The sync functions call the async `user_by_id` without `await` (twitscan/async_query.py:17) or use an undefined `session` (twitscan/async_query.py:131). They are modelled with the lookup they evidently intend: `Models.UserById` and `Models.StatusById`.
- The raw-SQL `popularity` aggregation (twitscan/query.py:163-190) is not modelled, nor are the `LIKE` searches, `find_status`, `find_user`, `statuses_by_hashtag`, `all_users`/`all_statuses`, or the undefined `table_maker` (twitscan/query.py:67-80).
- Query.HashtagRows: joins on `status.status_id`. twitscan/query.py:42 names `status.status_by_id`, a column the status table does not have, so the query as written fails in SQLite.
- Query.Similarity: uses `UserIngest.CheckUser` by id. twitscan/query.py:5 imports `check_user` from `twitscan.scanner`, which does not define it.
- UserIngest.Scan: on a miss it performs `scan_twitter` (fetch, refuse a protected account, save) and returns the saved row.
  - twitscan/user.py:49 calls the undefined `TwitterUser._scan_twitter`.
  - `scan_twitter` itself returns nothing.
  - The returned row follows that function's description: save, then query the user.
- StatusIngest.SaveStatus: the pending rows are reported as part of the session's store; no commit is modelled. twitscan/status.py:35 raises before any commit.
- Helpers.AddStatus: the favourite count is a parameter. twitscan/helpers.py:23 reads `favorites_count`, an attribute the scanner's `TwitterStatus` does not have (it has `favorite_count`). `add_status` has no caller in the repository.
- Sessions and transactions are not modelled in full:
  - each operation is its own transaction;
  - a duplicate primary key fails the insert and leaves the store unchanged;
  - autoflush timing and pending-versus-committed state are not distinguished.
- Engagement.EngagementScore.Deserialize: takes the dictionary as a value. `del json_data['score']` also removes the key from the caller's dictionary; that mutation is not modelled.
- Engagement.Serialized: a map, so the alphabetical key order that `dir()` gives is not modelled.
- Engagement.EngagementScore: the eight fields are `const`. Python could reassign a field after the score is cached and leave it stale; that is not modelled.
- The `jobs/imgs.py` `main` is modelled only as the header. The user lookup, file writing and pandas/xlsx export are not modelled.
- Twitter.Analyse: keeps each follower and its retweet list. Building each `Follower` fetches its own timeline and favourites from the API. `Twitter.GetComments` and `Twitter.CountLikes` model what is then computed from them.
- Timestamps are opaque integers.
- No code in the core writes `hashtag` or `link` rows; those tables are read only.
- Row order: the results of the selects (Query.EdgeRows, Query.HashtagRows) and of the `user.entourage`, `user.interacted_tweets` and `status.user_mentions` relationships (Models.InteractedTweets, Models.MentionsOf) are taken in table order. The SQL has no `ORDER BY` and the relationships no `order_by`, so the database does not promise that order. Only the order lemmas (Models.InteractedTweetsAppend, Query.HashtagRowsAppend, Query.HashtagRowsKeepDuplicates, StatusIngest.MentionsOfAppend) rely on it; every score uses only lengths and sets.
- Imgs.UrlsOf: takes one lookup result per follower id. jobs/imgs.py:15 and :20 pass the `user` tuple to `query.followers`, which expects an integer id, and hand each `(id,)` row to `api.get_user(user_id=f_uid)`. The model does not capture that argument mismatch; it takes the follower ids as plain integers and the API answer for each as an input.

## Findings

| source | as written | input that shows it | evidently intended | confidence | as-written member | corrected member |
|---|---|---|---|---|---|---|
| twitscan/query.py:56 | `if item in a_set` tests the whole one-column row against a set filled with first components (line 54), so nothing matches and every `common_*` list is empty | users 1 and 2, each with one edge to id 7: `common_entourage(1, 2)` is `[]`, and with line 42's join corrected `similarity(1, 2)` is 0 | `if item[0] in a_set`, giving `[7]` and similarity 1 | not executed | Query.WholeRowNeverMatches | Query.CommonMembership |
