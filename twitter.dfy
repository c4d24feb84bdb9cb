/** twitter.py: the follower-analysis filters of the study client. What the
    Twitter API returns (the user, favourites, timeline, friend ids,
    follower pages and each tweet's retweets) is passed in as values. */
module Twitter {
  import opened Types

  datatype ApiUser = ApiUser(id: int, screenName: string, protected: bool)

  /** A status as the filters read it: its id, author and reply target. */
  datatype Tweet = Tweet(id: int, author: ApiUser, inReplyToScreenName: Option<string>)

  datatype TwitterUser = TwitterUser(user: ApiUser, favs: seq<Tweet>, tweets: seq<Tweet>, friends: set<int>)

  /** `TwitterUser(screen_name)`: an empty name is refused before any fetch;
      otherwise the fetched data is kept, friend ids as a set. */
  function NewTwitterUser(screenName: string, fetched: ApiUser, favs: seq<Tweet>, tweets: seq<Tweet>,
                          friendIds: seq<int>): (r: Result<TwitterUser>)
    ensures r.Err? <==> screenName == ""
    ensures r.Err? ==> r.error == ValueError
    ensures r.Ok? ==> (r.value.user == fetched && r.value.favs == favs && r.value.tweets == tweets &&
      forall x :: x in r.value.friends <==> x in friendIds)
  {
    if screenName == "" then Err(ValueError)
    else Ok(TwitterUser(fetched, favs, tweets, set x | x in friendIds))
  }

  /** `get_comments`: the own tweets that reply to `followedName`, in order. */
  function GetComments(tweets: seq<Tweet>, followedName: string): (r: seq<Tweet>)
    ensures |r| <= |tweets|
    ensures forall i :: 0 <= i < |r| ==> r[i] in tweets && r[i].inReplyToScreenName == Some(followedName)
  {
    if |tweets| == 0 then []
    else
      var t := tweets[|tweets| - 1];
      GetComments(tweets[..|tweets| - 1], followedName) + (if t.inReplyToScreenName == Some(followedName) then [t] else [])
  }

  /** Every reply to the followed user is kept. */
  lemma {:induction false} CommentsComplete(tweets: seq<Tweet>, followedName: string, t: Tweet)
    requires t in tweets && t.inReplyToScreenName == Some(followedName)
    ensures t in GetComments(tweets, followedName)
    decreases |tweets|
  {
    var init := tweets[..|tweets| - 1];
    if t != tweets[|tweets| - 1] {
      assert tweets == init + [tweets[|tweets| - 1]];
      CommentsComplete(init, followedName, t);
    }
  }

  /** The filter keeps the timeline's order: filtering two stretches of
      tweets gives the two results one after the other. */
  lemma {:induction false} CommentsInOrder(a: seq<Tweet>, b: seq<Tweet>, followedName: string)
    ensures GetComments(a + b, followedName) == GetComments(a, followedName) + GetComments(b, followedName)
    decreases |b|
  {
    if |b| == 0 {
      assert a + b == a;
    } else {
      assert (a + b)[..|a + b| - 1] == a + b[..|b| - 1];
      CommentsInOrder(a, b[..|b| - 1], followedName);
    }
  }

  /** `count_likes`: favourites authored by the followed user. All of them
      count exactly when every favourite is theirs. */
  function CountLikes(favs: seq<Tweet>, followedId: int): (n: nat)
    ensures n <= |favs|
    ensures n == |favs| <==> forall i :: 0 <= i < |favs| ==> favs[i].author.id == followedId
    ensures n == 0 <==> forall i :: 0 <= i < |favs| ==> favs[i].author.id != followedId
  {
    if |favs| == 0 then 0
    else CountLikes(favs[..|favs| - 1], followedId) + (if favs[|favs| - 1].author.id == followedId then 1 else 0)
  }

  /** The count is additive: the likes in two stretches of favourites are
      the likes in each, added up, so every matching favourite counts one. */
  lemma {:induction false} CountLikesAppend(a: seq<Tweet>, b: seq<Tweet>, followedId: int)
    ensures CountLikes(a + b, followedId) == CountLikes(a, followedId) + CountLikes(b, followedId)
    decreases |b|
  {
    if |b| == 0 {
      assert a + b == a;
    } else {
      assert (a + b)[..|a + b| - 1] == a + b[..|b| - 1];
      CountLikesAppend(a, b[..|b| - 1], followedId);
    }
  }

  /** A retweet that `get_retweeters` credits: its author is one of the
      followers and is not protected. */
  predicate Qualifies(ids: set<int>, rt: Tweet)
  {
    rt.author.id in ids && !rt.author.protected
  }

  function Ids(followers: seq<ApiUser>): (r: set<int>)
  {
    set f | f in followers :: f.id
  }

  function Names(followers: seq<ApiUser>): (r: set<string>)
  {
    set f | f in followers :: f.screenName
  }

  /** `{follower.screen_name: [] for follower in followers}`. */
  function EmptyLists(followers: seq<ApiUser>): (m: map<string, seq<Tweet>>)
    ensures m.Keys == Names(followers)
    ensures forall k :: k in m ==> m[k] == []
  {
    map k | k in Names(followers) :: []
  }

  /** `n` copies of `t`. */
  function Repeat(t: Tweet, n: nat): (r: seq<Tweet>)
    ensures |r| == n
    ensures forall i :: 0 <= i < n ==> r[i] == t
  {
    if n == 0 then [] else Repeat(t, n - 1) + [t]
  }

  /** The qualifying retweets in `rts` whose author is called `name`. */
  function NumRts(name: string, ids: set<int>, rts: seq<Tweet>): (n: nat)
    ensures n <= |rts|
  {
    if |rts| == 0 then 0
    else
      var rt := rts[|rts| - 1];
      NumRts(name, ids, rts[..|rts| - 1]) + (if Qualifies(ids, rt) && rt.author.screenName == name then 1 else 0)
  }

  /** Reference definition of a follower's list: each of the participant's
      tweets, in timeline order, once per qualifying retweet of it by `name`. */
  function ListFor(name: string, ids: set<int>, tweets: seq<Tweet>, rtsOf: int -> seq<Tweet>): (r: seq<Tweet>)
  {
    if |tweets| == 0 then []
    else
      var t := tweets[|tweets| - 1];
      ListFor(name, ids, tweets[..|tweets| - 1], rtsOf) + Repeat(t, NumRts(name, ids, rtsOf(t.id)))
  }

  /** The `j`-th retweet qualifies but its author's screen name is not a key. */
  predicate Unknown(ids: set<int>, names: set<string>, rts: seq<Tweet>, j: int)
  {
    0 <= j < |rts| && Qualifies(ids, rts[j]) && rts[j].author.screenName !in names
  }

  /** The inner loop of `get_retweeters` over the retweets of `tweet`:
      `retweeters[name].append(tweet)` raises KeyError on a missing name. */
  function AppendRetweets(acc: map<string, seq<Tweet>>, ids: set<int>, tweet: Tweet, rts: seq<Tweet>)
    : (r: Result<map<string, seq<Tweet>>>)
    ensures r.Ok? ==> r.value.Keys == acc.Keys
    ensures r.Err? ==> r.error.KeyError?
  {
    if |rts| == 0 then Ok(acc)
    else
      var prev := AppendRetweets(acc, ids, tweet, rts[..|rts| - 1]);
      var rt := rts[|rts| - 1];
      if prev.Err? || !Qualifies(ids, rt) then prev
      else if rt.author.screenName !in prev.value then Err(KeyError(rt.author.screenName))
      else Ok(prev.value[rt.author.screenName := prev.value[rt.author.screenName] + [tweet]])
  }

  /** `get_retweeters(followers)` over the participant's `tweets`, where
      `rtsOf(id)` is what `api.retweets(id)` returns. */
  function Retweeters(followers: seq<ApiUser>, tweets: seq<Tweet>, rtsOf: int -> seq<Tweet>)
    : (r: Result<map<string, seq<Tweet>>>)
    ensures r.Ok? ==> r.value.Keys == Names(followers)
    ensures r.Err? ==> r.error.KeyError?
  {
    if |tweets| == 0 then Ok(EmptyLists(followers))
    else
      var prev := Retweeters(followers, tweets[..|tweets| - 1], rtsOf);
      var t := tweets[|tweets| - 1];
      if prev.Err? then prev else AppendRetweets(prev.value, Ids(followers), t, rtsOf(t.id))
  }

  /** One tweet's retweets: the keys stay, each list grows by the tweet once
      per qualifying retweet of its follower, and KeyError is raised exactly
      when some qualifying retweeter is not a key. */
  lemma {:induction false} AppendRetweetsMeaning(acc: map<string, seq<Tweet>>, ids: set<int>, tweet: Tweet, rts: seq<Tweet>)
    ensures var r := AppendRetweets(acc, ids, tweet, rts);
      (r.Err? <==> exists j :: Unknown(ids, acc.Keys, rts, j)) &&
      (r.Err? ==> r.error.KeyError?) &&
      (r.Ok? ==> (r.value.Keys == acc.Keys &&
        forall k :: k in acc ==> r.value[k] == acc[k] + Repeat(tweet, NumRts(k, ids, rts))))
    decreases |rts|
  {
    if |rts| > 0 {
      var init := rts[..|rts| - 1];
      var last := |rts| - 1;
      AppendRetweetsMeaning(acc, ids, tweet, init);
      forall j | Unknown(ids, acc.Keys, init, j)
        ensures Unknown(ids, acc.Keys, rts, j)
      {
        assert init[j] == rts[j];
      }
      forall j | Unknown(ids, acc.Keys, rts, j) && j < last
        ensures Unknown(ids, acc.Keys, init, j)
      {
        assert init[j] == rts[j];
      }
      var prev := AppendRetweets(acc, ids, tweet, init);
      if prev.Ok? && Qualifies(ids, rts[last]) && rts[last].author.screenName in prev.value {
        var name := rts[last].author.screenName;
        assert !Unknown(ids, acc.Keys, rts, last);
        forall k | k in acc
          ensures AppendRetweets(acc, ids, tweet, rts).value[k] == acc[k] + Repeat(tweet, NumRts(k, ids, rts))
        {
          if k == name {
            assert Repeat(tweet, NumRts(k, ids, init) + 1) == Repeat(tweet, NumRts(k, ids, init)) + [tweet];
          }
        }
      } else if prev.Ok? && Qualifies(ids, rts[last]) {
        assert Unknown(ids, acc.Keys, rts, last);
      }
    }
  }

  /** `get_retweeters`: the keys are the followers' screen names, each list
      is the reference `ListFor`, and KeyError is raised exactly when some
      qualifying retweet of some tweet has an author whose name is not a key. */
  lemma {:induction false} RetweetersMeaning(followers: seq<ApiUser>, tweets: seq<Tweet>, rtsOf: int -> seq<Tweet>)
    ensures var r := Retweeters(followers, tweets, rtsOf);
      (r.Err? <==> exists i, j :: 0 <= i < |tweets| && Unknown(Ids(followers), Names(followers), rtsOf(tweets[i].id), j)) &&
      (r.Err? ==> r.error.KeyError?) &&
      (r.Ok? ==> (r.value.Keys == Names(followers) &&
        forall k :: k in r.value ==> r.value[k] == ListFor(k, Ids(followers), tweets, rtsOf)))
    decreases |tweets|
  {
    var ids, names := Ids(followers), Names(followers);
    if |tweets| > 0 {
      var init := tweets[..|tweets| - 1];
      var last := |tweets| - 1;
      var t := tweets[last];
      RetweetersMeaning(followers, init, rtsOf);
      forall i, j | 0 <= i < |init| && Unknown(ids, names, rtsOf(init[i].id), j)
        ensures Unknown(ids, names, rtsOf(tweets[i].id), j)
      {
        assert init[i] == tweets[i];
      }
      forall i, j | 0 <= i < last && Unknown(ids, names, rtsOf(tweets[i].id), j)
        ensures Unknown(ids, names, rtsOf(init[i].id), j)
      {
        assert init[i] == tweets[i];
      }
      var prev := Retweeters(followers, init, rtsOf);
      if prev.Ok? {
        AppendRetweetsMeaning(prev.value, ids, t, rtsOf(t.id));
        if exists j :: Unknown(ids, names, rtsOf(t.id), j) {
          var j :| Unknown(ids, names, rtsOf(t.id), j);
          assert Unknown(ids, names, rtsOf(tweets[last].id), j);
        }
      }
    }
  }

  /** Each key of the result is some follower's name, and every follower's
      name is a key. */
  lemma RetweetersKeys(followers: seq<ApiUser>, tweets: seq<Tweet>, rtsOf: int -> seq<Tweet>)
    requires Retweeters(followers, tweets, rtsOf).Ok?
    ensures forall i :: 0 <= i < |followers| ==> followers[i].screenName in Retweeters(followers, tweets, rtsOf).value
  {
    RetweetersMeaning(followers, tweets, rtsOf);
    forall i | 0 <= i < |followers|
      ensures followers[i].screenName in Names(followers)
    {
      assert followers[i] in followers;
    }
  }

  lemma {:induction false} AppendErrStays(acc: map<string, seq<Tweet>>, ids: set<int>, tweet: Tweet, rts: seq<Tweet>, j: nat)
    requires j <= |rts| && AppendRetweets(acc, ids, tweet, rts[..j]).Err?
    ensures AppendRetweets(acc, ids, tweet, rts) == AppendRetweets(acc, ids, tweet, rts[..j])
    decreases |rts|
  {
    if j == |rts| {
      assert rts[..j] == rts;
    } else {
      var init := rts[..|rts| - 1];
      assert init[..j] == rts[..j];
      AppendErrStays(acc, ids, tweet, init, j);
    }
  }

  lemma {:induction false} RetweetersErrStays(followers: seq<ApiUser>, tweets: seq<Tweet>, rtsOf: int -> seq<Tweet>, i: nat)
    requires i <= |tweets| && Retweeters(followers, tweets[..i], rtsOf).Err?
    ensures Retweeters(followers, tweets, rtsOf) == Retweeters(followers, tweets[..i], rtsOf)
    decreases |tweets|
  {
    if i == |tweets| {
      assert tweets[..i] == tweets;
    } else {
      var init := tweets[..|tweets| - 1];
      assert init[..i] == tweets[..i];
      RetweetersErrStays(followers, init, rtsOf, i);
    }
  }

  /** `Participant.get_retweeters`: for each of the participant's tweets,
      append it to the list of each unprotected follower who retweeted it. */
  method GetRetweeters(followers: seq<ApiUser>, tweets: seq<Tweet>, rtsOf: int -> seq<Tweet>)
    returns (r: Result<map<string, seq<Tweet>>>)
    ensures r == Retweeters(followers, tweets, rtsOf)
  {
    var followerIdSet := set f | f in followers :: f.id;
    var retweeters := EmptyLists(followers);
    for i := 0 to |tweets|
      invariant Retweeters(followers, tweets[..i], rtsOf) == Ok(retweeters)
    {
      var tweet := tweets[i];
      assert tweets[..i + 1][..i] == tweets[..i];
      var retweets := rtsOf(tweet.id);
      var acc := retweeters;
      for j := 0 to |retweets|
        invariant AppendRetweets(retweeters, followerIdSet, tweet, retweets[..j]) == Ok(acc)
      {
        assert retweets[..j + 1][..j] == retweets[..j];
        var retweet := retweets[j];
        if retweet.author.id in followerIdSet && !retweet.author.protected {
          if retweet.author.screenName !in acc {
            AppendErrStays(retweeters, followerIdSet, tweet, retweets, j + 1);
            RetweetersErrStays(followers, tweets, rtsOf, i + 1);
            return Err(KeyError(retweet.author.screenName));
          }
          acc := acc[retweet.author.screenName := acc[retweet.author.screenName] + [tweet]];
        }
      }
      assert retweets[..|retweets|] == retweets;
      retweeters := acc;
    }
    assert tweets[..|tweets|] == tweets;
    r := Ok(retweeters);
  }

  /** `Participant.MAX`. */
  const MAX: nat := 100

  /** `followers.extend(page)` over all pages. */
  function Flatten(pages: seq<seq<ApiUser>>): (r: seq<ApiUser>)
  {
    if |pages| == 0 then [] else Flatten(pages[..|pages| - 1]) + pages[|pages| - 1]
  }

  lemma {:induction false} FlattenGrows(pages: seq<seq<ApiUser>>, i: nat, j: nat)
    requires i <= j <= |pages|
    ensures |Flatten(pages[..i])| <= |Flatten(pages[..j])|
    decreases j - i
  {
    if i < j {
      FlattenGrows(pages, i + 1, j);
      assert pages[..i + 1][..i] == pages[..i];
    }
  }

  /** The cap is checked before each page is added, so the paging loop
      raises exactly when the pages before the last already exceed `MAX`. */
  predicate CapRaises(pages: seq<seq<ApiUser>>)
  {
    |pages| >= 1 && |Flatten(pages[..|pages| - 1])| > MAX
  }

  /** What `Follower(...)` is built from: the follower and its retweets. */
  datatype Analysed = Analysed(user: ApiUser, retweets: seq<Tweet>)

  /** The list comprehension over `followers` skipping protected ones. */
  function Analyse(followers: seq<ApiUser>, retweeters: map<string, seq<Tweet>>): (r: seq<Analysed>)
    requires forall i :: 0 <= i < |followers| ==> followers[i].screenName in retweeters
    ensures |r| <= |followers|
    ensures forall i :: 0 <= i < |r| ==>
      r[i].user in followers && !r[i].user.protected && r[i].retweets == retweeters[r[i].user.screenName]
  {
    if |followers| == 0 then []
    else
      var f := followers[|followers| - 1];
      Analyse(followers[..|followers| - 1], retweeters) +
        (if f.protected then [] else [Analysed(f, retweeters[f.screenName])])
  }

  /** Every unprotected follower is analysed. */
  lemma {:induction false} AnalyseComplete(followers: seq<ApiUser>, retweeters: map<string, seq<Tweet>>, i: nat)
    requires forall i :: 0 <= i < |followers| ==> followers[i].screenName in retweeters
    requires i < |followers| && !followers[i].protected
    ensures Analysed(followers[i], retweeters[followers[i].screenName]) in Analyse(followers, retweeters)
    decreases |followers|
  {
    if i < |followers| - 1 {
      var init := followers[..|followers| - 1];
      assert init[i] == followers[i];
      AnalyseComplete(init, retweeters, i);
    }
  }

  /** With no protected follower, every follower is analysed. */
  lemma {:induction false} AnalyseAllOpen(followers: seq<ApiUser>, retweeters: map<string, seq<Tweet>>)
    requires forall i :: 0 <= i < |followers| ==> followers[i].screenName in retweeters
    requires forall i :: 0 <= i < |followers| ==> !followers[i].protected
    ensures |Analyse(followers, retweeters)| == |followers|
    decreases |followers|
  {
    if |followers| > 0 {
      AnalyseAllOpen(followers[..|followers| - 1], retweeters);
    }
  }

  /** `get_followers` as a whole: ValueError from the cap, KeyError from
      `get_retweeters`, or the analysed unprotected followers. */
  function FollowersResult(pages: seq<seq<ApiUser>>, tweets: seq<Tweet>, rtsOf: int -> seq<Tweet>)
    : (r: Result<seq<Analysed>>)
    ensures r == Err(ValueError) <==> CapRaises(pages)
    ensures r.Ok? ==> |r.value| <= |Flatten(pages)|
    ensures r.Ok? ==> forall i :: 0 <= i < |r.value| ==> r.value[i].user in Flatten(pages) && !r.value[i].user.protected
  {
    if CapRaises(pages) then Err(ValueError)
    else
      var followers := Flatten(pages);
      var rts := Retweeters(followers, tweets, rtsOf);
      if rts.Err? then Err(rts.error)
      else
        RetweetersKeys(followers, tweets, rtsOf);
        Ok(Analyse(followers, rts.value))
  }

  /** `Participant.get_followers`. */
  method GetFollowers(pages: seq<seq<ApiUser>>, tweets: seq<Tweet>, rtsOf: int -> seq<Tweet>)
    returns (r: Result<seq<Analysed>>)
    ensures r == FollowersResult(pages, tweets, rtsOf)
  {
    var followers: seq<ApiUser> := [];
    for i := 0 to |pages|
      invariant followers == Flatten(pages[..i])
      invariant i >= 1 ==> |Flatten(pages[..i - 1])| <= MAX
    {
      if |followers| > MAX {
        FlattenGrows(pages, i, |pages| - 1);
        return Err(ValueError);
      }
      assert pages[..i + 1][..i] == pages[..i];
      followers := followers + pages[i];
    }
    assert pages[..|pages|] == pages;
    var retweeters := GetRetweeters(followers, tweets, rtsOf);
    if retweeters.Err? {
      return Err(retweeters.error);
    }
    RetweetersKeys(followers, tweets, rtsOf);
    r := Ok(Analyse(followers, retweeters.value));
  }

  /** A single page of 101 followers passes the cap (it is checked before
      the page is added), while a further page after it raises. */
  lemma CapOvershoot(rtsOf: int -> seq<Tweet>)
    ensures var page := seq(101, i => ApiUser(i, "f", false));
      FollowersResult([page], [], rtsOf).Ok? &&
      |FollowersResult([page], [], rtsOf).value| == 101 &&
      FollowersResult([page, []], [], rtsOf) == Err(ValueError)
  {
    var page := seq(101, i => ApiUser(i, "f", false));
    assert [page][..0] == [];
    assert Flatten([page]) == page;
    assert [page, []][..1] == [page];
    RetweetersKeys(page, [], rtsOf);
    AnalyseAllOpen(page, Retweeters(page, [], rtsOf).value);
  }
}
