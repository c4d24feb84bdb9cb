/** twitscan/engagement.py: an engagement record between two users whose
    score is computed on first demand and then kept. */
module Engagement {
  import opened Types
  import Text

  /** The eight constructor arguments, as stored. */
  datatype Fields = Fields(
    user: int,
    targetUser: int,
    commonFriends: int,
    commonFollowers: int,
    likesGiven: int,
    commentsGiven: int,
    retweetsGiven: int,
    mentionsGiven: int)

  /** `_force`: the plain sum of the six counters, each weighing one. */
  function Total(f: Fields): (r: int)
    ensures (f.commonFriends >= 0 && f.commonFollowers >= 0 && f.likesGiven >= 0 &&
             f.commentsGiven >= 0 && f.retweetsGiven >= 0 && f.mentionsGiven >= 0) ==> r >= 0
  {
    f.commentsGiven + f.retweetsGiven + f.mentionsGiven + f.likesGiven + f.commonFollowers + f.commonFriends
  }

  /** The score grows by exactly the amount any one counter grows by. */
  lemma TotalCountsEachOnce(f: Fields, d: int)
    ensures Total(f.(likesGiven := f.likesGiven + d)) == Total(f) + d
    ensures Total(f.(commentsGiven := f.commentsGiven + d)) == Total(f) + d
    ensures Total(f.(retweetsGiven := f.retweetsGiven + d)) == Total(f) + d
    ensures Total(f.(mentionsGiven := f.mentionsGiven + d)) == Total(f) + d
    ensures Total(f.(commonFriends := f.commonFriends + d)) == Total(f) + d
    ensures Total(f.(commonFollowers := f.commonFollowers + d)) == Total(f) + d
    ensures Total(f.(user := d)) == Total(f) && Total(f.(targetUser := d)) == Total(f)
  {
  }

  /** Non-negative counters give a non-negative score, at least as large as
      each of them. */
  lemma TotalNonNegative(f: Fields)
    requires f.commonFriends >= 0 && f.commonFollowers >= 0 && f.likesGiven >= 0
    requires f.commentsGiven >= 0 && f.retweetsGiven >= 0 && f.mentionsGiven >= 0
    ensures Total(f) >= 0
    ensures Total(f) >= f.likesGiven && Total(f) >= f.commentsGiven && Total(f) >= f.retweetsGiven
    ensures Total(f) >= f.mentionsGiven && Total(f) >= f.commonFriends && Total(f) >= f.commonFollowers
  {
  }

  /** `x if x else 0` for an integer argument that may be `None`. */
  function OrZero(x: Option<int>): (r: int)
    ensures x.None? ==> r == 0
    ensures x.Some? ==> r == x.value
  {
    if x.Some? && x.value != 0 then x.value else 0
  }

  /** The keyword names `__init__` takes. */
  const FieldNames: set<string> :=
    {"user", "target_user", "common_friends", "common_followers",
     "likes_given", "comments_given", "retweets_given", "mentions_given"}

  /** `serialize()`: every public attribute whose value is an `int`, which
      is the eight fields and the `score` property. */
  function Serialized(f: Fields, score: int): (d: map<string, int>)
    ensures d.Keys == FieldNames + {"score"}
    ensures d["score"] == score
  {
    map["user" := f.user, "target_user" := f.targetUser,
        "common_friends" := f.commonFriends, "common_followers" := f.commonFollowers,
        "likes_given" := f.likesGiven, "comments_given" := f.commentsGiven,
        "retweets_given" := f.retweetsGiven, "mentions_given" := f.mentionsGiven,
        "score" := score]
  }

  /** `deserialize(json)`: `del json['score']` raises KeyError when the key
      is missing; `EngagementScore(**json)` raises TypeError unless the
      remaining keys are exactly the constructor's. */
  function ParseArgs(json: map<string, int>): (r: Result<Fields>)
    ensures r == Err(KeyError("score")) <==> "score" !in json
    ensures r == Err(TypeError) <==> "score" in json && json.Keys - {"score"} != FieldNames
    ensures r.Ok? ==> (json.Keys == FieldNames + {"score"} &&
      r.value.user == json["user"] && r.value.targetUser == json["target_user"] &&
      r.value.likesGiven == json["likes_given"] && r.value.mentionsGiven == json["mentions_given"] &&
      r.value.commentsGiven == json["comments_given"] && r.value.retweetsGiven == json["retweets_given"] &&
      r.value.commonFriends == json["common_friends"] && r.value.commonFollowers == json["common_followers"])
  {
    if "score" !in json then Err(KeyError("score"))
    else
      var args := json - {"score"};
      if args.Keys != FieldNames then Err(TypeError)
      else
        Ok(Fields(args["user"], args["target_user"],
                  OrZero(Some(args["common_friends"])), OrZero(Some(args["common_followers"])),
                  args["likes_given"], args["comments_given"], args["retweets_given"], args["mentions_given"]))
  }

  /** Deserialising a serialised record gives back its fields, whatever
      score was written; the rebuilt record's score is recomputed from them. */
  lemma RoundTrip(f: Fields, score: int)
    ensures ParseArgs(Serialized(f, score)) == Ok(f)
  {
    var args := Serialized(f, score) - {"score"};
    assert args.Keys == FieldNames;
  }

  /** A dictionary that lost its score, or carries an extra key, is refused. */
  lemma TamperedRejected(f: Fields, score: int, extra: string)
    requires extra !in FieldNames && extra != "score"
    ensures ParseArgs(Serialized(f, score) - {"score"}) == Err(KeyError("score"))
    ensures ParseArgs(Serialized(f, score)[extra := 0]) == Err(TypeError)
    ensures ParseArgs(Serialized(f, score) - {"user"}) == Err(TypeError)
  {
    assert "user" !in (Serialized(f, score) - {"user"}).Keys - {"score"};
    assert extra in Serialized(f, score)[extra := 0].Keys - {"score"};
  }

  /** `repr`: `EngagementScore(<user> -> <target_user>: <score>)`. */
  function ReprText(f: Fields, score: int): (r: string)
    ensures |r| > 16 && r[..16] == "EngagementScore(" && r[|r| - 1] == ')'
  {
    "EngagementScore(" + Text.IntStr(f.user) + " -> " + Text.IntStr(f.targetUser) + ": " + Text.IntStr(score) + ")"
  }

  /** The rendering has one arrow and one colon, since numbers contribute
      neither, so its three numbers can be told apart. */
  lemma ReprSeparators(f: Fields, score: int)
    ensures Text.CountChar(ReprText(f, score), '>') == 1
    ensures Text.CountChar(ReprText(f, score), ':') == 1
  {
    assert " -> "[..3] == " ->" && " ->"[..2] == " -" && " -"[..1] == " " && " "[..0] == [];
    assert ": "[..1] == ":" && ":"[..0] == [];
    Text.NoCharNoCount("EngagementScore(", '>');
    Text.NoCharNoCount("EngagementScore(", ':');
    ReprCount(f, score, '>', Text.CountChar(" -> ", '>'), Text.CountChar(": ", '>'));
    ReprCount(f, score, ':', Text.CountChar(" -> ", ':'), Text.CountChar(": ", ':'));
  }

  /** Counting `c` in the rendering piece by piece, when `c` is neither a
      digit nor a minus sign and the fixed pieces hold `arrow` and `colon` of it. */
  lemma ReprCount(f: Fields, score: int, c: char, arrow: nat, colon: nat)
    requires c != '-' && !('0' <= c <= '9') && c != '(' && c != ')'
    requires Text.CountChar("EngagementScore(", c) == 0
    requires Text.CountChar(" -> ", c) == arrow && Text.CountChar(": ", c) == colon
    ensures Text.CountChar(ReprText(f, score), c) == arrow + colon
  {
    var u, t, s := Text.IntStr(f.user), Text.IntStr(f.targetUser), Text.IntStr(score);
    Text.NoCharNoCount(u, c);
    Text.NoCharNoCount(t, c);
    Text.NoCharNoCount(s, c);
    Text.NoCharNoCount(")", c);
    var p1 := "EngagementScore(" + u;
    Text.CountCharAppend("EngagementScore(", u, c);
    var p2 := p1 + " -> ";
    Text.CountCharAppend(p1, " -> ", c);
    var p3 := p2 + t;
    Text.CountCharAppend(p2, t, c);
    var p4 := p3 + ": ";
    Text.CountCharAppend(p3, ": ", c);
    var p5 := p4 + s;
    Text.CountCharAppend(p4, s, c);
    Text.CountCharAppend(p5, ")", c);
    assert ReprText(f, score) == p5 + ")";
  }

  class EngagementScore {
    const user: int
    const targetUser: int
    const commonFriends: int
    const commonFollowers: int
    const likesGiven: int
    const commentsGiven: int
    const retweetsGiven: int
    const mentionsGiven: int
    /** `_score`: `None` until first demanded. */
    var cachedScore: Option<int>
    /** How many times `_force` has run on this record. */
    ghost var computations: nat

    function AsFields(): (r: Fields)
    {
      Fields(user, targetUser, commonFriends, commonFollowers, likesGiven, commentsGiven, retweetsGiven, mentionsGiven)
    }

    /** A kept score is the sum of the current fields. */
    ghost predicate Valid()
      reads this
    {
      cachedScore.Some? ==> cachedScore.value == Total(AsFields())
    }

    /** `__init__`: falsy common counts are stored as 0; no score yet. */
    constructor (user: int, targetUser: int, commonFriends: Option<int>, commonFollowers: Option<int>,
                 likesGiven: int, commentsGiven: int, retweetsGiven: int, mentionsGiven: int)
      ensures Valid() && cachedScore.None? && computations == 0
      ensures AsFields() == Fields(user, targetUser, OrZero(commonFriends), OrZero(commonFollowers),
                                   likesGiven, commentsGiven, retweetsGiven, mentionsGiven)
    {
      this.user := user;
      this.targetUser := targetUser;
      this.commonFriends := if commonFriends.Some? && commonFriends.value != 0 then commonFriends.value else 0;
      this.commonFollowers := if commonFollowers.Some? && commonFollowers.value != 0 then commonFollowers.value else 0;
      this.likesGiven := likesGiven;
      this.commentsGiven := commentsGiven;
      this.retweetsGiven := retweetsGiven;
      this.mentionsGiven := mentionsGiven;
      cachedScore := None;
      computations := 0;
    }

    /** `_force`: computes and keeps the score. */
    method Force()
      modifies this
      ensures cachedScore == Some(Total(AsFields())) && Valid()
      ensures computations == old(computations) + 1
    {
      cachedScore := Some(commentsGiven + retweetsGiven + mentionsGiven + likesGiven + commonFollowers + commonFriends);
      computations := computations + 1;
    }

    /** The `score` property: forces only when no score is kept, so the sum
      is computed at most once per record. */
    method Score() returns (s: int)
      requires Valid()
      modifies this
      ensures s == Total(AsFields()) && cachedScore == Some(s) && Valid()
      ensures computations == old(computations) + (if old(cachedScore).None? then 1 else 0)
    {
      if cachedScore.None? {
        Force();
      }
      s := cachedScore.value;
    }

    /** `serialize`: reading the `score` attribute forces it. */
    method Serialize() returns (d: map<string, int>)
      requires Valid()
      modifies this
      ensures d == Serialized(AsFields(), Total(AsFields()))
      ensures cachedScore == Some(Total(AsFields())) && Valid()
      ensures computations == old(computations) + (if old(cachedScore).None? then 1 else 0)
    {
      var score := Score();
      d := map["user" := user, "target_user" := targetUser,
               "common_friends" := commonFriends, "common_followers" := commonFollowers,
               "likes_given" := likesGiven, "comments_given" := commentsGiven,
               "retweets_given" := retweetsGiven, "mentions_given" := mentionsGiven,
               "score" := score];
    }

    /** `__repr__`. */
    method Repr() returns (s: string)
      requires Valid()
      modifies this
      ensures s == ReprText(AsFields(), Total(AsFields()))
      ensures cachedScore == Some(Total(AsFields())) && Valid()
    {
      if cachedScore.None? {
        Force();
      }
      var score := Score();
      s := ReprText(AsFields(), score);
    }

    /** `deserialize(json)`: a fresh record with no score kept, or the error
      the parse raises. */
    static method Deserialize(json: map<string, int>) returns (r: Result<EngagementScore>)
      ensures ParseArgs(json).Err? ==> r == Err(ParseArgs(json).error)
      ensures ParseArgs(json).Ok? ==>
        r.Ok? && fresh(r.value) && r.value.Valid() && r.value.cachedScore.None? &&
        r.value.AsFields() == ParseArgs(json).value
    {
      if "score" !in json {
        return Err(KeyError("score"));
      }
      var args := json - {"score"};
      if args.Keys != FieldNames {
        return Err(TypeError);
      }
      var e := new EngagementScore(args["user"], args["target_user"],
                                   Some(args["common_friends"]), Some(args["common_followers"]),
                                   args["likes_given"], args["comments_given"],
                                   args["retweets_given"], args["mentions_given"]);
      r := Ok(e);
    }
  }
}
