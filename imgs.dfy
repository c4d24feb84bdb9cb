/** jobs/imgs.py: the CSV line of up to 100 follower profile-picture URLs
    and the header of the sheet. Each `api.get_user` lookup is an input:
    it either raises or yields a `profile_image_url` that may not be a
    string (`None` here). */
module Imgs {
  import opened Types
  import Text

  datatype Lookup = Raised | Fetched(url: Option<string>)

  /** The lookup yields a usable URL: a non-empty string. */
  predicate Usable(l: Lookup)
  {
    l.Fetched? && l.url.Some? && l.url.value != ""
  }

  /** The usable URLs of the lookups, in the order of the follower ids. */
  function UrlsOf(lookups: seq<Lookup>): (r: seq<string>)
    ensures |r| <= |lookups|
    ensures forall i :: 0 <= i < |r| ==> r[i] != ""
  {
    if |lookups| == 0 then []
    else
      var l := lookups[|lookups| - 1];
      UrlsOf(lookups[..|lookups| - 1]) + (if Usable(l) then [l.url.value] else [])
  }

  lemma {:induction false} UrlsOfAppend(a: seq<Lookup>, b: seq<Lookup>)
    ensures UrlsOf(a + b) == UrlsOf(a) + UrlsOf(b)
    decreases |b|
  {
    if |b| == 0 {
      assert a + b == a;
    } else {
      assert (a + b)[..|a + b| - 1] == a + b[..|b| - 1];
      UrlsOfAppend(a, b[..|b| - 1]);
    }
  }

  /** A URL is collected exactly when some lookup yields it as a usable URL. */
  lemma {:induction false} UrlsOfMembership(lookups: seq<Lookup>, u: string)
    ensures u in UrlsOf(lookups) <==> exists i :: 0 <= i < |lookups| && Usable(lookups[i]) && lookups[i].url.value == u
    decreases |lookups|
  {
    if |lookups| > 0 {
      var init := lookups[..|lookups| - 1];
      UrlsOfMembership(init, u);
      if exists i :: 0 <= i < |init| && Usable(init[i]) && init[i].url.value == u {
        var i :| 0 <= i < |init| && Usable(init[i]) && init[i].url.value == u;
        assert lookups[i] == init[i];
      }
      if exists i :: 0 <= i < |lookups| && Usable(lookups[i]) && lookups[i].url.value == u {
        var i :| 0 <= i < |lookups| && Usable(lookups[i]) && lookups[i].url.value == u;
        if i < |init| {
          assert init[i] == lookups[i];
        }
      }
    }
  }

  /** At most the first 100 usable URLs. */
  function Collected(lookups: seq<Lookup>): (r: seq<string>)
    ensures |r| <= 100
    ensures |r| == if |UrlsOf(lookups)| < 100 then |UrlsOf(lookups)| else 100
    ensures r == UrlsOf(lookups)[..|r|]
  {
    var urls := UrlsOf(lookups);
    if |urls| <= 100 then urls else urls[..100]
  }

  /** `n` empty fields. */
  function Blanks(n: nat): (r: seq<string>)
    ensures |r| == n
    ensures forall i :: 0 <= i < n ==> r[i] == ""
  {
    if n == 0 then [] else Blanks(n - 1) + [""]
  }

  /** Fill up to 100 entries with empty fields. */
  function Padded(data: seq<string>): (r: seq<string>)
    requires |data| <= 100
    ensures |r| == 100
    ensures r[..|data|] == data
    ensures forall i :: |data| <= i < 100 ==> r[i] == ""
  {
    data + Blanks(100 - |data|)
  }

  /** Once the first `k` lookups yield 100 URLs, the rest are not needed. */
  lemma CollectedAtLimit(lookups: seq<Lookup>, k: nat)
    requires k <= |lookups| && |UrlsOf(lookups[..k])| == 100
    ensures Collected(lookups) == UrlsOf(lookups[..k])
  {
    UrlsOfAppend(lookups[..k], lookups[k..]);
    assert lookups[..k] + lookups[k..] == lookups;
  }

  lemma PaddedFull(data: seq<string>)
    requires |data| == 100
    ensures Padded(data) == data
  {
    assert Blanks(0) == [];
    assert data + [] == data;
  }

  /** The collecting loop of `follower_pic_urls`: skips lookups that
      raise, keeps usable URLs, and stops as soon as `counter` reaches 100. */
  method CollectUrls(lookups: seq<Lookup>) returns (data: seq<string>)
    ensures data == Collected(lookups)
  {
    var counter := 0;
    data := [];
    for i := 0 to |lookups|
      invariant counter == |data| < 100
      invariant data == UrlsOf(lookups[..i])
    {
      assert lookups[..i + 1][..i] == lookups[..i];
      var lookup := lookups[i];
      if lookup.Raised? {
        continue;
      }
      if lookup.url.Some? && lookup.url.value != "" {
        counter := counter + 1;
        data := data + [lookup.url.value];
      }
      if counter >= 100 {
        CollectedAtLimit(lookups, i + 1);
        return;
      }
    }
    assert lookups[..|lookups|] == lookups;
  }

  /** `follower_pic_urls(user)`: the collected URLs, padded with empty
      fields to 100, joined by commas. */
  method FollowerPicUrls(lookups: seq<Lookup>) returns (csv: string)
    ensures csv == Text.Join(',', Padded(Collected(lookups)))
  {
    var data := CollectUrls(lookups);
    if |data| == 100 {
      PaddedFull(data);
      return Text.Join(',', data);
    }
    while |data| < 100
      invariant |Collected(lookups)| <= |data| <= 100
      invariant data == Collected(lookups) + Blanks(|data| - |Collected(lookups)|)
      decreases 100 - |data|
    {
      assert Blanks(|data| + 1 - |Collected(lookups)|) == Blanks(|data| - |Collected(lookups)|) + [""];
      data := data + [""];
    }
    csv := Text.Join(',', data);
  }

  lemma {:induction false} NoCharAll(xs: seq<string>, c: char)
    requires forall i :: 0 <= i < |xs| ==> Text.CountChar(xs[i], c) == 0
    ensures Text.CountCharAll(xs, c) == 0
    decreases |xs|
  {
    if |xs| > 0 {
      NoCharAll(xs[..|xs| - 1], c);
    }
  }

  /** The line always has exactly 100 fields: when no collected URL holds a
      comma, it holds 99 commas. */
  lemma PicLineFields(lookups: seq<Lookup>)
    requires forall i :: 0 <= i < |Collected(lookups)| ==> Text.CountChar(Collected(lookups)[i], ',') == 0
    ensures Text.CountChar(Text.Join(',', Padded(Collected(lookups))), ',') == 99
  {
    var data := Collected(lookups);
    var p := Padded(data);
    forall i | 0 <= i < |p|
      ensures Text.CountChar(p[i], ',') == 0
    {
      if i < |data| {
        assert p[i] == p[..|data|][i];
      } else {
        assert p[i] == "";
      }
    }
    NoCharAll(p, ',');
    Text.JoinSeparators(',', p);
  }

  /** `f"follower_{num}"` for `num` in `1..n`. */
  function Columns(n: nat): (r: seq<string>)
    ensures |r| == n
    ensures forall k :: 0 <= k < n ==> r[k] == "follower_" + Text.NatStr(k + 1)
  {
    if n == 0 then [] else Columns(n - 1) + ["follower_" + Text.NatStr(n)]
  }

  /** The header line, without its newline. */
  function Header(): (r: string)
    ensures |r| > 5 && r[..5] == "name,"
  {
    "name," + Text.Join(',', Columns(100))
  }

  lemma {:induction false} ColumnsHaveNoComma(n: nat)
    ensures Text.CountCharAll(Columns(n), ',') == 0
    decreases n
  {
    if n > 0 {
      ColumnsHaveNoComma(n - 1);
      Text.NoCharNoCount("follower_" + Text.NatStr(n), ',');
      assert Columns(n)[..n - 1] == Columns(n - 1);
    }
  }

  lemma NameFieldComma(rest: string)
    ensures Text.CountChar("name," + rest, ',') == 1 + Text.CountChar(rest, ',')
  {
    Text.NoCharNoCount("name", ',');
    assert "name,"[..4] == "name";
    Text.CountCharAppend("name,", rest, ',');
  }

  /** A header over `n >= 1` follower columns names `n + 1` columns. */
  lemma {:induction false} HeaderCommas(n: nat)
    requires n >= 1
    ensures Text.CountChar("name," + Text.Join(',', Columns(n)), ',') == n
  {
    ColumnsHaveNoComma(n);
    Text.JoinSeparators(',', Columns(n));
    NameFieldComma(Text.Join(',', Columns(n)));
  }

  /** The header names 101 columns: `name` and 100 follower columns. */
  lemma HeaderFields()
    ensures Text.CountChar(Header(), ',') == 100
  {
    HeaderCommas(100);
  }
}
