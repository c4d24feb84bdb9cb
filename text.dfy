/** String helpers: decimal rendering of integers (Python's `str(int)`),
    `",".join(...)` and character counting. */
module Text {

  function DigitChar(d: nat): (c: char)
    requires d < 10
    ensures '0' <= c <= '9'
  {
    "0123456789"[d]
  }

  /** Decimal digits of a natural number, most significant first. */
  function NatStr(n: nat): (s: string)
    ensures |s| >= 1
    ensures forall i :: 0 <= i < |s| ==> '0' <= s[i] <= '9'
  {
    if n < 10 then [DigitChar(n)] else NatStr(n / 10) + [DigitChar(n % 10)]
  }

  /** `str(n)` for a Python int. */
  function IntStr(n: int): (s: string)
    ensures |s| >= 1
    ensures forall i :: 0 <= i < |s| ==> s[i] == '-' || '0' <= s[i] <= '9'
  {
    if n < 0 then "-" + NatStr(-n) else NatStr(n)
  }

  /** `sep.join(xs)` with a one-character separator. */
  function Join(sep: char, xs: seq<string>): (r: string)
  {
    if |xs| == 0 then ""
    else if |xs| == 1 then xs[0]
    else Join(sep, xs[..|xs| - 1]) + [sep] + xs[|xs| - 1]
  }

  /** Number of occurrences of `c` in `s`. */
  function CountChar(s: string, c: char): (r: nat)
  {
    if |s| == 0 then 0 else CountChar(s[..|s| - 1], c) + (if s[|s| - 1] == c then 1 else 0)
  }

  /** Total occurrences of `c` across all strings of `xs`. */
  function CountCharAll(xs: seq<string>, c: char): (r: nat)
  {
    if |xs| == 0 then 0 else CountCharAll(xs[..|xs| - 1], c) + CountChar(xs[|xs| - 1], c)
  }

  lemma {:induction false} CountCharAppend(s: string, t: string, c: char)
    ensures CountChar(s + t, c) == CountChar(s, c) + CountChar(t, c)
    decreases |t|
  {
    if |t| == 0 {
      assert s + t == s;
    } else {
      assert (s + t)[..|s + t| - 1] == s + t[..|t| - 1];
      CountCharAppend(s, t[..|t| - 1], c);
    }
  }

  /** Joining `n >= 1` strings with `sep` adds exactly `n - 1` separators:
      a joined line has one field more than it has separators. */
  lemma {:induction false} JoinSeparators(sep: char, xs: seq<string>)
    requires |xs| >= 1
    ensures CountChar(Join(sep, xs), sep) == |xs| - 1 + CountCharAll(xs, sep)
    decreases |xs|
  {
    if |xs| == 1 {
      assert xs[..0] == [];
    } else {
      var init := xs[..|xs| - 1];
      JoinSeparators(sep, init);
      CountCharAppend(Join(sep, init), [sep], sep);
      CountCharAppend(Join(sep, init) + [sep], xs[|xs| - 1], sep);
      assert CountChar([sep], sep) == 1 by {
        assert [sep][..0] == [];
      }
    }
  }

  /** A number never renders with a comma in it. */
  lemma {:induction false} IntStrHasNoComma(n: int)
    ensures CountChar(IntStr(n), ',') == 0
  {
    NoCharNoCount(IntStr(n), ',');
  }

  lemma {:induction false} NoCharNoCount(s: string, c: char)
    requires forall i :: 0 <= i < |s| ==> s[i] != c
    ensures CountChar(s, c) == 0
    decreases |s|
  {
    if |s| > 0 {
      NoCharNoCount(s[..|s| - 1], c);
    }
  }
}
