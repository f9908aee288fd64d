/** String helpers shared by the router, the controllers and the Brain stub:
    decimal rendering and parsing of natural numbers, and trimming of a set of
    characters from both ends of a string (PHP's `trim`). */
module Text {

  predicate IsDigit(c: char) {
    '0' <= c <= '9'
  }

  predicate IsDigits(s: string) {
    forall i | 0 <= i < |s| :: IsDigit(s[i])
  }

  function DigitChar(d: nat): (c: char)
    requires d < 10
    ensures IsDigit(c) && DigitValue(c) == d
  {
    (48 + d) as char
  }

  function DigitValue(c: char): nat
    requires IsDigit(c)
  {
    c as nat - 48
  }

  /** Decimal rendering of `n` without leading zeros (JavaScript template
      interpolation and PHP string concatenation of an integer). */
  function Decimal(n: nat): (s: string)
    ensures |s| > 0 && IsDigits(s)
    ensures s[0] == '0' ==> n == 0
  {
    if n < 10 then [DigitChar(n)] else Decimal(n / 10) + [DigitChar(n % 10)]
  }

  /** The value of a run of decimal digits, leading zeros allowed, as an
      unbounded integer. */
  function ParseDigits(s: string): nat
    requires IsDigits(s)
  {
    if s == [] then 0 else 10 * ParseDigits(s[..|s| - 1]) + DigitValue(s[|s| - 1])
  }

  lemma {:induction false} ParseDecimal(n: nat)
    ensures ParseDigits(Decimal(n)) == n
  {
    var s := Decimal(n);
    if n >= 10 {
      assert s[..|s| - 1] == Decimal(n / 10);
      ParseDecimal(n / 10);
    }
  }

  /** Removes every character of `cs` from the front of `s`. */
  function TrimLeft(s: string, cs: set<char>): (r: string)
    ensures |r| <= |s| && r == s[|s| - |r|..]
    ensures r == [] || r[0] !in cs
    ensures forall i | 0 <= i < |s| - |r| :: s[i] in cs
  {
    if s != [] && s[0] in cs then TrimLeft(s[1..], cs) else s
  }

  /** Removes every character of `cs` from the back of `s`. */
  function TrimRight(s: string, cs: set<char>): (r: string)
    ensures |r| <= |s| && r == s[..|r|]
    ensures r == [] || r[|r| - 1] !in cs
    ensures forall i | |r| <= i < |s| :: s[i] in cs
  {
    if s != [] && s[|s| - 1] in cs then TrimRight(s[..|s| - 1], cs) else s
  }

  /** How many characters `TrimLeft` strips from the front of `s`. */
  function Leading(s: string, cs: set<char>): nat
  {
    |s| - |TrimLeft(s, cs)|
  }

  /** PHP `trim($s, $cs)`: the infix of `s` left once every character of `cs`
      is stripped from both ends. */
  function Trim(s: string, cs: set<char>): (r: string)
    ensures r == [] || (r[0] !in cs && r[|r| - 1] !in cs)
    ensures Leading(s, cs) + |r| <= |s| && r == s[Leading(s, cs)..Leading(s, cs) + |r|]
    ensures forall k | 0 <= k < Leading(s, cs) :: s[k] in cs
    ensures forall k | Leading(s, cs) + |r| <= k < |s| :: s[k] in cs
  {
    var l := TrimLeft(s, cs);
    var r := TrimRight(l, cs);
    InfixOfSuffix(s, l, r, cs);
    r
  }

  /** A prefix `r` of the suffix `l` of `s` is an infix of `s`; what `l`
      holds beyond `r` is what `s` holds beyond it. */
  lemma InfixOfSuffix(s: string, l: string, r: string, cs: set<char>)
    requires |l| <= |s| && l == s[|s| - |l|..]
    requires |r| <= |l| && r == l[..|r|]
    requires forall j | |r| <= j < |l| :: l[j] in cs
    ensures r == s[|s| - |l|..|s| - |l| + |r|]
    ensures r != [] ==> r[0] == l[0]
    ensures forall k | |s| - |l| + |r| <= k < |s| :: s[k] in cs
  {
    var i := |s| - |l|;
    forall k | i + |r| <= k < |s| ensures s[k] in cs {
      assert s[k] == l[k - i];
    }
  }

  /** A string that neither starts nor ends with a stripped character is
      left as it is. */
  lemma TrimClean(s: string, cs: set<char>)
    requires s == [] || (s[0] !in cs && s[|s| - 1] !in cs)
    ensures Trim(s, cs) == s
  {
    assert TrimLeft(s, cs) == s;
    assert TrimRight(s, cs) == s;
  }

  /** Trimming ignores any number of stripped characters added at either end. */
  lemma {:induction false} TrimPadded(pre: string, s: string, post: string, cs: set<char>)
    requires forall k | 0 <= k < |pre| :: pre[k] in cs
    requires forall k | 0 <= k < |post| :: post[k] in cs
    ensures Trim(pre + s + post, cs) == Trim(s, cs)
  {
    assert pre + s + post == pre + (s + post);
    TrimLeftPadded(pre, s + post, cs);
    TrimLeftAppend(s, post, cs);
    var l := TrimLeft(s, cs);
    if l != [] {
      TrimRightPadded(l, post, cs);
    } else {
      TrimLeftPadded(post, [], cs);
      assert post + [] == post;
    }
  }

  lemma {:induction false} TrimLeftPadded(pre: string, s: string, cs: set<char>)
    requires forall k | 0 <= k < |pre| :: pre[k] in cs
    ensures TrimLeft(pre + s, cs) == TrimLeft(s, cs)
    decreases |pre|
  {
    if pre == [] {
      assert pre + s == s;
    } else {
      assert (pre + s)[0] == pre[0];
      assert (pre + s)[1..] == pre[1..] + s;
      TrimLeftPadded(pre[1..], s, cs);
    }
  }

  /** Left-trimming `s + post` either stops inside `s`, or eats all of `s`
      and continues into `post`. */
  lemma {:induction false} TrimLeftAppend(s: string, post: string, cs: set<char>)
    ensures TrimLeft(s, cs) != [] ==> TrimLeft(s + post, cs) == TrimLeft(s, cs) + post
    ensures TrimLeft(s, cs) == [] ==> TrimLeft(s + post, cs) == TrimLeft(post, cs)
    decreases |s|
  {
    if s == [] {
      assert s + post == post;
    } else {
      assert (s + post)[0] == s[0];
      if s[0] in cs {
        assert (s + post)[1..] == s[1..] + post;
        TrimLeftAppend(s[1..], post, cs);
      }
    }
  }

  lemma {:induction false} TrimRightPadded(s: string, post: string, cs: set<char>)
    requires forall k | 0 <= k < |post| :: post[k] in cs
    ensures TrimRight(s + post, cs) == TrimRight(s, cs)
    decreases |post|
  {
    if post != [] {
      var p := post[..|post| - 1];
      assert (s + post)[..|s + post| - 1] == s + p;
      TrimRightPadded(s, p, cs);
    } else {
      assert s + post == s;
    }
  }
}
