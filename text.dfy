/** The few Python `str` operations the integration relies on. Strings are `seq<char>`;
    case mapping is ASCII-only. */
module Text {

  predicate StartsWith(s: string, prefix: string) {
    |prefix| <= |s| && s[..|prefix|] == prefix
  }

  function UpperChar(c: char): char {
    if 'a' <= c <= 'z' then (c as int - 'a' as int + 'A' as int) as char else c
  }

  function LowerChar(c: char): char {
    if 'A' <= c <= 'Z' then (c as int - 'A' as int + 'a' as int) as char else c
  }

  /** Cutting `a + b` at `|a|` gives back `a` and `b`. */
  lemma Split(a: string, b: string)
    ensures (a + b)[..|a|] == a && (a + b)[|a|..] == b
  {
  }

  /** `s.upper()` */
  function Upper(s: string): (r: string)
    ensures |r| == |s|
    ensures forall i :: 0 <= i < |s| ==> r[i] == UpperChar(s[i])
  {
    if s == [] then [] else [UpperChar(s[0])] + Upper(s[1..])
  }

  /** `s.lower()` */
  function Lower(s: string): (r: string)
    ensures |r| == |s|
    ensures forall i :: 0 <= i < |s| ==> r[i] == LowerChar(s[i])
  {
    if s == [] then [] else [LowerChar(s[0])] + Lower(s[1..])
  }

  /** `s.replace(":", "")` */
  function RemoveColons(s: string): (r: string)
    ensures |r| <= |s|
    ensures ':' !in r
  {
    if s == [] then []
    else if s[0] == ':' then RemoveColons(s[1..])
    else [s[0]] + RemoveColons(s[1..])
  }

  /** `s[-n:]` for a non-negative `n`: the last `n` characters, or all of `s` when it is shorter. */
  function LastN(s: string, n: nat): (r: string)
    ensures |r| == if |s| < n then |s| else n
    ensures r == s[|s| - |r|..]
  {
    if |s| <= n then s else s[|s| - n..]
  }

  lemma UpperCharShape(c: char)
    ensures !('a' <= UpperChar(c) <= 'z')
    ensures UpperChar(c) == ':' <==> c == ':'
  {
  }

  /** A tail of an upper-cased string holds no lower-case letter, and no colon when the
      string had none. */
  lemma LastNOfUpperShape(s: string, n: nat)
    ensures ':' !in s ==> ':' !in LastN(Upper(s), n)
    ensures forall k :: 0 <= k < |LastN(Upper(s), n)| ==> !('a' <= LastN(Upper(s), n)[k] <= 'z')
  {
    var u := Upper(s);
    var r := LastN(u, n);
    forall k | 0 <= k < |r|
      ensures !('a' <= r[k] <= 'z') && (r[k] == ':' ==> s[|u| - |r| + k] == ':')
    {
      assert r[k] == u[|u| - |r| + k] == UpperChar(s[|u| - |r| + k]);
      UpperCharShape(s[|u| - |r| + k]);
    }
  }

  function DigitChar(d: nat): char
    requires d < 10
  {
    ['0', '1', '2', '3', '4', '5', '6', '7', '8', '9'][d]
  }

  function NatToString(n: nat): (r: string)
    ensures |r| >= 1
    decreases n
  {
    if n < 10 then [DigitChar(n)] else NatToString(n / 10) + [DigitChar(n % 10)]
  }

  /** `str(i)` for a Python `int` */
  function IntToString(i: int): string {
    if i < 0 then "-" + NatToString(-i) else NatToString(i)
  }

  /** `sep.join(parts)` */
  function Join(sep: string, parts: seq<string>): string {
    if parts == [] then ""
    else if |parts| == 1 then parts[0]
    else parts[0] + sep + Join(sep, parts[1..])
  }

  lemma {:induction false} UpperOfLower(s: string)
    ensures Upper(Lower(s)) == Upper(s)
  {
    if s != [] {
      UpperOfLower(s[1..]);
      assert Lower(s) == [LowerChar(s[0])] + Lower(s[1..]);
      assert Upper(Lower(s)) == [UpperChar(LowerChar(s[0]))] + Upper(Lower(s[1..]));
    }
  }

  lemma {:induction false} UpperIdempotent(s: string)
    ensures Upper(Upper(s)) == Upper(s)
  {
    if s != [] {
      UpperIdempotent(s[1..]);
      assert Upper(s) == [UpperChar(s[0])] + Upper(s[1..]);
      assert Upper(Upper(s)) == [UpperChar(UpperChar(s[0]))] + Upper(Upper(s[1..]));
    }
  }

  lemma {:induction false} LowerOfUpper(s: string)
    ensures Lower(Upper(s)) == Lower(s)
  {
    if s != [] {
      LowerOfUpper(s[1..]);
      assert Upper(s) == [UpperChar(s[0])] + Upper(s[1..]);
      assert Lower(Upper(s)) == [LowerChar(UpperChar(s[0]))] + Lower(Upper(s[1..]));
    }
  }

  lemma {:induction false} RemoveColonsAppend(a: string, b: string)
    ensures RemoveColons(a + b) == RemoveColons(a) + RemoveColons(b)
  {
    if a == [] {
      assert a + b == b;
    } else {
      var c := a + b;
      assert c[0] == a[0] && c[1..] == a[1..] + b;
      RemoveColonsAppend(a[1..], b);
      if a[0] != ':' {
        assert [a[0]] + RemoveColons(a[1..]) + RemoveColons(b) == [a[0]] + (RemoveColons(a[1..]) + RemoveColons(b));
      }
    }
  }

  /** `a + b + c` starts with `a` and ends with `c`. */
  lemma PrefixAndSuffix(a: string, b: string, c: string)
    ensures StartsWith(a + b + c, a)
    ensures |c| <= |a + b + c| && (a + b + c)[|a + b + c| - |c|..] == c
    ensures |a + b + c| == |a| + |b| + |c| && (a + b + c)[|a|..|a| + |b|] == b
  {
    assert (a + b + c)[..|a|] == a;
    assert (a + b + c)[|a|..|a| + |b|] == b;
  }

  lemma {:induction false} RemoveColonsOfLower(s: string)
    ensures RemoveColons(Lower(s)) == Lower(RemoveColons(s))
  {
    if s != [] {
      RemoveColonsOfLower(s[1..]);
      assert Lower(s) == [LowerChar(s[0])] + Lower(s[1..]);
      if s[0] != ':' {
        assert Lower(RemoveColons(s)) == [LowerChar(s[0])] + Lower(RemoveColons(s[1..]));
      }
    }
  }
}
