/** String helpers standing in for the JavaScript built-ins the screens and stores use:
    digit tests, `toLowerCase` on ASCII letters, `includes`, `Number.prototype.toString`
    on integers and `parseInt`. */
module Text {
  import opened Common

  predicate IsDigit(c: char) { '0' <= c <= '9' }

  predicate IsSpace(c: char) { c == ' ' || c == '\t' || c == '\n' || c == '\r' }

  /** `s.replace(/[^0-9]/g, '')`: the digits of `s`, in order. */
  function KeepDigits(s: string): (r: string)
    ensures forall i :: 0 <= i < |r| ==> IsDigit(r[i])
    ensures IsSubsequence(r, s)
    ensures forall i :: 0 <= i < |s| && IsDigit(s[i]) ==> s[i] in r
    ensures forall c :: multiset(r)[c] == if IsDigit(c) then multiset(s)[c] else 0
  {
    Filter(IsDigit, s)
  }

  /** `toLowerCase` restricted to the ASCII letters. */
  function LowerChar(c: char): char
  {
    if 'A' <= c <= 'Z' then (c as int - 'A' as int + 'a' as int) as char else c
  }

  function Lower(s: string): (r: string)
    ensures |r| == |s|
    ensures forall i :: 0 <= i < |s| ==> r[i] == LowerChar(s[i])
    ensures forall i :: 0 <= i < |r| ==> !('A' <= r[i] <= 'Z')
  {
    if |s| == 0 then "" else [LowerChar(s[0])] + Lower(s[1..])
  }

  /** Lower-casing twice is lower-casing once. */
  lemma LowerIdempotent(s: string)
    ensures Lower(Lower(s)) == Lower(s)
  {
    var l := Lower(s);
    assert forall i :: 0 <= i < |l| ==> LowerChar(l[i]) == l[i];
  }

  /** `q` occurs in `s` starting at index `i`. */
  predicate OccursAt(q: string, s: string, i: int)
  {
    0 <= i && i + |q| <= |s| && s[i..i + |q|] == q
  }

  /** `s.includes(q)`. */
  predicate Contains(s: string, q: string)
  {
    exists i :: 0 <= i <= |s| - |q| && OccursAt(q, s, i)
  }

  /** The empty string occurs in every string. */
  lemma ContainsEmpty(s: string)
    ensures Contains(s, "")
  {
    assert OccursAt("", s, 0);
  }

  /** A string containing `q` contains everything `q` contains. */
  lemma ContainsTransitive(s: string, q: string, p: string)
    requires Contains(s, q) && Contains(q, p)
    ensures Contains(s, p)
  {
    var i :| 0 <= i <= |s| - |q| && OccursAt(q, s, i);
    var j :| 0 <= j <= |q| - |p| && OccursAt(p, q, j);
    forall k | 0 <= k < |p|
      ensures s[i + j + k] == p[k]
    {
      assert s[i..i + |q|][j + k] == q[j + k];
      assert q[j..j + |p|][k] == p[k];
    }
    assert s[i + j..i + j + |p|] == p;
    assert OccursAt(p, s, i + j);
  }

  // ----- decimal rendering and parsing of integers -----

  function DigitChar(d: int): char
    requires 0 <= d <= 9
  {
    ('0' as int + d) as char
  }

  function DigitValue(c: char): int
    requires IsDigit(c)
  {
    c as int - '0' as int
  }

  /** The decimal rendering of a natural number: its digits, no leading zeros. */
  function NatToString(n: nat): (r: string)
    ensures |r| > 0
    ensures forall i :: 0 <= i < |r| ==> IsDigit(r[i])
  {
    if n < 10 then [DigitChar(n)] else NatToString(n / 10) + [DigitChar(n % 10)]
  }

  /** The decimal rendering of an integer, as `n.toString()` gives it for the safe integers:
      a minus sign before the digits of a negative number. */
  function IntToString(n: int): (r: string)
    ensures |r| > 0
    ensures r[0] == '-' <==> n < 0
    ensures forall i :: (if n < 0 then 1 else 0) <= i < |r| ==> IsDigit(r[i])
  {
    if n < 0 then "-" + NatToString(-n) else NatToString(n)
  }

  /** The value of a non-empty run of decimal digits. */
  function DigitsValue(s: string): (v: nat)
    requires forall i :: 0 <= i < |s| ==> IsDigit(s[i])
  {
    if |s| == 0 then 0 else 10 * DigitsValue(s[..|s| - 1]) + DigitValue(s[|s| - 1])
  }

  /** The longest prefix of `s` made of decimal digits. */
  function DigitPrefix(s: string): (r: string)
    ensures |r| <= |s| && r == s[..|r|]
    ensures forall i :: 0 <= i < |r| ==> IsDigit(r[i])
    ensures |r| < |s| ==> !IsDigit(s[|r|])
  {
    if |s| == 0 || !IsDigit(s[0]) then "" else [s[0]] + DigitPrefix(s[1..])
  }

  /** `s` without its leading white space. */
  function TrimStart(s: string): (r: string)
    ensures |r| <= |s| && r == s[|s| - |r|..]
    ensures forall i :: 0 <= i < |s| - |r| ==> IsSpace(s[i])
    ensures |r| > 0 ==> !IsSpace(r[0])
    decreases |s|
  {
    if |s| > 0 && IsSpace(s[0]) then TrimStart(s[1..]) else s
  }

  /** `parseInt(s)` in base 10: leading white space, an optional sign, then the longest run
      of digits; `None` stands for `NaN` (no digit where one is expected). */
  function ParseInt(s: string): (r: Option<int>)
    ensures r.Some? ==> exists i :: 0 <= i < |s| && IsDigit(s[i])
    ensures |s| > 0 && (forall i :: 0 <= i < |s| ==> IsDigit(s[i])) ==> r == Some(DigitsValue(s))
  {
    var t := TrimStart(s);
    var signed := |t| > 0 && (t[0] == '-' || t[0] == '+');
    var body := if signed then t[1..] else t;
    var digits := DigitPrefix(body);
    assert |digits| > 0 ==> IsDigit(s[|s| - |body|]) by {
      if |digits| > 0 {
        assert body == s[|s| - |body|..];
        assert digits[0] == body[0];
      }
    }
    assert |s| > 0 && (forall i :: 0 <= i < |s| ==> IsDigit(s[i])) ==> digits == s by {
      if |s| > 0 && (forall i :: 0 <= i < |s| ==> IsDigit(s[i])) {
        assert !IsSpace(s[0]);
        assert t == s;
        DigitPrefixOfDigits(s);
      }
    }
    var magnitude: int := if |digits| == 0 then 0 else DigitsValue(digits);
    if |digits| == 0 then None
    else if signed && t[0] == '-' then Some(-magnitude)
    else Some(magnitude)
  }

  lemma {:induction false} DigitsValueOfNatToString(n: nat)
    ensures DigitsValue(NatToString(n)) == n
    decreases n
  {
    var r := NatToString(n);
    if n >= 10 {
      DigitsValueOfNatToString(n / 10);
      assert r[..|r| - 1] == NatToString(n / 10);
    }
  }

  lemma {:induction false} DigitPrefixOfDigits(s: string)
    requires forall i :: 0 <= i < |s| ==> IsDigit(s[i])
    ensures DigitPrefix(s) == s
    decreases |s|
  {
    if |s| > 0 {
      DigitPrefixOfDigits(s[1..]);
    }
  }

  /** Round trip: `parseInt` of the decimal rendering of any integer gives it back. */
  lemma ParseIntOfIntToString(n: int)
    ensures ParseInt(IntToString(n)) == Some(n)
  {
    if n < 0 {
      NegativeRoundTrip(-n);
    } else {
      DigitsValueOfNatToString(n);
      assert ParseInt(NatToString(n)) == Some(DigitsValue(NatToString(n)));
    }
  }

  /** `parseInt` of a minus sign followed by the digits of `m` gives `-m`. */
  lemma NegativeRoundTrip(m: nat)
    ensures ParseInt("-" + NatToString(m)) == Some(-(m as int))
  {
    var d := NatToString(m);
    var s := "-" + d;
    DigitsValueOfNatToString(m);
    DigitPrefixOfDigits(d);
    assert TrimStart(s) == s;
    assert s[1..] == d;
  }

  /** A ten-digit number is written with exactly ten characters. */
  lemma {:induction false} NatToStringLength(n: nat, k: nat)
    requires Pow10(k) <= n < 10 * Pow10(k)
    ensures |NatToString(n)| == k + 1
    decreases k
  {
    if k > 0 {
      NatToStringLength(n / 10, k - 1);
    }
  }

  function Pow10(k: nat): (p: nat)
    ensures p >= 1
  {
    if k == 0 then 1 else 10 * Pow10(k - 1)
  }

  /** The text before the first `@` of an e-mail address. */
  function LocalPart(email: string): (r: string)
    ensures |r| <= |email| && r == email[..|r|]
    ensures '@' !in r
    ensures |r| < |email| ==> email[|r|] == '@'
  {
    if |email| == 0 || email[0] == '@' then "" else [email[0]] + LocalPart(email[1..])
  }

  /** The local part of `p + rest` is `p` when `p` has no `@` and `rest` starts with one. */
  lemma {:induction false} LocalPartOfConcat(p: string, rest: string)
    requires '@' !in p
    requires |rest| > 0 && rest[0] == '@'
    ensures LocalPart(p + rest) == p
    decreases |p|
  {
    if |p| > 0 {
      assert (p + rest)[1..] == p[1..] + rest;
      LocalPartOfConcat(p[1..], rest);
    } else {
      assert p + rest == rest;
    }
  }
}
