/** Text helpers shared by the document builder and the backend error parser:
    decimal rendering of integers (Python's `str(int)` / f-string), Python slicing
    `s[:k]`, and Python's substring test `sub in s`. */
module Text {

  predicate IsDigit(c: char) { '0' <= c <= '9' }

  function DigitChar(d: nat): (c: char)
    requires d < 10
    ensures IsDigit(c) && c as int - '0' as int == d
  {
    ('0' as int + d) as char
  }

  function DigitValue(c: char): nat
  {
    if IsDigit(c) then c as int - '0' as int else 0
  }

  /** Decimal rendering of a natural number, most significant digit first. */
  function NatToString(n: nat): (s: string)
    ensures |s| >= 1
    ensures forall k :: 0 <= k < |s| ==> IsDigit(s[k])
    ensures s[0] == '0' ==> n == 0
  {
    if n < 10 then [DigitChar(n)] else NatToString(n / 10) + [DigitChar(n % 10)]
  }

  /** Reads a decimal digit string back; the reference partner of NatToString. */
  function ParseDecimal(s: string): nat
  {
    if s == [] then 0 else ParseDecimal(s[..|s| - 1]) * 10 + DigitValue(s[|s| - 1])
  }

  lemma {:induction false} ParseNatToString(n: nat)
    ensures ParseDecimal(NatToString(n)) == n
  {
    if n >= 10 {
      var s := NatToString(n / 10);
      var t := s + [DigitChar(n % 10)];
      assert t[..|t| - 1] == s;
      ParseNatToString(n / 10);
    }
  }

  /** Different numbers render differently: the numbering of headers is unambiguous. */
  lemma NatToStringInjective(a: nat, b: nat)
    ensures NatToString(a) == NatToString(b) ==> a == b
  {
    ParseNatToString(a);
    ParseNatToString(b);
  }

  /** Python's `s[:k]` for k >= 0: never fails, shorter strings are kept whole. */
  function Prefix(s: string, k: nat): (r: string)
    ensures |r| == (if |s| < k then |s| else k)
    ensures r == s[..|r|]
  {
    if |s| <= k then s else s[..k]
  }

  predicate StartsWith(s: string, p: string)
  {
    |p| <= |s| && s[..|p|] == p
  }

  predicate OccursAt(s: string, sub: string, i: nat)
  {
    i + |sub| <= |s| && s[i..i + |sub|] == sub
  }

  /** An occurrence of `x + y` is an occurrence of `x` followed by one of `y`. */
  lemma OccursAtConcat(s: string, x: string, y: string, i: nat)
    ensures OccursAt(s, x + y, i) <==> OccursAt(s, x, i) && OccursAt(s, y, i + |x|)
  {
    if OccursAt(s, x, i) && OccursAt(s, y, i + |x|) {
      assert s[i..i + |x + y|] == s[i..i + |x|] + s[i + |x|..i + |x| + |y|];
    }
    if OccursAt(s, x + y, i) {
      assert s[i..i + |x|] == (x + y)[..|x|];
      assert s[i + |x|..i + |x| + |y|] == (x + y)[|x|..];
    }
  }

  /** `s` starts with `p` from position `i` exactly when `p` occurs at `i`. */
  lemma StartsWithOccurs(s: string, p: string, i: nat)
    requires i <= |s|
    ensures StartsWith(s[i..], p) <==> OccursAt(s, p, i)
  {
    if i + |p| <= |s| {
      assert s[i..][..|p|] == s[i..i + |p|];
    }
  }

  /** After an occurrence of `x` at `i`, the suffix from `i` is `x` followed by the rest. */
  lemma OccursAtSuffix(s: string, x: string, i: nat)
    requires OccursAt(s, x, i)
    ensures s[i..] == x + s[i + |x|..]
  {
    assert s[i..] == s[i..i + |x|] + s[i + |x|..];
  }

  /** Python's `sub in s`. */
  predicate Contains(s: string, sub: string)
  {
    exists i: nat :: i <= |s| && OccursAt(s, sub, i)
  }
}
