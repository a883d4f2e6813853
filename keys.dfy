/** Cache keys of src/experience.ts: `${CACHE_KEY_PREFIX}-${id}`, the
    decimal rendering of the experience id appended to a fixed prefix. */
module CacheKeys {

  const CachePrefix: string := "experience-stats"

  predicate IsDigit(c: char) {
    '0' <= c <= '9'
  }

  function DigitChar(d: nat): (c: char)
    requires d < 10
  {
    (d + 48) as char
  }

  /** Decimal digits of `n`, most significant first, no leading zeros. */
  function NatToString(n: nat): (s: string)
    ensures |s| >= 1
    ensures forall i :: 0 <= i < |s| ==> IsDigit(s[i])
    ensures n < 10 <==> |s| == 1
  {
    if n < 10 then [DigitChar(n)] else NatToString(n / 10) + [DigitChar(n % 10)]
  }

  /** The number a string of decimal digits denotes, most significant
      digit first: the reference reading of a rendering. */
  function DecimalValue(s: string): (v: nat)
    requires forall i :: 0 <= i < |s| ==> IsDigit(s[i])
    ensures s == [] ==> v == 0
  {
    if s == [] then 0
    else
      assert IsDigit(s[|s| - 1]);
      10 * DecimalValue(s[..|s| - 1]) + (s[|s| - 1] as int - 48)
  }

  /** Reading the digits back gives the number rendered. */
  lemma {:induction false} NatToStringRoundTrip(n: nat)
    ensures DecimalValue(NatToString(n)) == n
  {
    if n >= 10 {
      var s := NatToString(n);
      assert s[..|s| - 1] == NatToString(n / 10);
      NatToStringRoundTrip(n / 10);
    }
  }

  /** JavaScript's rendering of an integer in a template literal. */
  function IntToString(i: int): string {
    if i < 0 then "-" + NatToString(-i) else NatToString(i)
  }

  /** A non-negative integer renders as digits that read back as it; a
      negative one as '-' then digits that read back as its magnitude. */
  lemma IntToStringRoundTrip(i: int)
    ensures var s := IntToString(i);
      (i >= 0 ==> (forall k :: 0 <= k < |s| ==> IsDigit(s[k])) && DecimalValue(s) == i) &&
      (i < 0 ==> |s| >= 2 && s[0] == '-' &&
                 (forall k :: 1 <= k < |s| ==> IsDigit(s[k])) && DecimalValue(s[1..]) == -i)
  {
    if i < 0 {
      NatToStringRoundTrip(-i);
      assert IntToString(i)[1..] == NatToString(-i);
    } else {
      NatToStringRoundTrip(i);
    }
  }

  /** The cache key of one experience. */
  function CacheKey(id: int): (key: string)
    ensures |key| > |CachePrefix| + 1
    ensures key[..|CachePrefix| + 1] == "experience-stats-"
    ensures id >= 0 ==> forall i :: |CachePrefix| + 1 <= i < |key| ==> IsDigit(key[i])
  {
    CachePrefix + "-" + IntToString(id)
  }

  lemma {:induction false} NatToStringInjective(a: nat, b: nat)
    ensures NatToString(a) == NatToString(b) ==> a == b
  {
    if NatToString(a) == NatToString(b) && a >= 10 && b >= 10 {
      var sa, sb := NatToString(a), NatToString(b);
      assert sa[..|sa| - 1] == NatToString(a / 10);
      assert sb[..|sb| - 1] == NatToString(b / 10);
      NatToStringInjective(a / 10, b / 10);
      assert DigitChar(a % 10) == sa[|sa| - 1] == DigitChar(b % 10);
    }
  }

  /** A rendering starts with '-' exactly for a negative integer. */
  lemma IntToStringSign(i: int)
    ensures |IntToString(i)| >= 1
    ensures IntToString(i)[0] == '-' <==> i < 0
  {
    if i >= 0 {
      assert IsDigit(NatToString(i)[0]);
    }
  }

  lemma IntToStringInjective(a: int, b: int)
    ensures IntToString(a) == IntToString(b) ==> a == b
  {
    if IntToString(a) == IntToString(b) {
      IntToStringSign(a);
      IntToStringSign(b);
      if a < 0 {
        assert NatToString(-a) == IntToString(a)[1..] == IntToString(b)[1..] == NatToString(-b);
        NatToStringInjective(-a, -b);
      } else {
        NatToStringInjective(a, b);
      }
    }
  }

  /** Distinct experiences never share a cache entry. */
  lemma CacheKeyInjective(a: int, b: int)
    ensures CacheKey(a) == CacheKey(b) ==> a == b
  {
    if CacheKey(a) == CacheKey(b) {
      var n := |CachePrefix| + 1;
      assert IntToString(a) == CacheKey(a)[n..] == CacheKey(b)[n..] == IntToString(b);
      IntToStringInjective(a, b);
    }
  }

  /** The part of a key after `experience-stats-` reads back as the id:
      its digits for a non-negative id, '-' then its magnitude's digits
      otherwise. */
  lemma CacheKeyRoundTrip(id: int)
    ensures var rest := CacheKey(id)[|CachePrefix| + 1..];
      (id >= 0 ==> DecimalValue(rest) == id) &&
      (id < 0 ==> rest[0] == '-' && DecimalValue(rest[1..]) == -id)
  {
    assert CacheKey(id)[|CachePrefix| + 1..] == IntToString(id);
    IntToStringRoundTrip(id);
  }

  /** The key the source's tests look up for experience 1. */
  lemma CacheKeyOfExperienceOne()
    ensures CacheKey(1) == "experience-stats-1"
  {
  }
}
