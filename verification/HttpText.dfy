/** Decimal numbers, white space and searches, as the HTTP printer and parser use them. */
module HttpText {
  // ------------------------------------------------------------------- decimals

  function Digit(d: nat): char
    requires d < 10
  {
    "0123456789"[d]
  }

  predicate IsDigit(c: char) { '0' <= c <= '9' }

  /** %zu and the digits of %d. */
  function Dec(n: nat): (s: string)
    ensures s != [] && (forall i :: 0 <= i < |s| ==> IsDigit(s[i]))
  {
    if n < 10 then [Digit(n)] else Dec(n / 10) + [Digit(n % 10)]
  }

  /** %d */
  function DecInt(n: int): string { if n < 0 then "-" + Dec(-n) else Dec(n) }

  /** The value of the digits from position i on, up to the first other character. */
  function Digits(s: string, i: nat, acc: nat): nat
    requires i <= |s|
    decreases |s| - i
  {
    if i < |s| && IsDigit(s[i]) then Digits(s, i + 1, acc * 10 + (s[i] as int - '0' as int)) else acc
  }

  lemma {:induction false} DigitsCat(a: string, t: string, i: nat, acc: nat)
    requires i <= |a| && (forall k :: 0 <= k < |a| ==> IsDigit(a[k]))
    ensures Digits(a + t, i, acc) == Digits(a + t, |a|, Digits(a, i, acc))
    decreases |a| - i
  {
    if i < |a| { DigitsCat(a, t, i + 1, acc * 10 + (a[i] as int - '0' as int)); }
  }

  lemma {:induction false} DigitsOfDec(n: nat)
    ensures Digits(Dec(n), 0, 0) == n
  {
    if n >= 10 {
      var a := Dec(n / 10);
      DigitsOfDec(n / 10);
      DigitsCat(a, [Digit(n % 10)], 0, 0);
    }
  }

  function Pow10(k: nat): nat { if k == 0 then 1 else 10 * Pow10(k - 1) }

  lemma {:induction false} DecShort(n: nat, k: nat)
    requires k > 0 && n < Pow10(k)
    ensures |Dec(n)| <= k
  {
    assert Pow10(1) == 10;
    if n >= 10 { DecShort(n / 10, k - 1); }
  }

  lemma PowersOfTen()
    ensures Pow10(10) == 10_000_000_000 && Pow10(20) == 100_000_000_000_000_000_000
  {
    assert Pow10(2) == 100;
    assert Pow10(4) == 10000;
    assert Pow10(6) == 1_000_000;
    assert Pow10(8) == 100_000_000;
    assert Pow10(10) == 10_000_000_000;
    assert Pow10(12) == 1_000_000_000_000;
    assert Pow10(14) == 100_000_000_000_000;
    assert Pow10(16) == 10_000_000_000_000_000;
    assert Pow10(18) == 1_000_000_000_000_000_000;
    assert Pow10(20) == 100_000_000_000_000_000_000;
  }

  // ---------------------------------------------------------------- white space

  /** isspace */
  predicate IsSpace(c: char) { c == ' ' || ('\t' <= c <= '\r') }

  /** The first position from i on, before end, that is not white space. */
  function SkipSpace(s: string, i: nat, end: nat): (r: nat)
    requires i <= end <= |s|
    ensures i <= r <= end
    decreases end - i
  {
    if i < end && IsSpace(s[i]) then SkipSpace(s, i + 1, end) else i
  }

  /** The end of the text between start and end once white space behind it is dropped. */
  function TrimEnd(s: string, start: nat, end: nat): (r: nat)
    requires start <= end <= |s|
    ensures start <= r <= end
    decreases end
  {
    if start < end && IsSpace(s[end - 1]) then TrimEnd(s, start, end - 1) else end
  }

  lemma {:induction false} SkipSpaceIs(s: string, i: nat, end: nat, r: nat)
    requires i <= r <= end <= |s| && (forall k :: i <= k < r ==> IsSpace(s[k])) && (r < end ==> !IsSpace(s[r]))
    ensures SkipSpace(s, i, end) == r
    decreases r - i
  {
    if i < r { SkipSpaceIs(s, i + 1, end, r); }
  }

  lemma {:induction false} TrimEndIs(s: string, start: nat, end: nat, r: nat)
    requires start <= r <= end <= |s| && (forall k :: r <= k < end ==> IsSpace(s[k]))
             && (r > start ==> !IsSpace(s[r - 1]))
    ensures TrimEnd(s, start, end) == r
    decreases end
  {
    if r < end { TrimEndIs(s, start, end - 1, r); }
  }

  predicate Trimmed(s: string) { s == [] || (!IsSpace(s[0]) && !IsSpace(s[|s| - 1])) }

  // --------------------------------------------------------------------- search

  /** memchr: the first c from i on, or end. */
  function Find(s: string, c: char, i: nat, end: nat): (r: nat)
    requires i <= end <= |s|
    ensures i <= r <= end
    decreases end - i
  {
    if i < end && s[i] != c then Find(s, c, i + 1, end) else i
  }

  lemma {:induction false} FindIs(s: string, c: char, i: nat, end: nat, r: nat)
    requires i <= r <= end <= |s| && (forall k :: i <= k < r ==> s[k] != c) && (r < end ==> s[r] == c)
    ensures Find(s, c, i, end) == r
    decreases r - i
  {
    if i < r { FindIs(s, c, i + 1, end, r); }
  }

  method FindFrom(s: string, c: char, i: nat, end: nat) returns (r: nat)
    requires i <= end <= |s|
    ensures r == Find(s, c, i, end)
  {
    r := i;
    while r < end && s[r] != c
      invariant i <= r <= end && Find(s, c, i, end) == Find(s, c, r, end)
    {
      r := r + 1;
    }
  }

  predicate Free(s: string, c: char) { forall i :: 0 <= i < |s| ==> s[i] != c }
}
