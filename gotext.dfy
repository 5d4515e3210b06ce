/** The pieces of Go's `strings` and `strconv` packages that the core relies
    on when it turns numbers into text and back: `strings.TrimSpace`,
    `strconv.Itoa` (also what `fmt`'s `%d` prints) and `strconv.Atoi`. */
module GoText {

  const MaxInt64: int := 0x7FFF_FFFF_FFFF_FFFF
  const MinInt64: int := -0x8000_0000_0000_0000

  /** Go's `unicode.IsSpace`: the Unicode White_Space property. */
  predicate IsSpace(c: char)
  {
    var k := c as int;
    (9 <= k <= 13) || k == 0x20 || k == 0x85 || k == 0xA0 || k == 0x1680
    || (0x2000 <= k <= 0x200A) || k == 0x2028 || k == 0x2029 || k == 0x202F
    || k == 0x205F || k == 0x3000
  }

  predicate AllSpace(s: string)
  {
    forall i | 0 <= i < |s| :: IsSpace(s[i])
  }

  function TrimLeft(s: string): (r: string)
    ensures |r| <= |s| && r == s[|s| - |r|..]
    ensures AllSpace(s[..|s| - |r|])
    ensures r == [] || !IsSpace(r[0])
  {
    if s != [] && IsSpace(s[0]) then
      var r := TrimLeft(s[1..]);
      assert s[..|s| - |r|] == [s[0]] + s[1..][..|s| - 1 - |r|];
      r
    else s
  }

  function TrimRight(s: string): (r: string)
    ensures |r| <= |s| && r == s[..|r|]
    ensures AllSpace(s[|r|..])
    ensures r == [] || !IsSpace(r[|r| - 1])
  {
    if s != [] && IsSpace(s[|s| - 1]) then
      var r := TrimRight(s[..|s| - 1]);
      assert s[|r|..] == s[..|s| - 1][|r|..] + [s[|s| - 1]];
      r
    else s
  }

  /** Go's `strings.TrimSpace`: drops leading and trailing white space. */
  function TrimSpace(s: string): (r: string)
    ensures |r| <= |s|
    ensures r == [] || (!IsSpace(r[0]) && !IsSpace(r[|r| - 1]))
    ensures r == [] <==> AllSpace(s)
  {
    TrimRight(TrimLeft(s))
  }

  /** Text that starts and ends with a non-space character survives
      TrimSpace however much white space surrounds it. */
  lemma {:induction false} TrimSpaceKeeps(pre: string, s: string, post: string)
    requires AllSpace(pre) && AllSpace(post)
    requires s != [] && !IsSpace(s[0]) && !IsSpace(s[|s| - 1])
    ensures TrimSpace(pre + s + post) == s
  {
    TrimLeftDrops(pre, s + post);
    assert pre + s + post == pre + (s + post);
    TrimRightDrops(s, post);
  }

  lemma {:induction false} TrimLeftDrops(pre: string, s: string)
    requires AllSpace(pre)
    requires s != [] && !IsSpace(s[0])
    ensures TrimLeft(pre + s) == s
    decreases |pre|
  {
    if pre != [] {
      assert (pre + s)[0] == pre[0];
      assert (pre + s)[1..] == pre[1..] + s;
      TrimLeftDrops(pre[1..], s);
    } else {
      assert pre + s == s;
    }
  }

  lemma {:induction false} TrimRightDrops(s: string, post: string)
    requires AllSpace(post)
    requires s != [] && !IsSpace(s[|s| - 1])
    ensures TrimRight(s + post) == s
    decreases |post|
  {
    if post != [] {
      var p := post[..|post| - 1];
      assert (s + post)[..|s + post| - 1] == s + p;
      TrimRightDrops(s, p);
    } else {
      assert s + post == s;
    }
  }

  // ---------------------------------------------------------------------
  // Decimal text

  predicate IsDigit(c: char) { '0' <= c <= '9' }

  predicate AllDigits(s: string)
  {
    forall i | 0 <= i < |s| :: IsDigit(s[i])
  }

  function DigitChar(d: nat): (c: char)
    requires d < 10
    ensures IsDigit(c) && (c as int) - ('0' as int) == d
  {
    (d + '0' as int) as char
  }

  /** The decimal digits of `n`, without leading zeros. */
  function NatDigits(n: nat): (s: string)
    ensures s != [] && AllDigits(s)
    ensures |s| > 1 ==> s[0] != '0'
  {
    if n < 10 then [DigitChar(n)] else NatDigits(n / 10) + [DigitChar(n % 10)]
  }

  /** The number a string of decimal digits spells. */
  function DigitsValue(s: string): nat
    requires AllDigits(s)
  {
    if s == [] then 0
    else 10 * DigitsValue(s[..|s| - 1]) + ((s[|s| - 1] as int) - ('0' as int))
  }

  /** Go's `strconv.Itoa(n)`, the same text `fmt` prints for `%d`. */
  function Itoa(n: int): (s: string)
    ensures s != []
    ensures s[0] == '-' <==> n < 0
    ensures AllDigits(if n < 0 then s[1..] else s)
    ensures !IsSpace(s[0]) && !IsSpace(s[|s| - 1])
  {
    if n < 0 then "-" + NatDigits(-n) else NatDigits(n)
  }

  /** The ways `strconv.Atoi` can end. */
  datatype AtoiResult = Parsed(value: int) | SyntaxError | RangeError

  const MaxUint64: int := 0xFFFF_FFFF_FFFF_FFFF

  /** The digits read before the first non-digit already spell a number
      above the unsigned 64-bit range: Go's digit loop stops there with a
      range error before it meets the non-digit. */
  predicate DigitPrefixOverflows(digits: string)
  {
    exists k | 0 <= k <= |digits| :: AllDigits(digits[..k]) && DigitsValue(digits[..k]) > MaxUint64
  }

  /** The text after an optional leading sign. */
  function Unsigned(s: string): (digits: string)
    ensures s != [] && (s[0] == '+' || s[0] == '-') ==> digits == s[1..]
    ensures s == [] || (s[0] != '+' && s[0] != '-') ==> digits == s
  {
    if s != [] && (s[0] == '+' || s[0] == '-') then s[1..] else s
  }

  /** Go's `strconv.Atoi(s)` on a 64-bit platform: an optional sign, then one
      or more decimal digits and nothing else; a value outside the 64-bit
      range is a range error, and so is a run of leading digits too large
      for 64 unsigned bits even when a non-digit follows it. */
  function Atoi(s: string): (r: AtoiResult)
    ensures r.Parsed? ==> MinInt64 <= r.value <= MaxInt64
    ensures r.Parsed? ==> s != [] && !IsSpace(s[0]) && !IsSpace(s[|s| - 1])
    ensures r.Parsed? && r.value < 0 ==> s[0] == '-'
    ensures s == [] ==> r == SyntaxError
    ensures DigitPrefixOverflows(Unsigned(s)) ==> r == RangeError
    ensures !DigitPrefixOverflows(Unsigned(s)) && (Unsigned(s) == [] || !AllDigits(Unsigned(s))) ==> r == SyntaxError
    ensures r.Parsed? ==>
      Unsigned(s) != [] && AllDigits(Unsigned(s)) &&
      r.value == (if s[0] == '-' then -(DigitsValue(Unsigned(s)) as int) else DigitsValue(Unsigned(s)))
    ensures !DigitPrefixOverflows(Unsigned(s)) && Unsigned(s) != [] && AllDigits(Unsigned(s)) ==>
      var v := if s[0] == '-' then -(DigitsValue(Unsigned(s)) as int) else DigitsValue(Unsigned(s));
      r == (if MinInt64 <= v <= MaxInt64 then Parsed(v) else RangeError)
    ensures |s| <= 19 && r == RangeError ==> AllDigits(Unsigned(s))
  {
    var signed := s != [] && (s[0] == '+' || s[0] == '-');
    var digits := Unsigned(s);
    if DigitPrefixOverflows(digits) then
      assert |digits| >= 20 by {
        var k :| 0 <= k <= |digits| && AllDigits(digits[..k]) && DigitsValue(digits[..k]) > MaxUint64;
        DigitsValueBound(digits[..k]);
      }
      RangeError
    else if digits == [] || !AllDigits(digits) then SyntaxError
    else
      var v: int := if signed && s[0] == '-' then -(DigitsValue(digits) as int) else DigitsValue(digits);
      if MinInt64 <= v <= MaxInt64 then Parsed(v) else RangeError
  }

  /** A string of n digits spells a number below 10^n. */
  lemma {:induction false} DigitsValueBound(s: string)
    requires AllDigits(s)
    ensures DigitsValue(s) < Pow10(|s|)
    ensures |s| <= 19 ==> DigitsValue(s) < 10_000_000_000_000_000_000
  {
    if s != [] {
      DigitsValueBound(s[..|s| - 1]);
    }
    if |s| <= 19 {
      Pow10Monotone(|s|, 19);
      assert Pow10(10) == 10_000_000_000 && Pow10(9) == 1_000_000_000;
      Pow10Add(10, 9);
    }
  }

  function Pow10(n: nat): (p: nat)
    ensures p >= 1
  {
    if n == 0 then 1 else 10 * Pow10(n - 1)
  }

  lemma {:induction false} Pow10Add(m: nat, n: nat)
    ensures Pow10(m + n) == Pow10(m) * Pow10(n)
    decreases n
  {
    if n > 0 {
      Pow10Add(m, n - 1);
    }
  }

  lemma {:induction false} Pow10Monotone(m: nat, n: nat)
    requires m <= n
    ensures Pow10(m) <= Pow10(n)
    decreases n
  {
    if m < n {
      Pow10Monotone(m, n - 1);
    }
  }

  /** A prefix of a digit string spells at most what the whole string
      spells. */
  lemma {:induction false} DigitsValuePrefix(s: string, k: nat)
    requires AllDigits(s) && k <= |s|
    ensures AllDigits(s[..k]) && DigitsValue(s[..k]) <= DigitsValue(s)
    decreases |s|
  {
    if k < |s| {
      var init := s[..|s| - 1];
      assert init[..k] == s[..k];
      DigitsValuePrefix(init, k);
    } else {
      assert s[..k] == s;
    }
  }

  /** Text of at most 64-bit magnitude never overflows in its digit
      prefixes. */
  lemma NoDigitPrefixOverflow(digits: string)
    requires AllDigits(digits) && DigitsValue(digits) <= MaxUint64
    ensures !DigitPrefixOverflows(digits)
  {
    forall k | 0 <= k <= |digits|
      ensures !(AllDigits(digits[..k]) && DigitsValue(digits[..k]) > MaxUint64)
    {
      DigitsValuePrefix(digits, k);
    }
  }

  lemma {:induction false} DigitsValueOfNatDigits(n: nat)
    ensures DigitsValue(NatDigits(n)) == n
  {
    if n >= 10 {
      var s := NatDigits(n);
      assert s[..|s| - 1] == NatDigits(n / 10);
      DigitsValueOfNatDigits(n / 10);
    }
  }

  /** Reading back what Itoa wrote gives the same number, for every 64-bit
      integer. */
  lemma AtoiItoa(n: int)
    requires MinInt64 <= n <= MaxInt64
    ensures Atoi(Itoa(n)) == Parsed(n)
  {
    var s := Itoa(n);
    var digits := NatDigits(if n < 0 then -n else n);
    DigitsValueOfNatDigits(if n < 0 then -n else n);
    NoDigitPrefixOverflow(digits);
    if n < 0 {
      assert s[1..] == digits;
    } else {
      assert s == digits;
    }
  }
}
