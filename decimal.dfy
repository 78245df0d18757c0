/**
 * Python's `str(n)` and `int(s)` on integers, as the backend uses them to
 * persist its request counter in `data/counter.txt` and to read it back.
 */
module Decimal {
  import opened Wrappers

  predicate IsDigit(c: char) { '0' <= c <= '9' }

  predicate AllDigits(s: string)
  {
    forall i :: 0 <= i < |s| ==> IsDigit(s[i])
  }

  function DigitChar(d: nat): (c: char)
    requires d < 10
    ensures IsDigit(c) && DigitValue(c) == d
  {
    "0123456789"[d]
  }

  function DigitValue(c: char): nat
    requires IsDigit(c)
  {
    (c as int) - ('0' as int)
  }

  /** `str(n)` for a non-negative `n`: decimal digits, most significant first. */
  function ShowNat(n: nat): (s: string)
    ensures |s| > 0 && AllDigits(s)
    decreases n
  {
    if n < 10 then [DigitChar(n)] else ShowNat(n / 10) + [DigitChar(n % 10)]
  }

  /** `str(n)`: a minus sign before the digits of a negative number. */
  function Show(n: int): string
  {
    if n < 0 then "-" + ShowNat(-n) else ShowNat(n)
  }

  /** The ASCII characters that `int()` strips from both ends of its argument. */
  predicate IsSpace(c: char)
  {
    c == ' ' || c == '\t' || c == '\n' || c == '\r' || c == '\U{000B}' || c == '\U{000C}'
  }

  function TrimStart(s: string): string
  {
    if |s| > 0 && IsSpace(s[0]) then TrimStart(s[1..]) else s
  }

  function TrimEnd(s: string): string
  {
    if |s| > 0 && IsSpace(s[|s| - 1]) then TrimEnd(s[..|s| - 1]) else s
  }

  /**
   * The digit part `int()` accepts in base 10: at least one digit, and single
   * underscores allowed only between two digits (`1_000`, not `_1`, `1_` or `1__0`).
   */
  predicate IsDigitGroup(s: string)
  {
    |s| > 0 && IsDigit(s[0]) && IsGroupTail(s[1..])
  }

  /** What may follow a digit inside a digit group. */
  predicate IsGroupTail(s: string)
    decreases |s|
  {
    || s == []
    || (IsDigit(s[0]) && IsGroupTail(s[1..]))
    || (|s| >= 2 && s[0] == '_' && IsDigit(s[1]) && IsGroupTail(s[2..]))
  }

  /** The digits of a digit group, its underscores dropped. */
  function GroupDigits(s: string): (t: string)
    requires IsGroupTail(s)
    ensures AllDigits(t)
    decreases |s|
  {
    if s == [] then []
    else if IsDigit(s[0]) && IsGroupTail(s[1..]) then [s[0]] + GroupDigits(s[1..])
    else s[1..2] + GroupDigits(s[2..])
  }

  /** The number a string of decimal digits denotes. */
  function ValueOf(s: string): nat
    requires AllDigits(s)
  {
    if s == [] then 0 else 10 * ValueOf(s[..|s| - 1]) + DigitValue(s[|s| - 1])
  }

  /**
   * CPython's default cap (`sys.get_int_max_str_digits()`) on the number of
   * digits a base-10 `int()` or `str()` conversion may handle.
   */
  const MaxStrDigits: nat := 4300

  function Abs(n: int): nat
  {
    if n < 0 then -n else n
  }

  /** `str(n)` succeeds: the magnitude has at most `MaxStrDigits` digits. */
  predicate WithinDigitLimit(n: int)
  {
    |ShowNat(Abs(n))| <= MaxStrDigits
  }

  function Pow10(k: nat): (p: nat)
    ensures p >= 1
  {
    if k == 0 then 1 else 10 * Pow10(k - 1)
  }

  /** The first magnitude `str` refuses: ten to the power `MaxStrDigits`. */
  function Limit(): nat
  {
    Pow10(MaxStrDigits)
  }

  /** `int(s)` in base 10: `None` where Python raises `ValueError`. */
  function Parse(s: string): Option<int>
  {
    ParseSigned(TrimEnd(TrimStart(s)))
  }

  /** `int()` after surrounding whitespace is stripped: an optional sign, then a digit group. */
  function ParseSigned(t: string): Option<int>
  {
    if |t| > 0 && (t[0] == '-' || t[0] == '+') then
      var magnitude := ParseGroup(t[1..]);
      if magnitude.None? then None
      else if t[0] == '-' then Some(-magnitude.value)
      else magnitude
    else ParseGroup(t)
  }

  /** A digit group, refused when it has more digits than the cap (leading zeros count). */
  function ParseGroup(s: string): Option<int>
  {
    if IsDigitGroup(s) && |GroupDigits(s)| <= MaxStrDigits then Some(ValueOf(GroupDigits(s))) else None
  }

  lemma {:induction false} ValueOfShowNat(n: nat)
    ensures ValueOf(ShowNat(n)) == n
    decreases n
  {
    if n >= 10 {
      var s := ShowNat(n);
      assert s[..|s| - 1] == ShowNat(n / 10);
      ValueOfShowNat(n / 10);
    }
  }

  /** `str(m)` has at most d digits exactly when m is below ten to the d. */
  lemma {:induction false} ShowNatLength(m: nat, d: nat)
    requires d >= 1
    ensures |ShowNat(m)| <= d <==> m < Pow10(d)
    decreases m
  {
    assert Pow10(d) >= 10 by {
      assert Pow10(d) == 10 * Pow10(d - 1);
    }
    if m >= 10 {
      assert |ShowNat(m)| == |ShowNat(m / 10)| + 1;
      if d > 1 {
        ShowNatLength(m / 10, d - 1);
        assert Pow10(d) == 10 * Pow10(d - 1);
        assert m / 10 < Pow10(d - 1) <==> m < 10 * Pow10(d - 1);
      }
    }
  }

  /** The digit limit is the bound -10^4300 < n < 10^4300. */
  lemma DigitLimitBounds(n: int)
    ensures WithinDigitLimit(n) <==> -(Limit() as int) < n < Limit()
  {
    ShowNatLength(Abs(n), MaxStrDigits);
  }

  /** The numbers within the digit limit form an interval. */
  lemma WithinDigitLimitBetween(a: int, n: int, b: int)
    requires WithinDigitLimit(a) && WithinDigitLimit(b) && a <= n <= b
    ensures WithinDigitLimit(n)
  {
    DigitLimitBounds(a);
    DigitLimitBounds(n);
    DigitLimitBounds(b);
  }

  /** A string of k digits denotes a number below ten to the k. */
  lemma {:induction false} ValueOfBound(s: string)
    requires AllDigits(s)
    ensures ValueOf(s) < Pow10(|s|)
    decreases |s|
  {
    if s != [] {
      var t := s[..|s| - 1];
      assert AllDigits(t) by {
        forall i | 0 <= i < |t| ensures IsDigit(t[i]) {
          assert t[i] == s[i];
        }
      }
      ValueOfBound(t);
      assert ValueOf(s) <= 10 * (Pow10(|t|) - 1) + 9;
    }
  }

  lemma {:induction false} Pow10Monotone(j: nat, k: nat)
    requires j <= k
    ensures Pow10(j) <= Pow10(k)
    decreases k
  {
    if j < k {
      Pow10Monotone(j, k - 1);
    }
  }

  lemma ParseGroupWithinLimit(s: string)
    requires ParseGroup(s).Some?
    ensures WithinDigitLimit(ParseGroup(s).value)
  {
    var g := GroupDigits(s);
    ValueOfBound(g);
    Pow10Monotone(|g|, MaxStrDigits);
    DigitLimitBounds(ValueOf(g));
  }

  /** Whatever `int()` accepts, `str()` can write back. */
  lemma ParseWithinLimit(s: string)
    requires Parse(s).Some?
    ensures WithinDigitLimit(Parse(s).value)
  {
    var t := TrimEnd(TrimStart(s));
    if |t| > 0 && (t[0] == '-' || t[0] == '+') {
      ParseGroupWithinLimit(t[1..]);
      assert ShowNat(Abs(-ParseGroup(t[1..]).value)) == ShowNat(Abs(ParseGroup(t[1..]).value));
    } else {
      ParseGroupWithinLimit(t);
    }
  }

  lemma {:induction false} DigitsAreGroupTail(s: string)
    requires AllDigits(s)
    ensures IsGroupTail(s) && GroupDigits(s) == s
  {
    if s != [] {
      assert AllDigits(s[1..]) by {
        forall i | 0 <= i < |s[1..]| ensures IsDigit(s[1..][i]) {
          assert s[1..][i] == s[i + 1];
        }
      }
      DigitsAreGroupTail(s[1..]);
    }
  }

  lemma ParseGroupOfDigits(s: string)
    requires |s| > 0 && AllDigits(s)
    ensures ParseGroup(s) == if |s| <= MaxStrDigits then Some(ValueOf(s)) else None
  {
    DigitsAreGroupTail(s);
    assert GroupDigits(s) == [s[0]] + GroupDigits(s[1..]);
  }

  lemma ParseGroupShowNat(m: nat)
    ensures ParseGroup(ShowNat(m)) == if |ShowNat(m)| <= MaxStrDigits then Some(m) else None
  {
    ValueOfShowNat(m);
    ParseGroupOfDigits(ShowNat(m));
  }

  lemma ParseSignedNegative(digits: string)
    requires |digits| > 0
    ensures ParseSigned("-" + digits) == if ParseGroup(digits).Some? then Some(-ParseGroup(digits).value) else None
  {
    assert ("-" + digits)[1..] == digits;
  }

  lemma TrimShow(n: int)
    ensures TrimEnd(TrimStart(Show(n))) == Show(n)
  {
  }

  /**
   * Reading back what `str` wrote gives the same number, negative ones
   * included, as long as it is within the digit limit; beyond the limit
   * `int()` refuses it.
   */
  lemma ParseShow(n: int)
    ensures Parse(Show(n)) == if WithinDigitLimit(n) then Some(n) else None
  {
    TrimShow(n);
    if n < 0 {
      ParseGroupShowNat(-n);
      ParseSignedNegative(ShowNat(-n));
    } else {
      ParseGroupShowNat(n);
    }
  }

  /** Distinct numbers have distinct decimal spellings. */
  lemma ShowInjective(m: int, n: int)
    requires Show(m) == Show(n)
    ensures m == n
  {
    var s := Show(m);
    assert (m < 0) == (s[0] == '-') by {
      if m >= 0 {
        assert s == ShowNat(m) && IsDigit(s[0]);
      }
    }
    assert (n < 0) == (s[0] == '-') by {
      if n >= 0 {
        assert s == ShowNat(n) && IsDigit(s[0]);
      }
    }
    if m < 0 {
      assert ShowNat(-m) == s[1..] == ShowNat(-n);
    }
    ValueOfShowNat(Abs(m));
    ValueOfShowNat(Abs(n));
  }
}
