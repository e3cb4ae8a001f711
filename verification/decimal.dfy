/**
 * Decimal digits and the two conversions between numbers and their decimal
 * spelling that the score extraction relies on: `str(n)` (DecimalString) and
 * `int(ds)` on a string of digits (DecimalValue).
 *
 * Only the ASCII digits '0'..'9' are digits here. Python's `str.isdigit` also
 * accepts other Unicode digit characters; those are not modelled.
 */
module Decimal {

  predicate IsDigit(c: char) {
    '0' <= c <= '9'
  }

  predicate AllDigits(s: string) {
    forall i | 0 <= i < |s| :: IsDigit(s[i])
  }

  /** Some character of `s` is a digit. */
  predicate HasDigit(s: string) {
    exists i | 0 <= i < |s| :: IsDigit(s[i])
  }

  function DigitValue(c: char): (d: nat)
    requires IsDigit(c)
    ensures d < 10
  {
    c as int - '0' as int
  }

  function DigitChar(d: nat): (c: char)
    requires d < 10
    ensures IsDigit(c) && DigitValue(c) == d
  {
    ('0' as int + d) as char
  }

  function Pow10(k: nat): (p: nat)
    ensures p >= 1
  {
    if k == 0 then 1 else 10 * Pow10(k - 1)
  }

  /** A string of `k` zero digits. */
  function Zeros(k: nat): (z: string)
    ensures |z| == k && AllDigits(z)
  {
    seq(k, _ => '0')
  }

  /**
   * The digit filter: the digit characters of `s`, in the order in which
   * they occur, joined into one string.
   */
  function DigitsOf(s: string): (ds: string)
    ensures AllDigits(ds)
    ensures |ds| <= |s|
    ensures ds != [] <==> HasDigit(s)
  {
    if s == [] then []
    else
      assert HasDigit(s) <==> IsDigit(s[0]) || HasDigit(s[1..]) by {
        if HasDigit(s) && !IsDigit(s[0]) {
          var i :| 0 <= i < |s| && IsDigit(s[i]);
          assert s[1..][i - 1] == s[i];
        }
      }
      (if IsDigit(s[0]) then [s[0]] else []) + DigitsOf(s[1..])
  }

  /**
   * `int(ds)` for a non-empty string of digits: the number whose decimal
   * digits, most significant first, are `ds`. `int('')` raises, hence the
   * precondition.
   */
  function DecimalValue(ds: string): (n: nat)
    requires ds != [] && AllDigits(ds)
    ensures n < Pow10(|ds|)
  {
    var last := DigitValue(ds[|ds| - 1]);
    if |ds| == 1 then last
    else
      var high := DecimalValue(ds[..|ds| - 1]);
      assert 10 * high + last < 10 * Pow10(|ds| - 1) by {
        assert high + 1 <= Pow10(|ds| - 1);
      }
      10 * high + last
  }

  /** `str(n)`: the canonical decimal spelling of `n`. */
  function DecimalString(n: nat): (s: string)
    ensures s != [] && AllDigits(s)
    ensures |s| > 1 ==> s[0] != '0'
    ensures s[0] == '0' <==> n == 0
  {
    if n < 10 then [DigitChar(n)]
    else DecimalString(n / 10) + [DigitChar(n % 10)]
  }

  /** `ds` without its leading zeros, keeping at least one digit. */
  function TrimLeadingZeros(ds: string): (t: string)
    requires ds != [] && AllDigits(ds)
    ensures t != [] && AllDigits(t) && |t| <= |ds|
    ensures |t| == 1 || t[0] != '0'
    ensures ds == Zeros(|ds| - |t|) + t
  {
    if |ds| > 1 && ds[0] == '0' then
      var t := TrimLeadingZeros(ds[1..]);
      assert ds == [ds[0]] + ds[1..];
      assert Zeros(|ds| - |t|) == [ds[0]] + Zeros(|ds| - 1 - |t|);
      t
    else
      assert Zeros(0) == [];
      ds
  }

  // ---------------------------------------------------------------------
  // Lemmas

  /** Filtering digits distributes over concatenation. */
  lemma {:induction false} DigitsOfAppend(a: string, b: string)
    ensures DigitsOf(a + b) == DigitsOf(a) + DigitsOf(b)
  {
    if a == [] {
      assert a + b == b;
    } else {
      var head := if IsDigit(a[0]) then [a[0]] else [];
      assert (a + b)[0] == a[0];
      assert (a + b)[1..] == a[1..] + b;
      assert DigitsOf(a + b) == head + DigitsOf(a[1..] + b);
      DigitsOfAppend(a[1..], b);
      assert DigitsOf(a) == head + DigitsOf(a[1..]);
      assert head + (DigitsOf(a[1..]) + DigitsOf(b)) == (head + DigitsOf(a[1..])) + DigitsOf(b);
    }
  }

  /** A string made only of digits is its own digit filter. */
  lemma {:induction false} DigitsOfDigits(s: string)
    requires AllDigits(s)
    ensures DigitsOf(s) == s
  {
    if s != [] {
      DigitsOfDigits(s[1..]);
    }
  }

  /** A string without digits filters to the empty string. */
  lemma {:induction false} DigitsOfNoDigits(s: string)
    requires !HasDigit(s)
    ensures DigitsOf(s) == []
  {
  }

  /** Appending a digit shifts the value one decimal place left. */
  lemma {:induction false} DecimalValueSnoc(s: string, c: char)
    requires s != [] && AllDigits(s) && IsDigit(c)
    ensures DecimalValue(s + [c]) == 10 * DecimalValue(s) + DigitValue(c)
  {
    assert (s + [c])[..|s|] == s;
  }

  /** `int(a + b) == int(a) * 10^|b| + int(b)`. */
  lemma {:induction false} DecimalValueAppend(a: string, b: string)
    requires a != [] && AllDigits(a) && b != [] && AllDigits(b)
    ensures DecimalValue(a + b) == DecimalValue(a) * Pow10(|b|) + DecimalValue(b)
  {
    var c := b[|b| - 1];
    if |b| == 1 {
      assert b == [c];
      DecimalValueSnoc(a, c);
    } else {
      var b' := b[..|b| - 1];
      assert b == b' + [c];
      assert a + b == (a + b') + [c];
      DecimalValueAppend(a, b');
      DecimalValueSnoc(a + b', c);
      DecimalValueSnoc(b', c);
      ShiftLeft(DecimalValue(a), Pow10(|b'|), DecimalValue(b'), DigitValue(c));
    }
  }

  lemma {:induction false} ShiftLeft(x: nat, p: nat, y: nat, d: nat)
    ensures 10 * (x * p + y) + d == x * (10 * p) + (10 * y + d)
  {
  }

  /** A digit string is worth zero exactly when every digit is '0'. */
  lemma {:induction false} DecimalValueZero(ds: string)
    requires ds != [] && AllDigits(ds)
    ensures DecimalValue(ds) == 0 <==> forall i | 0 <= i < |ds| :: ds[i] == '0'
  {
    if |ds| > 1 {
      var init := ds[..|ds| - 1];
      DecimalValueZero(init);
      if DecimalValue(ds) == 0 {
        forall i | 0 <= i < |ds| ensures ds[i] == '0' {
          if i < |ds| - 1 { assert ds[i] == init[i]; }
        }
      }
      if forall i | 0 <= i < |ds| :: ds[i] == '0' {
        assert forall i | 0 <= i < |init| :: init[i] == '0';
      }
    }
  }

  /** Leading zeros do not change the value read by `int`. */
  lemma {:induction false} LeadingZerosIgnored(k: nat, ds: string)
    requires ds != [] && AllDigits(ds)
    ensures DecimalValue(Zeros(k) + ds) == DecimalValue(ds)
  {
    if k > 0 {
      DecimalValueAppend(Zeros(k), ds);
      DecimalValueZero(Zeros(k));
    } else {
      assert Zeros(k) + ds == ds;
    }
  }

  /** `int(str(n)) == n`. */
  lemma {:induction false} DecimalValueOfString(n: nat)
    ensures DecimalValue(DecimalString(n)) == n
  {
    if n >= 10 {
      var s := DecimalString(n);
      assert s[..|s| - 1] == DecimalString(n / 10);
      DecimalValueOfString(n / 10);
    }
  }

  /** `str(int(ds)) == ds` when `ds` has no leading zero. */
  lemma {:induction false} DecimalStringOfValue(ds: string)
    requires ds != [] && AllDigits(ds)
    requires |ds| == 1 || ds[0] != '0'
    ensures DecimalString(DecimalValue(ds)) == ds
  {
    var last := DigitValue(ds[|ds| - 1]);
    if |ds| == 1 {
      assert DigitChar(last) == ds[0];
    } else {
      var init := ds[..|ds| - 1];
      DecimalStringOfValue(init);
      DecimalValueZero(init);
      assert init[0] != '0';
      var v := DecimalValue(ds);
      assert v / 10 == DecimalValue(init) && v % 10 == last;
      assert DigitChar(last) == ds[|ds| - 1];
      assert ds == init + [ds[|ds| - 1]];
    }
  }

  /**
   * The decimal spelling of `int(ds)` is `ds` with its leading zeros removed:
   * the number read has exactly the digits of `ds`, in order.
   */
  lemma {:induction false} DecimalSpelling(ds: string)
    requires ds != [] && AllDigits(ds)
    ensures DecimalString(DecimalValue(ds)) == TrimLeadingZeros(ds)
  {
    var t := TrimLeadingZeros(ds);
    LeadingZerosIgnored(|ds| - |t|, t);
    DecimalStringOfValue(t);
  }
}
