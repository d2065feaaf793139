/** Decimal renderings: what `String(n)` and `padStart` produce, and why they can be
    compared and told apart. */
module Decimal {

  function Digit(d: nat): char
    requires d < 10
  {
    "0123456789"[d]
  }

  function Show(n: nat): string {
    if n < 10 then [Digit(n)] else Show(n / 10) + [Digit(n % 10)]
  }

  predicate IsDigit(c: char) {
    '0' <= c <= '9'
  }

  function Zeros(n: nat): string {
    if n == 0 then "" else Zeros(n - 1) + "0"
  }

  function PadStart(s: string, width: nat): string {
    if |s| >= width then s else Zeros(width - |s|) + s
  }

  function Pow10(w: nat): nat {
    if w == 0 then 1 else 10 * Pow10(w - 1)
  }

  /** The `w` lowest digits, leading zeros included. */
  function Fixed(w: nat, n: nat): string {
    if w == 0 then "" else Fixed(w - 1, n / 10) + [Digit(n % 10)]
  }

  lemma {:induction false} FixedLength(w: nat, n: nat)
    ensures |Fixed(w, n)| == w
  {
    if w > 0 {
      FixedLength(w - 1, n / 10);
    }
  }

  lemma {:induction false} FixedOfZero(w: nat)
    ensures Fixed(w, 0) == Zeros(w)
  {
    if w > 0 {
      FixedOfZero(w - 1);
    }
  }

  lemma {:induction false} ShowLength(w: nat, n: nat)
    requires w >= 1 && n < Pow10(w)
    ensures |Show(n)| <= w
  {
    if n >= 10 {
      assert Pow10(1) == 10 * Pow10(0);
      ShowLength(w - 1, n / 10);
    }
  }

  /** Padding a number that fits its width shows exactly its `w` digits. */
  lemma {:induction false} PadIsFixed(w: nat, n: nat)
    requires w >= 1 && n < Pow10(w)
    ensures PadStart(Show(n), w) == Fixed(w, n)
  {
    ShowLength(w, n);
    if n < 10 {
      FixedOfZero(w - 1);
      assert n / 10 == 0 && Fixed(w, n) == Fixed(w - 1, n / 10) + [Digit(n)];
    } else {
      assert Pow10(1) == 10 * Pow10(0);
      PadIsFixed(w - 1, n / 10);
      ShowLength(w - 1, n / 10);
      assert Show(n) == Show(n / 10) + [Digit(n % 10)];
      assert Fixed(w, n) == Fixed(w - 1, n / 10) + [Digit(n % 10)];
      if |Show(n)| < w {
        assert PadStart(Show(n), w) == Zeros(w - |Show(n)|) + Show(n) == (Zeros(w - |Show(n)|) + Show(n / 10)) + [Digit(n % 10)];
      }
    }
  }

  lemma {:induction false} ShowIsDigits(n: nat)
    ensures Show(n) != [] && forall i :: 0 <= i < |Show(n)| ==> IsDigit(Show(n)[i])
  {
    if n >= 10 {
      ShowIsDigits(n / 10);
    }
  }

  lemma {:induction false} ShowInjective(a: nat, b: nat)
    requires Show(a) == Show(b)
    ensures a == b
  {
    ShowIsDigits(a / 10);
    ShowIsDigits(b / 10);
    assert Show(a)[|Show(a)| - 1] == Digit(a % 10) && Show(b)[|Show(b)| - 1] == Digit(b % 10);
    DigitInjective(a % 10, b % 10);
    if a >= 10 && b >= 10 {
      assert Show(a)[..|Show(a)| - 1] == Show(a / 10) && Show(b)[..|Show(b)| - 1] == Show(b / 10);
      ShowInjective(a / 10, b / 10);
    }
  }

  lemma DigitInjective(a: nat, b: nat)
    requires a < 10 && b < 10
    ensures Digit(a) == Digit(b) <==> a == b
    ensures Digit(a) < Digit(b) <==> a < b
  {
  }

  /** How many digits a text begins with. */
  function LeadingDigits(s: string): nat {
    if s == [] || !IsDigit(s[0]) then 0 else 1 + LeadingDigits(s[1..])
  }

  lemma {:induction false} LeadingDigitsOf(d: string, u: string)
    requires forall i :: 0 <= i < |d| ==> IsDigit(d[i])
    requires u == [] || !IsDigit(u[0])
    ensures LeadingDigits(d + u) == |d|
  {
    if d == [] {
      assert d + u == u;
    } else {
      assert (d + u)[1..] == d[1..] + u;
      LeadingDigitsOf(d[1..], u);
    }
  }

  /** A number followed by a non-digit (or nothing) can be read back. */
  lemma ShowSplits(a: nat, u: string, b: nat, v: string)
    requires Show(a) + u == Show(b) + v
    requires u == [] || !IsDigit(u[0])
    requires v == [] || !IsDigit(v[0])
    ensures a == b && u == v
  {
    ShowIsDigits(a);
    ShowIsDigits(b);
    LeadingDigitsOf(Show(a), u);
    LeadingDigitsOf(Show(b), v);
    var n := |Show(a)|;
    assert (Show(a) + u)[..n] == Show(a) && (Show(b) + v)[..n] == Show(b);
    assert (Show(a) + u)[n..] == u && (Show(b) + v)[n..] == v;
    ShowInjective(a, b);
  }

  /** The number a rendering stands for. */
  function Value(digits: string): nat
    requires forall i :: 0 <= i < |digits| ==> IsDigit(digits[i])
  {
    if digits == "" then 0
    else
      var last := digits[|digits| - 1];
      assert IsDigit(last);
      10 * Value(digits[..|digits| - 1]) + (last as int - '0' as int)
  }

  lemma {:induction false} ShowReadsBack(n: nat)
    ensures forall i :: 0 <= i < |Show(n)| ==> IsDigit(Show(n)[i])
    ensures Value(Show(n)) == n
  {
    ShowIsDigits(n);
    if n >= 10 {
      ShowReadsBack(n / 10);
      assert Show(n)[..|Show(n)| - 1] == Show(n / 10);
    } else {
      assert Show(n)[..0] == "";
    }
  }
}
