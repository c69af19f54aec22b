/** Text as keys: code-point order, decimal numerals, zero padding, fields joined by ':'. */
module TextOrder {

  /** Code-point order of texts, as the table's sort keys and Python's string comparison use it. */
  predicate Less(a: string, b: string) {
    b != [] && (a == [] || a[0] < b[0] || (a[0] == b[0] && Less(a[1..], b[1..])))
  }

  lemma {:induction false} LessIrreflexive(a: string)
    ensures !Less(a, a)
  {
    if a != [] { LessIrreflexive(a[1..]); }
  }

  lemma {:induction false} LessTransitive(a: string, b: string, c: string)
    requires Less(a, b) && Less(b, c)
    ensures Less(a, c)
  {
    if a != [] && a[0] == b[0] == c[0] { LessTransitive(a[1..], b[1..], c[1..]); }
  }

  lemma {:induction false} LessTotal(a: string, b: string)
    ensures Less(a, b) || a == b || Less(b, a)
  {
    if a != [] && b != [] && a[0] == b[0] {
      LessTotal(a[1..], b[1..]);
      assert a == [a[0]] + a[1..] && b == [b[0]] + b[1..];
    }
  }

  /** Among texts of one length the last character decides only ties. */
  lemma {:induction false} LessSnoc(a: string, x: char, b: string, y: char)
    requires |a| == |b|
    ensures Less(a + [x], b + [y]) <==> Less(a, b) || (a == b && x < y)
  {
    if a != [] {
      assert (a + [x])[1..] == a[1..] + [x] && (b + [y])[1..] == b[1..] + [y];
      LessSnoc(a[1..], x, b[1..], y);
      assert a == [a[0]] + a[1..] && b == [b[0]] + b[1..];
    } else {
      assert (a + [x])[1..] == [] && (b + [y])[1..] == [];
    }
  }

  // Decimal numerals

  function Digit(d: nat): char requires d < 10 { "0123456789"[d] }

  predicate IsDigit(c: char) { '0' <= c <= '9' }

  lemma DigitsDiffer(d: nat, e: nat)
    requires d < 10 && e < 10
    ensures Digit(d) < Digit(e) <==> d < e
    ensures Digit(d) == Digit(e) <==> d == e
    ensures IsDigit(Digit(d))
  {
  }

  function Digits(n: nat): (s: string)
    ensures |s| > 0
  {
    if n < 10 then [Digit(n)] else Digits(n / 10) + [Digit(n % 10)]
  }

  lemma {:induction false} DigitsAreDigits(n: nat)
    ensures forall c <- Digits(n) :: IsDigit(c)
  {
    if n >= 10 { DigitsAreDigits(n / 10); }
  }

  lemma {:induction false} DigitsInjective(m: nat, n: nat)
    requires Digits(m) == Digits(n)
    ensures m == n
    decreases m + n
  {
    var a, b := Digits(m), Digits(n);
    assert a[|a| - 1] == Digit(m % 10) && b[|b| - 1] == Digit(n % 10);
    DigitsDiffer(m % 10, n % 10);
    assert |a| == if m < 10 then 1 else |Digits(m / 10)| + 1;
    assert |b| == if n < 10 then 1 else |Digits(n / 10)| + 1;
    if m >= 10 && n >= 10 {
      assert a[..|a| - 1] == Digits(m / 10) && b[..|b| - 1] == Digits(n / 10);
      DigitsInjective(m / 10, n / 10);
    }
  }

  function Pow10(w: nat): (p: nat)
    ensures p > 0
  {
    if w == 0 then 1 else 10 * Pow10(w - 1)
  }

  /** Exactly w digits, leading zeros included. */
  function Fixed(w: nat, n: nat): (s: string)
    ensures |s| == w
  {
    if w == 0 then "" else Fixed(w - 1, n / 10) + [Digit(n % 10)]
  }

  /** Equal-width numerals sort as their numbers do. */
  lemma {:induction false} FixedOrder(w: nat, m: nat, n: nat)
    requires m < Pow10(w) && n < Pow10(w)
    ensures Less(Fixed(w, m), Fixed(w, n)) <==> m < n
    ensures Fixed(w, m) == Fixed(w, n) <==> m == n
  {
    if w > 0 {
      FixedOrder(w - 1, m / 10, n / 10);
      var a, b := Fixed(w - 1, m / 10), Fixed(w - 1, n / 10);
      LessSnoc(a, Digit(m % 10), b, Digit(n % 10));
      DigitsDiffer(m % 10, n % 10);
      if Fixed(w, m) == Fixed(w, n) {
        assert Fixed(w, m)[..w - 1] == a && Fixed(w, n)[..w - 1] == b;
        assert Fixed(w, m)[w - 1] == Digit(m % 10) && Fixed(w, n)[w - 1] == Digit(n % 10);
      }
    }
  }

  function Zeros(k: nat): (s: string)
    ensures |s| == k
  {
    if k == 0 then "" else Zeros(k - 1) + "0"
  }

  /** Zero padding to a minimum width, as the format code 0<w>d does it. */
  function Padded(w: nat, n: nat): string {
    var d := Digits(n);
    if |d| < w then Zeros(w - |d|) + d else d
  }

  lemma {:induction false} ZerosFront(k: nat)
    ensures "0" + Zeros(k) == Zeros(k) + "0"
  {
    if k > 0 { ZerosFront(k - 1); }
  }

  lemma {:induction false} FixedZero(w: nat)
    ensures Fixed(w, 0) == Zeros(w)
  {
    if w > 0 { FixedZero(w - 1); }
  }

  /** Below 10^w padding gives exactly w digits. */
  lemma {:induction false} PaddedIsFixed(w: nat, n: nat)
    requires w > 0 && n < Pow10(w)
    ensures |Digits(n)| <= w && Padded(w, n) == Fixed(w, n)
  {
    if n < 10 {
      FixedZero(w - 1);
      assert n / 10 == 0 && n % 10 == n;
    } else {
      assert w > 1 by { assert Pow10(1) == 10 * Pow10(0); }
      PaddedIsFixed(w - 1, n / 10);
      var d := Digits(n / 10);
      assert Zeros(w - 1 - |d|) + (d + [Digit(n % 10)]) == (Zeros(w - 1 - |d|) + d) + [Digit(n % 10)];
    }
  }

  lemma {:induction false} DigitsOfPower(w: nat)
    ensures Digits(Pow10(w)) == "1" + Zeros(w)
  {
    if w > 0 {
      DigitsOfPower(w - 1);
      assert Pow10(w) / 10 == Pow10(w - 1) && Pow10(w) % 10 == 0;
      assert Digits(Pow10(w)) == ("1" + Zeros(w - 1)) + "0";
    }
  }

  lemma {:induction false} FixedNines(w: nat)
    requires w > 0
    ensures Fixed(w, Pow10(w) - 1)[0] == '9'
  {
    var n := Pow10(w) - 1;
    if w == 1 {
      assert n == 9;
      assert Fixed(1, 9) == Fixed(0, 0) + "9";
    } else {
      assert n / 10 == Pow10(w - 1) - 1;
      FixedNines(w - 1);
      assert Fixed(w, n) == Fixed(w - 1, n / 10) + [Digit(n % 10)];
    }
  }

  /** The padded width is exactly what text order survives: it agrees with numeric order up to N if and only if N < 10^w. */
  lemma PaddedOrderExact(w: nat, bound: nat)
    requires w > 0
    ensures (forall m: nat, n: nat :: m <= bound && n <= bound ==> (Less(Padded(w, m), Padded(w, n)) <==> m < n))
       <==> bound < Pow10(w)
  {
    if bound < Pow10(w) {
      forall m: nat, n: nat | m <= bound && n <= bound ensures Less(Padded(w, m), Padded(w, n)) <==> m < n {
        PaddedIsFixed(w, m);
        PaddedIsFixed(w, n);
        FixedOrder(w, m, n);
      }
    } else {
      var m, n := Pow10(w) - 1, Pow10(w);
      PaddedIsFixed(w, m);
      FixedNines(w);
      DigitsOfPower(w);
      assert Padded(w, n) == Digits(n) && Padded(w, n)[0] == '1' && Padded(w, m)[0] == '9';
      assert !Less(Padded(w, m), Padded(w, n)) && m < n;
    }
  }

  // Fields

  predicate Free(s: string, c: char) { c !in s }

  /** Splitting at the last separator is unambiguous when the last fields have none. */
  lemma LastField(a: string, b: string, a': string, b': string, sep: char)
    requires a + [sep] + b == a' + [sep] + b' && Free(b, sep) && Free(b', sep)
    ensures a == a' && b == b'
  {
    var t, t' := a + [sep] + b, a' + [sep] + b';
    assert forall i :: |a| < i < |t| ==> t[i] == b[i - |a| - 1];
    assert forall i :: |a'| < i < |t'| ==> t'[i] == b'[i - |a'| - 1];
    assert t[|a|] == sep && t'[|a'|] == sep;
    assert |a| == |a'|;
    assert t[..|a|] == a && t'[..|a'|] == a';
    assert t[|a| + 1..] == b && t'[|a'| + 1..] == b';
  }

  /** Splitting at the first separator is unambiguous when the first fields have none. */
  lemma FirstField(a: string, b: string, a': string, b': string, sep: char)
    requires a + [sep] + b == a' + [sep] + b' && Free(a, sep) && Free(a', sep)
    ensures a == a' && b == b'
  {
    var t, t' := a + [sep] + b, a' + [sep] + b';
    assert forall i :: 0 <= i < |a| ==> t[i] == a[i];
    assert forall i :: 0 <= i < |a'| ==> t'[i] == a'[i];
    assert t[|a|] == sep && t'[|a'|] == sep;
    assert |a| == |a'|;
    assert t[..|a|] == a && t'[..|a'|] == a';
    assert t[|a| + 1..] == b && t'[|a'| + 1..] == b';
  }
}
