/** Facts about byte counts that are whole numbers of elements (`x % e == 0`). */
module Alignment {

  /** Multiplying by a positive element size keeps the sign apart from zero. */
  lemma ScaledAwayFromZero(e: int, d: int)
    requires e > 0
    ensures d >= 1 ==> e * d >= e
    ensures d <= -1 ==> e * d <= 0 - e
  {
    if d >= 1 {
      assert e * d == e * (d - 1) + e;
      assert e * (d - 1) >= 0;
    } else if d <= -1 {
      assert e * d == e * (d + 1) - e;
      assert e * (d + 1) <= 0;
    }
  }

  lemma MultipleIsAligned(k: nat, e: nat)
    requires e > 0
    ensures (k * e) % e == 0
  {
    var x := k * e;
    var q, r := x / e, x % e;
    assert x == e * q + r;
    var d := k - q;
    assert e * d == r by {
      assert e * d == e * k - e * q;
    }
    ScaledAwayFromZero(e, d);
  }

  lemma AddAligned(a: nat, b: nat, e: nat)
    requires e > 0 && a % e == 0 && b % e == 0
    ensures (a + b) % e == 0
  {
    var i, j := a / e, b / e;
    assert a == e * i;
    assert b == e * j;
    assert a + b == (i + j) * e;
    MultipleIsAligned(i + j, e);
  }

  lemma SubAligned(a: nat, b: nat, e: nat)
    requires e > 0 && a % e == 0 && b % e == 0 && b <= a
    ensures (a - b) % e == 0
  {
    var i, j := a / e, b / e;
    assert a == e * i;
    assert b == e * j;
    assert a - b == e * (i - j);
    ScaledAwayFromZero(e, i - j);
    assert a - b == (i - j) * e;
    MultipleIsAligned(i - j, e);
  }

  /** Rounding down to a whole number of elements gives an aligned count. */
  lemma RoundDownAligned(x: nat, e: nat)
    requires e > 0
    ensures x % e <= x && (x - x % e) % e == 0
  {
    var q := x / e;
    assert x == e * q + x % e;
    assert x - x % e == q * e;
    MultipleIsAligned(q, e);
  }

  /** Between two aligned counts there is either nothing or at least one whole element. */
  lemma AlignedGap(a: nat, b: nat, e: nat)
    requires e > 0 && a % e == 0 && b % e == 0 && a <= b
    ensures a < b <==> b - a >= e
  {
    SubAligned(b, a, e);
    var d := b - a;
    var q := d / e;
    assert d == e * q;
    ScaledAwayFromZero(e, q);
  }
}
