/**
 Full-zone k-point meshes (backend/calculations/hse_band_kpoints.py), over exact
 reals: the points of a mesh, their integer keys, the search for the grid that
 contains given points, and the replacement of the weighted points.
 */
module KpointMesh {
  import opened Wrappers

  datatype Point = Point(x: real, y: real, z: real)
  datatype Key = Key(x: int, y: int, z: int)

  const TOLERANCE := 0.000001
  const SCALE := 1_000_000

  // ------------------------------------------------------------- arithmetic

  // Python's round: to the nearest integer, ties to the even one.
  function Round(x: real): int {
    var f := x.Floor;
    if x - f as real < 0.5 then f
    else if x - f as real > 0.5 then f + 1
    else if f % 2 == 0 then f else f + 1
  }

  function Fold(x: real): real {
    var folded := x - Round(x) as real;
    if folded <= -0.5 + TOLERANCE then folded + 1.0 else folded
  }

  // The fractional part, as Python's `% 1.0` gives it.
  function Frac(x: real): real { x - x.Floor as real }

  function AxisKey(x: real): int {
    Round(Frac(Fold(x)) * SCALE as real) % SCALE
  }

  function PointKey(p: Point): Key {
    Key(AxisKey(p.x), AxisKey(p.y), AxisKey(p.z))
  }

  // An offset of a grid axis: on the origin, or half a spacing away.
  datatype Shift = Centred | Half

  function Amount(s: Shift): real { if s.Half? then 0.5 else 0.0 }

  function AxisPoint(n: nat, s: Shift, i: nat): real
    requires n > 0
  {
    Fold((i as real + Amount(s)) / n as real)
  }

  // Rounding gives k exactly when k is nearer than any other, or is the even one of two
  // equally near.
  lemma RoundsToExactly(x: real, k: int)
    ensures Round(x) == k <==>
      -0.5 < x - k as real < 0.5 || ((x - k as real == 0.5 || x - k as real == -0.5) && k % 2 == 0)
  {
  }

  lemma RoundBounds(x: real)
    ensures -0.5 <= x - Round(x) as real <= 0.5
  {
  }

  lemma RoundInteger(k: int)
    ensures Round(k as real) == k
  {
  }

  // The whole number by which folding moves a coordinate.
  function Turns(x: real): int {
    if x - Round(x) as real <= -0.5 + TOLERANCE then 1 - Round(x) else -Round(x)
  }

  // Folding moves a coordinate by a whole number into a half-open unit interval
  // whose ends lie a millionth above -1/2 and 1/2.
  lemma FoldRange(x: real)
    ensures -0.5 + TOLERANCE < Fold(x) <= 0.5 + TOLERANCE
    ensures Fold(x) == x + Turns(x) as real
  {
    RoundBounds(x);
  }

  predicate InDocumentedRange(folded: real) { -0.5 < folded <= 0.5 }

  // The documented interval (-0.5, 0.5] is met exactly when the fractional part is not in
  // the millionth above one half.
  lemma DocumentedRangeExactly(x: real)
    ensures InDocumentedRange(Fold(x)) <==> !(0.5 < Frac(x) <= 0.5 + TOLERANCE)
  {
    FoldRange(x);
    SameFrac(x, Turns(x));
    assert Frac(Fold(x)) == Frac(x);
    assert Fold(x).Floor == 0 || Fold(x).Floor == -1;
  }

  // A coordinate half a millionth above one half stays where it is.
  lemma FoldLeavesTheDocumentedRange()
    ensures Fold(0.5000005) == 0.5000005 && !InDocumentedRange(Fold(0.5000005))
  {
    FoldRange(0.5000005);
    assert Round(0.5000005) == 1;
  }

  lemma SameFrac(x: real, m: int)
    ensures Frac(x + m as real) == Frac(x)
  {
    assert (x + m as real).Floor == x.Floor + m;
  }

  // Folding changes no key, so keys of raw and of folded coordinates agree.
  lemma KeyOfFolded(x: real)
    ensures Frac(Fold(x)) == Frac(x)
    ensures AxisKey(Fold(x)) == AxisKey(x) == Round(Frac(x) * SCALE as real) % SCALE
  {
    FoldRange(x);
    SameFrac(x, Turns(x));
    FoldRange(Fold(x));
    SameFrac(Fold(x), Turns(Fold(x)));
  }

  // ---------------------------------------------------------------- one axis

  // Twice the index of a point on its axis, counted in half spacings.
  function Place(s: Shift, i: nat): nat { 2 * i + if s.Half? then 1 else 0 }

  // Where place k of an axis with n divisions lies, in millionths.
  function Position(n: nat, k: nat): real
    requires n > 0
  {
    k as real * (SCALE as real / (2 * n) as real)
  }

  lemma Rescaled(x: real, n: real, t: real, s: real, q: real)
    requires x * n == t && q * (2.0 * n) == s
    ensures x * s == 2.0 * t * q
  {
    calc {
      x * s;
      x * (q * (2.0 * n));
      x * n * (2.0 * q);
      t * (2.0 * q);
      2.0 * t * q;
    }
  }

  lemma Quotient(t: real, n: real)
    requires 0.0 < n
    ensures t / n * n == t
    ensures 0.0 <= t < n ==> 0.0 <= t / n < 1.0
  {
  }

  lemma AxisFraction(n: nat, s: Shift, i: nat)
    requires i < n
    ensures var x := (i as real + Amount(s)) / n as real;
      0.0 <= x < 1.0 && x * SCALE as real == Position(n, Place(s, i))
  {
    var t, d := i as real + Amount(s), n as real;
    Quotient(t, d);
    var q := SCALE as real / (2 * n) as real;
    Quotient(SCALE as real, (2 * n) as real);
    assert (2 * n) as real == 2.0 * d;
    Rescaled(t / d, d, t, SCALE as real, q);
    assert Place(s, i) as real == 2.0 * t;
  }

  lemma AxisPointKey(n: nat, s: Shift, i: nat)
    requires i < n
    ensures AxisKey(AxisPoint(n, s, i)) == Round(Position(n, Place(s, i))) % SCALE
  {
    var x := (i as real + Amount(s)) / n as real;
    AxisFraction(n, s, i);
    KeyOfFolded(x);
    assert x.Floor == 0;
    assert Frac(x) == x;
  }

  // Where a place lies, as a part of the axis.
  lemma PlaceFraction(n: nat, s: Shift, i: nat)
    requires i < n
    ensures var x := (i as real + Amount(s)) / n as real;
      && 0.0 <= x < 1.0 && x * (2 * n) as real == Place(s, i) as real
      && (InDocumentedRange(AxisPoint(n, s, i)) <==> !(0.5 < x <= 0.5 + TOLERANCE))
  {
    var t, d := i as real + Amount(s), n as real;
    var x := t / d;
    Quotient(t, d);
    DocumentedRangeExactly(x);
    assert x.Floor == 0 && Frac(x) == x;
    assert x * (2 * n) as real == 2.0 * (x * d);
  }

  lemma BeyondHalf(n: nat, k: nat, x: real)
    requires 0 < n && n + 1 <= k && x * (2 * n) as real == k as real
    ensures n < 500_000 ==> x > 0.5 + TOLERANCE
    ensures n >= 500_000 && k == n + 1 ==> 0.5 < x <= 0.5 + TOLERANCE
  {
    var w := (2 * n) as real;
    if n < 500_000 {
      assert (x - 0.5) * w == (k - n) as real;
      assert TOLERANCE * w < 1.0;
      if x <= 0.5 + TOLERANCE { TimesNonNegative(0.5 + TOLERANCE - x, w); }
    } else if k == n + 1 {
      assert (x - 0.5) * w == 1.0;
      assert TOLERANCE * w >= 1.0;
      if x <= 0.5 { TimesNonNegative(0.5 - x, w); }
      if x > 0.5 + TOLERANCE { TimesNonNegative(x - 0.5 - TOLERANCE, w); }
    }
  }

  lemma TimesNonNegative(a: real, b: real)
    requires a >= 0.0 && b >= 0.0
    ensures a * b >= 0.0
    ensures a > 0.0 && b > 0.0 ==> a * b > 0.0
  {
  }

  lemma NotBeyondHalf(n: nat, k: nat, x: real)
    requires 0 < n && k <= n && x * (2 * n) as real == k as real
    ensures x <= 0.5
  {
    if x > 0.5 { TimesNonNegative(x - 0.5, (2 * n) as real); }
  }

  // Every point of an axis, centred or shifted, is folded into the documented interval
  // exactly when the axis has fewer than half a million divisions.
  lemma AxisInDocumentedRangeExactly(n: nat)
    requires n > 0
    ensures (forall s, i: nat :: i < n ==> InDocumentedRange(AxisPoint(n, s, i))) <==> n < 500_000
  {
    if n < 500_000 {
      forall s, i: nat | i < n ensures InDocumentedRange(AxisPoint(n, s, i)) {
        PlaceFraction(n, s, i);
        var x := (i as real + Amount(s)) / n as real;
        if Place(s, i) <= n { NotBeyondHalf(n, Place(s, i), x); } else { BeyondHalf(n, Place(s, i), x); }
      }
    } else {
      var s, i := PlaceJustBeyondHalf(n);
      assert !InDocumentedRange(AxisPoint(n, s, i));
    }
  }

  // The place next to the middle of a long axis is folded out of the documented interval.
  lemma PlaceJustBeyondHalf(n: nat) returns (s: Shift, i: nat)
    requires n >= 500_000
    ensures i < n && !InDocumentedRange(AxisPoint(n, s, i))
  {
    s, i := if n % 2 == 1 then Centred else Half, if n % 2 == 1 then (n + 1) / 2 else n / 2;
    assert Place(s, i) == n + 1;
    PlaceFraction(n, s, i);
    BeyondHalf(n, n + 1, (i as real + Amount(s)) / n as real);
  }

  // ------------------------------------------------- when positions collide

  function Gap(n: nat): real
    requires n > 0
  {
    SCALE as real / (2 * n) as real
  }

  lemma GapBounds(n: nat)
    requires n > 0
    ensures Gap(n) > 0.0 && Position(n, 2 * n) == SCALE as real
    ensures 2 * n < SCALE ==> Gap(n) > 1.0
    ensures 2 * n == SCALE ==> Gap(n) == 1.0
    ensures 2 * n > SCALE ==> Gap(n) < 1.0
    ensures n < SCALE ==> Gap(n) > 0.5
  {
    Quotient(SCALE as real, (2 * n) as real);
  }

  lemma PositionSteps(n: nat, j: nat, k: nat)
    requires n > 0 && j <= k
    ensures Position(n, k) == Position(n, j) + (k - j) as real * Gap(n)
    ensures Position(n, j + 1) == Position(n, j) + Gap(n)
    ensures Position(n, 0) == 0.0
  {
  }

  lemma Multiple(m: nat, g: real)
    requires 0.0 <= g
    ensures m >= 1 ==> m as real * g >= g
    ensures m >= 2 ==> m as real * g >= 2.0 * g
    ensures m as real * g >= 0.0
  {
    if m >= 1 { assert (m - 1) as real * g >= 0.0; }
    if m >= 2 { assert (m - 2) as real * g >= 0.0; }
  }

  lemma RoundMonotone(x: real, y: real)
    requires x <= y
    ensures Round(x) <= Round(y)
    ensures y > x + 1.0 ==> Round(x) < Round(y)
    ensures y <= x + 1.0 ==> Round(y) <= Round(x) + 2
  {
  }

  lemma Between(k: nat, m: nat, g: real, total: real)
    requires k < m && 0.0 <= g && m as real * g == total
    ensures 0.0 <= k as real * g <= total - g
  {
    Multiple(k, g);
    Multiple(m - k, g);
    assert m as real == k as real + (m - k) as real;
  }

  lemma PositionBounds(n: nat, k: nat)
    requires 0 < n && k < 2 * n
    ensures 0.0 <= Position(n, k) <= SCALE as real - Gap(n)
  {
    GapBounds(n);
    Between(k, 2 * n, Gap(n), SCALE as real);
  }

  lemma RoundsBelow(x: real)
    requires 0.0 <= x < SCALE as real - 0.5
    ensures 0 <= Round(x) < SCALE
  {
  }

  // No place lies so near the end of the axis that its key wraps to zero.
  lemma PositionRounds(n: nat, k: nat)
    requires 0 < n < SCALE && k < 2 * n
    ensures 0 <= Round(Position(n, k)) < SCALE
  {
    GapBounds(n);
    PositionBounds(n, k);
    RoundsBelow(Position(n, k));
  }

  lemma SmallModulus(a: int, b: int)
    requires 0 <= a < SCALE && 0 <= b < SCALE && a != b
    ensures a % SCALE != b % SCALE
  {
  }

  // Places two apart never round alike while an axis has fewer than a million divisions.
  lemma AlternatePlacesDistinct(n: nat, a: nat, b: nat)
    requires 0 < n < SCALE && a + 2 <= b
    ensures Round(Position(n, a)) < Round(Position(n, b))
  {
    GapBounds(n);
    PositionSteps(n, a, b);
    Multiple(b - a, Gap(n));
    RoundMonotone(Position(n, a), Position(n, b));
  }

  // Points of one axis have different keys while it has fewer than a million divisions.
  lemma SameShiftDistinct(n: nat, s: Shift, i: nat, j: nat)
    requires 0 < n < SCALE && i < j < n
    ensures AxisKey(AxisPoint(n, s, i)) != AxisKey(AxisPoint(n, s, j))
  {
    var a, b := Place(s, i), Place(s, j);
    AxisPointKey(n, s, i);
    AxisPointKey(n, s, j);
    PositionRounds(n, a);
    PositionRounds(n, b);
    AlternatePlacesDistinct(n, a, b);
    SmallModulus(Round(Position(n, a)), Round(Position(n, b)));
  }

  // Centred and shifted points of one axis never share a key while it has at
  // most half a million divisions.
  lemma ShiftsDistinct(n: nat, i: nat, j: nat)
    requires 0 < n && 2 * n <= SCALE && i < n && j < n
    ensures AxisKey(AxisPoint(n, Centred, i)) != AxisKey(AxisPoint(n, Half, j))
  {
    var a, b := Place(Centred, i), Place(Half, j);
    AxisPointKey(n, Centred, i);
    AxisPointKey(n, Half, j);
    PositionRounds(n, a);
    PositionRounds(n, b);
    if a < b { PlacesDistinct(n, a, b); } else { PlacesDistinct(n, b, a); }
    SmallModulus(Round(Position(n, a)), Round(Position(n, b)));
  }

  lemma PlacesDistinct(n: nat, a: nat, b: nat)
    requires 0 < n && 2 * n <= SCALE && a < b
    ensures Round(Position(n, a)) < Round(Position(n, b))
  {
    GapBounds(n);
    if 2 * n == SCALE {
      assert Position(n, a) == a as real && Position(n, b) == b as real;
      RoundInteger(a);
      RoundInteger(b);
    } else {
      PositionSteps(n, a, b);
      Multiple(b - a, Gap(n));
      RoundMonotone(Position(n, a), Position(n, b));
    }
  }

  // With more than half a million divisions two neighbouring places round alike.
  lemma {:induction false} FindStall(n: nat, k: nat) returns (at: nat)
    requires 2 * n > SCALE && k < 2 * n && Round(Position(n, k)) >= k
    ensures at < 2 * n && Round(Position(n, at)) == Round(Position(n, at + 1))
    decreases 2 * n - k
  {
    PositionSteps(n, k, k);
    GapBounds(n);
    RoundMonotone(Position(n, k), Position(n, k + 1));
    if Round(Position(n, k + 1)) == Round(Position(n, k)) {
      at := k;
    } else {
      RoundInteger(SCALE);
      assert k + 1 < 2 * n;
      at := FindStall(n, k + 1);
    }
  }

  lemma StallPlaces(n: nat, at: nat) returns (even: nat, odd: nat)
    requires at < 2 * n && Round(Position(n, at)) == Round(Position(n, at + 1))
    ensures even % 2 == 0 && odd % 2 == 1 && even <= 2 * n && odd < 2 * n
    ensures Round(Position(n, even)) == Round(Position(n, odd))
  {
    even, odd := if at % 2 == 0 then at else at + 1, if at % 2 == 0 then at + 1 else at;
  }

  // The last place coincides with the first, one turn on.
  lemma LastIsFirst(n: nat)
    requires n > 0
    ensures Round(Position(n, 2 * n)) % SCALE == Round(Position(n, 0)) % SCALE
  {
    GapBounds(n);
    RoundInteger(SCALE);
    RoundInteger(0);
    PositionSteps(n, 0, 0);
  }

  lemma Collision(n: nat) returns (i: nat, j: nat)
    requires 2 * n > SCALE
    ensures i < n && j < n && AxisKey(AxisPoint(n, Centred, i)) == AxisKey(AxisPoint(n, Half, j))
  {
    PositionSteps(n, 0, 0);
    RoundInteger(0);
    var at := FindStall(n, 0);
    var even, odd := StallPlaces(n, at);
    j := odd / 2;
    i := if even == 2 * n then 0 else even / 2;
    LastIsFirst(n);
    AxisPointKey(n, Centred, i);
    AxisPointKey(n, Half, j);
  }
}
