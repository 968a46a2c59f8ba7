/** The 1/120-scale arithmetic of the layer layout (native/layer.c). */
module FixedPoint {
  import opened Boxes

  const INT_MAX := 0x7fff_ffff
  const INT_MIN := -0x8000_0000
  const INT64_MAX := 0x7fff_ffff_ffff_ffff
  const INT64_MIN := -0x8000_0000_0000_0000

  function Clamp(low: int, high: int, n: int): (r: int)
    requires low <= high
    ensures low <= n <= high ==> r == n
    ensures low <= r <= high
  {
    if n > high then high else if n < low then low else n
  }

  /** `int_from_i64`. */
  function ToInt(n: int): int {
    Clamp(INT_MIN, INT_MAX, n)
  }

  predicate IsInt(n: int) {
    INT_MIN <= n <= INT_MAX
  }

  predicate IsInt64(n: int) {
    INT64_MIN <= n <= INT64_MAX
  }

  /** `n / d` to the nearest integer, halves away from zero. */
  function Nearest(n: int, d: int): int
    requires d > 0
  {
    var q := (Abs(n) * 2 + d) / (d * 2);
    if n < 0 then -q else q
  }

  /** `round_div_away`, with its saturation for every pair of 64-bit arguments but a denominator of INT64_MIN. */
  function RoundDivAway(numerator: int, denominator: int): int {
    if denominator < 0 && numerator == INT64_MIN then
      INT64_MAX
    else
      var n := if denominator < 0 then -numerator else numerator;
      var d := Abs(denominator);
      if d == 0 then
        if n >= 0 then INT64_MAX else INT64_MIN
      else
        Clamp(INT64_MIN, INT64_MAX, Nearest(n, d))
  }

  /** `scale_120_value`. */
  function Scale(scale: int): int {
    if scale > 0 then scale else 120
  }

  function LogicalFloor(physical: int, scale: int): int {
    if physical <= 0 then 0 else physical * 120 / Scale(scale)
  }

  function LogicalToPhysical(logical: int, scale: int): int {
    RoundDivAway(Clamp(INT64_MIN, INT64_MAX, logical * Scale(scale)), 120)
  }

  /** `resolved_zone_for_scale`: the surface's own zone, or an override given in physical pixels. */
  function ResolvedZone(own: int, override_: int, scale: int): int {
    if override_ < 0 then own else ToInt(RoundDivAway(override_ * 120, Scale(scale)))
  }

  /** What rounding to the nearest means. */
  lemma NearestIs(n: int, d: int)
    requires d > 0
    ensures var q := Nearest(n, d);
      && -d <= 2 * (n - q * d) <= d
      && (n >= 0 ==> 2 * (n - q * d) < d && q >= 0) && (n < 0 ==> 2 * (n - q * d) > -d && q <= 0)
  {
    var a := Abs(n) * 2 + d;
    var q := a / (d * 2);
    var r := a % (d * 2);
    assert a == q * (d * 2) + r;
    assert q >= 0 by {
      if q < 0 {
        Times(q, -1, d * 2);
      }
    }
    assert (-q) * d == -(q * d);
  }

  lemma Times(a: int, b: int, d: int)
    requires a <= b && d >= 0
    ensures a * d <= b * d
  {
  }

  /** The nearest integer is unique, up to the two neighbours of a half. */
  lemma NearestUnique(n: int, d: int, q: int)
    requires d > 0
    requires n >= 0 ==> -d <= 2 * (n - q * d) < d
    requires n < 0 ==> -d < 2 * (n - q * d) <= d
    ensures Nearest(n, d) == q
  {
    NearestIs(n, d);
    var p := Nearest(n, d);
    assert (p - q) * d == p * d - q * d;
    if p > q {
      Times(1, p - q, d);
    } else if p < q {
      Times(p - q, -1, d);
    }
  }

  lemma NearestMonotone(a: int, b: int, d: int)
    requires d > 0 && a <= b
    ensures Nearest(a, d) <= Nearest(b, d)
  {
    NearestIs(a, d);
    NearestIs(b, d);
    var p, q := Nearest(a, d), Nearest(b, d);
    if p > q {
      assert (p - q) * d == p * d - q * d;
      Times(1, p - q, d);
    }
  }

  lemma LogicalToPhysicalMonotone(a: int, b: int, scale: int)
    requires a <= b
    ensures LogicalToPhysical(a, scale) <= LogicalToPhysical(b, scale)
  {
    Times(a, b, Scale(scale));
    NearestMonotone(Clamp(INT64_MIN, INT64_MAX, a * Scale(scale)), Clamp(INT64_MIN, INT64_MAX, b * Scale(scale)), 120);
  }

  lemma NearestOdd(n: int, d: int)
    requires d > 0
    ensures Nearest(-n, d) == -Nearest(n, d)
  {
    if n == 0 {
      NearestUnique(0, d, 0);
    }
  }

  lemma NearestBounded(n: int)
    requires IsInt64(n)
    ensures IsInt64(Nearest(n, 120)) && RoundDivAway(n, 120) == Nearest(n, 120)
  {
    NearestIs(n, 120);
  }

  /** Odd on every input: the two saturated ends round to opposite values too. */
  lemma LogicalToPhysicalOdd(a: int, scale: int)
    ensures LogicalToPhysical(-a, scale) == -LogicalToPhysical(a, scale)
  {
    var p := a * Scale(scale);
    assert (-a) * Scale(scale) == -p;
    var n, m := Clamp(INT64_MIN, INT64_MAX, p), Clamp(INT64_MIN, INT64_MAX, -p);
    NearestBounded(n);
    NearestBounded(m);
    if INT64_MIN < p <= INT64_MAX {
      NearestOdd(p, 120);
    } else {
      NearestUnique(INT64_MIN, 120, -76861433640456465);
      NearestUnique(INT64_MAX, 120, 76861433640456465);
    }
  }

  /** No product of an int and a scale is clamped. */
  lemma Unsaturated(a: int, scale: int)
    requires IsInt64(a * Scale(scale))
    ensures LogicalToPhysical(a, scale) == Nearest(a * Scale(scale), 120)
  {
    NearestIs(a * Scale(scale), 120);
  }

  /** The width between two rounded edges is within one pixel of the exact width. */
  lemma WidthWithinOne(x: int, width: int, scale: int)
    requires IsInt64(x * Scale(scale)) && IsInt64((x + width) * Scale(scale))
    ensures var w := LogicalToPhysical(x + width, scale) - LogicalToPhysical(x, scale);
      -120 <= 120 * w - width * Scale(scale) <= 120
  {
    var s := Scale(scale);
    Unsaturated(x, scale);
    Unsaturated(x + width, scale);
    NearestIs(x * s, 120);
    NearestIs((x + width) * s, 120);
    assert (x + width) * s == x * s + width * s;
  }

  /** Without an override the surface keeps its own zone; with one it is the nearest logical length, if that fits. */
  lemma ZoneResolved(own: int, override_: int, scale: int)
    requires IsInt(override_) && IsInt(scale)
    ensures override_ < 0 ==> ResolvedZone(own, override_, scale) == own
    ensures var zone := ResolvedZone(own, override_, scale);
      override_ >= 0 && zone < INT_MAX ==> -Scale(scale) <= 2 * (override_ * 120 - zone * Scale(scale)) <= Scale(scale)
  {
    hide Nearest;
    NearestIs(override_ * 120, Scale(scale));
  }

  /** A zone whose physical length is an `int`, as the override that `resolved_zone_for_scale` takes must be. */
  predicate Expressible(zone: int, scale: int) {
    0 <= zone <= INT_MAX && LogicalToPhysical(zone, scale) <= INT_MAX
  }

  /** Every zone in logical units survives the trip through physical pixels. */
  ghost predicate ZonesSurvive(scale: int) {
    forall own, zone :: Expressible(zone, scale) ==> ResolvedZone(own, LogicalToPhysical(zone, scale), scale) == zone
  }

  lemma ProductFits(zone: int, scale: int)
    requires 0 <= zone <= INT_MAX && 0 <= scale <= INT_MAX
    ensures 0 <= zone * scale <= INT64_MAX
  {
    Times(0, zone, scale);
    Times(zone, INT_MAX, scale);
    Times(0, scale, INT_MAX);
    Times(scale, INT_MAX, INT_MAX);
    assert scale * INT_MAX == INT_MAX * scale;
  }

  lemma ZoneSurvives(own: int, zone: int, scale: int)
    requires 120 <= scale <= INT_MAX && Expressible(zone, scale)
    ensures ResolvedZone(own, LogicalToPhysical(zone, scale), scale) == zone
  {
    ProductFits(zone, scale);
    Unsaturated(zone, scale);
    NearestIs(zone * scale, 120);
    var p := LogicalToPhysical(zone, scale);
    if scale == 120 {
      NearestUnique(zone * 120, 120, zone);
    }
    assert scale > 120 ==> -scale < 2 * (p * 120 - zone * scale) < scale;
    NearestUnique(p * 120, scale, zone);
  }

  /** If every step of a zone gave a further pixel, `n` steps would give at least `n` pixels. */
  lemma {:induction false} DistinctSteps(scale: int, n: nat)
    requires 0 < scale && forall z :: 0 <= z < n ==> LogicalToPhysical(z, scale) < LogicalToPhysical(z + 1, scale)
    ensures LogicalToPhysical(n, scale) >= n
  {
    if n == 0 {
      LogicalToPhysicalOdd(0, scale);
    } else {
      DistinctSteps(scale, n - 1);
    }
  }

  /** Below scale 120 two zones share their physical length. */
  lemma SomeZoneIsLost(scale: int)
    requires 0 < scale < 120
    ensures !ZonesSurvive(scale)
  {
    Unsaturated(120, scale);
    NearestUnique(120 * scale, 120, scale);
    if forall z :: 0 <= z < 120 ==> LogicalToPhysical(z, scale) < LogicalToPhysical(z + 1, scale) {
      DistinctSteps(scale, 120);
    }
    var z :| 0 <= z < 120 && LogicalToPhysical(z, scale) >= LogicalToPhysical(z + 1, scale);
    LogicalToPhysicalMonotone(z, z + 1, scale);
    LogicalToPhysicalMonotone(z + 1, 120, scale);
    assert Expressible(z, scale) && Expressible(z + 1, scale);
    var p := LogicalToPhysical(z, scale);
    assert !(ResolvedZone(0, p, scale) == z && ResolvedZone(0, p, scale) == z + 1);
  }

  /** At scale 60/120 a zone of 1 becomes 1 physical pixel, which comes back as 2. */
  lemma ZoneLostAtHalfScale()
    ensures LogicalToPhysical(1, 60) == 1 && ResolvedZone(0, 1, 60) == 2
  {
  }

  /** Zones survive exactly from scale 1 (120/120) upwards; a scale that is not positive counts as 1. */
  lemma ZonesSurviveIff(scale: int)
    requires IsInt(scale)
    ensures ZonesSurvive(scale) <==> Scale(scale) >= 120
  {
    if 0 < scale < 120 {
      SomeZoneIsLost(scale);
    } else {
      forall own, zone | Expressible(zone, scale)
        ensures ResolvedZone(own, LogicalToPhysical(zone, scale), scale) == zone
      {
        ZoneSurvives(own, zone, Scale(scale));
      }
    }
  }

  lemma FloorIs(physical: int, scale: int)
    requires physical >= 0 && scale > 0
    ensures var floor := LogicalFloor(physical, scale);
      floor >= 0 && floor * scale <= physical * 120 < (floor + 1) * scale
  {
    var floor := physical * 120 / scale;
    assert physical * 120 == floor * scale + physical * 120 % scale;
    if floor < 0 {
      Times(floor, -1, scale);
    }
  }

  /** `plan_output_reset`: the logical length of an output never sticks out of its physical one. */
  lemma FloorFits(physical: int, scale: int)
    requires 0 <= physical <= INT_MAX && scale > 0
    ensures 0 <= LogicalToPhysical(ToInt(LogicalFloor(physical, scale)), scale) <= physical
    ensures ToInt(LogicalFloor(physical, scale)) == LogicalFloor(physical, scale) ==>
      physical * 120 < (LogicalFloor(physical, scale) + 1) * scale
  {
    hide Nearest, LogicalFloor, RoundDivAway;
    FloorIs(physical, scale);
    var floor, n := LogicalFloor(physical, scale), ToInt(LogicalFloor(physical, scale));
    Times(0, n, scale);
    Times(n, floor, scale);
    Unsaturated(n, scale);
    NearestMonotone(0, n * scale, 120);
    NearestMonotone(n * scale, physical * 120, 120);
    NearestUnique(0, 120, 0);
    NearestUnique(physical * 120, 120, physical);
  }
}
