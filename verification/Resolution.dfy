/** Fitting a requested size into a model's maximum and onto its grid, in exact arithmetic. */
module Resolutions {
  import opened Basics

  datatype Size = Size(width: nat, height: nat)

  function Long(s: Size): nat { Max(s.width, s.height) }

  function Short(s: Size): nat { Min(s.width, s.height) }

  /** a/b rounded to the nearest integer, halves up. */
  function Rounded(a: nat, b: nat): nat
    requires b > 0
  {
    (2 * a + b) / (2 * b)
  }

  /** A scale factor as a fraction. */
  datatype Ratio = Ratio(num: nat, den: nat)

  /** The smaller of p/a and q/b. */
  function Smaller(p: nat, a: nat, q: nat, b: nat): Ratio {
    if p * b <= q * a then Ratio(p, a) else Ratio(q, b)
  }

  predicate Positive(s: Size) {
    s.width > 0 && s.height > 0
  }

  /** Both sides fit, whichever way round the maximum is given. */
  predicate Fits(s: Size, maximum: Size) {
    Long(s) <= Long(maximum) && Short(s) <= Short(maximum)
  }

  predicate OnGrid(s: Size, grid: nat)
    requires grid > 0
  {
    s.width % grid == 0 && s.height % grid == 0 && s.width >= grid && s.height >= grid
  }

  /** The scale that brings both sides into the maximum; a zero side imposes nothing. */
  function ScaleInto(s: Size, maximum: Size): (r: Ratio)
    requires Long(s) > 0
    ensures r.den > 0
  {
    Smaller(Long(maximum), Long(s), Short(maximum), Short(s))
  }

  function ScaledSide(side: nat, r: Ratio): nat
    requires r.den > 0
  {
    Rounded(side * r.num, r.den)
  }

  function Shrunk(s: Size, maximum: Size): Size {
    if Fits(s, maximum) then s
    else
      var r := ScaleInto(s, maximum);
      Size(ScaledSide(s.width, r), ScaledSide(s.height, r))
  }

  function SnapSide(side: nat, grid: nat): nat
    requires grid > 0
  {
    Max(grid, Rounded(side, grid) * grid)
  }

  function Snapped(s: Size, grid: nat): Size
    requires grid > 0
  {
    Size(SnapSide(s.width, grid), SnapSide(s.height, grid))
  }

  function FloorSide(side: nat, r: Ratio, grid: nat): nat
    requires grid > 0 && r.den > 0
  {
    Max(grid, side * r.num / (r.den * grid) * grid)
  }

  /** The size finally asked of a model with a grid. */
  function Constrained(s: Size, maximum: Size, grid: nat): Size
    requires grid > 0
  {
    var snapped := Snapped(Shrunk(s, maximum), grid);
    if Fits(snapped, maximum) then snapped
    else
      var r := ScaleInto(snapped, maximum);
      Size(FloorSide(snapped.width, r, grid), FloorSide(snapped.height, r, grid))
  }

  /** What a request becomes: nothing changes without a readable size or a maximum, and
      without a grid the size is only shrunk. */
  function Asked(requested: Size, maximum: Option<Size>, grid: nat): Size {
    if maximum.None? then requested
    else if grid == 0 then Shrunk(requested, maximum.value)
    else Constrained(requested, maximum.value, grid)
  }

  /** The same, step by step as the job queue computes it. */
  method ConstrainResolution(requested: Size, maximum: Option<Size>, grid: nat) returns (size: Size)
    ensures size == Asked(requested, maximum, grid)
    ensures maximum.None? ==> size == requested
    ensures maximum.Some? && grid == 0 ==> size == Shrunk(requested, maximum.value)
    ensures maximum.Some? && grid > 0 ==> size == Constrained(requested, maximum.value, grid)
  {
    hide ScaledSide;
    hide Rounded;
    hide Smaller;
    hide FloorSide;
    if maximum.None? {
      return requested;
    }
    var width, height := requested.width, requested.height;
    var maxLong, maxShort := Long(maximum.value), Short(maximum.value);
    var long, short := Max(width, height), Min(width, height);
    if long > maxLong || short > maxShort {
      var scale := Smaller(maxLong, long, maxShort, short);
      assert scale == ScaleInto(requested, maximum.value);
      width := ScaledSide(width, scale);
      height := ScaledSide(height, scale);
    }
    assert Size(width, height) == Shrunk(requested, maximum.value);
    if grid > 0 {
      width := Max(grid, Rounded(width, grid) * grid);
      height := Max(grid, Rounded(height, grid) * grid);
      assert Size(width, height) == Snapped(Shrunk(requested, maximum.value), grid);
      var snappedLong, snappedShort := Max(width, height), Min(width, height);
      if snappedLong > maxLong || snappedShort > maxShort {
        var scale := Smaller(maxLong, snappedLong, maxShort, snappedShort);
        assert scale == ScaleInto(Size(width, height), maximum.value);
        width := FloorSide(width, scale, grid);
        height := FloorSide(height, scale, grid);
      }
    }
    size := Size(width, height);
  }

  // ----- arithmetic -----

  lemma MulMonotone(a: nat, b: nat, c: nat)
    requires a <= b
    ensures a * c <= b * c
  {
  }

  lemma DivMonotone(a: nat, b: nat, c: nat)
    requires a <= b && c > 0
    ensures a / c <= b / c
  {
    if a / c > b / c {
      MulMonotone(b / c + 1, a / c, c);
    }
  }

  lemma QuotientBound(a: nat, b: nat, q: nat)
    requires b > 0 && q == a / b
    ensures q * b <= a < (q + 1) * b
  {
  }

  lemma CancelFactor(x: nat, y: nat, c: nat)
    requires c > 0 && x * c <= y * c
    ensures x <= y
  {
    if x > y {
      MulMonotone(y + 1, x, c);
    }
  }

  lemma QuotientUnique(a: nat, b: nat, q: nat, r: nat)
    requires b > 0 && a == q * b + r && r < b
    ensures a / b == q && a % b == r
  {
    var k := a / b;
    assert a == k * b + a % b;
    if q > k {
      MulMonotone(k + 1, q, b);
    }
    if q < k {
      MulMonotone(q + 1, k, b);
    }
  }

  lemma MultipleMod(q: nat, grid: nat)
    requires grid > 0
    ensures (q * grid) % grid == 0
  {
    QuotientUnique(q * grid, grid, q, 0);
  }

  lemma RoundedExact(q: nat, grid: nat)
    requires grid > 0
    ensures Rounded(q * grid, grid) == q
  {
    assert 2 * (q * grid) + grid == q * (2 * grid) + grid;
    QuotientUnique(2 * (q * grid) + grid, 2 * grid, q, grid);
  }

  /** Scaling by the smaller ratio and rounding down to the grid keeps a side within its bound. */
  lemma FloorWithin(side: nat, r: Ratio, grid: nat, bound: nat)
    requires grid > 0 && r.den > 0 && side * r.num <= bound * r.den && grid <= bound
    ensures FloorSide(side, r, grid) <= bound
  {
    var q := side * r.num / (r.den * grid);
    QuotientBound(side * r.num, r.den * grid, q);
    assert q * (r.den * grid) == (q * grid) * r.den;
    CancelFactor(q * grid, bound, r.den);
  }

  lemma ScaleBounds(s: Size, maximum: Size)
    requires Long(s) > 0
    ensures var r := ScaleInto(s, maximum);
            Long(s) * r.num <= Long(maximum) * r.den && Short(s) * r.num <= Short(maximum) * r.den
  {
  }

  // ----- what the constraint achieves -----

  lemma SidesOnGrid(q: nat, grid: nat)
    requires grid > 0
    ensures Max(grid, q * grid) % grid == 0 && Max(grid, q * grid) >= grid
  {
    MultipleMod(q, grid);
    assert 1 * grid == grid;
    MultipleMod(1, grid);
  }

  lemma SnapSideOnGrid(side: nat, grid: nat)
    requires grid > 0
    ensures SnapSide(side, grid) % grid == 0 && SnapSide(side, grid) >= grid
  {
    SidesOnGrid(Rounded(side, grid), grid);
  }

  lemma FloorSideOnGrid(side: nat, r: Ratio, grid: nat)
    requires grid > 0 && r.den > 0
    ensures FloorSide(side, r, grid) % grid == 0 && FloorSide(side, r, grid) >= grid
  {
    SidesOnGrid(side * r.num / (r.den * grid), grid);
  }

  /** Without a grid, shrinking alone brings the size into the box. */
  lemma ShrunkFits(s: Size, maximum: Size)
    ensures Fits(Shrunk(s, maximum), maximum)
  {
    hide ScaleInto;
    hide ScaledSide;
    if Fits(s, maximum) {
      assert Shrunk(s, maximum) == s;
    } else {
      hide Shrunk;
      var r := ScaleInto(s, maximum);
      ScaledWithin(s, maximum);
      ShrunkSides(s, maximum, r);
    }
  }

  lemma ScaledWithin(s: Size, maximum: Size)
    requires Long(s) > 0
    ensures var r := ScaleInto(s, maximum);
            ScaledSide(Long(s), r) <= Long(maximum) && ScaledSide(Short(s), r) <= Short(maximum)
  {
    hide ScaleInto;
    hide Long;
    hide Short;
    hide Rounded;
    var r := ScaleInto(s, maximum);
    ScaleBounds(s, maximum);
    RoundedWithin(Long(s) * r.num, r.den, Long(maximum));
    RoundedWithin(Short(s) * r.num, r.den, Short(maximum));
  }

  lemma RoundedWithin(a: nat, b: nat, bound: nat)
    requires b > 0 && a <= bound * b
    ensures Rounded(a, b) <= bound
  {
    var r := Rounded(a, b);
    QuotientBound(2 * a + b, 2 * b, r);
    assert (bound + 1) * (2 * b) == 2 * (bound * b) + 2 * b;
    if r > bound {
      MulMonotone(bound + 1, r, 2 * b);
    }
  }

  lemma ShrunkSides(s: Size, maximum: Size, r: Ratio)
    requires !Fits(s, maximum) && r == ScaleInto(s, maximum)
    ensures Long(Shrunk(s, maximum)) == ScaledSide(Long(s), r)
    ensures Short(Shrunk(s, maximum)) == ScaledSide(Short(s), r)
  {
    hide ScaledSide;
    hide Smaller;
    ScaledOrder(s.width, s.height, r);
    ScaledOrder(s.height, s.width, r);
  }

  /** The exact factor by which a size is shrunk into a maximum: the smaller of the quotients of the
      longer and of the shorter sides. */
  predicate IsScale(s: Size, maximum: Size, r: Ratio) {
    && r.den > 0
    && (Long(maximum) * Short(s) <= Short(maximum) * Long(s) ==> r == Ratio(Long(maximum), Long(s)))
    && (Long(maximum) * Short(s) > Short(maximum) * Long(s) ==> r == Ratio(Short(maximum), Short(s)))
  }

  lemma RoundedHalf(a: nat, b: nat)
    requires b > 0
    ensures 2 * (Rounded(a, b) * b) <= 2 * a + b && 2 * a < 2 * (Rounded(a, b) * b) + b
  {
    var r := Rounded(a, b);
    QuotientBound(2 * a + b, 2 * b, r);
    assert r * (2 * b) == 2 * (r * b) && (r + 1) * (2 * b) == 2 * (r * b) + 2 * b;
  }

  /** The whole number nearest to a side times a factor. */
  predicate NearestWhole(side: nat, r: Ratio, v: nat) {
    2 * (v * r.den) <= 2 * (side * r.num) + r.den && 2 * (side * r.num) < 2 * (v * r.den) + r.den
  }

  lemma ScalesToNearest(side: nat, r: Ratio)
    requires r.den > 0
    ensures NearestWhole(side, r, ScaledSide(side, r))
  {
    RoundedHalf(side * r.num, r.den);
  }

  /** A size that fits is kept. Any other is scaled by one factor, each side to the nearest whole
      number, and one of its sides comes out exactly at the side of the maximum it is compared with. */
  lemma ShrunkExactly(s: Size, maximum: Size)
    ensures Long(s) <= Long(maximum) && Short(s) <= Short(maximum) ==> Shrunk(s, maximum) == s
    ensures !(Long(s) <= Long(maximum) && Short(s) <= Short(maximum)) ==>
              var t := Shrunk(s, maximum);
              && (exists r :: IsScale(s, maximum, r) && NearestWhole(s.width, r, t.width) && NearestWhole(s.height, r, t.height))
              && (Long(t) == Long(maximum) || Short(t) == Short(maximum))
  {
    hide ScaleInto;
    hide ScaledSide;
    hide NearestWhole;
    hide IsScale;
    if !Fits(s, maximum) {
      var r := ScaleInto(s, maximum);
      ScaleIs(s, maximum);
      ShrunkSides(s, maximum, r);
      ScalesToNearest(s.width, r);
      ScalesToNearest(s.height, r);
      ReachesBound(s, maximum, r);
    }
  }

  lemma ScaleIs(s: Size, maximum: Size)
    requires Long(s) > 0
    ensures IsScale(s, maximum, ScaleInto(s, maximum))
  {
  }

  lemma ReachesBound(s: Size, maximum: Size, r: Ratio)
    requires Long(s) > 0 && r == ScaleInto(s, maximum)
    ensures ScaledSide(Long(s), r) == Long(maximum) || ScaledSide(Short(s), r) == Short(maximum)
  {
    if r == Ratio(Long(maximum), Long(s)) {
      RoundedExact(Long(maximum), Long(s));
    } else {
      RoundedExact(Short(maximum), Short(s));
    }
  }

  lemma ConstrainedOnGrid(s: Size, maximum: Size, grid: nat)
    requires grid > 0
    ensures OnGrid(Constrained(s, maximum, grid), grid)
  {
    hide SnapSide;
    hide FloorSide;
    hide ScaleInto;
    hide Fits;
    hide Shrunk;
    var t := Shrunk(s, maximum);
    SnapSideOnGrid(t.width, grid);
    SnapSideOnGrid(t.height, grid);
    var u := Snapped(t, grid);
    var r := ScaleInto(u, maximum);
    FloorSideOnGrid(u.width, r, grid);
    FloorSideOnGrid(u.height, r, grid);
  }

  /** The multiple of the grid nearest to a length, but at least one cell. */
  predicate Nearest(side: nat, snapped: nat, grid: nat)
    requires grid > 0
  {
    && snapped % grid == 0 && snapped >= grid
    && (2 * snapped <= 2 * side + grid || snapped == grid) && 2 * side < 2 * snapped + grid
  }

  /** The last multiple of the grid not behind a side times a factor, but at least one cell. */
  predicate LastBefore(side: nat, r: Ratio, floored: nat, grid: nat)
    requires grid > 0
  {
    && floored % grid == 0 && floored >= grid
    && (floored * r.den <= side * r.num || floored == grid) && side * r.num < (floored + grid) * r.den
  }

  lemma SnapsToNearest(side: nat, grid: nat)
    requires grid > 0
    ensures Nearest(side, SnapSide(side, grid), grid)
  {
    SnapSideOnGrid(side, grid);
    RoundedHalf(side, grid);
  }

  lemma FloorsToLast(side: nat, r: Ratio, grid: nat)
    requires grid > 0 && r.den > 0
    ensures LastBefore(side, r, FloorSide(side, r, grid), grid)
  {
    FloorSideOnGrid(side, r, grid);
    var num, q := side * r.num, side * r.num / (r.den * grid);
    QuotientBound(num, r.den * grid, q);
    assert q * (r.den * grid) == (q * grid) * r.den;
    assert (q + 1) * (r.den * grid) == (q * grid + grid) * r.den;
    MulMonotone(q * grid + grid, Max(grid, q * grid) + grid, r.den);
  }

  /** With a grid, both sides of the shrunk size go to the nearest grid lines; only if that is outside
      the box are they scaled once more by one factor and cut down to the grid lines before. */
  lemma ConstrainedExactly(s: Size, maximum: Size, grid: nat)
    requires grid > 0
    ensures var t, c := Shrunk(s, maximum), Constrained(s, maximum, grid);
            exists u: Size :: && Nearest(t.width, u.width, grid) && Nearest(t.height, u.height, grid)
              && if Long(u) <= Long(maximum) && Short(u) <= Short(maximum) then c == u
                 else exists r :: && IsScale(u, maximum, r)
                        && LastBefore(u.width, r, c.width, grid) && LastBefore(u.height, r, c.height, grid)
  {
    hide SnapSide;
    hide FloorSide;
    hide ScaleInto;
    hide Shrunk;
    hide Nearest;
    hide LastBefore;
    hide IsScale;
    var t := Shrunk(s, maximum);
    var u := Snapped(t, grid);
    SnapsToNearest(t.width, grid);
    SnapsToNearest(t.height, grid);
    if !Fits(u, maximum) {
      var r := ScaleInto(u, maximum);
      ScaleIs(u, maximum);
      FloorsToLast(u.width, r, grid);
      FloorsToLast(u.height, r, grid);
    }
  }

  lemma FloorFits(u: Size, maximum: Size, grid: nat)
    requires Positive(u) && 0 < grid <= Short(maximum)
    ensures var r := ScaleInto(u, maximum);
            Fits(Size(FloorSide(u.width, r, grid), FloorSide(u.height, r, grid)), maximum)
  {
    var r := ScaleInto(u, maximum);
    ScaleBounds(u, maximum);
    FloorWithin(Long(u), r, grid, Long(maximum));
    FloorWithin(Short(u), r, grid, Short(maximum));
  }

  /** A grid size in the allowed box comes out exactly when one grid cell fits the shorter side. */
  lemma ConstrainedFitsExactly(s: Size, maximum: Size, grid: nat)
    requires grid > 0
    ensures Fits(Constrained(s, maximum, grid), maximum) <==> grid <= Short(maximum)
  {
    ConstrainedOnGrid(s, maximum, grid);
    var u := Snapped(Shrunk(s, maximum), grid);
    if grid <= Short(maximum) && !Fits(u, maximum) {
      FloorFits(u, maximum, grid);
    }
  }

  lemma ScaledOrder(a: nat, b: nat, r: Ratio)
    requires r.den > 0
    ensures a <= b ==> ScaledSide(a, r) <= ScaledSide(b, r)
  {
    if a <= b {
      MulMonotone(a, b, r.num);
      DivMonotone(2 * (a * r.num) + r.den, 2 * (b * r.num) + r.den, 2 * r.den);
    }
  }

  lemma SnapOrder(a: nat, b: nat, grid: nat)
    requires a <= b && grid > 0
    ensures SnapSide(a, grid) <= SnapSide(b, grid)
  {
    DivMonotone(2 * a + grid, 2 * b + grid, 2 * grid);
    MulMonotone(Rounded(a, grid), Rounded(b, grid), grid);
  }

  lemma FloorOrder(a: nat, b: nat, r: Ratio, grid: nat)
    requires a <= b && grid > 0 && r.den > 0
    ensures FloorSide(a, r, grid) <= FloorSide(b, r, grid)
  {
    MulMonotone(a, b, r.num);
    DivMonotone(a * r.num, b * r.num, r.den * grid);
    MulMonotone(a * r.num / (r.den * grid), b * r.num / (r.den * grid), grid);
  }

  lemma ConstrainedKeepsOrientation(s: Size, maximum: Size, grid: nat)
    requires grid > 0
    ensures SameWay(s, Constrained(s, maximum, grid))
  {
    OrientedPart(s, maximum, grid, s.width, s.height);
    OrientedPart(s, maximum, grid, s.height, s.width);
  }

  lemma ShrunkKeepsOrientation(s: Size, maximum: Size)
    ensures SameWay(s, Shrunk(s, maximum))
  {
    hide ScaleInto;
    hide ScaledSide;
    if !Fits(s, maximum) {
      var r := ScaleInto(s, maximum);
      ScaledOrder(s.width, s.height, r);
      ScaledOrder(s.height, s.width, r);
    }
  }

  /** What is at least as wide as high stays so, and what is at least as high as wide. */
  predicate SameWay(before: Size, after: Size) {
    (before.width >= before.height ==> after.width >= after.height)
    && (before.width <= before.height ==> after.width <= after.height)
  }

  /** Landscape stays landscape and portrait stays portrait, whatever the maximum and the grid. */
  lemma OrientationKept(s: Size, maximum: Option<Size>, grid: nat)
    ensures SameWay(s, Asked(s, maximum, grid))
  {
    hide Constrained;
    hide Shrunk;
    if maximum.Some? {
      ShrunkKeepsOrientation(s, maximum.value);
      if grid > 0 {
        ConstrainedKeepsOrientation(s, maximum.value, grid);
      }
    }
  }

  /** The chain of roundings one side goes through. */
  function SideThrough(s: Size, maximum: Size, grid: nat, side: nat): nat
    requires grid > 0
  {
    var shrunk :=
      if Fits(s, maximum) then side
      else
        var r := ScaleInto(s, maximum);
        ScaledSide(side, r);
    var snapped := SnapSide(shrunk, grid);
    var u := Snapped(Shrunk(s, maximum), grid);
    if Fits(u, maximum) then snapped else FloorSide(snapped, ScaleInto(u, maximum), grid)
  }

  lemma OrientedPart(s: Size, maximum: Size, grid: nat, small: nat, large: nat)
    requires grid > 0
    ensures small <= large ==> SideThrough(s, maximum, grid, small) <= SideThrough(s, maximum, grid, large)
    ensures Constrained(s, maximum, grid) ==
            Size(SideThrough(s, maximum, grid, s.width), SideThrough(s, maximum, grid, s.height))
  {
    if small <= large {
      var a, b := small, large;
      if !Fits(s, maximum) {
        var r := ScaleInto(s, maximum);
        ScaledOrder(small, large, r);
        a, b := ScaledSide(small, r), ScaledSide(large, r);
      }
      SnapOrder(a, b, grid);
      var u := Snapped(Shrunk(s, maximum), grid);
      FloorOrder(SnapSide(a, grid), SnapSide(b, grid), ScaleInto(u, maximum), grid);
    }
  }

  lemma SnapFixed(side: nat, grid: nat)
    requires grid > 0 && side % grid == 0 && side >= grid
    ensures SnapSide(side, grid) == side
  {
    var q := side / grid;
    assert side == q * grid;
    RoundedExact(q, grid);
  }

  lemma SettledWithinGrid(s: Size, maximum: Size, grid: nat)
    requires 0 < grid <= Short(maximum)
    ensures Constrained(Constrained(s, maximum, grid), maximum, grid) == Constrained(s, maximum, grid)
  {
    var c := Constrained(s, maximum, grid);
    ConstrainedOnGrid(s, maximum, grid);
    ConstrainedFitsExactly(s, maximum, grid);
    hide Constrained;
    SnapFixed(c.width, grid);
    SnapFixed(c.height, grid);
    FixedPoint(c, maximum, grid);
  }

  lemma RatioShrinks(p: nat, a: nat, q: nat, b: nat)
    requires q < b && 0 < a
    ensures var r := Smaller(p, a, q, b); r.num < r.den
  {
    if p * b <= q * a {
      MulStrict(q, b, a);
      if p >= a {
        MulMonotone(a, p, b);
      }
    }
  }

  lemma ScaledShrinks(side: nat, r: Ratio)
    requires r.num < r.den
    ensures ScaledSide(side, r) <= side
  {
    MulMonotone(r.num, r.den, side);
    RoundedWithin(side * r.num, r.den, side);
  }

  lemma FloorShrinks(side: nat, r: Ratio, grid: nat)
    requires r.num < r.den && 0 < grid && 0 < side
    ensures FloorSide(side, r, grid) < side || FloorSide(side, r, grid) == grid
  {
    var q := side * r.num / (r.den * grid);
    QuotientBound(side * r.num, r.den * grid, q);
    assert q * (r.den * grid) == (q * grid) * r.den;
    MulStrict(r.num, r.den, side);
    CancelLess(q * grid, side, r.den);
  }

  /** Where the grid is wider than the shorter allowed side, a side longer than one cell gets
      shorter every time. */
  lemma SideShrinks(c: Size, maximum: Size, grid: nat, side: nat)
    requires Short(maximum) < grid && OnGrid(c, grid) && side % grid == 0 && side >= grid
    ensures SideThrough(c, maximum, grid, side) == side <==> side == grid
  {
    hide Smaller;
    hide FloorSide;
    hide SnapSide;
    hide ScaledSide;
    var r := ScaleInto(c, maximum);
    RatioShrinks(Long(maximum), Long(c), Short(maximum), Short(c));
    ScaledShrinks(side, r);
    var u := Snapped(Shrunk(c, maximum), grid);
    SnapSideOnGrid(Shrunk(c, maximum).width, grid);
    SnapSideOnGrid(Shrunk(c, maximum).height, grid);
    RatioShrinks(Long(maximum), Long(u), Short(maximum), Short(u));
    var snapped := SnapSide(ScaledSide(side, r), grid);
    SnapOrder(ScaledSide(side, r), side, grid);
    SnapFixed(side, grid);
    SnapSideOnGrid(ScaledSide(side, r), grid);
    FloorShrinks(snapped, ScaleInto(u, maximum), grid);
    FloorSideOnGrid(snapped, ScaleInto(u, maximum), grid);
  }

  /** Constraining a second time changes nothing exactly when one grid cell fits the shorter
      allowed side or the size is a single cell; otherwise it shrinks further. */
  lemma ConstrainIdempotent(s: Size, maximum: Size, grid: nat)
    requires 0 < grid
    ensures var c := Constrained(s, maximum, grid);
            Constrained(c, maximum, grid) == c <==> grid <= Short(maximum) || Long(c) == grid
  {
    var c := Constrained(s, maximum, grid);
    ConstrainedOnGrid(s, maximum, grid);
    if grid <= Short(maximum) {
      SettledWithinGrid(s, maximum, grid);
    } else {
      OrientedPart(c, maximum, grid, c.width, c.height);
      hide Constrained;
      hide SideThrough;
      SideShrinks(c, maximum, grid, c.width);
      SideShrinks(c, maximum, grid, c.height);
    }
  }

  lemma FixedPoint(c: Size, maximum: Size, grid: nat)
    requires Positive(c) && grid > 0 && Fits(c, maximum) && Snapped(c, grid) == c
    ensures Constrained(c, maximum, grid) == c
  {
  }

  // ----- fitting an image's aspect ratio -----

  /** The canvas turned the way the image lies; a square image gets a square. */
  function Oriented(source: Size, canvas: Size): Size {
    if source.width == source.height then Size(Short(canvas), Short(canvas))
    else if source.width > source.height then Size(Long(canvas), Short(canvas))
    else Size(Short(canvas), Long(canvas))
  }

  lemma OrientedExactly(source: Size, canvas: Size)
    ensures var t := Oriented(source, canvas);
            && (source.width != source.height ==> t == canvas || t == Size(canvas.height, canvas.width))
            && (source.width > source.height ==> t.width >= t.height)
            && (source.width < source.height ==> t.width <= t.height)
            && (source.width == source.height ==>
                  t.width == t.height && (if canvas.width <= canvas.height then t.width == canvas.width else t.width == canvas.height))
  {
  }

  function AspectScale(source: Size, canvas: Size): (r: Ratio)
    requires Positive(source)
    ensures r.den > 0
  {
    var target := Oriented(source, canvas);
    Smaller(target.width, source.width, target.height, source.height)
  }

  /** Rounds num/den to the grid, within the last grid line of the canvas side. */
  function SnapInto(num: nat, den: nat, grid: nat, side: nat): nat
    requires den > 0 && grid > 0
  {
    var last := Max(grid, side / grid * grid);
    Min(last, Max(grid, Rounded(num, den * grid) * grid))
  }

  function FitAspect(source: Size, canvas: Size, grid: nat): Size
    requires Positive(source) && grid > 0
  {
    var r := AspectScale(source, canvas);
    var target := Oriented(source, canvas);
    Size(SnapInto(source.width * r.num, r.den, grid, target.width),
         SnapInto(source.height * r.num, r.den, grid, target.height))
  }

  lemma RoundedNear(a: nat, b: nat)
    requires b > 0
    ensures 2 * (Rounded(a, b) * b) <= 2 * a + b && 2 * a + b < 2 * (Rounded(a, b) * b) + 2 * b
  {
    var r := Rounded(a, b);
    QuotientBound(2 * a + b, 2 * b, r);
    assert r * (2 * b) == 2 * (r * b) && (r + 1) * (2 * b) == 2 * (r * b) + 2 * b;
  }

  lemma Distribute(a: nat, b: nat, c: nat)
    ensures (a + b) * c == a * c + b * c
  {
  }

  lemma MulStrict(a: nat, b: nat, c: nat)
    requires c > 0 && a < b
    ensures a * c < b * c
  {
    MulMonotone(a + 1, b, c);
    Distribute(a, 1, c);
  }

  /** The distances behind snapping, with every length already multiplied by the denominator:
      x is the nearest grid line to num and last the last one on the canvas. */
  lemma NearestLine(num: nat, cell: nat, x: nat, last: nat, side: nat, v: nat)
    requires 2 * x <= 2 * num + cell && 2 * num + cell < 2 * x + 2 * cell
    requires 0 < num <= side && cell <= last <= side < last + cell
    requires v == Min(last, Max(cell, x))
    ensures v < num + cell && num < v + cell
  {
  }

  lemma ScaleMinMax(last: nat, grid: nat, x: nat, den: nat)
    requires den > 0
    ensures Min(last, Max(grid, x)) * den == Min(last * den, Max(grid * den, x * den))
  {
    hide *;
    assert last <= x ==> last * den <= x * den by { if last <= x { MulMonotone(last, x, den); } }
    assert x <= last ==> x * den <= last * den by { if x <= last { MulMonotone(x, last, den); } }
    assert last <= grid ==> last * den <= grid * den by { if last <= grid { MulMonotone(last, grid, den); } }
    assert grid <= last ==> grid * den <= last * den by { if grid <= last { MulMonotone(grid, last, den); } }
    assert x <= grid ==> x * den <= grid * den by { if x <= grid { MulMonotone(x, grid, den); } }
    assert grid <= x ==> grid * den <= x * den by { if grid <= x { MulMonotone(grid, x, den); } }
    MinMaxOrder(last, grid, x, last * den, grid * den, x * den);
    PickedScales(last, grid, x, den);
  }

  /** Which of three lengths is picked depends only on their order. */
  lemma MinMaxOrder(a: nat, b: nat, c: nat, p: nat, q: nat, r: nat)
    requires (a <= c ==> p <= r) && (c <= a ==> r <= p) && (a <= b ==> p <= q) && (b <= a ==> q <= p)
    requires (c <= b ==> r <= q) && (b <= c ==> q <= r)
    ensures var m := Min(a, Max(b, c));
            Min(p, Max(q, r)) == (if m == a then p else if m == b then q else r)
  {
  }

  lemma PickedScales(last: nat, grid: nat, x: nat, den: nat)
    ensures var m := Min(last, Max(grid, x));
            m * den == (if m == last then last * den else if m == grid then grid * den else x * den)
  {
  }

  /** A snapped side is a grid line within the canvas, less than one cell from its exact value. */
  lemma SnapIntoNear(num: nat, den: nat, grid: nat, side: nat)
    requires den > 0 && 0 < grid <= side && 0 < num <= side * den
    ensures var v := SnapInto(num, den, grid, side);
            v % grid == 0 && grid <= v <= side && v * den < num + grid * den && num < v * den + grid * den
  {
    hide Rounded;
    var last, n := LastLine(side, grid), Rounded(num, den * grid);
    var x := n * grid;
    RoundedNear(num, den * grid);
    assert n * (den * grid) == x * den;
    assert den * grid == grid * den;
    MulMonotone(last, side, den);
    MulMonotone(grid, last, den);
    MulStrict(side, last + grid, den);
    Distribute(last, grid, den);
    ScaleMinMax(last, grid, x, den);
    NearestLine(num, grid * den, x * den, last * den, side * den, Min(last, Max(grid, x)) * den);
    SidesOnGrid(n, grid);
    MultipleMod(side / grid, grid);
  }

  lemma CancelLess(x: nat, y: nat, c: nat)
    requires c > 0 && x * c < y * c
    ensures x < y
  {
    if x >= y {
      MulMonotone(y, x, c);
    }
  }

  function LastLine(side: nat, grid: nat): (last: nat)
    requires 0 < grid <= side
    ensures last == side / grid * grid && grid <= last <= side < last + grid
  {
    var q := side / grid;
    QuotientBound(side, grid, q);
    Distribute(q, 1, grid);
    CancelLess(1, q + 1, grid);
    MulMonotone(1, q, grid);
    q * grid
  }

  lemma ScaleFits(source: Size, canvas: Size)
    requires Positive(source) && Short(canvas) > 0
    ensures var t := Oriented(source, canvas);
            var r := AspectScale(source, canvas);
            && 0 < source.width * r.num <= t.width * r.den
            && 0 < source.height * r.num <= t.height * r.den
            && t.width >= Short(canvas) && t.height >= Short(canvas)
  {
    var t := Oriented(source, canvas);
    var r := AspectScale(source, canvas);
    SmallerFits(t.width, source.width, t.height, source.height);
    MulStrict(0, source.width, r.num);
    MulStrict(0, source.height, r.num);
  }

  lemma SmallerFits(p: nat, a: nat, q: nat, b: nat)
    requires a > 0 && b > 0 && p > 0 && q > 0
    ensures var r := Smaller(p, a, q, b);
            r.num > 0 && r.den > 0 && a * r.num <= p * r.den && b * r.num <= q * r.den
  {
  }

  /** On a canvas side narrower than the grid there is one grid line, the first. */
  lemma SnapIntoNarrow(num: nat, den: nat, grid: nat, side: nat)
    requires den > 0 && side < grid
    ensures SnapInto(num, den, grid, side) == grid
  {
    QuotientUnique(side, grid, 0, side);
  }

  lemma SnapIntoWithin(num: nat, den: nat, grid: nat, side: nat)
    requires den > 0 && 0 < grid && 0 < num <= side * den
    ensures var v := SnapInto(num, den, grid, side);
            && v % grid == 0 && grid <= v && (v <= side <==> grid <= side)
            && v * den < num + grid * den && num < v * den + grid * den
  {
    hide SnapInto;
    if grid <= side {
      SnapIntoNear(num, den, grid, side);
    } else {
      SnapIntoNarrow(num, den, grid, side);
      MulMonotone(side, grid, den);
      MultipleMod(1, grid);
    }
  }

  lemma SnapNothing(den: nat, grid: nat, side: nat)
    requires den > 0 && 0 < grid
    ensures SnapInto(0, den, grid, side) == grid
  {
    QuotientUnique(den * grid, 2 * (den * grid), 0, den * grid);
    assert Rounded(0, den * grid) == 0;
  }

  /** Without a canvas the image gets a single cell. */
  lemma NoCanvas(source: Size, canvas: Size, grid: nat)
    requires Positive(source) && 0 < grid && Short(canvas) == 0
    ensures FitAspect(source, canvas, grid) == Size(grid, grid) && OnGrid(Size(grid, grid), grid)
  {
    hide SnapInto;
    var t := Oriented(source, canvas);
    var r := AspectScale(source, canvas);
    NothingScaled(t.width, source.width, t.height, source.height);
    SnapNothing(r.den, grid, t.width);
    SnapNothing(r.den, grid, t.height);
    MultipleMod(1, grid);
  }

  lemma NothingScaled(p: nat, a: nat, q: nat, b: nat)
    requires a > 0 && b > 0 && (p == 0 || q == 0)
    ensures Smaller(p, a, q, b).num == 0
  {
    if p > 0 {
      MulStrict(0, p, b);
    }
  }

  /** The fitted size always lies on the grid. It is inside the canvas turned the image's way
      exactly when one grid cell fits the canvas's shorter side, and each side differs from the
      exactly scaled side by less than one cell; a canvas without area gives a single cell. */
  lemma FitsAspect(source: Size, canvas: Size, grid: nat)
    requires Positive(source) && 0 < grid
    ensures var f := FitAspect(source, canvas, grid);
            var t := Oriented(source, canvas);
            OnGrid(f, grid) && (f.width <= t.width && f.height <= t.height <==> grid <= Short(canvas))
    ensures var f := FitAspect(source, canvas, grid);
            var r := AspectScale(source, canvas);
            if Short(canvas) == 0 then f == Size(grid, grid)
            else
              && f.width * r.den < source.width * r.num + grid * r.den
              && source.width * r.num < f.width * r.den + grid * r.den
              && f.height * r.den < source.height * r.num + grid * r.den
              && source.height * r.num < f.height * r.den + grid * r.den
  {
    var t := Oriented(source, canvas);
    assert Short(t) >= Short(canvas) && (t.width == Short(canvas) || t.height == Short(canvas));
    if Short(canvas) == 0 {
      NoCanvas(source, canvas, grid);
    } else {
      hide SnapInto;
      hide AspectScale;
      hide Oriented;
      var r := AspectScale(source, canvas);
      ScaleFits(source, canvas);
      SnapIntoWithin(source.width * r.num, r.den, grid, t.width);
      SnapIntoWithin(source.height * r.num, r.den, grid, t.height);
    }
  }
}
