/**
 * The KPI card's chart geometry over exact reals: the value range and the
 * y map of the line chart, the x positions of its points and their
 * non-overlapping hover areas, the bar colours and the zero baseline of the
 * bar chart, the header badge and target text, and the hover state.
 */
module KpiCard {
  import opened Wrappers

  datatype ChartType = Bar | Line

  /** `Math.min(...data)`. */
  function Min(data: seq<real>): (m: real)
    requires |data| > 0
    ensures exists i :: 0 <= i < |data| && data[i] == m
    ensures forall i :: 0 <= i < |data| ==> m <= data[i]
  {
    if |data| == 1 then data[0]
    else
      var rest := Min(data[1..]);
      assert forall i :: 1 <= i < |data| ==> data[i] == data[1..][i - 1];
      if data[0] <= rest then data[0] else rest
  }

  /** `Math.max(...data)`. */
  function Max(data: seq<real>): (m: real)
    requires |data| > 0
    ensures exists i :: 0 <= i < |data| && data[i] == m
    ensures forall i :: 0 <= i < |data| ==> data[i] <= m
  {
    if |data| == 1 then data[0]
    else
      var rest := Max(data[1..]);
      assert forall i :: 1 <= i < |data| ==> data[i] == data[1..][i - 1];
      if data[0] >= rest then data[0] else rest
  }

  /** `max - min || 1`: the spread of the values, or 1 when they are all equal. */
  function Range(data: seq<real>): (r: real)
    requires |data| > 0
    ensures r > 0.0
    ensures Max(data) > Min(data) ==> r == Max(data) - Min(data)
    ensures Max(data) == Min(data) ==> r == 1.0
  {
    var spread := Max(data) - Min(data);
    if spread != 0.0 then spread else 1.0
  }

  /** Dividing by a positive number keeps the order. */
  lemma DivideMonotone(a: real, b: real, r: real)
    requires r > 0.0 && a <= b
    ensures a / r <= b / r
  {
    assert b / r - a / r == (b - a) / r;
  }

  /** A nonzero number divided by itself is 1. */
  lemma SelfQuotient(r: real)
    requires r != 0.0
    ensures r / r == 1.0
  {
  }

  /** Dividing by a positive number keeps the strict order. */
  lemma DivideStrictlyMonotone(a: real, b: real, r: real)
    requires r > 0.0 && a < b
    ensures a / r < b / r
  {
    assert b / r - a / r == (b - a) / r;
  }

  /**
   * `getYPosition`: the line chart's y coordinate of a value, 100 at the
   * bottom; the drop from the bottom edge is the value's share of the range.
   */
  function YPosition(data: seq<real>, v: real): (y: real)
    requires |data| > 0
    ensures (100.0 - y) * Range(data) == (v - Min(data)) * 100.0
  {
    YOf(v, Min(data), Range(data))
  }

  /** The y map for a given minimum and range. */
  function YOf(v: real, lo: real, r: real): real
    requires r > 0.0
  {
    100.0 - ((v - lo) / r) * 100.0
  }

  /** The smallest value sits on the bottom edge; when the values differ the largest sits on the top edge. */
  lemma YPositionEnds(data: seq<real>)
    requires |data| > 0
    ensures YPosition(data, Min(data)) == 100.0
    ensures Max(data) > Min(data) ==> YPosition(data, Max(data)) == 0.0
    ensures Max(data) == Min(data) ==> forall i :: 0 <= i < |data| ==> YPosition(data, data[i]) == 100.0
  {
    var lo, hi, r := Min(data), Max(data), Range(data);
    YOfEnds(lo, hi, r);
    if hi == lo {
      forall i | 0 <= i < |data| ensures YPosition(data, data[i]) == 100.0 {
        assert data[i] == lo;
      }
    }
  }

  /** The y map sends the minimum to 100 and, over the exact spread, the maximum to 0. */
  lemma YOfEnds(lo: real, hi: real, r: real)
    requires r > 0.0
    ensures YOf(lo, lo, r) == 100.0
    ensures r == hi - lo ==> YOf(hi, lo, r) == 0.0
  {
  }

  /** Larger values are drawn higher: the y map reverses the order. */
  lemma YPositionReversesOrder(data: seq<real>, v: real, w: real)
    requires |data| > 0
    ensures v < w <==> YPosition(data, v) > YPosition(data, w)
  {
    var r := Range(data);
    var lo := Min(data);
    if v < w {
      DivideStrictlyMonotone(v - lo, w - lo, r);
    } else {
      DivideMonotone(w - lo, v - lo, r);
    }
  }

  /** Every value of the data lies within the chart's [0,100]. */
  lemma YPositionInChart(data: seq<real>, i: int)
    requires 0 <= i < |data|
    ensures 0.0 <= YPosition(data, data[i]) <= 100.0
  {
    var r := Range(data);
    var lo := Min(data);
    var hi := Max(data);
    assert 0.0 <= data[i] - lo <= hi - lo;
    if hi > lo {
      DivideMonotone(data[i] - lo, hi - lo, r);
      DivideMonotone(0.0, data[i] - lo, r);
      assert (hi - lo) / r == 1.0;
    } else {
      assert data[i] - lo == 0.0;
    }
  }

  /** The x coordinate of point `i` of `n`: centred when alone, otherwise evenly spread over [0,100]. */
  function XPosition(n: int, i: int): (x: real)
    requires 0 <= i < n
    ensures n == 1 ==> x == 50.0
    ensures n > 1 && i == 0 ==> x == 0.0
    ensures n > 1 && i == n - 1 ==> x == 100.0
    ensures 0.0 <= x <= 100.0
  {
    if n == 1 then 50.0 else (i as real / (n - 1) as real) * 100.0
  }

  /** Consecutive points are `100 / (n - 1)` apart. */
  lemma XPositionStep(n: int, i: int)
    requires n > 1 && 0 <= i < n - 1
    ensures XPosition(n, i + 1) - XPosition(n, i) == 100.0 / (n - 1) as real
    ensures XPosition(n, i) < XPosition(n, i + 1)
  {
    var d := (n - 1) as real;
    assert (i + 1) as real / d == i as real / d + 1.0 / d;
  }

  /** Where point `i`'s hover area begins: 0 for the first, else half-way from the previous point. */
  function AreaStart(n: int, i: int): (a: real)
    requires 0 <= i < n
    ensures 0.0 <= a <= 100.0
    ensures n == 1 || i == 0 ==> a == 0.0
    ensures n > 1 && i > 0 ==> a - XPosition(n, i - 1) == XPosition(n, i) - a
  {
    if n == 1 || i == 0 then 0.0 else (XPosition(n, i - 1) + XPosition(n, i)) / 2.0
  }

  /** Where point `i`'s hover area ends: 100 for the last, else half-way to the next point. */
  function AreaEnd(n: int, i: int): (b: real)
    requires 0 <= i < n
    ensures 0.0 <= b <= 100.0
    ensures n == 1 || i == n - 1 ==> b == 100.0
    ensures n > 1 && i < n - 1 ==> b - XPosition(n, i) == XPosition(n, i + 1) - b
  {
    if n == 1 || i == n - 1 then 100.0 else (XPosition(n, i) + XPosition(n, i + 1)) / 2.0
  }

  /**
   * The hit rectangle of point `i`, computed branch by branch as the chart
   * does: it spans exactly from the midpoint with the previous point to the
   * midpoint with the next one.
   */
  method HitArea(n: int, i: int) returns (hitAreaX: real, hitAreaWidth: real)
    requires 0 <= i < n
    ensures hitAreaX == AreaStart(n, i)
    ensures hitAreaX + hitAreaWidth == AreaEnd(n, i)
  {
    var x := XPosition(n, i);
    hitAreaX := 0.0;
    hitAreaWidth := 100.0;
    if n > 1 {
      if i == 0 {
        var nextX := (1.0 / (n - 1) as real) * 100.0;
        assert nextX == XPosition(n, 1);
        hitAreaX := 0.0;
        hitAreaWidth := nextX / 2.0;
      } else if i == n - 1 {
        var prevX := ((i - 1) as real / (n - 1) as real) * 100.0;
        hitAreaX := prevX + (x - prevX) / 2.0;
        hitAreaWidth := 100.0 - hitAreaX;
      } else {
        var prevX := ((i - 1) as real / (n - 1) as real) * 100.0;
        var nextX := ((i + 1) as real / (n - 1) as real) * 100.0;
        hitAreaX := prevX + (x - prevX) / 2.0;
        hitAreaWidth := (nextX + (x - nextX) / 2.0) - hitAreaX;
      }
    }
  }

  /** A lone point's area is the whole chart. */
  lemma SingleAreaIsWholeChart()
    ensures AreaStart(1, 0) == 0.0 && AreaEnd(1, 0) == 100.0 && XPosition(1, 0) == 50.0
  {
  }

  /** The areas tile [0,100]: the first starts at 0, each ends where the next begins, the last ends at 100. */
  lemma AreasTile(n: int)
    requires n > 1
    ensures AreaStart(n, 0) == 0.0
    ensures AreaEnd(n, n - 1) == 100.0
    ensures forall i {:trigger AreaEnd(n, i)} :: 0 <= i < n - 1 ==> AreaEnd(n, i) == AreaStart(n, i + 1)
  {
  }

  /** Each point lies strictly inside its own area, which is therefore never empty. */
  lemma PointInOwnArea(n: int, i: int)
    requires 0 <= i < n
    ensures AreaStart(n, i) <= XPosition(n, i) <= AreaEnd(n, i)
    ensures AreaStart(n, i) < AreaEnd(n, i)
  {
    if n > 1 {
      if i > 0 {
        XPositionStep(n, i - 1);
      }
      if i < n - 1 {
        XPositionStep(n, i);
      }
    }
  }

  /** Areas of different points do not overlap: an earlier area ends before a later one starts. */
  lemma {:induction false} AreasOrdered(n: int, i: int, j: int)
    requires 0 <= i < j < n
    ensures AreaEnd(n, i) <= AreaStart(n, j)
    decreases j - i
  {
    if j > i + 1 {
      AreasOrdered(n, i + 1, j);
      PointInOwnArea(n, i + 1);
    }
  }

  /** A position before the end of area `k` falls in some area up to `k`. */
  lemma {:induction false} HitBefore(n: int, k: int, px: real) returns (i: int)
    requires 0 <= k < n
    requires 0.0 <= px < AreaEnd(n, k)
    ensures 0 <= i <= k
    ensures AreaStart(n, i) <= px < AreaEnd(n, i)
  {
    if k == 0 || px >= AreaEnd(n, k - 1) {
      i := k;
    } else {
      i := HitBefore(n, k - 1, px);
    }
  }

  /** Every position of [0,100) is covered by the area of exactly one point. */
  lemma HitIsUnique(n: int, px: real)
    requires n >= 1
    requires 0.0 <= px < 100.0
    ensures exists i :: 0 <= i < n && AreaStart(n, i) <= px < AreaEnd(n, i)
    ensures forall i, j :: (0 <= i < n && 0 <= j < n &&
      AreaStart(n, i) <= px < AreaEnd(n, i) && AreaStart(n, j) <= px < AreaEnd(n, j)) ==> i == j
  {
    var i := HitBefore(n, n - 1, px);
    forall i, j | 0 <= i < n && 0 <= j < n &&
      AreaStart(n, i) <= px < AreaEnd(n, i) && AreaStart(n, j) <= px < AreaEnd(n, j)
      ensures i == j
    {
      if i < j {
        AreasOrdered(n, i, j);
      } else if j < i {
        AreasOrdered(n, j, i);
      }
    }
  }

  /** The total width of the first `k` areas. */
  function AreaWidths(n: int, k: int): real
    requires 0 <= k <= n
  {
    if k == 0 then 0.0 else AreaWidths(n, k - 1) + (AreaEnd(n, k - 1) - AreaStart(n, k - 1))
  }

  /** The widths add up to the chart's width of 100. */
  lemma AreaWidthsSumToChart(n: int)
    requires n >= 1
    ensures AreaWidths(n, n) == 100.0
  {
    AreaWidthsPrefix(n, n);
  }

  lemma {:induction false} AreaWidthsPrefix(n: int, k: int)
    requires 1 <= k <= n
    ensures AreaWidths(n, k) == AreaEnd(n, k - 1)
  {
    if k > 1 {
      AreaWidthsPrefix(n, k - 1);
    }
  }

  datatype BarColour = Red | Blue

  /** `isDrop`: below the previous value; the first bar has none. */
  function IsDrop(data: seq<real>, i: int): (drop: bool)
    requires 0 <= i < |data|
    ensures i == 0 ==> !drop
    ensures i > 0 ==> (drop <==> data[i] < data[i - 1])
  {
    i > 0 && data[i] < data[i - 1]
  }

  /** The bar's class: red for negative values and for drops, blue otherwise. */
  function BarColourOf(data: seq<real>, i: int): (c: BarColour)
    requires 0 <= i < |data|
    ensures c == Red <==> data[i] < 0.0 || (i > 0 && data[i] < data[i - 1])
    ensures i == 0 ==> (c == Red <==> data[0] < 0.0)
  {
    if data[i] < 0.0 then Red else if IsDrop(data, i) then Red else Blue
  }

  /** Every bar is blue exactly when no value is negative and none falls below its predecessor. */
  lemma AllBlueIffNonNegativeNonDecreasing(data: seq<real>)
    ensures (forall i :: 0 <= i < |data| ==> BarColourOf(data, i) == Blue) <==>
      (forall i :: 0 <= i < |data| ==> 0.0 <= data[i]) &&
      (forall i :: 0 < i < |data| ==> data[i - 1] <= data[i])
  {
    if forall i :: 0 <= i < |data| ==> BarColourOf(data, i) == Blue {
      forall i | 0 < i < |data| ensures data[i - 1] <= data[i] {
        assert BarColourOf(data, i) == Blue;
      }
      forall i | 0 <= i < |data| ensures 0.0 <= data[i] {
        assert BarColourOf(data, i) == Blue;
      }
    }
  }

  /** The bar chart's vertical scale and the position of its zero line. */
  datatype BarLayout = BarLayout(hasNegativeValues: bool, barRange: real,
                                 zeroPositionFromBottom: real, zeroPositionFromTop: real)

  /**
   * The zero line for a minimum and a scale: raised to `(0 - min) / barRange`
   * of the chart's height when some value is negative.
   */
  function ZeroBaseline(lo: real, barRange: real): (l: BarLayout)
    requires lo < 0.0 ==> barRange != 0.0
    ensures l.hasNegativeValues <==> lo < 0.0
    ensures l.barRange == barRange
    ensures l.zeroPositionFromTop == 1.0 - l.zeroPositionFromBottom
    ensures l.hasNegativeValues ==> l.zeroPositionFromBottom == (0.0 - lo) / barRange
    ensures !l.hasNegativeValues ==> l.zeroPositionFromBottom == 0.0 && l.zeroPositionFromTop == 1.0
  {
    var hasNegativeValues := lo < 0.0;
    var zeroFromBottom := if hasNegativeValues then (0.0 - lo) / barRange else 0.0;
    BarLayout(hasNegativeValues, barRange, zeroFromBottom,
              if hasNegativeValues then 1.0 - zeroFromBottom else 1.0)
  }

  /**
   * The chart's scale: `max - min` when a value is negative, else `max`.
   * With every value negative it is shorter than the distance from the
   * minimum up to zero.
   */
  function BarRangeAsWritten(lo: real, hi: real): (r: real)
    ensures lo < 0.0 ==> r + lo == hi
    ensures lo >= 0.0 ==> r == hi
    ensures lo <= hi < 0.0 ==> r < -lo
  {
    if lo < 0.0 then hi - lo else hi
  }

  /** The scale stretched to include zero: `max(max, 0) - min` when a value is negative, else `max`. */
  function BarRange(lo: real, hi: real): (r: real)
    ensures lo < 0.0 ==> r > 0.0 && r >= -lo && r >= hi - lo
    ensures lo < 0.0 && hi >= 0.0 ==> r == BarRangeAsWritten(lo, hi)
    ensures lo >= 0.0 ==> r == BarRangeAsWritten(lo, hi)
  {
    if lo < 0.0 then (if hi > 0.0 then hi else 0.0) - lo else hi
  }

  /** The zero baseline as the chart computes it. */
  function BarLayoutAsWritten(data: seq<real>): (l: BarLayout)
    requires |data| > 0
    requires Min(data) < 0.0 ==> Max(data) > Min(data)
    ensures l.hasNegativeValues <==> Min(data) < 0.0
    ensures l.barRange == BarRangeAsWritten(Min(data), Max(data))
    ensures l.zeroPositionFromTop == 1.0 - l.zeroPositionFromBottom
    ensures l.hasNegativeValues ==> l.zeroPositionFromBottom == (0.0 - Min(data)) / l.barRange
    ensures !l.hasNegativeValues ==>
      l.zeroPositionFromBottom == 0.0 && l.zeroPositionFromTop == 1.0 && l.barRange == Max(data)
  {
    var lo, hi := Min(data), Max(data);
    var r := BarRangeAsWritten(lo, hi);
    ZeroBaseline(lo, r)
  }

  /** With only negative values the zero line falls outside the chart: for [-10, -5] it is twice the chart's height up. */
  lemma AllNegativeZeroLineOffChart()
    ensures BarLayoutAsWritten([-10.0, -5.0]).zeroPositionFromBottom == 2.0
    ensures BarLayoutAsWritten([-10.0, -5.0]).zeroPositionFromTop == -1.0
    ensures HeightPercent(BarLayoutAsWritten([-10.0, -5.0]), -10.0) == 200.0
  {
    var data := [-10.0, -5.0];
    assert Min(data) == -10.0 by { assert Min(data[1..]) == -5.0; }
    assert Max(data) == -5.0 by { assert Max(data[1..]) == -5.0; }
  }

  /** The zero baseline on the corrected scale; a negative value always puts the zero line inside the chart. */
  function BarLayoutOf(data: seq<real>): (l: BarLayout)
    requires |data| > 0
    ensures l.hasNegativeValues <==> Min(data) < 0.0
    ensures l.barRange == BarRange(Min(data), Max(data))
    ensures l.zeroPositionFromTop == 1.0 - l.zeroPositionFromBottom
    ensures l.hasNegativeValues ==> l.zeroPositionFromBottom == (0.0 - Min(data)) / l.barRange
    ensures !l.hasNegativeValues ==>
      l.zeroPositionFromBottom == 0.0 && l.zeroPositionFromTop == 1.0 && l.barRange == Max(data)
    ensures l.hasNegativeValues ==> l.barRange > 0.0 && 0.0 < l.zeroPositionFromBottom <= 1.0
  {
    var lo, hi := Min(data), Max(data);
    var r := BarRange(lo, hi);
    ZeroInsideChart(lo, hi);
    ZeroBaseline(lo, r)
  }

  /** On the corrected scale the zero line lies within the chart whenever a value is negative. */
  lemma ZeroInsideChart(lo: real, hi: real)
    ensures lo < 0.0 ==> 0.0 < ZeroBaseline(lo, BarRange(lo, hi)).zeroPositionFromBottom <= 1.0
  {
    if lo < 0.0 {
      var r := BarRange(lo, hi);
      DivideMonotone(0.0 - lo, r, r);
      DivideStrictlyMonotone(0.0, 0.0 - lo, r);
      SelfQuotient(r);
    }
  }

  /** Whenever some value is not negative, the chart's own layout is the corrected one. */
  lemma AsWrittenAgreesWithoutAllNegative(data: seq<real>)
    requires |data| > 0
    requires Max(data) >= 0.0 && (Min(data) < 0.0 ==> Max(data) > Min(data))
    ensures BarLayoutAsWritten(data) == BarLayoutOf(data)
  {
  }

  /** `heightPercent`: a bar's height as a share of the scale; its sign is dropped. */
  function HeightPercent(layout: BarLayout, v: real): (h: real)
    requires layout.barRange != 0.0
    ensures h * layout.barRange == (if v < 0.0 then -v else v) * 100.0
    ensures layout.barRange > 0.0 ==> h >= 0.0
  {
    ((if v < 0.0 then -v else v) / layout.barRange) * 100.0
  }

  /** The fit of one bar, for a value between the minimum and the maximum. */
  lemma BarFits(lo: real, hi: real, v: real)
    requires lo <= v <= hi
    requires lo >= 0.0 ==> hi != 0.0
    ensures var l := ZeroBaseline(lo, BarRange(lo, hi));
            0.0 <= HeightPercent(l, v) &&
            (v < 0.0 ==> l.zeroPositionFromTop * 100.0 + HeightPercent(l, v) <= 100.0) &&
            (v >= 0.0 ==> l.zeroPositionFromBottom * 100.0 + HeightPercent(l, v) <= 100.0)
  {
    var r := BarRange(lo, hi);
    if lo < 0.0 && v < 0.0 {
      NegativeBarFits(lo, v, r);
    } else if lo < 0.0 {
      NonNegativeBarFits(lo, hi, v, r);
    } else {
      UnsignedBarFits(lo, hi, v);
    }
  }

  /** Below the zero line, a bar ends no lower than the bottom edge. */
  lemma NegativeBarFits(lo: real, v: real, r: real)
    requires lo <= v < 0.0 && r >= -lo
    ensures var l := ZeroBaseline(lo, r);
            0.0 <= HeightPercent(l, v) && l.zeroPositionFromTop * 100.0 + HeightPercent(l, v) <= 100.0
  {
    var h := (-v) / r;
    DivideMonotone(-v, 0.0 - lo, r);
    DivideMonotone(0.0, -v, r);
    assert HeightPercent(ZeroBaseline(lo, r), v) == h * 100.0;
  }

  /** Without negative values bars rise from the bottom edge and the tallest reaches the top. */
  lemma UnsignedBarFits(lo: real, hi: real, v: real)
    requires 0.0 <= lo <= v <= hi && hi != 0.0
    ensures var l := ZeroBaseline(lo, BarRange(lo, hi));
            0.0 <= HeightPercent(l, v) && l.zeroPositionFromBottom * 100.0 + HeightPercent(l, v) <= 100.0
  {
    DivideMonotone(v, hi, hi);
    DivideMonotone(0.0, v, hi);
    assert hi / hi == 1.0;
    assert HeightPercent(ZeroBaseline(lo, hi), v) == (v / hi) * 100.0;
  }

  /** Above a raised zero line, a bar ends no higher than the top edge. */
  lemma NonNegativeBarFits(lo: real, hi: real, v: real, r: real)
    requires lo < 0.0 <= v <= hi
    requires r == BarRange(lo, hi)
    ensures var l := ZeroBaseline(lo, r);
            0.0 <= HeightPercent(l, v) && l.zeroPositionFromBottom * 100.0 + HeightPercent(l, v) <= 100.0
  {
    DivideMonotone(0.0, v, r);
    assert HeightPercent(ZeroBaseline(lo, r), v) == (v / r) * 100.0;
    assert (0.0 - lo) / r + v / r == (v - lo) / r;
    DivideMonotone(v - lo, r, r);
    assert r / r == 1.0;
  }

  /**
   * With the corrected layout every bar stays inside the chart: a negative
   * bar hangs from the zero line no lower than the bottom edge, a positive
   * one rises from it no higher than the top. Without negatives the scale
   * is the maximum, which must not be 0.
   */
  lemma BarsFitInChart(data: seq<real>, i: int)
    requires 0 <= i < |data|
    requires Min(data) >= 0.0 ==> Max(data) != 0.0
    ensures var l := BarLayoutOf(data);
            0.0 <= HeightPercent(l, data[i]) &&
            (data[i] < 0.0 ==> l.zeroPositionFromTop * 100.0 + HeightPercent(l, data[i]) <= 100.0) &&
            (data[i] >= 0.0 ==> l.zeroPositionFromBottom * 100.0 + HeightPercent(l, data[i]) <= 100.0)
  {
    BarFits(Min(data), Max(data), data[i]);
  }

  const Up := "\U{25B2}"
  const Down := "\U{25BC}"

  /** The header's change badge: an up arrow for a non-negative percentage, and its magnitude. */
  function HeaderBadge(percentage: real): (badge: (string, real))
    ensures badge.0 == Up <==> percentage >= 0.0
    ensures badge.0 == Up || badge.0 == Down
    ensures badge.1 >= 0.0 && (badge.1 == percentage || badge.1 == -percentage)
  {
    var isPositive := percentage >= 0.0;
    (if isPositive then Up else Down, if percentage < 0.0 then -percentage else percentage)
  }

  /** A number as JavaScript's division can produce it. */
  datatype Number = Finite(value: real) | PositiveInfinity | NegativeInfinity | NotANumber

  /** `value / target * 100`, with a zero target giving an infinity, or NaN when the value is 0 too. */
  function ProgressToTarget(value: real, target: real): (p: Number)
    ensures target != 0.0 ==> p == Finite(value / target * 100.0)
    ensures target == 0.0 ==>
      (p.PositiveInfinity? <==> value > 0.0) && (p.NegativeInfinity? <==> value < 0.0) && (p.NotANumber? <==> value == 0.0)
  {
    if target != 0.0 then Finite(value / target * 100.0)
    else if value > 0.0 then PositiveInfinity
    else if value < 0.0 then NegativeInfinity
    else NotANumber
  }

  /** `progressToTarget >= 100`; NaN compares false. */
  function AtLeastHundred(p: Number): (reached: bool)
    ensures p.Finite? ==> (reached <==> p.value >= 100.0)
    ensures reached ==> p.Finite? || p.PositiveInfinity?
    ensures p.PositiveInfinity? ==> reached
  {
    match p
    case Finite(v) => v >= 100.0
    case PositiveInfinity => true
    case NegativeInfinity => false
    case NotANumber => false
  }

  /** The target line under the header. */
  datatype TargetLine = TargetReached | Completed(progress: Number)

  /** Shown only on line charts with a target: "Meta alcanzada" once the progress reaches 100%, else the progress. */
  function TargetText(chartType: ChartType, value: real, target: Option<real>): (t: Option<TargetLine>)
    ensures t.Some? <==> chartType == Line && target.Some?
    ensures t.Some? ==> (t.value == TargetReached <==> AtLeastHundred(ProgressToTarget(value, target.value)))
    ensures t.Some? && t.value.Completed? ==> t.value.progress == ProgressToTarget(value, target.value)
  {
    if chartType == Line && target.Some? then
      var progress := ProgressToTarget(value, target.value);
      Some(if AtLeastHundred(progress) then TargetReached else Completed(progress))
    else None
  }

  /**
   * The target counts as reached when the value is at least a positive
   * target, at most a negative one, or positive against a zero target.
   */
  lemma TargetReachedMeans(value: real, target: real)
    ensures target > 0.0 ==> (TargetText(Line, value, Some(target)) == Some(TargetReached) <==> value >= target)
    ensures target < 0.0 ==> (TargetText(Line, value, Some(target)) == Some(TargetReached) <==> value <= target)
    ensures target == 0.0 ==> (TargetText(Line, value, Some(target)) == Some(TargetReached) <==> value > 0.0)
  {
    if target != 0.0 {
      var q := value / target;
      assert q * target == value;
      assert q * 100.0 >= 100.0 <==> q >= 1.0;
      if target > 0.0 {
        assert q >= 1.0 <==> q * target >= target;
      } else {
        assert q >= 1.0 <==> q * target <= target;
      }
    }
  }

  /** An SVG point translated into the chart container's coordinates. */
  datatype Point = Point(x: real, y: real)

  /** The chart's hover state. */
  class HoverState {
    var hoveredIndex: Option<int>
    var hoverPosition: Option<Point>

    constructor ()
      ensures hoveredIndex.None? && hoverPosition.None?
    {
      hoveredIndex := None;
      hoverPosition := None;
    }

    /** The line chart's tooltip is up: a point is hovered and its position is known. */
    function TooltipShown(chartType: ChartType): (shown: bool)
      reads this
      ensures shown ==> chartType == Line
      ensures chartType == Line ==> (shown <==> hoveredIndex.Some? && hoverPosition.Some?)
    {
      chartType == Line && hoveredIndex.Some? && hoverPosition.Some?
    }

    /**
     * Entering a point's hit area or circle: the point becomes hovered; its
     * screen position is recorded only when the SVG, its container and the
     * screen transform are all available.
     */
    method PointMouseEnter(i: int, screenPosition: Option<Point>)
      modifies this
      ensures hoveredIndex == Some(i)
      ensures hoverPosition == if screenPosition.Some? then screenPosition else old(hoverPosition)
    {
      if screenPosition.Some? {
        hoverPosition := screenPosition;
      }
      hoveredIndex := Some(i);
    }

    /** Leaving the SVG clears both, which hides the tooltip. */
    method SvgMouseLeave()
      modifies this
      ensures hoveredIndex.None? && hoverPosition.None?
      ensures !TooltipShown(Line)
    {
      hoveredIndex := None;
      hoverPosition := None;
    }

    /** Entering a bar hovers it; the tooltip position is left alone. */
    method BarMouseEnter(i: int)
      modifies this
      ensures hoveredIndex == Some(i) && hoverPosition == old(hoverPosition)
    {
      hoveredIndex := Some(i);
    }

    /** Leaving a bar clears the hovered index only. */
    method BarMouseLeave()
      modifies this
      ensures hoveredIndex.None? && hoverPosition == old(hoverPosition)
    {
      hoveredIndex := None;
    }
  }
}
