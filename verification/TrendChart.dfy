/**
 The trend chart of the reports page (apps/web/components/admin-reports-workspace.tsx, TrendChart
 and roundUi): coordinates in a padded plot, rounded to one decimal, and the choice of date labels.
 */
module TrendChart {
  const WIDTH: real := 760.0
  const HEIGHT: real := 260.0
  const PADDING: real := 26.0

  datatype Point = Point(submitted: nat, confirmed: nat, completed: nat)
  datatype Series = Submitted | Confirmed | Completed

  function ValueOf(p: Point, key: Series): nat {
    match key
    case Submitted => p.submitted
    case Confirmed => p.confirmed
    case Completed => p.completed
  }

  function Largest(a: int, b: int): int { if a < b then b else a }

  /** The largest value of all three series, and at least one. */
  function Top(points: seq<Point>): (m: nat)
    ensures m >= 1
    ensures forall i, key :: 0 <= i < |points| ==> ValueOf(points[i], key) <= m
    ensures m == 1 || exists i, key :: 0 <= i < |points| && ValueOf(points[i], key) == m
  {
    if points == [] then 1
    else
      var p, rest := points[0], Top(points[1..]);
      var m := Largest(rest, Largest(p.submitted, Largest(p.confirmed, p.completed)));
      assert m == rest || m == ValueOf(p, Submitted) || m == ValueOf(p, Confirmed) || m == ValueOf(p, Completed);
      m
  }

  /** Math.round(value * 10) / 10. */
  function RoundUi(value: real): real { (value * 10.0 + 0.5).Floor as real / 10.0 }

  function X(index: nat, count: nat): real {
    PADDING + index as real / Largest(count - 1, 1) as real * (WIDTH - PADDING * 2.0)
  }

  function Y(value: nat, max: nat): real
    requires max >= 1
  {
    HEIGHT - PADDING - value as real / max as real * (HEIGHT - PADDING * 2.0)
  }

  function Coordinates(points: seq<Point>, key: Series): (line: seq<(real, real)>)
    ensures |line| == |points|
    ensures forall i :: 0 <= i < |line| ==>
      line[i] == (RoundUi(X(i, |points|)), RoundUi(Y(ValueOf(points[i], key), Top(points))))
  {
    seq(|points|, i requires 0 <= i < |points| =>
      (RoundUi(X(i, |points|)), RoundUi(Y(ValueOf(points[i], key), Top(points)))))
  }

  // ------------------------------------------------------------------ coordinates

  lemma RoundMonotone(a: real, b: real)
    requires a <= b
    ensures RoundUi(a) <= RoundUi(b)
  {
    var fa, fb := (a * 10.0 + 0.5).Floor, (b * 10.0 + 0.5).Floor;
    assert fa as real <= a * 10.0 + 0.5 <= b * 10.0 + 0.5 < fb as real + 1.0;
    assert fa < fb + 1;
  }

  lemma ShareOrdered(a: nat, b: nat, whole: nat, scale: real)
    requires a <= b <= whole && whole >= 1 && scale >= 0.0
    ensures 0.0 <= a as real / whole as real * scale <= b as real / whole as real * scale <= scale
  {
    var w := whole as real;
    QuotientOrdered(0.0, a as real, w);
    QuotientOrdered(a as real, b as real, w);
    QuotientOrdered(b as real, w, w);
    QuotientEnds(w);
    ScaleOrdered(0.0, a as real / w, scale);
    ScaleOrdered(a as real / w, b as real / w, scale);
    ScaleOrdered(b as real / w, 1.0, scale);
  }

  lemma QuotientEnds(w: real)
    requires w > 0.0
    ensures w / w == 1.0
    ensures 0.0 / w == 0.0
  {
    assert 0.0 / w * w == 0.0;
  }

  lemma Distributed(x: real, y: real, w: real)
    ensures (y - x) * w == y * w - x * w
  {
  }

  lemma PositiveFactor(d: real, w: real)
    requires w > 0.0 && d * w >= 0.0
    ensures d >= 0.0
  {
  }

  lemma QuotientOrdered(a: real, b: real, w: real)
    requires a <= b && w > 0.0
    ensures a / w <= b / w
  {
    assert a / w * w == a;
    assert b / w * w == b;
    Distributed(a / w, b / w, w);
    PositiveFactor(b / w - a / w, w);
  }

  lemma ScaleOrdered(a: real, b: real, scale: real)
    requires a <= b && scale >= 0.0
    ensures a * scale <= b * scale
  {
  }

  lemma XInThePlot(i: nat, count: nat)
    requires i < count
    ensures 26.0 <= RoundUi(X(i, count)) <= 734.0
  {
    ShareOrdered(i, i, Largest(count - 1, 1), 708.0);
    RoundMonotone(26.0, X(i, count));
    RoundMonotone(X(i, count), 734.0);
    assert RoundUi(26.0) == 26.0 && RoundUi(734.0) == 734.0;
  }

  lemma YInThePlot(value: nat, max: nat)
    requires value <= max && max >= 1
    ensures 26.0 <= RoundUi(Y(value, max)) <= 234.0
  {
    ShareOrdered(value, value, max, 208.0);
    RoundMonotone(26.0, Y(value, max));
    RoundMonotone(Y(value, max), 234.0);
    assert RoundUi(26.0) == 26.0 && RoundUi(234.0) == 234.0;
  }

  /** Every drawn point lies in the padded plot. */
  lemma InThePlot(points: seq<Point>, key: Series, i: nat)
    requires i < |points|
    ensures var (x, y) := Coordinates(points, key)[i];
      26.0 <= x <= 734.0 && 26.0 <= y <= 234.0
  {
    XInThePlot(i, |points|);
    YInThePlot(ValueOf(points[i], key), Top(points));
  }

  /** Along a line x never goes back, and a larger value is never drawn lower. */
  lemma DrawnInOrder(points: seq<Point>, a: Series, b: Series, i: nat, j: nat)
    requires i < |points| && j < |points|
    ensures i <= j ==> Coordinates(points, a)[i].0 <= Coordinates(points, b)[j].0
    ensures ValueOf(points[i], a) <= ValueOf(points[j], b) ==>
      Coordinates(points, b)[j].1 <= Coordinates(points, a)[i].1
  {
    if i <= j {
      ShareOrdered(i, j, Largest(|points| - 1, 1), 708.0);
      RoundMonotone(X(i, |points|), X(j, |points|));
    }
    var v, w := ValueOf(points[i], a), ValueOf(points[j], b);
    if v <= w {
      ShareOrdered(v, w, Top(points), 208.0);
      RoundMonotone(Y(w, Top(points)), Y(v, Top(points)));
    }
  }

  /** The line spans the plot: it starts at its left edge, and with two points or more ends at its right edge. */
  lemma SpansThePlot(points: seq<Point>, key: Series)
    requires points != []
    ensures Coordinates(points, key)[0].0 == 26.0
    ensures |points| >= 2 ==> Coordinates(points, key)[|points| - 1].0 == 734.0
  {
    assert X(0, |points|) == 26.0 && RoundUi(26.0) == 26.0;
    if |points| >= 2 {
      RightEdge(|points|);
    }
  }

  lemma RightEdge(count: nat)
    requires count >= 2
    ensures RoundUi(X(count - 1, count)) == 734.0
  {
    var n := (count - 1) as real;
    assert n / n == 1.0;
    assert RoundUi(734.0) == 734.0;
  }

  // ----------------------------------------------------------------------- labels

  function CeilDiv(a: nat, b: nat): nat
    requires b > 0
  {
    (a + b - 1) / b
  }

  function LabelEvery(count: nat): (r: nat)
    ensures r >= 1
  {
    Largest(1, CeilDiv(count, 6))
  }

  predicate Labelled(index: nat, count: nat) { index % LabelEvery(count) == 0 || index == count - 1 }

  function LabelsBelow(limit: nat, count: nat): nat {
    if limit == 0 then 0 else LabelsBelow(limit - 1, count) + if Labelled(limit - 1, count) then 1 else 0
  }

  lemma NextMultiple(k: nat, every: nat)
    requires every > 0
    ensures CeilDiv(k + 1, every) == CeilDiv(k, every) + if k % every == 0 then 1 else 0
  {
    var q, r := k / every, k % every;
    assert k == every * q + r;
    if r == 0 {
      assert (k + every - 1) / every == q by { DivIs(k + every - 1, every, q, every - 1); }
      assert (k + 1 + every - 1) / every == q + 1 by { DivIs(k + every, every, q + 1, 0); }
    } else {
      assert every * (q + 1) == every * q + every;
      DivIs(k + every - 1, every, q + 1, r - 1);
      DivIs(k + every, every, q + 1, r);
    }
  }

  lemma Cancel(every: nat, x: int, y: int)
    requires every > 0 && every * x < every * y
    ensures x < y
  {
    assert every * (y - x) > 0;
  }

  lemma DivIs(a: nat, every: nat, q: nat, r: nat)
    requires every > 0 && a == every * q + r && r < every
    ensures a / every == q
  {
    var p := a / every;
    assert every * p <= a < every * p + every == every * (p + 1);
    assert every * q <= a < every * q + every == every * (q + 1);
    Cancel(every, p, q + 1);
    Cancel(every, q, p + 1);
  }

  lemma {:induction false} LabelsCounted(limit: nat, count: nat)
    requires limit < count
    ensures LabelsBelow(limit, count) == CeilDiv(limit, LabelEvery(count))
  {
    if limit > 0 {
      LabelsCounted(limit - 1, count);
      NextMultiple(limit - 1, LabelEvery(count));
    } else {
      DivIs(LabelEvery(count) - 1, LabelEvery(count), 0, LabelEvery(count) - 1);
    }
  }

  /** At most seven dates are written below the chart, whatever the length of the period, and the first and the last always are. */
  lemma AtMostSevenLabels(count: nat)
    requires count > 0
    ensures LabelsBelow(count, count) <= 7
    ensures Labelled(0, count) && Labelled(count - 1, count)
  {
    LabelsCounted(count - 1, count);
    var every := LabelEvery(count);
    assert count <= 6 * every;
    var labels := (count - 1 + every - 1) / every;
    assert every * labels <= count - 1 + every - 1 < every * 7;
    Cancel(every, labels, 7);
  }

  /** Seven is reached: twelve days are labelled every second day, and on the last. */
  lemma SevenLabels()
    ensures LabelsBelow(12, 12) == 7
  {
    assert LabelEvery(12) == 2;
    LabelsCounted(11, 12);
  }
}
