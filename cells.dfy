/** The dashboard's computed cells: the fill-rate colour buckets (`createTauxRemplissageCell`)
    and the delta progress bar (`createDeltaCell`), over exact reals. */
module Cells {
  import opened Json

  /** `parseFloat` of a field value: a number is itself, anything else is NaN (None). */
  function ParseNumber(v: Value): Option<real>
  {
    if v.Num? then Some(v.n) else None
  }

  /** `Math.round`: the nearest integer, halves rounded up. */
  function JsRound(x: real): (r: int)
    ensures r as real - 0.5 <= x < r as real + 0.5
  {
    (x + 0.5).Floor
  }

  // ---------------------------------------------------------------------------
  // Fill rate

  datatype Colour = Green | Yellow | Red

  /** The cell: '-', an integer percentage with its colour, or "NaN%" (red). */
  datatype FillCell = NoRate | Rate(percent: int, colour: Colour) | NotANumber

  /** A value up to 1 is a fraction and is scaled by 100; above 1 it is already a percentage. */
  function FillPercent(x: real): (p: int)
    ensures x <= 1.0 ==> p as real - 0.5 <= x * 100.0 < p as real + 0.5
    ensures x > 1.0 ==> p as real - 0.5 <= x < p as real + 0.5
  {
    if x <= 1.0 then JsRound(x * 100.0) else JsRound(x)
  }

  function Bucket(percent: int): (c: Colour)
    ensures c == Green <==> percent >= 100
    ensures c == Yellow <==> 0 < percent < 100
    ensures c == Red <==> percent <= 0
  {
    if percent >= 100 then Green else if percent > 0 then Yellow else Red
  }

  function FillRateCell(v: Value): (cell: FillCell)
    ensures cell == NoRate <==> v == Null || v == Str("")
    ensures v.Num? ==> cell == Rate(FillPercent(v.n), Bucket(FillPercent(v.n)))
    ensures v.Str? && v.s != "" ==> cell == NotANumber
  {
    if v == Null || v == Str("") then NoRate
    else
      match ParseNumber(v)
      case Some(x) => var p := FillPercent(x); Rate(p, Bucket(p))
      case None => NotANumber
  }

  /** A fraction between 0 and 1 shows as a percentage between 0 and 100; a full fraction is green
      and an empty one red. */
  lemma FractionBounds(x: real)
    requires 0.0 <= x <= 1.0
    ensures 0 <= FillPercent(x) <= 100
    ensures x == 1.0 ==> FillRateCell(Num(x)) == Rate(100, Green)
    ensures x < 0.005 ==> FillRateCell(Num(x)) == Rate(0, Red)
  {
  }

  /** The two scales meet badly at 1: a rate of exactly 1 is a full 100 %, a rate just above it
      reads as about 1 %. */
  lemma ScalesAreDiscontinuousAtOne()
    ensures FillRateCell(Num(1.0)) == Rate(100, Green)
    ensures FillRateCell(Num(1.2)) == Rate(1, Yellow)
  {
    assert JsRound(1.2) == 1;
  }

  // ---------------------------------------------------------------------------
  // Delta bar

  /** The cell: '-' for a missing delta, else a bar of the given width (in %) and the delta shown. */
  datatype DeltaCell = NoDelta | Bar(width: real, shown: real)

  /** `parseFloat(v) || fallback`: NaN and 0 both fall back. */
  function NumberOr(v: Value, fallback: real): (x: real)
    ensures v.Num? && v.n != 0.0 ==> x == v.n
    ensures !(v.Num? && v.n != 0.0) ==> x == fallback
  {
    match ParseNumber(v)
    case Some(n) => if n != 0.0 then n else fallback
    case None => fallback
  }

  function Clamp(x: real): (r: real)
    ensures 0.0 <= r <= 100.0
    ensures 0.0 <= x <= 100.0 ==> r == x
    ensures x < 0.0 ==> r == 0.0
    ensures x > 100.0 ==> r == 100.0
  {
    if x < 0.0 then 0.0 else if x > 100.0 then 100.0 else x
  }

  /** The quota in use: a missing, text or zero quota counts as 1. */
  function QuotaOf(quotaValue: Value): real
  {
    NumberOr(quotaValue, 1.0)
  }

  function DeltaCellOf(deltaValue: Value, quotaValue: Value): (cell: DeltaCell)
    ensures cell == NoDelta <==> deltaValue == Null
    ensures cell.Bar? ==> 0.0 <= cell.width <= 100.0
    ensures cell.Bar? ==> cell.shown == NumberOr(deltaValue, 0.0)
    ensures cell.Bar? && QuotaOf(quotaValue) < 0.0 ==> cell.width == 0.0
  {
    if deltaValue == Null then NoDelta
    else
      var delta := NumberOr(deltaValue, 0.0);
      var quota := QuotaOf(quotaValue);
      Bar(if quota > 0.0 then Clamp(delta / quota * 100.0) else 0.0, delta)
  }

  /** The sign of a product with a positive factor is the sign of the other factor. */
  lemma PositiveFactor(t: real, q: real)
    requires q > 0.0
    ensures t > 0.0 ==> t * q > 0.0
    ensures t < 0.0 ==> t * q < 0.0
  {
  }

  /** The delta's share of a positive quota reaches 1 exactly when the delta reaches the quota,
      and is positive exactly when the delta is. */
  lemma ShareOfQuota(d: real, q: real)
    requires q > 0.0
    ensures d >= q <==> d / q >= 1.0
    ensures d <= 0.0 <==> d / q <= 0.0
  {
    var t := d / q;
    assert d == t * q;
    assert d - q == (t - 1.0) * q;
    PositiveFactor(t, q);
    PositiveFactor(t - 1.0, q);
  }

  /** With a positive quota the bar is full exactly when the delta reaches the quota, empty
      exactly when the delta is not positive, and otherwise the delta's share of the quota. */
  lemma DeltaBarMeaning(deltaValue: Value, quotaValue: Value)
    requires deltaValue != Null && QuotaOf(quotaValue) > 0.0
    ensures var d, q, w := NumberOr(deltaValue, 0.0), QuotaOf(quotaValue), DeltaCellOf(deltaValue, quotaValue).width;
      && (w == 100.0 <==> d >= q)
      && (w == 0.0 <==> d <= 0.0)
      && (0.0 < d < q ==> w == d / q * 100.0)
  {
    ShareOfQuota(NumberOr(deltaValue, 0.0), QuotaOf(quotaValue));
  }

  /** A missing or zero quota makes the bar the delta read as a percentage of 1. */
  lemma ZeroQuotaCountsAsOne(deltaValue: Value)
    requires deltaValue != Null
    ensures DeltaCellOf(deltaValue, Null).width == Clamp(NumberOr(deltaValue, 0.0) * 100.0)
    ensures DeltaCellOf(deltaValue, Num(0.0)).width == Clamp(NumberOr(deltaValue, 0.0) * 100.0)
  {
  }
}
