/** The emergency-fund page (src/pages/protection/Contingency.jsx): the
    health score and colour derived from the months of runway, the status
    label, the runway bar and the defaults applied to the loaded record. */
module Contingency {
  import opened JsValue
  import opened JsText
  import opened JsNumber

  /** `calculateHealthScore(months)`: 0 for a missing or zero runway, else
      `Math.min(Math.round(months / 6 * 100), 100)`. */
  function HealthScore(months: JsVal): (r: Num)
    ensures !Truthy(months) ==> r == Finite(0.0)
    ensures !r.NaN? ==> NumLe(r, Finite(100.0))
  {
    if !Truthy(months) then Finite(0.0)
    else Min(Round(Scale(Div(ToNumber(months), Finite(6.0)), 100.0)), Finite(100.0))
  }

  /** The score of a finite number of months `m`, written over reals. */
  lemma ScoreOfMonths(m: real)
    requires m != 0.0
    ensures var r := HealthScore(Number(Finite(m)));
      r.Finite? && r.r == (if m * 100.0 / 6.0 >= 99.5 then 100.0 else RoundHalfUp(m * 100.0 / 6.0) as real)
  {
    assert Div(Finite(m), Finite(6.0)) == Finite(m / 6.0);
    assert m / 6.0 * 100.0 == m * 100.0 / 6.0;
    var n := RoundHalfUp(m * 100.0 / 6.0);
    if n >= 100 {
      assert m * 100.0 / 6.0 >= 99.5;
    }
  }

  /** Six months of runway or more is a full score, and the score never
      falls as the runway grows. */
  lemma ScoreFullAndMonotone(m1: real, m2: real)
    requires 0.0 <= m1 <= m2
    ensures m2 >= 6.0 ==> HealthScore(Number(Finite(m2))) == Finite(100.0)
    ensures HealthScore(Number(Finite(m1))).Finite? && HealthScore(Number(Finite(m2))).Finite?
    ensures HealthScore(Number(Finite(m1))).r <= HealthScore(Number(Finite(m2))).r
  {
    if m1 != 0.0 {
      ScoreOfMonths(m1);
    }
    if m2 != 0.0 {
      ScoreOfMonths(m2);
      if m1 != 0.0 {
        RoundHalfUpMonotone(m1 * 100.0 / 6.0, m2 * 100.0 / 6.0);
      }
    }
  }

  lemma RoundHalfUpMonotone(x: real, y: real)
    requires x <= y
    ensures RoundHalfUp(x) <= RoundHalfUp(y)
  {
    assert (x + 0.5).Floor <= (y + 0.5).Floor by {
      var a := (x + 0.5).Floor;
      assert a as real <= x + 0.5 <= y + 0.5;
    }
  }

  const Healthy := "text-emerald-500"
  const Moderate := "text-amber-500"
  const Critical := "text-red-500"

  /** `getHealthColor(months)`: at least 6 months healthy, at least 3
      moderate, anything else (NaN included) critical. */
  function HealthColor(months: JsVal): (r: string)
    ensures r == Healthy <==> AtLeast(ToNumber(months), 6.0)
    ensures r == Moderate <==> !AtLeast(ToNumber(months), 6.0) && AtLeast(ToNumber(months), 3.0)
    ensures r == Critical <==> !AtLeast(ToNumber(months), 3.0)
  {
    if AtLeast(ToNumber(months), 6.0) then Healthy
    else if AtLeast(ToNumber(months), 3.0) then Moderate
    else Critical
  }

  /** The runway bar's gradient, chosen by the same two thresholds. */
  function BarGradient(months: JsVal): string
  {
    if AtLeast(ToNumber(months), 6.0) then "bg-gradient-to-r from-emerald-600 to-emerald-400"
    else if AtLeast(ToNumber(months), 3.0) then "bg-gradient-to-r from-amber-600 to-amber-400"
    else "bg-gradient-to-r from-red-600 to-red-400"
  }

  /** The bar and the score ring always show the same band. */
  lemma BarMatchesHealthColour(m1: JsVal, m2: JsVal)
    ensures HealthColor(m1) == HealthColor(m2) <==> BarGradient(m1) == BarGradient(m2)
  {
  }

  /** `getHealthLabel(status)`: `(status || 'UNKNOWN').replace('_', ' ')`.
      Only the first underscore becomes a space. A status that is neither
      falsy nor text has no `replace` and throws (None). */
  function HealthLabel(status: JsVal): (r: Option<string>)
    ensures !Truthy(status) ==> r == Some("UNKNOWN")
    ensures status.Str? && Truthy(status) ==> r == Some(ReplaceFirst(status.s, '_', ' '))
    ensures r.None? <==> Truthy(status) && !status.Str?
  {
    assert '_' !in "UNKNOWN";
    match Or(status, Str("UNKNOWN"))
    case Str(s) => Some(ReplaceFirst(s, '_', ' '))
    case _ => None
  }

  /** A label keeps every character but the first underscore. */
  lemma LabelChangesOneCharacter(s: string)
    requires s != ""
    ensures var r := HealthLabel(Str(s)).value;
      |r| == |s| &&
      ('_' in s ==> r[IndexOf(s, '_')] == ' ' && forall i :: 0 <= i < |s| && i != IndexOf(s, '_') ==> r[i] == s[i]) &&
      ('_' !in s ==> r == s)
  {
  }

  /** The runway bar's width: `Math.min(months * (100 / 12), 100)`, twelve
      months filling it. */
  function RunwayBarWidth(months: JsVal): (r: Num)
    ensures !r.NaN? ==> NumLe(r, Finite(100.0))
  {
    Min(Scale(ToNumber(months), 100.0 / 12.0), Finite(100.0))
  }

  /** For a non-negative runway the bar is between empty and full, full
      exactly from 12 months, and at the 6-month target it reaches the
      marker drawn at half width. */
  lemma RunwayBarOfMonths(m: real)
    requires m >= 0.0
    ensures var w := RunwayBarWidth(Number(Finite(m)));
      w.Finite? && 0.0 <= w.r <= 100.0 && (w.r == 100.0 <==> m >= 12.0) &&
      (m == 6.0 ==> w.r == 50.0)
  {
  }

  /** The record the page shows. */
  datatype Health = Health(totalMonthlyBurn: JsVal, totalLiquidAssets: JsVal, monthsOfRunway: JsVal,
                           recommendedGap: JsVal, status: JsVal)

  function InitialHealth(): Health
  {
    Health(Num0(), Num0(), Num0(), Num0(), Str("ANALYZING"))
  }

  /** `loadData`: every number missing from the body is 0 and a missing
      status is "NO DATA"; a failed call, or a null response whose `data`
      cannot be read, keeps the record. */
  function Load(current: Health, response: Outcome<JsVal>): (r: Health)
    ensures response.Rejected? || Nullish(response.value) ==> r == current
  {
    match response
    case Rejected(_) => current
    case Fulfilled(res) =>
      if Nullish(res) then current
      else
        var body := Or(Get(res, "data"), Obj([]));
        Health(Or(Get(body, "totalMonthlyBurn"), Num0()), Or(Get(body, "totalLiquidAssets"), Num0()),
               Or(Get(body, "monthsOfRunway"), Num0()), Or(Get(body, "recommendedGap"), Num0()),
               Or(Get(body, "status"), Str("NO DATA")))
  }

  /** `field || 0`: the value sent, or 0 when it is missing or falsy. */
  predicate ShownOrZero(shown: JsVal, sent: JsVal)
  {
    (Truthy(sent) ==> shown == sent) && (!Truthy(sent) ==> shown == Num0())
  }

  /** After a successful load each number is the value the server sent or
      0 when it sent none, and the status is the one sent or "NO DATA", so
      it is never blank. */
  lemma LoadedFieldsPresent(current: Health, res: JsVal)
    requires !Nullish(res)
    ensures var h := Load(current, Fulfilled(res));
      var body := if Truthy(Get(res, "data")) then Get(res, "data") else Obj([]);
      ShownOrZero(h.totalMonthlyBurn, Get(body, "totalMonthlyBurn")) &&
      ShownOrZero(h.totalLiquidAssets, Get(body, "totalLiquidAssets")) &&
      ShownOrZero(h.monthsOfRunway, Get(body, "monthsOfRunway")) &&
      ShownOrZero(h.recommendedGap, Get(body, "recommendedGap")) &&
      (Truthy(Get(body, "status")) ==> h.status == Get(body, "status")) &&
      (!Truthy(Get(body, "status")) ==> h.status == Str("NO DATA")) &&
      Truthy(h.status)
  {
  }

  /** A response without a usable `data` shows every number as 0 and the
      status "NO DATA". */
  lemma FalsyDataShowsNothing(current: Health, res: JsVal)
    requires !Nullish(res) && !Truthy(Get(res, "data"))
    ensures Load(current, Fulfilled(res)) == Health(Num0(), Num0(), Num0(), Num0(), Str("NO DATA"))
  {
  }

  /** `recommendedGap <= 0`: the gap card shows "Fully Funded". */
  predicate FullyFunded(gap: JsVal)
  {
    NumLe(ToNumber(gap), Finite(0.0))
  }

  /** A body without a gap shows the fund as fully funded, and an empty
      body gives a zero score in the critical band. */
  lemma EmptyBodyShows(current: Health)
    ensures var h := Load(current, Fulfilled(Obj([])));
      FullyFunded(h.recommendedGap) && HealthScore(h.monthsOfRunway) == Finite(0.0) &&
      HealthColor(h.monthsOfRunway) == Critical && h.status == Str("NO DATA")
  {
  }
}
