/** The productive-hours table of the dashboard: one row per hour entry
    with its work in whole minutes and an intensity bar scaled to the
    busiest hour, or a placeholder when there are no entries. */
module ProductiveHoursPanel {
  import opened Common
  import opened Text
  import SummaryCards
  import App

  /** `Math.round(a / b)` for b > 0: the nearest integer, halves rounded
      up, i.e. the floor of a / b + 1/2. */
  function RoundDiv(a: int, b: int): int
    requires b > 0
  {
    (2 * a + b) / (2 * b)
  }

  /** The rounded quotient is within half of the divisor. */
  lemma RoundDivNearest(a: int, b: int)
    requires b > 0
    ensures 2 * b * RoundDiv(a, b) - b <= 2 * a < 2 * b * RoundDiv(a, b) + b
  {
  }

  /** `formatSecondsToMinutes`; None is null or undefined. */
  function MinutesText(seconds: Option<int>): (t: string)
    ensures seconds.None? <==> t == "-"
  {
    match seconds
    case None => "-"
    case Some(s) => IntToString(RoundDiv(s, 60)) + " min"
  }

  /** A duration is shown as the nearest whole number of minutes. */
  lemma MinutesNearest(s: int)
    ensures exists m :: MinutesText(Some(s)) == IntToString(m) + " min" && 60 * m - 30 <= s < 60 * m + 30
  {
    var m := RoundDiv(s, 60);
    RoundDivNearest(s, 60);
    assert MinutesText(Some(s)) == IntToString(m) + " min";
  }

  /** `h.work_seconds || 0` for a numeric or missing field. */
  function WorkOf(h: Json): int {
    SummaryCards.NumArg(Field(h, "work_seconds")).GetOr(0)
  }

  /** `Math.max(...hoursStats.map(h => h.work_seconds || 0))` */
  function MaxWork(items: seq<Json>): (m: int)
    requires |items| > 0
    ensures forall i :: 0 <= i < |items| ==> WorkOf(items[i]) <= m
    ensures exists i :: 0 <= i < |items| && WorkOf(items[i]) == m
  {
    if |items| == 1 then WorkOf(items[0])
    else
      var rest := MaxWork(items[1..]);
      assert forall i :: 1 <= i < |items| ==> items[i] == items[1..][i - 1];
      var j :| 0 <= j < |items[1..]| && WorkOf(items[1..][j]) == rest;
      assert items[j + 1] == items[1..][j];
      Max(WorkOf(items[0]), rest)
  }

  /** `widthPercent`: 0 when the busiest hour has no work, otherwise the
      entry's share of it in whole percent. None is NaN, from an entry
      without a `work_seconds` property. */
  function WidthPercent(h: Json, maxWork: int): Option<int> {
    if maxWork <= 0 then Some(0)
    else match Field(h, "work_seconds")
      case Some(JNull) => Some(0)
      case Some(JNum(n)) => Some(RoundDiv(100 * n, maxWork))
      case _ => None
  }

  /** The bar colour: green above 66%, lime above 33%, grey otherwise (and
      for NaN, which compares false). */
  function Band(width: Option<int>): string {
    if width.Some? && width.value > 66 then "#22c55e"
    else if width.Some? && width.value > 33 then "#84cc16"
    else "#4b5563"
  }

  /** Integer facts about rounding division used to bound the bars. */
  lemma MulAtLeast(d: int, k: int)
    requires d > 0 && k >= 1
    ensures d * k >= d
  {
    assert d * k == d * (k - 1) + d;
    assert d * (k - 1) >= 0;
  }

  lemma DivUnique(x: int, d: int, q: int)
    requires d > 0 && d * q <= x < d * q + d
    ensures x / d == q
  {
    var q', r' := x / d, x % d;
    assert x == d * q' + r' && 0 <= r' < d;
    if q' > q {
      assert d * q' == d * q + d * (q' - q);
      MulAtLeast(d, q' - q);
    } else if q' < q {
      assert d * q == d * q' + d * (q - q');
      MulAtLeast(d, q - q');
    }
  }

  lemma DivMono(x: int, y: int, d: int)
    requires d > 0 && x <= y
    ensures x / d <= y / d
  {
    var qx, qy := x / d, y / d;
    assert x == d * qx + x % d && y == d * qy + y % d;
    if qx > qy {
      assert d * qx == d * qy + d * (qx - qy);
      MulAtLeast(d, qx - qy);
    }
  }

  lemma DivNonNeg(x: int, d: int)
    requires d > 0 && x >= 0
    ensures x / d >= 0
  {
    DivMono(0, x, d);
    DivUnique(0, d, 0);
  }

  /** A share between nothing and the maximum is a width between 0 and
      100, the maximum itself is 100, and more work never gives a
      narrower bar. */
  lemma WidthBounds(n: int, n2: int, maxWork: int)
    requires maxWork > 0 && 0 <= n <= n2
    ensures 0 <= RoundDiv(100 * n, maxWork)
    ensures n2 <= maxWork ==> RoundDiv(100 * n2, maxWork) <= 100
    ensures RoundDiv(100 * maxWork, maxWork) == 100
    ensures RoundDiv(100 * n, maxWork) <= RoundDiv(100 * n2, maxWork)
  {
    var d := 2 * maxWork;
    DivNonNeg(2 * (100 * n) + maxWork, d);
    DivUnique(2 * (100 * maxWork) + maxWork, d, 100);
    if n2 <= maxWork {
      DivMono(2 * (100 * n2) + maxWork, 2 * (100 * maxWork) + maxWork, d);
    }
    DivMono(2 * (100 * n) + maxWork, 2 * (100 * n2) + maxWork, d);
  }

  /** The bands are ordered by width. */
  lemma BandsOrdered(w1: int, w2: int)
    requires w1 <= w2
    ensures Band(Some(w1)) == "#22c55e" ==> Band(Some(w2)) == "#22c55e"
    ensures Band(Some(w2)) == "#4b5563" ==> Band(Some(w1)) == "#4b5563"
    ensures Band(Some(100)) == "#22c55e" && Band(Some(0)) == "#4b5563"
  {
  }

  /** `String(h.hour).padStart(2, "0") + ":00"` */
  function HourLabel(h: Json): string {
    var text := App.JsStringOpt(Field(h, "hour"));
    (if |text| < 2 then seq(2 - |text|, _ => '0') + text else text) + ":00"
  }

  /** Hours 0..23 read as two digits and ":00", and the digits give the
      hour back. */
  lemma HourLabelRoundTrip(h: Json, n: int)
    requires Field(h, "hour") == Some(JNum(n)) && 0 <= n < 24
    ensures |HourLabel(h)| == 5 && HourLabel(h)[2..] == ":00"
    ensures AllDigits(HourLabel(h)[..2]) && DecimalValue(HourLabel(h)[..2]) == n
  {
    var text := NatToDecimal(n);
    DecimalRoundTrip(n);
    if n < 10 {
      var two := "0" + text;
      assert HourLabel(h) == two + ":00";
      assert DecimalValue(two) == DecimalValue(two[..1]) * 10 + DigitValue(two[1]);
      assert two[..1] == "0";
    } else {
      assert |text| == 2 by {
        assert text == NatToDecimal(n / 10) + [DigitChar(n % 10)];
      }
      assert HourLabel(h) == text + ":00";
    }
  }

  /** One table row. */
  datatype HourRow = HourRow(key: Option<Json>, heading: string, work: string, interruptions: Json,
                             width: Option<int>, colour: string)

  datatype Panel = Placeholder | Table(rows: seq<HourRow>) | Failed

  function RowOf(h: Json, maxWork: int): HourRow {
    var w := WidthPercent(h, maxWork);
    HourRow(Field(h, "hour"), HourLabel(h), MinutesText(SummaryCards.NumArg(Field(h, "work_seconds"))),
            Nullish(Field(h, "interruptions"), JNum(0)), w, Band(w))
  }

  /** The placeholder for missing or empty statistics; otherwise one row
      per entry, each scaled to the busiest one. Reading a property of a
      null entry, or mapping over a value that is not an array, fails. */
  function Render(hoursStats: Json): Panel {
    if !Truthy(hoursStats) then Placeholder
    else match hoursStats
      case JArray(items) =>
        if |items| == 0 then Placeholder
        else if JNull in items then Failed
        else
          var m := MaxWork(items);
          Table(seq(|items|, i requires 0 <= i < |items| => RowOf(items[i], m)))
      case _ => Failed
  }

  lemma PlaceholderWhenEmpty(hoursStats: Json)
    ensures Render(hoursStats) == Placeholder <==> hoursStats == JArray([]) || !Truthy(hoursStats)
  {
  }

  /** In a table of non-negative work, every bar is within 0..100%, and
      when some hour has work, the busiest hour has a full green bar. */
  lemma BarsScaledToBusiestHour(items: seq<Json>)
    requires |items| > 0 && JNull !in items
    requires forall i :: 0 <= i < |items| ==> WorkOf(items[i]) >= 0
    ensures Render(JArray(items)).Table? && |Render(JArray(items)).rows| == |items|
    ensures forall i :: 0 <= i < |items| && Render(JArray(items)).rows[i].width.Some? ==>
      0 <= Render(JArray(items)).rows[i].width.value <= 100
    ensures MaxWork(items) > 0 ==>
      exists i :: 0 <= i < |items| && Render(JArray(items)).rows[i].width == Some(100)
                  && Render(JArray(items)).rows[i].colour == "#22c55e"
  {
    var m := MaxWork(items);
    RenderTable(items);
    var rows := Render(JArray(items)).rows;
    forall i | 0 <= i < |items| && rows[i].width.Some?
      ensures 0 <= rows[i].width.value <= 100
    {
      RowWithinScale(items[i], m);
    }
    if m > 0 {
      var j :| 0 <= j < |items| && WorkOf(items[j]) == m;
      BusiestRowFull(items[j], m);
    }
  }

  /** A non-empty array without null entries renders one row per entry. */
  lemma RenderTable(items: seq<Json>)
    requires |items| > 0 && JNull !in items
    ensures Render(JArray(items)).Table? && |Render(JArray(items)).rows| == |items|
    ensures forall i :: 0 <= i < |items| ==> Render(JArray(items)).rows[i] == RowOf(items[i], MaxWork(items))
  {
    assert Truthy(JArray(items));
  }

  /** An entry with non-negative work no larger than the maximum gets a bar
      between 0 and 100%. */
  lemma RowWithinScale(h: Json, m: int)
    requires 0 <= WorkOf(h) <= m
    ensures RowOf(h, m).width.Some? ==> 0 <= RowOf(h, m).width.value <= 100
  {
    if m > 0 {
      match Field(h, "work_seconds")
      case Some(JNum(n)) =>
        assert WorkOf(h) == n;
        WidthBounds(n, n, m);
      case _ =>
    }
  }

  /** The entry whose work is the (positive) maximum gets a full green bar. */
  lemma BusiestRowFull(h: Json, m: int)
    requires m > 0 && WorkOf(h) == m
    ensures RowOf(h, m).width == Some(100) && RowOf(h, m).colour == "#22c55e"
  {
    assert Field(h, "work_seconds") == Some(JNum(m));
    WidthBounds(m, m, m);
  }
}
