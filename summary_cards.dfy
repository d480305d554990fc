/** The summary cards: durations written as hours and minutes, counts with
    a default of zero, and a placeholder until a summary has loaded. */
module SummaryCards {
  import opened Common
  import opened Text

  /** `Math.floor(s / 3600)`; Dafny's division by a positive number
      already rounds down. */
  function HoursPart(s: int): int {
    s / 3600
  }

  /** JavaScript's `%`: the remainder takes the sign of the dividend. */
  function JsRem(a: int, b: int): (r: int)
    requires b > 0
    ensures -b < r < b
    ensures a >= 0 ==> r == a % b
    ensures a < 0 ==> r == -((-a) % b)
  {
    if a >= 0 then a % b else -((-a) % b)
  }

  /** `Math.floor((s % 3600) / 60)` */
  function MinutesPart(s: int): int {
    JsRem(s, 3600) / 60
  }

  /** The pieces `formatSeconds` pushes: hours when non-zero, minutes when
      non-zero or when there are no hours. */
  function Parts(h: int, m: int): seq<string> {
    (if h != 0 then [IntToString(h) + "h"] else [])
    + (if m != 0 || h == 0 then [IntToString(m) + "m"] else [])
  }

  /** The text `formatSeconds` returns; None is null or undefined. */
  function SecondsText(seconds: Option<int>): string {
    match seconds
    case None => "-"
    case Some(s) => Join(Parts(HoursPart(s), MinutesPart(s)), " ")
  }

  /** `formatSeconds`, building its list of parts step by step. */
  method FormatSeconds(seconds: Option<int>) returns (text: string)
    ensures text == SecondsText(seconds)
  {
    if seconds.None? {
      return "-";
    }
    var s := seconds.value;
    var hours := s / 3600;
    var minutes := JsRem(s, 3600) / 60;
    var parts: seq<string> := [];
    if hours != 0 {
      parts := parts + [IntToString(hours) + "h"];
    }
    if minutes != 0 || hours == 0 {
      parts := parts + [IntToString(minutes) + "m"];
    }
    text := Join(parts, " ");
  }

  /** The three shapes of a duration: "Hh Mm", "Hh" on the hour, "Mm"
      below an hour; never empty. */
  lemma FormatShapes(s: int)
    ensures var h, m := HoursPart(s), MinutesPart(s);
      && (h != 0 && m != 0 ==> SecondsText(Some(s)) == IntToString(h) + "h " + IntToString(m) + "m")
      && (h != 0 && m == 0 ==> SecondsText(Some(s)) == IntToString(h) + "h")
      && (h == 0 ==> SecondsText(Some(s)) == IntToString(m) + "m")
      && SecondsText(Some(s)) != ""
  {
    var h, m := HoursPart(s), MinutesPart(s);
    if h != 0 && m != 0 {
      assert Parts(h, m) == [IntToString(h) + "h", IntToString(m) + "m"];
      JoinPair(IntToString(h) + "h", IntToString(m) + "m", " ");
      assert IntToString(h) + "h" + " " == IntToString(h) + "h ";
    } else if h != 0 {
      assert Parts(h, m) == [IntToString(h) + "h"];
    } else {
      assert Parts(h, m) == [IntToString(m) + "m"];
    }
  }

  /** The minutes are those of the last partial hour: for a non-negative
      duration, the text names the duration rounded down to the minute. */
  lemma FormatRoundsDownToMinute(s: int)
    requires s >= 0
    ensures 0 <= MinutesPart(s) < 60 && HoursPart(s) >= 0
    ensures 3600 * HoursPart(s) + 60 * MinutesPart(s) <= s < 3600 * HoursPart(s) + 60 * MinutesPart(s) + 60
  {
  }

  /** A negative duration keeps the sign in both parts; rounding down
      lets the minutes reach -60 (-3599 seconds read "-1h -60m"). */
  lemma FormatNegative(s: int)
    requires s < 0
    ensures HoursPart(s) < 0 && -60 <= MinutesPart(s) <= 0
  {
  }

  /** Zero seconds reads "0m"; an hour and five minutes read "1h 5m". */
  lemma FormatExamples()
    ensures SecondsText(Some(0)) == "0m"
    ensures SecondsText(Some(3900)) == "1h 5m"
    ensures SecondsText(Some(7200)) == "2h"
    ensures SecondsText(None) == "-"
  {
    FormatShapes(0);
    assert IntToString(0) == "0";
    FormatShapes(3900);
    assert HoursPart(3900) == 1 && MinutesPart(3900) == 5;
    assert IntToString(1) == "1" && IntToString(5) == "5";
    FormatShapes(7200);
    assert HoursPart(7200) == 2 && MinutesPart(7200) == 0;
    assert IntToString(2) == "2";
  }

  /** A duration property of the summary: its number, or None when it is
      absent, null or not a number. */
  function NumArg(v: Option<Json>): (r: Option<int>)
    ensures v.Some? && v.value.JNum? ==> r == Some(v.value.n)
    ensures !(v.Some? && v.value.JNum?) ==> r.None?
  {
    match v
    case Some(JNum(n)) => Some(n)
    case _ => None
  }

  /** What the cards show. */
  datatype CardsView =
    | Placeholder
    | Cards(sessions: Json, interruptions: Json, worked: string, lost: string, effective: string, average: string)

  function RenderCards(summary: Json): CardsView {
    if !Truthy(summary) then Placeholder
    else Cards(Nullish(Field(summary, "total_sessions"), JNum(0)),
               Nullish(Field(summary, "total_interruptions"), JNum(0)),
               SecondsText(NumArg(Field(summary, "total_time_worked_seconds"))),
               SecondsText(NumArg(Field(summary, "total_time_lost_seconds"))),
               SecondsText(NumArg(Field(summary, "effective_time_seconds"))),
               SecondsText(NumArg(Field(summary, "average_interruption_duration_seconds"))))
  }

  /** No summary shows the placeholder; a summary without counts shows 0
      for them and "-" for missing durations, while a count that is
      present, even 0, is shown as it is. */
  lemma CardsDefaults(summary: Json)
    ensures RenderCards(summary).Placeholder? <==> !Truthy(summary)
    ensures Truthy(summary) ==>
      var v := RenderCards(summary);
      && (Field(summary, "total_sessions").None? ==> v.sessions == JNum(0))
      && (Field(summary, "total_interruptions").None? ==> v.interruptions == JNum(0))
      && (Field(summary, "total_sessions") == Some(JNum(0)) ==> v.sessions == JNum(0))
      && (Field(summary, "total_time_worked_seconds").None? ==> v.worked == "-")
      && v.worked != "" && v.lost != "" && v.effective != "" && v.average != ""
  {
    if Truthy(summary) {
      FormatNonEmpty(NumArg(Field(summary, "total_time_worked_seconds")));
      FormatNonEmpty(NumArg(Field(summary, "total_time_lost_seconds")));
      FormatNonEmpty(NumArg(Field(summary, "effective_time_seconds")));
      FormatNonEmpty(NumArg(Field(summary, "average_interruption_duration_seconds")));
    }
  }

  lemma FormatNonEmpty(seconds: Option<int>)
    ensures SecondsText(seconds) != ""
  {
    if seconds.Some? {
      FormatShapes(seconds.value);
    }
  }
}
