/** The weekly-pattern table of the dashboard: one row per day entry, its
    durations written as hours and minutes, or a placeholder when there
    are no entries. */
module WeeklyPatternPanel {
  import opened Common
  import SummaryCards
  import App

  /** One table row: its React key, the day's name, three durations and
      the interruption count. */
  datatype WeekRow = WeekRow(key: Option<Json>, day: Option<Json>, work: string, lost: string,
                             effective: string, interruptions: Json)

  /** What the panel shows. Failed is the TypeError of mapping over a value
      that is not an array, or of reading a property of a null entry. */
  datatype Panel = Placeholder | Table(rows: seq<WeekRow>) | Failed

  function RowOf(d: Json): WeekRow {
    WeekRow(Field(d, "weekday_index"), Field(d, "weekday_name"),
            SummaryCards.SecondsText(SummaryCards.NumArg(Field(d, "work_seconds"))),
            SummaryCards.SecondsText(SummaryCards.NumArg(Field(d, "time_lost_seconds"))),
            SummaryCards.SecondsText(SummaryCards.NumArg(Field(d, "effective_time_seconds"))),
            Nullish(Field(d, "interruptions"), JNum(0)))
  }

  /** `!weeklyStats || weeklyStats.length === 0` shows the placeholder;
      otherwise the entries are mapped to rows. */
  function Render(weeklyStats: Json): Panel {
    if !Truthy(weeklyStats) then Placeholder
    else match weeklyStats
      case JArray(items) =>
        if |items| == 0 then Placeholder
        else if JNull in items then Failed
        else Table(seq(|items|, i requires 0 <= i < |items| => RowOf(items[i])))
      case _ => Failed
  }

  /** Missing and empty statistics show the placeholder. */
  lemma PlaceholderWhenEmpty(weeklyStats: Json)
    ensures Render(weeklyStats) == Placeholder <==> weeklyStats == JArray([]) || !Truthy(weeklyStats)
  {
  }

  /** A list of entries gives one row per entry, in order, keyed by its
      weekday index, with a missing interruption count shown as 0 and every
      duration cell non-empty. */
  lemma RowsFollowDays(items: seq<Json>)
    requires |items| > 0 && JNull !in items
    ensures Render(JArray(items)).Table?
    ensures |Render(JArray(items)).rows| == |items|
    ensures forall i :: 0 <= i < |items| ==>
      var row := Render(JArray(items)).rows[i];
      && row.key == Field(items[i], "weekday_index")
      && row.day == Field(items[i], "weekday_name")
      && (Field(items[i], "interruptions").None? ==> row.interruptions == JNum(0))
  {
  }

  /** Every duration cell is "-" for a missing value and otherwise a
      non-empty hours-and-minutes text, "0m" for zero. */
  lemma DurationCells(d: Json)
    ensures Field(d, "work_seconds").None? ==> RowOf(d).work == "-"
    ensures Field(d, "work_seconds") == Some(JNum(0)) ==> RowOf(d).work == "0m"
    ensures RowOf(d).work != "" && RowOf(d).lost != "" && RowOf(d).effective != ""
  {
    SummaryCards.FormatExamples();
    SummaryCards.FormatNonEmpty(SummaryCards.NumArg(Field(d, "work_seconds")));
    SummaryCards.FormatNonEmpty(SummaryCards.NumArg(Field(d, "time_lost_seconds")));
    SummaryCards.FormatNonEmpty(SummaryCards.NumArg(Field(d, "effective_time_seconds")));
  }

  /** What the dashboard stores for the weekly panel is an array once a
      load has answered, so the panel can then fail only on a null entry. */
  lemma StoredSlotFailsOnlyOnNull(data: Json, selected: Json, prev: Json)
    requires data != JNull
    ensures var slot := App.SettledSlot(App.WeeklyView, App.Received(data), selected, prev);
      Render(slot) == Failed ==> slot.JArray? && JNull in slot.items
  {
    App.ListSlotsAreArrays(App.WeeklyView, data, selected, prev);
  }

  /** The weekly statistics answer puts its entries under "days", which the
      dashboard's normaliser does not read, so the panel shows the
      placeholder however many days were answered. */
  lemma BackendWeekShowsPlaceholder(meta: seq<(string, Json)>, days: seq<Json>, selected: Json, prev: Json)
    requires forall i :: 0 <= i < |meta| ==> meta[i].0 != "weekly"
    ensures Render(App.SettledSlot(App.WeeklyView, App.Received(JObject(meta + [("days", JArray(days))])), selected, prev))
            == Placeholder
  {
    App.WeeklyNormaliserMissesDays(meta, days);
  }
}
