/** The dashboard page: four statistics requests for the selected range,
    loaded together whenever the range changes, with the answers
    normalised into the summary, the interruption-type entries, the
    weekly pattern and the productive hours. */
module DashboardPage {
  import opened Common
  import opened Text
  import App

  /** The four statistics endpoints the page reads. */
  datatype StatsPath = SummaryPath | TypesPath | WeeklyPath | HoursPath

  /** `GET /stats/<path>?range=<range>` */
  datatype Get = Get(path: StatsPath, range: string)

  function RangeRequests(range: string): seq<Get> {
    [Get(SummaryPath, range), Get(TypesPath, range), Get(WeeklyPath, range), Get(HoursPath, range)]
  }

  /** One slice of the interruption-type pie: `{name, value}`. */
  datatype Entry = Entry(name: string, value: Json)

  /** Every state slot of the page, and the requests issued so far. */
  datatype Page = Page(
    summary: Json,
    interruptionTypes: seq<Entry>,
    weeklyPattern: seq<Json>,
    productiveHours: seq<Json>,
    loading: bool,
    range: string,
    issued: seq<Get>)

  /** The first render, before the load effect has run. */
  const Mounted: Page := Page(JNull, [], [], [], true, "7d", [])

  /** `Object.entries(v).map(([name, value]) => ({name, value}))` for a
      truthy `v`: an object gives its members, an array or a string its
      indices and elements, a number or `true` nothing. */
  function Entries(v: Json): (r: seq<Entry>)
    ensures v.JObject? ==> |r| == |v.members|
    ensures v.JObject? ==> forall i :: 0 <= i < |r| ==> r[i] == Entry(v.members[i].0, v.members[i].1)
    ensures v.JArray? ==> |r| == |v.items|
    ensures v.JArray? ==> forall i :: 0 <= i < |r| ==> r[i] == Entry(NatToDecimal(i), v.items[i])
    ensures v.JStr? ==> |r| == |v.s|
    ensures v.JStr? ==> forall i :: 0 <= i < |r| ==> r[i] == Entry(NatToDecimal(i), JStr([v.s[i]]))
    ensures v.JNull? || v.JBool? || v.JNum? ==> r == []
  {
    match v
    case JObject(ms) => seq(|ms|, i requires 0 <= i < |ms| => Entry(ms[i].0, ms[i].1))
    case JArray(items) => seq(|items|, i requires 0 <= i < |items| => Entry(NatToDecimal(i), items[i]))
    case JStr(s) => seq(|s|, i requires 0 <= i < |s| => Entry(NatToDecimal(i), JStr([s[i]])))
    case _ => []
  }

  /** The pie entries of an interruption-types answer: `data?.counts || {}`
      spread into entries. */
  function TypeEntries(data: Json): seq<Entry> {
    Entries(OrElse(Field(data, "counts"), JObject([])))
  }

  /** `Array.isArray(data?.key) ? data.key : []` */
  function ArrayField(data: Json, key: string): (r: seq<Json>)
    ensures Field(data, key).Some? && Field(data, key).value.JArray? ==> r == Field(data, key).value.items
    ensures !(Field(data, key).Some? && Field(data, key).value.JArray?) ==> r == []
  {
    match Field(data, key)
    case Some(JArray(items)) => items
    case _ => []
  }

  /** All four requests were answered with data; `Promise.all` rejects as
      soon as one of them fails. */
  predicate AllReceived(answer: StatsPath -> App.Response) {
    answer(SummaryPath).Received? && answer(TypesPath).Received?
    && answer(WeeklyPath).Received? && answer(HoursPath).Received?
  }

  /** `fetchAllStats` for the page's current range: `loading` on, four
      requests, then either all four slots from the answers or none of
      them, and `loading` off on both paths. */
  function LoadSpec(p: Page, answer: StatsPath -> App.Response): Page {
    var begun := p.(loading := true, issued := p.issued + RangeRequests(p.range));
    if AllReceived(answer) then
      begun.(summary := OrElse(Some(answer(SummaryPath).data), JObject([])),
             interruptionTypes := TypeEntries(answer(TypesPath).data),
             weeklyPattern := ArrayField(answer(WeeklyPath).data, "days"),
             productiveHours := ArrayField(answer(HoursPath).data, "hours"),
             loading := false)
    else begun.(loading := false)
  }

  /** The range selector: the load effect depends on `range` alone, so it
      runs again exactly when the chosen value differs. */
  function SetRangeSpec(p: Page, range: string, answer: StatsPath -> App.Response): Page {
    if range == p.range then p else LoadSpec(p.(range := range), answer)
  }

  /** Every load asks for the four statistics of the current range, and
      ends with `loading` off. */
  lemma LoadRequestsAndEnds(p: Page, answer: StatsPath -> App.Response)
    ensures LoadSpec(p, answer).issued == p.issued + RangeRequests(p.range)
    ensures |LoadSpec(p, answer).issued| == |p.issued| + 4
    ensures !LoadSpec(p, answer).loading
    ensures LoadSpec(p, answer).range == p.range
  {
  }

  /** All or nothing: when any of the four requests fails, no slot changes,
      whatever the other three answered. */
  lemma LoadFailureKeepsSlots(p: Page, answer: StatsPath -> App.Response)
    requires !AllReceived(answer)
    ensures LoadSpec(p, answer) == p.(loading := false, issued := p.issued + RangeRequests(p.range))
  {
  }

  /** On success the summary is the answer, or `{}` when that is falsy, so
      it is never falsy afterwards. */
  lemma LoadedSummary(p: Page, answer: StatsPath -> App.Response)
    requires AllReceived(answer)
    ensures Truthy(answer(SummaryPath).data) ==> LoadSpec(p, answer).summary == answer(SummaryPath).data
    ensures !Truthy(answer(SummaryPath).data) ==> LoadSpec(p, answer).summary == JObject([])
    ensures Truthy(LoadSpec(p, answer).summary)
  {
  }

  /** On success there is one entry per key of `counts`, carrying that
      key's count; an answer without (truthy) counts gives no entries. */
  lemma LoadedTypes(p: Page, answer: StatsPath -> App.Response, counts: seq<(string, Json)>)
    requires AllReceived(answer)
    requires Field(answer(TypesPath).data, "counts") == Some(JObject(counts))
    ensures |LoadSpec(p, answer).interruptionTypes| == |counts|
    ensures forall i :: 0 <= i < |counts| ==>
      LoadSpec(p, answer).interruptionTypes[i].name == counts[i].0
      && LoadSpec(p, answer).interruptionTypes[i].value == counts[i].1
  {
  }

  lemma LoadedTypesWithoutCounts(p: Page, answer: StatsPath -> App.Response)
    requires AllReceived(answer)
    requires !TruthyOpt(Field(answer(TypesPath).data, "counts"))
    ensures LoadSpec(p, answer).interruptionTypes == []
  {
  }

  /** On success the weekly pattern is the `days` array and the productive
      hours the `hours` array of their answers, or empty when those are
      not arrays. */
  lemma LoadedLists(p: Page, answer: StatsPath -> App.Response, days: seq<Json>, hours: seq<Json>)
    requires AllReceived(answer)
    requires Field(answer(WeeklyPath).data, "days") == Some(JArray(days))
    requires Field(answer(HoursPath).data, "hours") == Some(JArray(hours))
    ensures LoadSpec(p, answer).weeklyPattern == days
    ensures LoadSpec(p, answer).productiveHours == hours
  {
  }

  lemma LoadedListsMissing(p: Page, answer: StatsPath -> App.Response)
    requires AllReceived(answer)
    requires Field(answer(WeeklyPath).data, "days").None?
    requires Field(answer(HoursPath).data, "hours").None?
    ensures LoadSpec(p, answer).weeklyPattern == []
    ensures LoadSpec(p, answer).productiveHours == []
  {
  }

  /** Choosing the range already shown loads nothing; choosing another one
      issues the four requests for the new range. */
  lemma RangeChangeReloads(p: Page, range: string, answer: StatsPath -> App.Response)
    ensures range == p.range ==> SetRangeSpec(p, range, answer) == p
    ensures range != p.range ==>
      && SetRangeSpec(p, range, answer).issued == p.issued + RangeRequests(range)
      && SetRangeSpec(p, range, answer).range == range
      && !SetRangeSpec(p, range, answer).loading
  {
  }

  /** A card's count: `summary?.<key> || 0`. */
  function CardValue(summary: Json, key: string): (r: Json)
    ensures TruthyOpt(Field(summary, key)) ==> r == Field(summary, key).value
    ensures !TruthyOpt(Field(summary, key)) ==> r == JNum(0)
  {
    OrElse(Field(summary, key), JNum(0))
  }

  /** When the first load fails, the page shows zero sessions and zero
      interruptions and the placeholder in place of every chart. */
  lemma FailedFirstLoadShowsZeros(answer: StatsPath -> App.Response)
    requires !AllReceived(answer)
    ensures CardValue(LoadSpec(Mounted, answer).summary, "total_sessions") == JNum(0)
    ensures CardValue(LoadSpec(Mounted, answer).summary, "total_interruptions") == JNum(0)
    ensures LoadSpec(Mounted, answer).interruptionTypes == []
    ensures LoadSpec(Mounted, answer).weeklyPattern == []
    ensures LoadSpec(Mounted, answer).productiveHours == []
  {
  }

  const PieColors: seq<string> := ["#FA114F", "#A0FF03", "#00E0FF", "#BF5AF2", "#FF9500"]

  /** The colour of the i-th pie slice: the five colours in turn. */
  function PieColor(i: nat): (c: string)
    ensures c in PieColors
    ensures i < 5 ==> c == PieColors[i]
  {
    PieColors[i % 5]
  }

  /** Any five consecutive slices have five different colours. */
  lemma PieColorsCycle(i: nat, j: nat)
    requires i < j < i + 5
    ensures PieColor(i) != PieColor(j)
    ensures PieColor(i + 5) == PieColor(i)
  {
  }

  /** The page's React state. */
  class Dashboard {
    var summary: Json
    var interruptionTypes: seq<Entry>
    var weeklyPattern: seq<Json>
    var productiveHours: seq<Json>
    var loading: bool
    var range: string
    var issued: seq<Get>

    function Snapshot(): Page
      reads this
    {
      Page(summary, interruptionTypes, weeklyPattern, productiveHours, loading, range, issued)
    }

    constructor ()
      ensures Snapshot() == Mounted
    {
      summary := JNull;
      interruptionTypes := [];
      weeklyPattern := [];
      productiveHours := [];
      loading := true;
      range := "7d";
      issued := [];
    }

    /** `fetchAllStats`: the state updates in the order the page makes them. */
    method FetchAllStats(answer: StatsPath -> App.Response)
      modifies this
      ensures Snapshot() == LoadSpec(old(Snapshot()), answer)
    {
      ghost var p := Snapshot();
      loading := true;
      issued := issued + RangeRequests(range);
      assert Snapshot() == p.(loading := true, issued := p.issued + RangeRequests(p.range));
      if AllReceived(answer) {
        summary := OrElse(Some(answer(SummaryPath).data), JObject([]));
        interruptionTypes := TypeEntries(answer(TypesPath).data);
        weeklyPattern := ArrayField(answer(WeeklyPath).data, "days");
        productiveHours := ArrayField(answer(HoursPath).data, "hours");
      }
      loading := false;
    }

    /** The range selector's change handler, followed by the effect when
      its dependency changed. */
    method SelectRange(newRange: string, answer: StatsPath -> App.Response)
      modifies this
      ensures Snapshot() == SetRangeSpec(old(Snapshot()), newRange, answer)
    {
      if newRange != range {
        range := newRange;
        FetchAllStats(answer);
      }
    }
  }
}
