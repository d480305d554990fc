/** The dashboard page (the App component): its state slots and the handlers
    that fill them from the API. Every network call is replaced by its
    outcome, passed in as a parameter, and every request the page sends is
    appended to a log. A handler sees the values of the render that created
    it (the trimmed user id, the range and the selected session), passed in
    as a `Render`. */
module App {
  import opened Common
  import opened Text

  /** How a request ended: rejected (no connection, or a body that is not
      JSON), answered with a non-2xx status, or answered 2xx with a body. */
  datatype Response = Rejected | NotOk | Received(data: Json)

  /** The requests the page sends. A reference field is None when the value
      was `undefined`, which JSON.stringify leaves out of the body. */
  datatype Request =
    | GetSummary(userId: string, range: string)
    | GetSessions(userId: string)
    | GetInterruptions(sessionRef: Json)
    | GetTypeStats(userId: string, range: string)
    | GetHoursStats(userId: string, range: string)
    | GetWeeklyStats(userId: string, range: string)
    | GetPeakStats(userId: string, range: string)
    | PostUser(name: string, email: string)
    | PostSessionStart(owner: Option<Json>)
    | PostSessionEnd(sessionRef: Json)
    | PostInterruption(author: Option<Json>, session: Option<Json>, kind: string,
                       description: string, startMs: int, endMs: int)

  /** The six slots filled by range-scoped loads. */
  datatype View = SummaryView | SessionsView | TypesView | HoursView | WeeklyView | PeakView

  /** The order in which "Load data" starts its six requests. */
  const AllViews: seq<View> := [SummaryView, SessionsView, TypesView, HoursView, WeeklyView, PeakView]

  /** The five statistics loads that close both refresh cascades. */
  const StatsViews: seq<View> := [SummaryView, TypesView, HoursView, WeeklyView, PeakView]

  /** The refresh after a session was started or ended. */
  const SessionsCascade: seq<View> := [SessionsView] + StatsViews

  function FailureMessage(v: View): string {
    match v
    case SummaryView => "Failed to load summary."
    case SessionsView => "Failed to load sessions."
    case TypesView => "Failed to load interruption type stats."
    case HoursView => "Failed to load productive-hours stats."
    case WeeklyView => "Failed to load weekly pattern stats."
    case PeakView => "Failed to load peak distraction time."
  }

  const InterruptionsFailure := "Failed to load interruptions."
  const MissingUserId := "Please enter a user ID first."
  const DemoFailure := "Failed to create demo data. Check backend/API is running."

  /** The values a handler's closure captured. */
  datatype Render = Render(trimmedUserId: string, range: string, selectedSessionId: Json)

  /** A snapshot of every state slot of the page, plus the request log. */
  datatype State = State(
    userId: string,
    range: string,
    summary: Json,
    sessions: Json,
    selectedSessionId: Json,
    interruptions: Json,
    typeStats: Json,
    hoursStats: Json,
    weeklyStats: Json,
    peakStats: Json,
    loadingSummary: bool,
    globalError: string,
    issued: seq<Request>)

  const Initial: State :=
    State("", "7d", JNull, JArray([]), JNull, JArray([]), JNull, JNull, JNull, JNull, false, "", [])

  function Slot(st: State, v: View): Json {
    match v
    case SummaryView => st.summary
    case SessionsView => st.sessions
    case TypesView => st.typeStats
    case HoursView => st.hoursStats
    case WeeklyView => st.weeklyStats
    case PeakView => st.peakStats
  }

  /** The value each view slot is reset to: `[]` for sessions, null for the
      rest. */
  function ClearedSlot(v: View): Json {
    if v == SessionsView then JArray([]) else JNull
  }

  /** Everything but the six view slots agrees. */
  predicate SameOutsideSlots(a: State, b: State) {
    && a.userId == b.userId && a.range == b.range
    && a.selectedSessionId == b.selectedSessionId && a.interruptions == b.interruptions
    && a.loadingSummary == b.loadingSummary && a.globalError == b.globalError && a.issued == b.issued
  }

  function WithSlot(st: State, v: View, x: Json): (r: State)
    ensures Slot(r, v) == x
    ensures forall w :: w != v ==> Slot(r, w) == Slot(st, w)
    ensures SameOutsideSlots(st, r)
  {
    match v
    case SummaryView => st.(summary := x)
    case SessionsView => st.(sessions := x)
    case TypesView => st.(typeStats := x)
    case HoursView => st.(hoursStats := x)
    case WeeklyView => st.(weeklyStats := x)
    case PeakView => st.(peakStats := x)
  }

  function RequestFor(v: View, rt: Render): Request {
    match v
    case SummaryView => GetSummary(rt.trimmedUserId, rt.range)
    case SessionsView => GetSessions(rt.trimmedUserId)
    case TypesView => GetTypeStats(rt.trimmedUserId, rt.range)
    case HoursView => GetHoursStats(rt.trimmedUserId, rt.range)
    case WeeklyView => GetWeeklyStats(rt.trimmedUserId, rt.range)
    case PeakView => GetPeakStats(rt.trimmedUserId, rt.range)
  }

  function Requests(views: seq<View>, rt: Render): (r: seq<Request>)
    ensures |r| == |views|
    ensures forall i :: 0 <= i < |views| ==> r[i] == RequestFor(views[i], rt)
  {
    seq(|views|, i requires 0 <= i < |views| => RequestFor(views[i], rt))
  }

  /** The requests of a non-empty list of loads: the first load's, then the rest's. */
  lemma RequestsCons(views: seq<View>, rt: Render)
    requires |views| > 0
    ensures Requests(views, rt) == [RequestFor(views[0], rt)] + Requests(views[1..], rt)
  { }

  /** `===` between a property value and a JSON value: equal primitives;
      arrays and objects are never the same object. */
  predicate StrictEquals(a: Option<Json>, b: Json) {
    a.Some? && a.value == b && !b.JArray? && !b.JObject?
  }

  predicate HasId(item: Json, id: Json) {
    StrictEquals(Field(item, "id"), id)
  }

  /** `items.some(s => s.id === id)`. None when the scan reaches a null
      element before a match: reading `.id` of null throws. */
  function SomeHasId(items: seq<Json>, id: Json): (r: Option<bool>)
    ensures r == Some(true) ==> exists i :: 0 <= i < |items| && HasId(items[i], id)
    ensures r == Some(false) <==> forall i :: 0 <= i < |items| ==> items[i] != JNull && !HasId(items[i], id)
    ensures r.None? ==> exists i :: 0 <= i < |items| && items[i] == JNull
  {
    if |items| == 0 then Some(false)
    else if items[0] == JNull then None
    else if HasId(items[0], id) then Some(true)
    else
      var r := SomeHasId(items[1..], id);
      assert forall i :: 1 <= i < |items| ==> items[i] == items[1..][i - 1];
      r
  }

  /** The check after a sessions load, against the selection of the render
      that started it: Some(true) keeps the selection, Some(false) drops it,
      None is the TypeError of calling `.some` on a non-array or of reading
      `.id` of a null row. */
  function Reconcile(data: Json, selected: Json): (r: Option<bool>)
    ensures r == Some(false) <==>
      Truthy(selected) && data.JArray?
      && forall i :: 0 <= i < |data.items| ==> data.items[i] != JNull && !HasId(data.items[i], selected)
    ensures r == Some(true) ==>
      !Truthy(selected) || (data.JArray? && exists i :: 0 <= i < |data.items| && HasId(data.items[i], selected))
    ensures r.None? ==> Truthy(selected)
  {
    if !Truthy(selected) then Some(true)
    else match data
      case JArray(items) => SomeHasId(items, selected)
      case _ => None
  }

  /** `Array.isArray(data) ? data : Array.isArray(data[key]) ? data[key] : []`.
      None is the TypeError of reading a property of null. */
  function NormalizeList(data: Json, key: string): (r: Option<Json>)
    ensures r.None? <==> data == JNull
    ensures r.Some? ==> r.value.JArray?
    ensures data.JArray? ==> r == Some(data)
    ensures !data.JArray? && r.Some? && r.value != JArray([]) ==> Field(data, key) == r
  {
    if data.JArray? then Some(data)
    else if data == JNull then None
    else match Field(data, key)
      case Some(JArray(items)) => Some(JArray(items))
      case _ => Some(JArray([]))
  }

  function ListKey(v: View): string {
    if v == HoursView then "hours" else "weekly"
  }

  /** What settling one load does: the new slot value (None: untouched), the
      error it reports (None: none) and whether it drops the selection. */
  datatype Effect = Effect(slot: Option<Json>, error: Option<string>, dropSelection: bool)

  function EffectOf(v: View, resp: Response, selected: Json): (e: Effect)
    ensures !resp.Received? ==> e == Effect(None, Some(FailureMessage(v)), false)
    ensures e.dropSelection ==> v == SessionsView && Reconcile(resp.data, selected) == Some(false)
    ensures resp.Received? && v in {SummaryView, TypesView, PeakView} ==> e == Effect(Some(resp.data), None, false)
    ensures resp.Received? && v in {HoursView, WeeklyView} ==>
      (if resp.data == JNull then e == Effect(None, Some(FailureMessage(v)), false)
       else e.error.None? && !e.dropSelection && e.slot == NormalizeList(resp.data, ListKey(v)))
    ensures resp.Received? && v == SessionsView ==>
      e.slot == Some(resp.data) && (e.error.Some? <==> Reconcile(resp.data, selected).None?)
    ensures e.error.Some? ==> e.error == Some(FailureMessage(v))
  {
    match resp
    case Received(data) =>
      if v == SessionsView then
        match Reconcile(data, selected)
        case None => Effect(Some(data), Some(FailureMessage(v)), false)
        case Some(found) => Effect(Some(data), None, !found)
      else if v == HoursView || v == WeeklyView then
        match NormalizeList(data, ListKey(v))
        case None => Effect(None, Some(FailureMessage(v)), false)
        case Some(list) => Effect(Some(list), None, false)
      else Effect(Some(data), None, false)
    case _ => Effect(None, Some(FailureMessage(v)), false)
  }

  /** The slot value after settling. */
  function SettledSlot(v: View, resp: Response, selected: Json, prev: Json): Json {
    EffectOf(v, resp, selected).slot.GetOr(prev)
  }

  function ErrorOf(v: View, rt: Render, answer: View -> Response): Option<string> {
    EffectOf(v, answer(v), rt.selectedSessionId).error
  }

  /** The synchronous start of a load, up to its `await fetch`: nothing for
      a blank user id; otherwise the request (and, for the summary, the
      loading flag). */
  function Begin(st: State, v: View, rt: Render): (r: State)
    ensures rt.trimmedUserId == "" ==> r == st
    ensures rt.trimmedUserId != "" ==> r.issued == st.issued + [RequestFor(v, rt)]
    ensures forall w :: Slot(r, w) == Slot(st, w)
  {
    if rt.trimmedUserId == "" then st
    else
      var s1 := st.(issued := st.issued + [RequestFor(v, rt)]);
      if v == SummaryView then s1.(loadingSummary := true) else s1
  }

  /** The rest of a load, once its response is in. */
  function Settle(st: State, v: View, rt: Render, resp: Response): (r: State)
    ensures r.issued == st.issued && r.userId == st.userId && r.range == st.range
    ensures forall w :: w != v ==> Slot(r, w) == Slot(st, w)
    ensures Slot(r, v) == SettledSlot(v, resp, rt.selectedSessionId, Slot(st, v))
    ensures r.globalError == EffectOf(v, resp, rt.selectedSessionId).error.GetOr(st.globalError)
    ensures r.loadingSummary == (if v == SummaryView then false else st.loadingSummary)
    ensures EffectOf(v, resp, rt.selectedSessionId).dropSelection ==>
      r.selectedSessionId == JNull && r.interruptions == JArray([])
    ensures !EffectOf(v, resp, rt.selectedSessionId).dropSelection ==>
      r.selectedSessionId == st.selectedSessionId && r.interruptions == st.interruptions
  {
    var e := EffectOf(v, resp, rt.selectedSessionId);
    var s1 := if e.slot.Some? then WithSlot(st, v, e.slot.value) else st;
    var s2 := if e.dropSelection then s1.(selectedSessionId := JNull, interruptions := JArray([])) else s1;
    var s3 := if e.error.Some? then s2.(globalError := e.error.value) else s2;
    if v == SummaryView then s3.(loadingSummary := false) else s3
  }

  /** A failed load sets its own message and nothing else: every slot, the
      selection and the interruptions stay as they were. */
  lemma FailureOnlySetsError(st: State, v: View, rt: Render, resp: Response)
    requires !resp.Received?
    ensures Settle(st, v, rt, resp)
            == st.(globalError := FailureMessage(v),
                   loadingSummary := if v == SummaryView then false else st.loadingSummary)
  {
  }

  /** One awaited load, start to finish. */
  function FetchOne(st: State, v: View, rt: Render, resp: Response): State {
    if rt.trimmedUserId == "" then st else Settle(Begin(st, v, rt), v, rt, resp)
  }

  /** A load sends its one request, or nothing at all for a blank user id. */
  lemma FetchOneIssued(st: State, v: View, rt: Render, resp: Response)
    ensures FetchOne(st, v, rt, resp).issued
            == st.issued + (if rt.trimmedUserId == "" then [] else [RequestFor(v, rt)])
    ensures rt.trimmedUserId == "" ==> FetchOne(st, v, rt, resp) == st
  {
  }

  /** The resets that "Load data" and "Use demo data" start with. */
  function Cleared(st: State): (r: State)
    ensures forall v :: Slot(r, v) == ClearedSlot(v)
    ensures r.globalError == "" && r.selectedSessionId == JNull && r.interruptions == JArray([])
    ensures r.issued == st.issued && r.userId == st.userId && r.range == st.range
    ensures r.loadingSummary == st.loadingSummary
  {
    State(st.userId, st.range, JNull, JArray([]), JNull, JArray([]), JNull, JNull, JNull, JNull,
          st.loadingSummary, "", st.issued)
  }

  /** The six loads settled in the given order. */
  function SettleAll(st: State, rt: Render, order: seq<View>, answer: View -> Response): State {
    if |order| == 0 then st
    else
      var last := order[|order| - 1];
      Settle(SettleAll(st, rt, order[..|order| - 1], answer), last, rt, answer(last))
  }

  predicate Distinct(order: seq<View>) {
    forall i, j :: 0 <= i < j < |order| ==> order[i] != order[j]
  }

  /** An order in which the six loads of "Load data" can settle: each once. */
  predicate IsSettleOrder(order: seq<View>) {
    Distinct(order) && forall v :: v in order
  }

  /** "Load data": the resets; the prompt for a blank id; otherwise the six
      requests, started in array order and settled in `order`. */
  function FetchAllSpec(st: State, rt: Render, answer: View -> Response, order: seq<View>): (r: State)
    ensures rt.trimmedUserId == "" ==>
      && r.issued == st.issued && r.globalError == MissingUserId
      && (forall v :: Slot(r, v) == ClearedSlot(v))
      && r.selectedSessionId == JNull && r.interruptions == JArray([])
  {
    var c := Cleared(st);
    if rt.trimmedUserId == "" then c.(globalError := MissingUserId)
    else SettleAll(c.(issued := c.issued + Requests(AllViews, rt), loadingSummary := true), rt, order, answer)
  }

  /** Settling touches each view's slot once, when that view settles. */
  lemma {:induction false} SettleAllSlot(st: State, rt: Render, order: seq<View>, answer: View -> Response, v: View)
    requires Distinct(order)
    ensures Slot(SettleAll(st, rt, order, answer), v)
            == if v in order then SettledSlot(v, answer(v), rt.selectedSessionId, Slot(st, v)) else Slot(st, v)
  {
    if |order| > 0 {
      var pre := order[..|order| - 1];
      var last := order[|order| - 1];
      assert order == pre + [last];
      SettleAllSlot(st, rt, pre, answer, v);
      if v == last {
        assert v !in pre by {
          forall i | 0 <= i < |pre| ensures pre[i] != v {
            assert order[i] != order[|order| - 1];
          }
        }
      }
    }
  }

  /** The message of the last load in `order` that failed, if any. */
  function LastError(rt: Render, order: seq<View>, answer: View -> Response): (r: Option<string>)
    ensures r.None? <==> forall i :: 0 <= i < |order| ==> ErrorOf(order[i], rt, answer).None?
    ensures r.Some? ==> exists j :: 0 <= j < |order| && ErrorOf(order[j], rt, answer) == r && NoneFailAfter(rt, order, j, answer)
  {
    if |order| == 0 then None
    else
      var n := |order| - 1;
      var e := ErrorOf(order[n], rt, answer);
      if e.Some? then e
      else
        var r := LastError(rt, order[..n], answer);
        assert forall i :: 0 <= i < n ==> order[..n][i] == order[i];
        assert forall j :: 0 <= j < n && NoneFailAfter(rt, order[..n], j, answer) ==> NoneFailAfter(rt, order, j, answer);
        r
  }

  /** No load settling after the `j`th in `order` failed. */
  predicate NoneFailAfter(rt: Render, order: seq<View>, j: int, answer: View -> Response) {
    forall i :: 0 <= i < |order| && j < i ==> ErrorOf(order[i], rt, answer).None?
  }

  /** After a series of settles the error is the last failure's message, or
      what it was before when none failed. */
  lemma {:induction false} SettleAllError(st: State, rt: Render, order: seq<View>, answer: View -> Response)
    ensures SettleAll(st, rt, order, answer).globalError == LastError(rt, order, answer).GetOr(st.globalError)
  {
    if |order| > 0 {
      SettleAllError(st, rt, order[..|order| - 1], answer);
    }
  }

  /** Settling never sends a request, leaves the user id and range alone,
      ends the summary's loading state once the summary settled, and cannot
      bring back a cleared selection. */
  lemma {:induction false} SettleAllKeeps(st: State, rt: Render, order: seq<View>, answer: View -> Response)
    ensures SettleAll(st, rt, order, answer).issued == st.issued
    ensures SettleAll(st, rt, order, answer).userId == st.userId
    ensures SummaryView in order ==> !SettleAll(st, rt, order, answer).loadingSummary
    ensures SummaryView !in order ==> SettleAll(st, rt, order, answer).loadingSummary == st.loadingSummary
    ensures st.selectedSessionId == JNull && st.interruptions == JArray([]) ==>
      SettleAll(st, rt, order, answer).selectedSessionId == JNull
      && SettleAll(st, rt, order, answer).interruptions == JArray([])
  {
    if |order| > 0 {
      var pre := order[..|order| - 1];
      assert order == pre + [order[|order| - 1]];
      SettleAllKeeps(st, rt, pre, answer);
    }
  }

  /** The state "Load data" settles from: cleared, six requests out, the
      summary loading. */
  function Begun(st: State, rt: Render): State {
    Cleared(st).(issued := st.issued + Requests(AllViews, rt), loadingSummary := true)
  }

  lemma FetchAllFromBegun(st: State, rt: Render, answer: View -> Response, order: seq<View>)
    requires rt.trimmedUserId != ""
    ensures FetchAllSpec(st, rt, answer, order) == SettleAll(Begun(st, rt), rt, order, answer)
  {
  }

  lemma AllViewsRequests(rt: Render)
    ensures Requests(AllViews, rt)
      == [GetSummary(rt.trimmedUserId, rt.range), GetSessions(rt.trimmedUserId),
          GetTypeStats(rt.trimmedUserId, rt.range), GetHoursStats(rt.trimmedUserId, rt.range),
          GetWeeklyStats(rt.trimmedUserId, rt.range), GetPeakStats(rt.trimmedUserId, rt.range)]
  {
  }

  /** The six starts of "Load data", one after another, send the six
      requests in array order and set the summary loading. */
  lemma BeginSix(st: State, rt: Render)
    requires rt.trimmedUserId != ""
    ensures Begin(Begin(Begin(Begin(Begin(Begin(st, SummaryView, rt), SessionsView, rt), TypesView, rt),
                  HoursView, rt), WeeklyView, rt), PeakView, rt)
            == st.(issued := st.issued + Requests(AllViews, rt), loadingSummary := true)
  {
    AllViewsRequests(rt);
    AppendSix(st.issued, RequestFor(SummaryView, rt), RequestFor(SessionsView, rt), RequestFor(TypesView, rt),
              RequestFor(HoursView, rt), RequestFor(WeeklyView, rt), RequestFor(PeakView, rt));
  }

  /** "Load data" with a non-blank id sends the six requests in array order,
      and nothing else, whatever the answers. */
  lemma FetchAllRequests(st: State, rt: Render, answer: View -> Response, order: seq<View>)
    requires rt.trimmedUserId != ""
    ensures FetchAllSpec(st, rt, answer, order).issued
      == st.issued + [GetSummary(rt.trimmedUserId, rt.range), GetSessions(rt.trimmedUserId),
                      GetTypeStats(rt.trimmedUserId, rt.range), GetHoursStats(rt.trimmedUserId, rt.range),
                      GetWeeklyStats(rt.trimmedUserId, rt.range), GetPeakStats(rt.trimmedUserId, rt.range)]
  {
    FetchAllFromBegun(st, rt, answer, order);
    SettleAllKeeps(Begun(st, rt), rt, order, answer);
    AllViewsRequests(rt);
  }

  /** Once the six loads settled, each slot holds what its own response gave
      (or its cleared value), the selection stays cleared and loading is
      over. */
  lemma FetchAllSlots(st: State, rt: Render, answer: View -> Response, order: seq<View>)
    requires rt.trimmedUserId != "" && IsSettleOrder(order)
    ensures var r := FetchAllSpec(st, rt, answer, order);
      && (forall v :: Slot(r, v) == SettledSlot(v, answer(v), rt.selectedSessionId, ClearedSlot(v)))
      && r.selectedSessionId == JNull && r.interruptions == JArray([])
      && !r.loadingSummary && r.userId == st.userId && r.range == st.range
  {
    var b := Begun(st, rt);
    FetchAllFromBegun(st, rt, answer, order);
    SettleAllKeeps(b, rt, order, answer);
    SettleAllRange(b, rt, order, answer);
    forall v ensures Slot(SettleAll(b, rt, order, answer), v) == SettledSlot(v, answer(v), rt.selectedSessionId, ClearedSlot(v)) {
      SettleAllSlot(b, rt, order, answer, v);
    }
  }

  /** After "Load data" the error is empty when no load failed, and
      otherwise is the message of the load that failed last in `order`. */
  lemma FetchAllError(st: State, rt: Render, answer: View -> Response, order: seq<View>)
    requires rt.trimmedUserId != "" && IsSettleOrder(order)
    ensures var r := FetchAllSpec(st, rt, answer, order);
      && r.globalError == LastError(rt, order, answer).GetOr("")
      && ((forall v :: ErrorOf(v, rt, answer).None?) ==> r.globalError == "")
      && ((exists v :: ErrorOf(v, rt, answer).Some?) ==> exists v :: ErrorOf(v, rt, answer) == Some(r.globalError))
  {
    FetchAllFromBegun(st, rt, answer, order);
    SettleAllError(Begun(st, rt), rt, order, answer);
    var last := LastError(rt, order, answer);
    assert FetchAllSpec(st, rt, answer, order).globalError == last.GetOr("");
    if exists v :: ErrorOf(v, rt, answer).Some? {
      var v :| ErrorOf(v, rt, answer).Some?;
      assert v in order;
      var i :| 0 <= i < |order| && order[i] == v;
      assert ErrorOf(order[i], rt, answer).Some?;
      assert last.Some?;
    } else {
      assert forall i :: 0 <= i < |order| ==> ErrorOf(order[i], rt, answer).None?;
    }
  }

  /** The order in which the six responses arrive decides only which failure
      message is shown, never what a slot holds. */
  lemma SettleOrderOnlyDecidesError(st: State, rt: Render, answer: View -> Response, o1: seq<View>, o2: seq<View>)
    requires rt.trimmedUserId != "" && IsSettleOrder(o1) && IsSettleOrder(o2)
    ensures FetchAllSpec(st, rt, answer, o1).(globalError := "") == FetchAllSpec(st, rt, answer, o2).(globalError := "")
  {
    FetchAllRequests(st, rt, answer, o1);
    FetchAllRequests(st, rt, answer, o2);
    FetchAllSlots(st, rt, answer, o1);
    FetchAllSlots(st, rt, answer, o2);
    var r1 := FetchAllSpec(st, rt, answer, o1);
    var r2 := FetchAllSpec(st, rt, answer, o2);
    assert Slot(r1, SummaryView) == Slot(r2, SummaryView);
    assert Slot(r1, SessionsView) == Slot(r2, SessionsView);
    assert Slot(r1, TypesView) == Slot(r2, TypesView);
    assert Slot(r1, HoursView) == Slot(r2, HoursView);
    assert Slot(r1, WeeklyView) == Slot(r2, WeeklyView);
    assert Slot(r1, PeakView) == Slot(r2, PeakView);
  }

  lemma {:induction false} SettleAllRange(st: State, rt: Render, order: seq<View>, answer: View -> Response)
    ensures SettleAll(st, rt, order, answer).range == st.range
  {
    if |order| > 0 {
      SettleAllRange(st, rt, order[..|order| - 1], answer);
    }
  }

  /** The hours and weekly slots always end up arrays once their load
      succeeded with a non-null body. */
  lemma ListSlotsAreArrays(v: View, data: Json, selected: Json, prev: Json)
    requires v == HoursView || v == WeeklyView
    requires data != JNull
    ensures SettledSlot(v, Received(data), selected, prev).JArray?
  {
  }

  /** The weekly statistics endpoint answers an object whose list is under
      "days"; the page looks for "weekly", so a non-empty list of days still
      leaves the weekly slot empty. The hours list, under "hours", arrives. */
  lemma WeeklyNormaliserMissesDays(meta: seq<(string, Json)>, days: seq<Json>)
    requires forall i :: 0 <= i < |meta| ==> meta[i].0 != "weekly"
    ensures NormalizeList(JObject(meta + [("days", JArray(days))]), "weekly") == Some(JArray([]))
    ensures NormalizeList(JObject(meta + [("hours", JArray(days))]), "hours").Some?
  {
    var ms := meta + [("days", JArray(days))];
    assert forall i :: 0 <= i < |ms| ==> ms[i].0 != "weekly";
  }

  /** Loads run one after another, each awaited before the next starts. */
  function Cascade(st: State, rt: Render, views: seq<View>, answer: View -> Response): State
    decreases |views|
  {
    if |views| == 0 then st
    else Cascade(FetchOne(st, views[0], rt, answer(views[0])), rt, views[1..], answer)
  }

  lemma AppendAssoc<T>(a: seq<T>, b: seq<T>, c: seq<T>)
    ensures (a + b) + c == a + (b + c)
  {
  }

  lemma AppendSix<T>(s: seq<T>, a: T, b: T, c: T, d: T, e: T, f: T)
    ensures s + [a] + [b] + [c] + [d] + [e] + [f] == s + [a, b, c, d, e, f]
  {
  }

  /** For a blank user id a cascade changes nothing. */
  lemma {:induction false} CascadeBlank(st: State, rt: Render, views: seq<View>, answer: View -> Response)
    requires rt.trimmedUserId == ""
    ensures Cascade(st, rt, views, answer) == st
    decreases |views|
  {
    if |views| > 0 {
      FetchOneIssued(st, views[0], rt, answer(views[0]));
      CascadeBlank(st, rt, views[1..], answer);
    }
  }

  /** The first load of a non-blank cascade sends its request and hands
      on to the rest. */
  lemma CascadeStep(st: State, rt: Render, views: seq<View>, answer: View -> Response) returns (next: State)
    requires |views| > 0 && rt.trimmedUserId != ""
    ensures Cascade(st, rt, views, answer) == Cascade(next, rt, views[1..], answer)
    ensures next.issued == st.issued + [RequestFor(views[0], rt)]
  {
    next := FetchOne(st, views[0], rt, answer(views[0]));
    FetchOneIssued(st, views[0], rt, answer(views[0]));
  }

  /** A cascade sends its loads' requests in its own order. */
  lemma {:induction false} CascadeIssued(st: State, rt: Render, views: seq<View>, answer: View -> Response)
    requires rt.trimmedUserId != ""
    ensures Cascade(st, rt, views, answer).issued == st.issued + Requests(views, rt)
    decreases |views|
  {
    if |views| == 0 {
      assert st.issued + [] == st.issued;
    } else {
      var next := CascadeStep(st, rt, views, answer);
      CascadeIssued(next, rt, views[1..], answer);
      RequestsCons(views, rt);
      AppendAssoc(st.issued, [RequestFor(views[0], rt)], Requests(views[1..], rt));
    }
  }

  /** `fetchInterruptions(id)` up to its `await fetch`. */
  function BeginInterruptions(st: State, sessionRef: Json): State {
    if Truthy(sessionRef) then st.(issued := st.issued + [GetInterruptions(sessionRef)]) else st
  }

  /** The rest of `fetchInterruptions`: the body replaces the list whatever
      session is selected by now. */
  function SettleInterruptions(st: State, resp: Response): (r: State)
    ensures resp.Received? ==> r == st.(interruptions := resp.data)
    ensures !resp.Received? ==> r == st.(globalError := InterruptionsFailure)
  {
    match resp
    case Received(data) => st.(interruptions := data)
    case _ => st.(globalError := InterruptionsFailure)
  }

  /** One awaited `fetchInterruptions`; a falsy id does nothing. */
  function FetchInterruptionsSpec(st: State, sessionRef: Json, resp: Response): (r: State)
    ensures !Truthy(sessionRef) ==> r == st
    ensures Truthy(sessionRef) ==> r.issued == st.issued + [GetInterruptions(sessionRef)]
  {
    if Truthy(sessionRef) then SettleInterruptions(BeginInterruptions(st, sessionRef), resp) else st
  }

  /** Clicking a session row, up to the `await`: the selection is set and
      the list emptied before the request goes out. */
  function Select(st: State, sessionRef: Json): (r: State)
    ensures r.selectedSessionId == sessionRef && r.interruptions == JArray([])
    ensures forall v :: Slot(r, v) == Slot(st, v)
    ensures r.globalError == st.globalError
    ensures r.issued == st.issued + (if Truthy(sessionRef) then [GetInterruptions(sessionRef)] else [])
  {
    BeginInterruptions(st.(selectedSessionId := sessionRef, interruptions := JArray([])), sessionRef)
  }

  /** Nothing discards a late answer: when the answer for an earlier click
      arrives after the one for a later click, the list shows the earlier
      session's interruptions under the later selection. */
  lemma LateAnswerWins(st: State, a: Json, b: Json, forA: Json, forB: Json)
    ensures var s := SettleInterruptions(SettleInterruptions(Select(Select(st, a), b), Received(forB)), Received(forA));
      s.selectedSessionId == b && s.interruptions == forA
  {
  }

  /** The refresh after an interruption was added: the interruptions of the
      selection the panel was rendered with, then the five statistics. */
  function InterruptionsCascade(st: State, rt: Render, listResp: Response, answer: View -> Response): State {
    Cascade(FetchInterruptionsSpec(st, rt.selectedSessionId, listResp), rt, StatsViews, answer)
  }


  lemma StatsRequests(rt: Render)
    ensures Requests(StatsViews, rt)
      == [GetSummary(rt.trimmedUserId, rt.range), GetTypeStats(rt.trimmedUserId, rt.range),
          GetHoursStats(rt.trimmedUserId, rt.range), GetWeeklyStats(rt.trimmedUserId, rt.range),
          GetPeakStats(rt.trimmedUserId, rt.range)]
  {
  }

  lemma SessionsCascadeRequests(rt: Render)
    ensures Requests(SessionsCascade, rt)
      == [GetSessions(rt.trimmedUserId), GetSummary(rt.trimmedUserId, rt.range),
          GetTypeStats(rt.trimmedUserId, rt.range), GetHoursStats(rt.trimmedUserId, rt.range),
          GetWeeklyStats(rt.trimmedUserId, rt.range), GetPeakStats(rt.trimmedUserId, rt.range)]
  {
    assert SessionsCascade == [SessionsView] + StatsViews;
    StatsRequests(rt);
  }

  /** After a session was started or ended: sessions, then the summary,
      type, hours, weekly and peak statistics. */
  lemma SessionsCascadeOrder(st: State, rt: Render, answer: View -> Response)
    requires rt.trimmedUserId != ""
    ensures Cascade(st, rt, SessionsCascade, answer).issued
      == st.issued + [GetSessions(rt.trimmedUserId), GetSummary(rt.trimmedUserId, rt.range),
                      GetTypeStats(rt.trimmedUserId, rt.range), GetHoursStats(rt.trimmedUserId, rt.range),
                      GetWeeklyStats(rt.trimmedUserId, rt.range), GetPeakStats(rt.trimmedUserId, rt.range)]
  {
    CascadeIssued(st, rt, SessionsCascade, answer);
    SessionsCascadeRequests(rt);
  }

  /** After an interruption was added: the selected session's
      interruptions (when one is selected), then the same five statistics. */
  lemma InterruptionsCascadeOrder(st: State, rt: Render, listResp: Response, answer: View -> Response)
    requires rt.trimmedUserId != ""
    ensures InterruptionsCascade(st, rt, listResp, answer).issued
      == st.issued + (if Truthy(rt.selectedSessionId) then [GetInterruptions(rt.selectedSessionId)] else [])
                   + [GetSummary(rt.trimmedUserId, rt.range), GetTypeStats(rt.trimmedUserId, rt.range),
                      GetHoursStats(rt.trimmedUserId, rt.range), GetWeeklyStats(rt.trimmedUserId, rt.range),
                      GetPeakStats(rt.trimmedUserId, rt.range)]
  {
    var s1 := FetchInterruptionsSpec(st, rt.selectedSessionId, listResp);
    CascadeIssued(s1, rt, StatsViews, answer);
    StatsRequests(rt);
  }

  /** `Number(text)` as JSON.stringify writes it: a string of decimal
      digits gives its value; anything else here is NaN, written as null. */
  function NumberOf(text: string): (r: Json)
    ensures text != "" && AllDigits(text) ==> r == JNum(DecimalValue(text))
    ensures r.JNum? ==> r.n >= 0
  {
    if text != "" && AllDigits(text) then JNum(DecimalValue(text)) else JNull
  }

  /** `String(v)` for the id property of a JSON body (`undefined` when the
      property is absent). */
  function JsString(v: Json): string
    decreases v, 1
  {
    match v
    case JNull => "null"
    case JBool(b) => if b then "true" else "false"
    case JNum(n) => IntToString(n)
    case JStr(s) => s
    case JArray(items) => JoinItems(items, v)
    case JObject(_) => "[object Object]"
  }

  /** `Array.prototype.join(",")`: null elements become empty. */
  function JoinItems(items: seq<Json>, ghost whole: Json): string
    requires forall x :: x in items ==> x < whole
    decreases whole, 0, |items|
  {
    if |items| == 0 then ""
    else
      assert items[0] in items;
      assert forall x :: x in items[1..] ==> x in items;
      var head := if items[0] == JNull then "" else JsString(items[0]);
      if |items| == 1 then head else head + "," + JoinItems(items[1..], whole)
  }

  function JsStringOpt(v: Option<Json>): string {
    match v
    case None => "undefined"
    case Some(x) => JsString(x)
  }

  /** The e-mail of the demo user, made unique by the clock. */
  function DemoEmail(emailMs: int): string {
    "demo+" + IntToString(emailMs) + "@example.com"
  }

  /** One sample interruption: its type, text and minutes relative to now. */
  datatype Sample = Sample(kind: string, description: string, startMinutes: int, endMinutes: int)

  const DemoSamples: seq<Sample> := [
    Sample("phone", "Checked WhatsApp messages", -25, -23),
    Sample("self", "Opened Twitter for a quick scroll", -18, -15),
    Sample("noise", "Street noise outside", -10, -9)
  ]

  function SampleRequest(userRef: Option<Json>, sessionRef: Option<Json>, s: Sample, samplesMs: int): Request {
    PostInterruption(userRef, sessionRef, s.kind, s.description,
                     samplesMs + s.startMinutes * 60000, samplesMs + s.endMinutes * 60000)
  }

  /** The sample loop: every sample is posted in turn; a non-2xx answer is
      only logged, a rejected request aborts (the bool is true). */
  function PostSamples(st: State, userRef: Option<Json>, sessionRef: Option<Json>, samplesMs: int,
                       samples: seq<Sample>, answers: seq<Response>): (State, bool)
    requires |answers| == |samples|
  {
    if |samples| == 0 then (st, false)
    else
      var n := |samples| - 1;
      var (s, aborted) := PostSamples(st, userRef, sessionRef, samplesMs, samples[..n], answers[..n]);
      if aborted then (s, true)
      else (s.(issued := s.issued + [SampleRequest(userRef, sessionRef, samples[n], samplesMs)]), answers[n] == Rejected)
  }

  /** When no sample request is rejected, all of them are sent, in order,
      whatever the status of each answer. */
  lemma {:induction false} AllSamplesPosted(st: State, userRef: Option<Json>, sessionRef: Option<Json>, samplesMs: int,
                                            samples: seq<Sample>, answers: seq<Response>)
    requires |answers| == |samples|
    requires forall i :: 0 <= i < |answers| ==> answers[i] != Rejected
    ensures var (s, aborted) := PostSamples(st, userRef, sessionRef, samplesMs, samples, answers);
      !aborted && s == st.(issued := st.issued + SampleRequests(userRef, sessionRef, samples, samplesMs))
  {
    if |samples| > 0 {
      var n := |samples| - 1;
      AllSamplesPosted(st, userRef, sessionRef, samplesMs, samples[..n], answers[..n]);
      assert SampleRequests(userRef, sessionRef, samples, samplesMs)
             == SampleRequests(userRef, sessionRef, samples[..n], samplesMs) + [SampleRequest(userRef, sessionRef, samples[n], samplesMs)];
    }
  }

  function SampleRequests(userRef: Option<Json>, sessionRef: Option<Json>, samples: seq<Sample>, samplesMs: int): (r: seq<Request>)
    ensures |r| == |samples|
  {
    if |samples| == 0 then []
    else
      var n := |samples| - 1;
      SampleRequests(userRef, sessionRef, samples[..n], samplesMs) + [SampleRequest(userRef, sessionRef, samples[n], samplesMs)]
  }

  /** The answers a demo run receives. */
  datatype DemoAnswers = DemoAnswers(user: Response, session: Response, samples: seq<Response>,
                                     load: View -> Response, order: seq<View>)

  /** The resets and the request creating the demo user. */
  function DemoUserSent(st: State, emailMs: int): State {
    var s0 := Cleared(st);
    s0.(issued := s0.issued + [PostUser("Demo User", DemoEmail(emailMs))])
  }

  /** The new user's id typed in, and the request starting its session. */
  function DemoSessionSent(st: State, userRef: Option<Json>): State {
    st.(userId := JsStringOpt(userRef), issued := st.issued + [PostSessionStart(userRef)])
  }

  /** "Use demo data": the resets, a demo user, an active session for it,
      three sample interruptions, then "Load data" as the render that was
      clicked saw it. A failed or null user or session answer, and a
      rejected sample request, end in the demo error. */
  function DemoSpec(st: State, rt: Render, emailMs: int, samplesMs: int, ans: DemoAnswers): State
    requires |ans.samples| == 3
  {
    var s1 := DemoUserSent(st, emailMs);
    if !ans.user.Received? || ans.user.data == JNull then s1.(globalError := DemoFailure)
    else
      var userRef := Field(ans.user.data, "id");
      var s2 := DemoSessionSent(s1, userRef);
      if !ans.session.Received? || ans.session.data == JNull then s2.(globalError := DemoFailure)
      else
        var sessionRef := Field(ans.session.data, "id");
        var (s3, aborted) := PostSamples(s2, userRef, sessionRef, samplesMs, DemoSamples, ans.samples);
        if aborted then s3.(globalError := DemoFailure)
        else FetchAllSpec(s3, rt, ans.load, ans.order)
  }

  /** A failed user creation stops the demo after one request: the page is
      cleared, the demo error shown, the typed user id kept. */
  lemma DemoStopsWithoutUser(st: State, rt: Render, emailMs: int, samplesMs: int, ans: DemoAnswers)
    requires |ans.samples| == 3 && !ans.user.Received?
    ensures var r := DemoSpec(st, rt, emailMs, samplesMs, ans);
      && r.globalError == DemoFailure && r.userId == st.userId
      && r.issued == st.issued + [PostUser("Demo User", DemoEmail(emailMs))]
      && (forall v :: Slot(r, v) == ClearedSlot(v))
  {
  }

  /** A failed session creation stops the demo after two requests; the id
      field already shows the new user. */
  lemma DemoStopsWithoutSession(st: State, rt: Render, emailMs: int, samplesMs: int, ans: DemoAnswers, id: int)
    requires |ans.samples| == 3 && ans.user == Received(JObject([("id", JNum(id))])) && !ans.session.Received?
    ensures var r := DemoSpec(st, rt, emailMs, samplesMs, ans);
      && r.globalError == DemoFailure && r.userId == IntToString(id)
      && r.issued == st.issued + [PostUser("Demo User", DemoEmail(emailMs)), PostSessionStart(Some(JNum(id)))]
  {
  }

  /** With the user and the session created and no sample request
      rejected, all three samples are sent (non-2xx answers are skipped)
      and the run ends exactly as "Load data" would, started from there. */
  lemma DemoRunsLoadAll(st: State, rt: Render, emailMs: int, samplesMs: int, ans: DemoAnswers, userId: int, sessionId: int)
    requires |ans.samples| == 3 && forall i :: 0 <= i < 3 ==> ans.samples[i] != Rejected
    requires ans.user == Received(JObject([("id", JNum(userId))]))
    requires ans.session == Received(JObject([("id", JNum(sessionId))]))
    ensures var u, s := Some(JNum(userId)), Some(JNum(sessionId));
      DemoSpec(st, rt, emailMs, samplesMs, ans)
      == FetchAllSpec(Cleared(st).(userId := IntToString(userId),
                                   issued := st.issued + [PostUser("Demo User", DemoEmail(emailMs)), PostSessionStart(u)]
                                             + SampleRequests(u, s, DemoSamples, samplesMs)),
                      rt, ans.load, ans.order)
  {
    var u, s := Some(JNum(userId)), Some(JNum(sessionId));
    assert Field(ans.user.data, "id") == u;
    assert Field(ans.session.data, "id") == s;
    var s0 := Cleared(st);
    var s1 := s0.(issued := s0.issued + [PostUser("Demo User", DemoEmail(emailMs))]);
    var s2 := s1.(userId := IntToString(userId), issued := s1.issued + [PostSessionStart(u)]);
    assert s1.issued + [PostSessionStart(u)] == st.issued + [PostUser("Demo User", DemoEmail(emailMs)), PostSessionStart(u)];
    AllSamplesPosted(s2, u, s, samplesMs, DemoSamples, ans.samples);
  }

  /** The final load uses the id of the render that was clicked, not the
      demo user's: on a page whose id field was blank, the demo data is
      created but the run ends with the prompt for a user id and no
      statistics request. */
  lemma DemoFromBlankPageLoadsNothing(st: State, rt: Render, emailMs: int, samplesMs: int, ans: DemoAnswers, userId: int, sessionId: int)
    requires rt.trimmedUserId == ""
    requires |ans.samples| == 3 && forall i :: 0 <= i < 3 ==> ans.samples[i] != Rejected
    requires ans.user == Received(JObject([("id", JNum(userId))]))
    requires ans.session == Received(JObject([("id", JNum(sessionId))]))
    ensures var r := DemoSpec(st, rt, emailMs, samplesMs, ans);
      && r.userId == IntToString(userId)
      && r.globalError == MissingUserId
      && |r.issued| == |st.issued| + 5
  {
    DemoRunsLoadAll(st, rt, emailMs, samplesMs, ans, userId, sessionId);
  }

  /** The App component's state, updated in place by its handlers. */
  class Dashboard {
    var userId: string
    var range: string
    var summary: Json
    var sessions: Json
    var selectedSessionId: Json
    var interruptions: Json
    var typeStats: Json
    var hoursStats: Json
    var weeklyStats: Json
    var peakStats: Json
    var loadingSummary: bool
    var globalError: string
    var issued: seq<Request>

    function Snapshot(): State
      reads this
    {
      State(userId, range, summary, sessions, selectedSessionId, interruptions,
            typeStats, hoursStats, weeklyStats, peakStats, loadingSummary, globalError, issued)
    }

    /** What a render passes to the handlers it creates. */
    function CurrentRender(): Render
      reads this
    {
      Render(Trim(JavaScript, userId), range, selectedSessionId)
    }

    constructor ()
      ensures Snapshot() == Initial
    {
      userId := "";
      range := "7d";
      summary := JNull;
      sessions := JArray([]);
      selectedSessionId := JNull;
      interruptions := JArray([]);
      typeStats := JNull;
      hoursStats := JNull;
      weeklyStats := JNull;
      peakStats := JNull;
      loadingSummary := false;
      globalError := "";
      issued := [];
    }

    method ClearAll()
      modifies this
      ensures Snapshot() == Cleared(old(Snapshot()))
    {
      ClearSlots();
      globalError, interruptions, selectedSessionId := "", JArray([]), JNull;
    }

    method ClearSlots()
      modifies this
      ensures Snapshot() == old(Snapshot()).(summary := JNull, sessions := JArray([]), typeStats := JNull,
                                             hoursStats := JNull, weeklyStats := JNull, peakStats := JNull)
    {
      summary, sessions, typeStats, hoursStats, weeklyStats, peakStats := JNull, JArray([]), JNull, JNull, JNull, JNull;
    }

    method BeginFetch(v: View, rt: Render)
      modifies this
      ensures Snapshot() == Begin(old(Snapshot()), v, rt)
    {
      if rt.trimmedUserId == "" {
        return;
      }
      if v == SummaryView {
        loadingSummary := true;
      }
      issued := issued + [RequestFor(v, rt)];
    }

    method SettleFetch(v: View, rt: Render, resp: Response)
      modifies this
      ensures Snapshot() == Settle(old(Snapshot()), v, rt, resp)
    {
      match resp {
        case Received(data) =>
          if v == SessionsView {
            SettleSessions(rt, data);
          } else if v == HoursView || v == WeeklyView {
            SettleList(v, rt, data);
          } else {
            SettleStat(v, rt, data);
          }
        case _ =>
          FailureOnlySetsError(Snapshot(), v, rt, resp);
          globalError := FailureMessage(v);
          if v == SummaryView {
            loadingSummary := false;
          }
      }
    }

    /** A summary, type or peak answer is stored as it came. */
    method SettleStat(v: View, rt: Render, data: Json)
      requires v == SummaryView || v == TypesView || v == PeakView
      modifies this
      ensures Snapshot() == Settle(old(Snapshot()), v, rt, Received(data))
    {
      if v == SummaryView {
        summary := data;
        loadingSummary := false;
      } else if v == TypesView {
        typeStats := data;
      } else {
        peakStats := data;
      }
    }

    /** An hours or weekly answer is normalised to a list. */
    method SettleList(v: View, rt: Render, data: Json)
      requires v == HoursView || v == WeeklyView
      modifies this
      ensures Snapshot() == Settle(old(Snapshot()), v, rt, Received(data))
    {
      var list := NormalizeList(data, ListKey(v));
      if list.None? {
        globalError := FailureMessage(v);
      } else if v == HoursView {
        hoursStats := list.value;
      } else {
        weeklyStats := list.value;
      }
    }

    /** A sessions answer replaces the list and drops a selection that is no
        longer in it. */
    method SettleSessions(rt: Render, data: Json)
      modifies this
      ensures Snapshot() == Settle(old(Snapshot()), SessionsView, rt, Received(data))
    {
      sessions := data;
      var found := Reconcile(data, rt.selectedSessionId);
      if found.None? {
        globalError := FailureMessage(SessionsView);
      } else if !found.value {
        selectedSessionId := JNull;
        interruptions := JArray([]);
      }
    }

    /** One of the six `fetch*` loads, awaited. */
    method Fetch(v: View, rt: Render, resp: Response)
      modifies this
      ensures Snapshot() == FetchOne(old(Snapshot()), v, rt, resp)
    {
      if rt.trimmedUserId == "" {
        return;
      }
      BeginFetch(v, rt);
      SettleFetch(v, rt, resp);
    }

    /** `handleFetchAll`. */
    method FetchAll(rt: Render, answer: View -> Response, order: seq<View>)
      modifies this
      ensures Snapshot() == FetchAllSpec(old(Snapshot()), rt, answer, order)
    {
      ClearAll();
      if rt.trimmedUserId == "" {
        globalError := MissingUserId;
        return;
      }
      BeginAll(rt);
      ghost var begun := Snapshot();
      FetchAllFromBegun(old(Snapshot()), rt, answer, order);
      var i := 0;
      while i < |order|
        invariant 0 <= i <= |order|
        invariant Snapshot() == SettleAll(begun, rt, order[..i], answer)
      {
        TakeTake(order, i);
        SettleFetch(order[i], rt, answer(order[i]));
        i := i + 1;
      }
      TakeAll(order);
    }

    /** The six loads of "Load data" up to their `await`s, started in
        array order. */
    method BeginAll(rt: Render)
      requires rt.trimmedUserId != ""
      modifies this
      ensures Snapshot() == old(Snapshot()).(issued := old(issued) + Requests(AllViews, rt), loadingSummary := true)
    {
      BeginFetch(SummaryView, rt);
      BeginFetch(SessionsView, rt);
      BeginFetch(TypesView, rt);
      BeginFetch(HoursView, rt);
      BeginFetch(WeeklyView, rt);
      BeginFetch(PeakView, rt);
      BeginSix(old(Snapshot()), rt);
    }

    /** `fetchInterruptions(id)`, awaited. */
    method FetchInterruptions(sessionRef: Json, resp: Response)
      modifies this
      ensures Snapshot() == FetchInterruptionsSpec(old(Snapshot()), sessionRef, resp)
    {
      if !Truthy(sessionRef) {
        return;
      }
      issued := issued + [GetInterruptions(sessionRef)];
      SettleInterruptionsFetch(resp);
    }

    method SettleInterruptionsFetch(resp: Response)
      modifies this
      ensures Snapshot() == SettleInterruptions(old(Snapshot()), resp)
    {
      match resp {
        case Received(data) =>
          interruptions := data;
        case _ =>
          globalError := InterruptionsFailure;
      }
    }

    /** `handleSelectSession(id)` up to its `await`; the answer is applied
        later by SettleInterruptionsFetch, whenever it arrives. */
    method SelectSession(sessionRef: Json)
      modifies this
      ensures Snapshot() == Select(old(Snapshot()), sessionRef)
    {
      selectedSessionId := sessionRef;
      interruptions := JArray([]);
      if Truthy(sessionRef) {
        issued := issued + [GetInterruptions(sessionRef)];
      }
    }

    /** The `onSessionsChange` callback handed to the sessions panel. */
    method OnSessionsChange(rt: Render, answer: View -> Response)
      modifies this
      ensures Snapshot() == Cascade(old(Snapshot()), rt, SessionsCascade, answer)
    {
      Fetch(SessionsView, rt, answer(SessionsView));
      Fetch(SummaryView, rt, answer(SummaryView));
      Fetch(TypesView, rt, answer(TypesView));
      Fetch(HoursView, rt, answer(HoursView));
      Fetch(WeeklyView, rt, answer(WeeklyView));
      Fetch(PeakView, rt, answer(PeakView));
      assert SessionsCascade[1..] == StatsViews;
      assert StatsViews[1..][1..][1..][1..][1..] == [];
    }

    /** The `onInterruptionsChange` callback handed to the interruptions
        panel. */
    method OnInterruptionsChange(rt: Render, listResp: Response, answer: View -> Response)
      modifies this
      ensures Snapshot() == InterruptionsCascade(old(Snapshot()), rt, listResp, answer)
    {
      FetchInterruptions(rt.selectedSessionId, listResp);
      Fetch(SummaryView, rt, answer(SummaryView));
      Fetch(TypesView, rt, answer(TypesView));
      Fetch(HoursView, rt, answer(HoursView));
      Fetch(WeeklyView, rt, answer(WeeklyView));
      Fetch(PeakView, rt, answer(PeakView));
      assert StatsViews[1..][1..][1..][1..][1..] == [];
    }

    /** `handleUseDemoData`. The handler reads the clock twice: `emailMs` is
        the reading the e-mail is made from, `samplesMs` the later one (after
        the user and session requests) the sample times are relative to. */
    method UseDemoData(rt: Render, emailMs: int, samplesMs: int, ans: DemoAnswers)
      requires |ans.samples| == 3
      modifies this
      ensures Snapshot() == DemoSpec(old(Snapshot()), rt, emailMs, samplesMs, ans)
    {
      SendDemoUser(emailMs);
      ghost var s1 := Snapshot();
      if !ans.user.Received? || ans.user.data == JNull {
        globalError := DemoFailure;
        return;
      }
      var userRef := Field(ans.user.data, "id");
      userId := JsStringOpt(userRef);
      issued := issued + [PostSessionStart(userRef)];
      ghost var s2 := Snapshot();
      assert s2 == DemoSessionSent(s1, userRef);
      if !ans.session.Received? || ans.session.data == JNull {
        globalError := DemoFailure;
        return;
      }
      var sessionRef := Field(ans.session.data, "id");
      FinishDemo(rt, samplesMs, ans, userRef, sessionRef);
    }

    /** The resets, then the request creating the demo user. */
    method SendDemoUser(emailMs: int)
      modifies this
      ensures Snapshot() == DemoUserSent(old(Snapshot()), emailMs)
    {
      ClearAll();
      issued := issued + [PostUser("Demo User", DemoEmail(emailMs))];
    }

    /** The demo after its user and session exist: the samples, then "Load
        data" unless a sample was rejected. */
    method FinishDemo(rt: Render, samplesMs: int, ans: DemoAnswers, userRef: Option<Json>, sessionRef: Option<Json>)
      requires |ans.samples| == 3
      modifies this
      ensures var (s3, aborted) := PostSamples(old(Snapshot()), userRef, sessionRef, samplesMs, DemoSamples, ans.samples);
        Snapshot() == if aborted then s3.(globalError := DemoFailure) else FetchAllSpec(s3, rt, ans.load, ans.order)
    {
      var aborted := PostDemoSamples(userRef, sessionRef, samplesMs, ans.samples);
      if aborted {
        globalError := DemoFailure;
        return;
      }
      FetchAll(rt, ans.load, ans.order);
    }

    /** The loop over the three sample interruptions; true when one of the
        requests was rejected, which ends the loop. */
    method PostDemoSamples(userRef: Option<Json>, sessionRef: Option<Json>, samplesMs: int, answers: seq<Response>)
        returns (aborted: bool)
      requires |answers| == |DemoSamples|
      modifies this
      ensures (Snapshot(), aborted) == PostSamples(old(Snapshot()), userRef, sessionRef, samplesMs, DemoSamples, answers)
    {
      ghost var before := Snapshot();
      var k := 0;
      while k < |DemoSamples|
        invariant 0 <= k <= |DemoSamples|
        invariant (Snapshot(), false)
                  == PostSamples(before, userRef, sessionRef, samplesMs, DemoSamples[..k], answers[..k])
      {
        TakeTake(DemoSamples, k);
        TakeTake(answers, k);
        issued := issued + [SampleRequest(userRef, sessionRef, DemoSamples[k], samplesMs)];
        if answers[k] == Rejected {
          assert (Snapshot(), true)
                 == PostSamples(before, userRef, sessionRef, samplesMs, DemoSamples[..k + 1], answers[..k + 1]);
          PostSamplesStaysAborted(before, userRef, sessionRef, samplesMs, DemoSamples, answers, k + 1);
          return true;
        }
        k := k + 1;
      }
      TakeAll(DemoSamples);
      TakeAll(answers);
      return false;
    }
  }

  /** Once a sample request was rejected, later samples change nothing. */
  lemma {:induction false} PostSamplesStaysAborted(st: State, userRef: Option<Json>, sessionRef: Option<Json>, samplesMs: int,
                                                   samples: seq<Sample>, answers: seq<Response>, k: nat)
    requires |answers| == |samples| && 0 < k <= |samples|
    requires PostSamples(st, userRef, sessionRef, samplesMs, samples[..k], answers[..k]).1
    ensures PostSamples(st, userRef, sessionRef, samplesMs, samples, answers)
            == PostSamples(st, userRef, sessionRef, samplesMs, samples[..k], answers[..k])
    decreases |samples| - k
  {
    if k < |samples| {
      TakeTake(samples, k);
      TakeTake(answers, k);
      PostSamplesStaysAborted(st, userRef, sessionRef, samplesMs, samples, answers, k + 1);
    } else {
      assert samples[..k] == samples && answers[..k] == answers;
    }
  }
}
