/** The sessions table of the dashboard: starting a session for the typed
    user, ending an active one, and how each row is shown. */
module SessionsPanel {
  import opened Common
  import opened App

  const NoUser := "Please enter a user ID before starting a session."
  const StartFailed := "Could not start session. Check backend logs."
  const EndFailed := "Could not end session. Check backend logs."

  /** "Start new session": the prompt for a missing user id; otherwise the
      error is cleared, the request sent, and either the failure message
      set or the sessions cascade run. */
  function StartSpec(st: State, rt: Render, ok: bool, answer: View -> Response): State {
    if rt.trimmedUserId == "" then st.(globalError := NoUser)
    else
      var sent := st.(globalError := "", issued := st.issued + [PostSessionStart(Some(NumberOf(rt.trimmedUserId)))]);
      if !ok then sent.(globalError := StartFailed) else Cascade(sent, rt, SessionsCascade, answer)
  }

  /** "End": no user check; the error is cleared, the request sent, and
      either the failure message set or the sessions cascade run. */
  function EndSpec(st: State, rt: Render, sessionRef: Json, ok: bool, answer: View -> Response): State {
    var sent := st.(globalError := "", issued := st.issued + [PostSessionEnd(sessionRef)]);
    if !ok then sent.(globalError := EndFailed) else Cascade(sent, rt, SessionsCascade, answer)
  }

  /** Without a user id nothing is sent and only the prompt changes. */
  lemma StartNeedsUser(st: State, rt: Render, ok: bool, answer: View -> Response)
    requires rt.trimmedUserId == ""
    ensures StartSpec(st, rt, ok, answer) == st.(globalError := NoUser)
    ensures StartSpec(st, rt, ok, answer).issued == st.issued
  {
  }

  /** A rejected start sends exactly one request, runs no cascade, leaves
      every slot alone and shows the start error. */
  lemma StartFailureSkipsCascade(st: State, rt: Render, answer: View -> Response)
    requires rt.trimmedUserId != ""
    ensures var r := StartSpec(st, rt, false, answer);
      && r.issued == st.issued + [PostSessionStart(Some(NumberOf(rt.trimmedUserId)))]
      && r.globalError == StartFailed
      && (forall v :: Slot(r, v) == Slot(st, v))
      && r.selectedSessionId == st.selectedSessionId
  {
  }

  /** An accepted start is followed by exactly one sessions cascade: its six
      loads, in order, after the start request. */
  lemma StartSuccessRunsCascadeOnce(st: State, rt: Render, answer: View -> Response)
    requires rt.trimmedUserId != ""
    ensures StartSpec(st, rt, true, answer).issued
      == st.issued + [PostSessionStart(Some(NumberOf(rt.trimmedUserId)))]
                   + [GetSessions(rt.trimmedUserId), GetSummary(rt.trimmedUserId, rt.range),
                      GetTypeStats(rt.trimmedUserId, rt.range), GetHoursStats(rt.trimmedUserId, rt.range),
                      GetWeeklyStats(rt.trimmedUserId, rt.range), GetPeakStats(rt.trimmedUserId, rt.range)]
  {
    var sent := st.(globalError := "", issued := st.issued + [PostSessionStart(Some(NumberOf(rt.trimmedUserId)))]);
    SessionsCascadeOrder(sent, rt, answer);
  }

  /** A rejected end shows the end error after its one request, from a
      cleared error, and leaves every slot alone. */
  lemma EndFailureSkipsCascade(st: State, rt: Render, sessionRef: Json, answer: View -> Response)
    ensures var r := EndSpec(st, rt, sessionRef, false, answer);
      r.issued == st.issued + [PostSessionEnd(sessionRef)] && r.globalError == EndFailed
      && forall v :: Slot(r, v) == Slot(st, v)
  {
  }

  /** An accepted end is followed by exactly one sessions cascade. */
  lemma EndSuccessRunsCascadeOnce(st: State, rt: Render, sessionRef: Json, answer: View -> Response)
    requires rt.trimmedUserId != ""
    ensures EndSpec(st, rt, sessionRef, true, answer).issued
      == st.issued + [PostSessionEnd(sessionRef)]
                   + [GetSessions(rt.trimmedUserId), GetSummary(rt.trimmedUserId, rt.range),
                      GetTypeStats(rt.trimmedUserId, rt.range), GetHoursStats(rt.trimmedUserId, rt.range),
                      GetWeeklyStats(rt.trimmedUserId, rt.range), GetPeakStats(rt.trimmedUserId, rt.range)]
  {
    var sent := st.(globalError := "", issued := st.issued + [PostSessionEnd(sessionRef)]);
    SessionsCascadeOrder(sent, rt, answer);
  }

  /** How one row of the table is shown. */
  datatype RowView = RowView(selected: bool, status: string, hasEndButton: bool)

  /** A row is Active while its `end_time` is falsy, carries the End button
      only then, and is highlighted iff `selectedSessionId === s.id`. */
  function ShowRow(row: Json, selected: Json): (r: RowView)
    ensures r.status == "Active" <==> !TruthyOpt(Field(row, "end_time"))
    ensures r.status == "Active" || r.status == "Finished"
    ensures r.hasEndButton <==> r.status == "Active"
    ensures r.selected <==> HasId(row, selected)
  {
    var active := !TruthyOpt(Field(row, "end_time"));
    RowView(HasId(row, selected), if active then "Active" else "Finished", active)
  }

  /** A session as the service sends it: active while `end_time` is null,
      finished once it holds a time. */
  lemma ServiceRowsShowTheirState(row: Json, selected: Json)
    requires Field(row, "end_time") == Some(JNull) || (exists t :: t != "" && Field(row, "end_time") == Some(JStr(t)))
    ensures ShowRow(row, selected).hasEndButton <==> Field(row, "end_time") == Some(JNull)
  {
  }

  /** `handleStartSession`. */
  method StartSession(app: Dashboard, rt: Render, ok: bool, answer: View -> Response)
    modifies app
    ensures app.Snapshot() == StartSpec(old(app.Snapshot()), rt, ok, answer)
  {
    if rt.trimmedUserId == "" {
      app.globalError := NoUser;
      return;
    }
    app.globalError := "";
    app.issued := app.issued + [PostSessionStart(Some(NumberOf(rt.trimmedUserId)))];
    if !ok {
      app.globalError := StartFailed;
      return;
    }
    app.OnSessionsChange(rt, answer);
  }

  /** `handleEndSession(id)`. */
  method EndSession(app: Dashboard, rt: Render, sessionRef: Json, ok: bool, answer: View -> Response)
    modifies app
    ensures app.Snapshot() == EndSpec(old(app.Snapshot()), rt, sessionRef, ok, answer)
  {
    app.globalError := "";
    app.issued := app.issued + [PostSessionEnd(sessionRef)];
    if !ok {
      app.globalError := EndFailed;
      return;
    }
    app.OnSessionsChange(rt, answer);
  }
}
