/** The interruptions form of the dashboard: the causes it offers, when it
    may be used, and what submitting it does to the form and the page. */
module InterruptionsPanel {
  import opened Common
  import opened Schemas
  import opened App

  /** The causes offered by the type selector, in display order. */
  const InterruptionTypes: seq<string> := ["family", "phone", "noise", "self", "urgent_task", "unknown"]

  const SelectFirst := "Select a session before adding interruptions."
  const NeedTimes := "Please provide both start and end datetime."
  const CreateFailed := "Could not create interruption. Check data and backend logs."

  /** The selector offers exactly the service's causes, each once, in the
      enum's order. */
  lemma TypesAreTheServiceValues()
    ensures |InterruptionTypes| == |AllTypes|
    ensures forall i :: 0 <= i < |AllTypes| ==> InterruptionTypes[i] == TypeValue(AllTypes[i])
    ensures forall s :: s in InterruptionTypes <==> ParseType(s).Some?
  {
    forall s ensures s in InterruptionTypes <==> ParseType(s).Some? {
      if ParseType(s).Some? {
        var t := ParseType(s).value;
        assert s == TypeValue(t);
        match t
        case Family => assert InterruptionTypes[0] == s;
        case Phone => assert InterruptionTypes[1] == s;
        case Noise => assert InterruptionTypes[2] == s;
        case Self => assert InterruptionTypes[3] == s;
        case UrgentTask => assert InterruptionTypes[4] == s;
        case Unknown => assert InterruptionTypes[5] == s;
      }
    }
  }

  /** The form's own fields. */
  datatype Form = Form(kind: string, description: string, start: string, end: string, submitting: bool)

  const EmptyForm := Form("phone", "", "", "", false)

  /** `!!userId && !!sessionId`: a user id and a selected session. */
  predicate CanUseForm(rt: Render) {
    rt.trimmedUserId != "" && Truthy(rt.selectedSessionId)
  }

  /** The submit button is disabled while the form cannot be used or a
      submission is running. */
  predicate SubmitDisabled(f: Form, rt: Render) {
    !CanUseForm(rt) || f.submitting
  }

  /** The request a submission sends. The start and end are the instants
      the browser reads from the two datetime fields. */
  function CreateRequest(f: Form, rt: Render, startMs: int, endMs: int): Request {
    PostInterruption(Some(NumberOf(rt.trimmedUserId)), Some(rt.selectedSessionId), f.kind, f.description, startMs, endMs)
  }

  /** `handleCreateInterruption`. `startMs`/`endMs` are None when a field
      does not hold a valid date: the conversion then throws before the
      request and leaves the handler. */
  function CreateSpec(f: Form, st: State, rt: Render, startMs: Option<int>, endMs: Option<int>,
                      ok: bool, listResp: Response, answer: View -> Response): (Form, State)
  {
    var cleared := st.(globalError := "");
    if !CanUseForm(rt) then (f, cleared.(globalError := SelectFirst))
    else if f.start == "" || f.end == "" then (f, cleared.(globalError := NeedTimes))
    else if startMs.None? || endMs.None? then (f, cleared)
    else Send(f, cleared, rt, startMs.value, endMs.value, ok, listResp, answer)
  }

  /** The part of the handler inside its `try`: the request, then either
      the error or the field reset and the refresh; `submitting` ends false
      either way. */
  function Send(f: Form, st: State, rt: Render, startMs: int, endMs: int,
                ok: bool, listResp: Response, answer: View -> Response): (Form, State)
  {
    var sent := st.(issued := st.issued + [CreateRequest(f, rt, startMs, endMs)]);
    if !ok then (f.(submitting := false), sent.(globalError := CreateFailed))
    else (f.(description := "", start := "", end := "", submitting := false),
          InterruptionsCascade(sent, rt, listResp, answer))
  }

  /** The session check comes first: without a user or a selection the
      form shows the selection prompt, sends nothing and keeps its fields,
      even when the times are missing too. */
  lemma SelectionCheckedFirst(f: Form, st: State, rt: Render, startMs: Option<int>, endMs: Option<int>,
                              ok: bool, listResp: Response, answer: View -> Response)
    requires !CanUseForm(rt)
    ensures var (g, r) := CreateSpec(f, st, rt, startMs, endMs, ok, listResp, answer);
      g == f && r.issued == st.issued && r.globalError == SelectFirst
      && forall v :: Slot(r, v) == Slot(st, v)
  {
  }

  /** With a session selected but a missing time, the form asks for both
      times and sends nothing. */
  lemma TimesRequired(f: Form, st: State, rt: Render, startMs: Option<int>, endMs: Option<int>,
                      ok: bool, listResp: Response, answer: View -> Response)
    requires CanUseForm(rt) && (f.start == "" || f.end == "")
    ensures var (g, r) := CreateSpec(f, st, rt, startMs, endMs, ok, listResp, answer);
      g == f && r.issued == st.issued && r.globalError == NeedTimes
  {
  }

  /** A rejected submission keeps what was typed, shows the error, runs no
      refresh and ends with `submitting` false. */
  lemma FailureKeepsFields(f: Form, st: State, rt: Render, s: int, e: int,
                           listResp: Response, answer: View -> Response)
    requires CanUseForm(rt) && f.start != "" && f.end != ""
    ensures var (g, r) := CreateSpec(f, st, rt, Some(s), Some(e), false, listResp, answer);
      && g.kind == f.kind && g.description == f.description && g.start == f.start && g.end == f.end
      && !g.submitting
      && r.globalError == CreateFailed
      && r.issued == st.issued + [CreateRequest(f, rt, s, e)]
      && forall v :: Slot(r, v) == Slot(st, v)
  {
  }

  /** An accepted submission empties the description and both times, keeps
      the type, ends with `submitting` false and runs the interruptions
      refresh once, right after its own request. */
  lemma SuccessResetsAndRefreshes(f: Form, st: State, rt: Render, s: int, e: int,
                                  listResp: Response, answer: View -> Response)
    requires CanUseForm(rt) && f.start != "" && f.end != ""
    ensures var (g, r) := CreateSpec(f, st, rt, Some(s), Some(e), true, listResp, answer);
      && g == Form(f.kind, "", "", "", false)
      && r.issued == st.issued + [CreateRequest(f, rt, s, e)]
                   + [GetInterruptions(rt.selectedSessionId)]
                   + [GetSummary(rt.trimmedUserId, rt.range), GetTypeStats(rt.trimmedUserId, rt.range),
                      GetHoursStats(rt.trimmedUserId, rt.range), GetWeeklyStats(rt.trimmedUserId, rt.range),
                      GetPeakStats(rt.trimmedUserId, rt.range)]
  {
    var sent := st.(globalError := "", issued := st.issued + [CreateRequest(f, rt, s, e)]);
    assert CreateSpec(f, st, rt, Some(s), Some(e), true, listResp, answer).1
           == InterruptionsCascade(sent, rt, listResp, answer);
    InterruptionsCascadeOrder(sent, rt, listResp, answer);
  }

  /** The form's state, updated in place by its inputs and its submit
      handler. */
  class InterruptionForm {
    var kind: string
    var description: string
    var start: string
    var end: string
    var submitting: bool

    function Snapshot(): Form
      reads this
    {
      Form(kind, description, start, end, submitting)
    }

    constructor ()
      ensures Snapshot() == EmptyForm
    {
      kind := "phone";
      description := "";
      start := "";
      end := "";
      submitting := false;
    }

    /** `handleCreateInterruption`, with the page it reports to. */
    method Submit(app: Dashboard, rt: Render, startMs: Option<int>, endMs: Option<int>,
                  ok: bool, listResp: Response, answer: View -> Response)
      modifies this, app
      ensures (Snapshot(), app.Snapshot())
              == CreateSpec(old(Snapshot()), old(app.Snapshot()), rt, startMs, endMs, ok, listResp, answer)
    {
      app.globalError := "";
      if !CanUseForm(rt) {
        app.globalError := SelectFirst;
        return;
      }
      if start == "" || end == "" {
        app.globalError := NeedTimes;
        return;
      }
      if startMs.None? || endMs.None? {
        return;
      }
      SendRequest(app, rt, startMs.value, endMs.value, ok, listResp, answer);
    }

    /** The `try` block and its `finally`. */
    method SendRequest(app: Dashboard, rt: Render, startMs: int, endMs: int,
                ok: bool, listResp: Response, answer: View -> Response)
      modifies this, app
      ensures (Snapshot(), app.Snapshot())
              == Send(old(Snapshot()), old(app.Snapshot()), rt, startMs, endMs, ok, listResp, answer)
    {
      submitting := true;
      app.issued := app.issued + [CreateRequest(Snapshot(), rt, startMs, endMs)];
      if !ok {
        app.globalError := CreateFailed;
      } else {
        Accepted(app, rt, listResp, answer);
      }
      submitting := false;
    }

    /** The accepted branch of the `try`: the fields are emptied, then the
        interruptions and the statistics are fetched again. */
    method Accepted(app: Dashboard, rt: Render, listResp: Response, answer: View -> Response)
      modifies this, app
      ensures Snapshot() == old(Snapshot()).(description := "", start := "", end := "")
      ensures app.Snapshot() == InterruptionsCascade(old(app.Snapshot()), rt, listResp, answer)
    {
      description, start, end := "", "", "";
      app.OnInterruptionsChange(rt, listResp, answer);
    }
  }
}
