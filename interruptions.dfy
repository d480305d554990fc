/** The interruptions endpoints: record an interruption against an active
    session of the same user, list a session's interruptions. */
module Interruptions {
  import opened Common
  import opened Store
  import opened Schemas

  /** The checks `create` makes before inserting, in their order: session
      exists (404), same user as the session (400), session still active
      (400), non-negative whole-second duration (400). On success the
      duration to store. */
  function CheckInterruption(sessions: seq<WorkSession>, input: InterruptionCreate): (r: Result<int, HttpError>)
    ensures r.Ok? <==>
      && 1 <= input.sessionId <= |sessions|
      && sessions[input.sessionId - 1].userId == input.userId
      && IsActive(sessions[input.sessionId - 1])
      && input.endTime >= input.startTime
    ensures r.Ok? ==> r.value == input.endTime - input.startTime && r.value >= 0
    ensures !(1 <= input.sessionId <= |sessions|) ==> r == Err(HttpError(NotFound, "Session not found"))
    ensures 1 <= input.sessionId <= |sessions| && sessions[input.sessionId - 1].userId != input.userId ==>
      r == Err(HttpError(BadRequest, "Interruption user_id does not match session user_id"))
    ensures 1 <= input.sessionId <= |sessions| && sessions[input.sessionId - 1].userId == input.userId
            && !IsActive(sessions[input.sessionId - 1]) ==>
      r == Err(HttpError(BadRequest, "Cannot add interruptions to a finished session"))
    ensures 1 <= input.sessionId <= |sessions| && sessions[input.sessionId - 1].userId == input.userId
            && IsActive(sessions[input.sessionId - 1]) && input.endTime < input.startTime ==>
      r == Err(HttpError(BadRequest, "end_time must be after start_time"))
  {
    match Row(sessions, input.sessionId)
    case None => Err(HttpError(NotFound, "Session not found"))
    case Some(s) =>
      if s.userId != input.userId then
        Err(HttpError(BadRequest, "Interruption user_id does not match session user_id"))
      else if s.endTime.Some? then
        Err(HttpError(BadRequest, "Cannot add interruptions to a finished session"))
      else
        var duration := input.endTime - input.startTime;
        if duration < 0 then Err(HttpError(BadRequest, "end_time must be after start_time"))
        else Ok(duration)
  }

  /** A body that passed validation never reaches the negative-duration
      error: validation already demands an end strictly after the start. */
  lemma {:induction false} ValidatedNeverNegative(sessions: seq<WorkSession>, raw: RawInterruption)
    requires ValidateInterruptionCreate(raw).Ok?
    ensures CheckInterruption(sessions, ValidateInterruptionCreate(raw).value)
            != Err(HttpError(BadRequest, "end_time must be after start_time"))
  {
    ValidatedEndAfterStart(raw);
  }

  /** Appending an interruption attached to an active session of its own user
      with a non-negative duration keeps every interruption attached. */
  lemma {:induction false} AddKeepsAttached(sessions: seq<WorkSession>, interruptions: seq<Interruption>, i: Interruption)
    requires InterruptionsAttached(sessions, interruptions)
    requires 1 <= i.sessionId <= |sessions| && sessions[i.sessionId - 1].userId == i.userId && i.duration >= 0
    ensures InterruptionsAttached(sessions, interruptions + [i])
  {
    var all := interruptions + [i];
    assert forall k :: 0 <= k < |interruptions| ==> all[k] == interruptions[k];
  }

  /** POST /interruptions/: on a failed check nothing changes; otherwise one
      interruption is appended that copies the input's session, user, type
      value, description and times, with the computed duration. Sessions and
      users are never modified. */
  method CreateInterruption(db: Database, input: InterruptionCreate) returns (r: Result<Interruption, HttpError>)
    requires db.Valid()
    modifies db
    ensures db.Valid()
    ensures db.users == old(db.users) && db.sessions == old(db.sessions)
    ensures CheckInterruption(old(db.sessions), input).Err? ==>
      r == Err(CheckInterruption(old(db.sessions), input).error) && db.interruptions == old(db.interruptions)
    ensures CheckInterruption(old(db.sessions), input).Ok? ==>
      && r == Ok(Interruption(|old(db.interruptions)| + 1, input.sessionId, input.userId, TypeValue(input.kind),
                              input.description, input.startTime, input.endTime, input.endTime - input.startTime))
      && db.interruptions == old(db.interruptions) + [r.value]
  {
    var check := CheckInterruption(db.sessions, input);
    if check.Err? {
      return Err(check.error);
    }
    var i := Interruption(|db.interruptions| + 1, input.sessionId, input.userId, TypeValue(input.kind),
                          input.description, input.startTime, input.endTime, check.value);
    AddKeepsAttached(db.sessions, db.interruptions, i);
    db.interruptions := db.interruptions + [i];
    r := Ok(i);
  }

  /** The rows whose session is `sessionId`, in table order. */
  function OfSession(interruptions: seq<Interruption>, sessionId: int): (r: seq<Interruption>)
    ensures |r| <= |interruptions|
    ensures forall x :: x in r <==> x in interruptions && x.sessionId == sessionId
  {
    if |interruptions| == 0 then []
    else
      var prefix := interruptions[..|interruptions| - 1];
      var last := interruptions[|interruptions| - 1];
      assert interruptions == prefix + [last];
      var rest := OfSession(prefix, sessionId);
      if last.sessionId == sessionId then rest + [last] else rest
  }

  /** Filtering keeps the table order: the result of a longer table extends
      the result of its prefix. */
  lemma {:induction false} OfSessionAppend(interruptions: seq<Interruption>, i: Interruption, sessionId: int)
    ensures OfSession(interruptions + [i], sessionId)
            == OfSession(interruptions, sessionId) + (if i.sessionId == sessionId then [i] else [])
  {
    assert (interruptions + [i])[..|interruptions|] == interruptions;
  }

  /** GET /interruptions/session/{id}: 404 for an unknown session; otherwise
      exactly the interruptions recorded against it. */
  function GetInterruptionsForSession(db: Database, sessionId: int): (r: Result<seq<Interruption>, HttpError>)
    reads db
    requires db.Valid()
    ensures r.Err? <==> !(1 <= sessionId <= |db.sessions|)
    ensures r.Err? ==> r.error == HttpError(NotFound, "Session not found")
    ensures r.Ok? ==> forall x :: x in r.value <==> x in db.interruptions && x.sessionId == sessionId
    ensures r.Ok? ==> forall x :: x in r.value ==> x.userId == db.sessions[sessionId - 1].userId
  {
    if Row(db.sessions, sessionId).None? then Err(HttpError(NotFound, "Session not found"))
    else Ok(OfSession(db.interruptions, sessionId))
  }
}
