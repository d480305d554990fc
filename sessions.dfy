/** The sessions endpoints: start a session, end it once, fetch one, list a
    user's sessions. Times are UTC seconds; `now` is the server clock. */
module Sessions {
  import opened Common
  import opened Store
  import opened Schemas

  const SecondsPerDay := 86400

  /** Starting a session for a user without an active one keeps at most one
      active session per user. */
  lemma {:induction false} StartKeepsOneActive(sessions: seq<WorkSession>, s: WorkSession)
    requires AtMostOneActive(sessions) && !HasActiveSession(sessions, s.userId)
    ensures AtMostOneActive(sessions + [s])
  {
    var ss := sessions + [s];
    assert forall i :: 0 <= i < |sessions| ==>
      ss[i] == sessions[i] && !(sessions[i].userId == s.userId && IsActive(sessions[i]));
  }

  /** POST /sessions/start: 404 for an unknown user, 400 when the user
      already has an active session (nothing is added in either case);
      otherwise appends one active session starting at the given time, or at
      `now` when none is given. */
  method StartSession(db: Database, input: SessionStart, now: int) returns (r: Result<WorkSession, HttpError>)
    requires db.Valid()
    modifies db
    ensures db.Valid()
    ensures db.users == old(db.users) && db.interruptions == old(db.interruptions)
    ensures EndTimesKept(old(db.sessions), db.sessions)
    ensures !(1 <= input.userId <= |old(db.users)|) ==>
      r == Err(HttpError(NotFound, "User not found")) && db.sessions == old(db.sessions)
    ensures 1 <= input.userId <= |old(db.users)| && HasActiveSession(old(db.sessions), input.userId) ==>
      r == Err(HttpError(BadRequest, "User already has an active session")) && db.sessions == old(db.sessions)
    ensures 1 <= input.userId <= |old(db.users)| && !HasActiveSession(old(db.sessions), input.userId) ==>
      && r == Ok(WorkSession(|old(db.sessions)| + 1, input.userId, input.startTime.GetOr(now), None))
      && db.sessions == old(db.sessions) + [r.value]
  {
    if Row(db.users, input.userId).None? {
      return Err(HttpError(NotFound, "User not found"));
    }
    if HasActiveSession(db.sessions, input.userId) {
      return Err(HttpError(BadRequest, "User already has an active session"));
    }
    var s := WorkSession(|db.sessions| + 1, input.userId, input.startTime.GetOr(now), None);
    StartKeepsOneActive(db.sessions, s);
    db.sessions := db.sessions + [s];
    r := Ok(s);
  }

  /** POST /sessions/{id}/end: 404 for an unknown id, 400 for a session that
      already ended; otherwise sets that session's end time to `now` and
      changes nothing else. */
  method EndSession(db: Database, sessionId: int, now: int) returns (r: Result<WorkSession, HttpError>)
    requires db.Valid()
    modifies db
    ensures db.Valid()
    ensures db.users == old(db.users) && db.interruptions == old(db.interruptions)
    ensures EndTimesKept(old(db.sessions), db.sessions)
    ensures !(1 <= sessionId <= |old(db.sessions)|) ==>
      r == Err(HttpError(NotFound, "Session not found")) && db.sessions == old(db.sessions)
    ensures 1 <= sessionId <= |old(db.sessions)| && old(db.sessions)[sessionId - 1].endTime.Some? ==>
      r == Err(HttpError(BadRequest, "Session is already ended")) && db.sessions == old(db.sessions)
    ensures 1 <= sessionId <= |old(db.sessions)| && old(db.sessions)[sessionId - 1].endTime.None? ==>
      && r == Ok(old(db.sessions)[sessionId - 1].(endTime := Some(now)))
      && db.sessions == old(db.sessions)[sessionId - 1 := r.value]
  {
    var found := Row(db.sessions, sessionId);
    if found.None? {
      return Err(HttpError(NotFound, "Session not found"));
    }
    var s := found.value;
    if s.endTime.Some? {
      return Err(HttpError(BadRequest, "Session is already ended"));
    }
    var ended := s.(endTime := Some(now));
    db.sessions := db.sessions[sessionId - 1 := ended];
    r := Ok(ended);
  }

  /** GET /sessions/{id}: the stored session, or 404. */
  function GetSessionById(db: Database, sessionId: int): (r: Result<WorkSession, HttpError>)
    reads db
    requires db.Valid()
    ensures r.Ok? <==> 1 <= sessionId <= |db.sessions|
    ensures r.Ok? ==> r.value.id == sessionId && r.value in db.sessions
    ensures r.Err? ==> r.error == HttpError(NotFound, "Session not found")
  {
    match Row(db.sessions, sessionId)
    case Some(s) => Ok(s)
    case None => Err(HttpError(NotFound, "Session not found"))
  }

  /** The optional `day` filter (days since 1970-01-01): the start time lies
      between the day's first and last second, both included. */
  predicate OnDay(s: WorkSession, day: Option<int>) {
    day.None? || (day.value * SecondsPerDay <= s.startTime <= day.value * SecondsPerDay + (SecondsPerDay - 1))
  }

  predicate Listed(s: WorkSession, userId: int, day: Option<int>) {
    s.userId == userId && OnDay(s, day)
  }

  predicate SortedByStart(ss: seq<WorkSession>) {
    forall i, j :: 0 <= i < j < |ss| ==> ss[i].startTime <= ss[j].startTime
  }

  predicate NoDuplicates(ss: seq<WorkSession>) {
    forall i, j :: 0 <= i < j < |ss| ==> ss[i] != ss[j]
  }

  /** The matching rows, in table order (the query's WHERE clause). */
  function Matching(ss: seq<WorkSession>, userId: int, day: Option<int>): (r: seq<WorkSession>)
    ensures forall s :: s in r <==> s in ss && Listed(s, userId, day)
    ensures NoDuplicates(ss) ==> NoDuplicates(r)
  {
    if |ss| == 0 then []
    else
      var rest := Matching(ss[..|ss| - 1], userId, day);
      var last := ss[|ss| - 1];
      assert ss == ss[..|ss| - 1] + [last];
      if Listed(last, userId, day) then rest + [last] else rest
  }

  lemma SortedCons(h: WorkSession, rest: seq<WorkSession>)
    requires SortedByStart(rest) && forall x :: x in rest ==> h.startTime <= x.startTime
    ensures SortedByStart([h] + rest)
  {
    var r := [h] + rest;
    forall i, j | 0 <= i < j < |r| ensures r[i].startTime <= r[j].startTime {
      assert r[j] == rest[j - 1];
      if i > 0 {
        assert r[i] == rest[i - 1];
      }
    }
  }

  function InsertByStart(s: WorkSession, sorted: seq<WorkSession>): (r: seq<WorkSession>)
    requires SortedByStart(sorted)
    ensures SortedByStart(r)
    ensures forall x :: x in r <==> x == s || x in sorted
    ensures NoDuplicates(sorted) && s !in sorted ==> NoDuplicates(r)
  {
    if |sorted| == 0 then [s]
    else if s.startTime <= sorted[0].startTime then
      SortedCons(s, sorted);
      NoDuplicatesCons(s, sorted);
      [s] + sorted
    else
      var tail := sorted[1..];
      assert sorted == [sorted[0]] + tail;
      var rest := InsertByStart(s, tail);
      SortedCons(sorted[0], rest);
      assert NoDuplicates(sorted) ==> sorted[0] !in tail;
      NoDuplicatesCons(sorted[0], rest);
      [sorted[0]] + rest
  }

  /** Adding a row absent from a duplicate-free list keeps it free of duplicates. */
  lemma NoDuplicatesCons(h: WorkSession, rest: seq<WorkSession>)
    ensures NoDuplicates(rest) && h !in rest ==> NoDuplicates([h] + rest)
  {
    if NoDuplicates(rest) && h !in rest {
      var r := [h] + rest;
      forall i, j | 0 <= i < j < |r| ensures r[i] != r[j] {
        assert r[j] == rest[j - 1];
        if i > 0 {
          assert r[i] == rest[i - 1];
        }
      }
    }
  }

  /** ORDER BY start_time. */
  function SortByStart(ss: seq<WorkSession>): (r: seq<WorkSession>)
    ensures SortedByStart(r)
    ensures forall x :: x in r <==> x in ss
    ensures NoDuplicates(ss) ==> NoDuplicates(r)
  {
    if |ss| == 0 then []
    else
      var prefix := ss[..|ss| - 1];
      assert ss == prefix + [ss[|ss| - 1]];
      InsertByStart(ss[|ss| - 1], SortByStart(prefix))
  }

  lemma RowsAreDistinct(ss: seq<WorkSession>)
    requires forall k :: 0 <= k < |ss| ==> ss[k].id == k + 1
    ensures NoDuplicates(ss)
  {
  }

  /** GET /sessions/user/{id}?day=: 404 for an unknown user; otherwise
      exactly that user's sessions (on `day`, when given), each once, ordered
      by start time. */
  function GetSessionsForUser(db: Database, userId: int, day: Option<int>): (r: Result<seq<WorkSession>, HttpError>)
    reads db
    requires db.Valid()
    ensures r.Err? <==> !(1 <= userId <= |db.users|)
    ensures r.Err? ==> r.error == HttpError(NotFound, "User not found")
    ensures r.Ok? ==> SortedByStart(r.value) && NoDuplicates(r.value)
    ensures r.Ok? ==> forall s :: s in r.value <==> s in db.sessions && s.userId == userId && OnDay(s, day)
  {
    if Row(db.users, userId).None? then Err(HttpError(NotFound, "User not found"))
    else
      RowsAreDistinct(db.sessions);
      Ok(SortByStart(Matching(db.sessions, userId, day)))
  }
}
