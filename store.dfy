/** The service's persistent state: three tables of rows. Row ids are
    assigned by the database in insertion order starting at 1 and rows are
    never deleted, so a table is a sequence whose row k has id k + 1. */
module Store {
  import opened Common

  datatype User = User(id: int, name: string, email: string)

  /** A focus session; `endTime` None means the session is active. */
  datatype WorkSession = WorkSession(id: int, userId: int, startTime: int, endTime: Option<int>)

  /** `kind` is the stored type string; `duration` is in whole seconds. */
  datatype Interruption = Interruption(
    id: int, sessionId: int, userId: int, kind: string, description: string,
    startTime: int, endTime: int, duration: int)

  /** An HTTP error response: status code and `detail` text. */
  datatype HttpError = HttpError(status: int, detail: string)

  const BadRequest := 400
  const NotFound := 404

  predicate IdsAreRowNumbers(users: seq<User>, sessions: seq<WorkSession>, interruptions: seq<Interruption>) {
    && (forall k :: 0 <= k < |users| ==> users[k].id == k + 1)
    && (forall k :: 0 <= k < |sessions| ==> sessions[k].id == k + 1)
    && (forall k :: 0 <= k < |interruptions| ==> interruptions[k].id == k + 1)
  }

  /** No two users share an e-mail address. */
  predicate UniqueEmails(users: seq<User>) {
    forall i, j :: 0 <= i < |users| && 0 <= j < |users| && users[i].email == users[j].email ==> i == j
  }

  predicate IsActive(s: WorkSession) {
    s.endTime.None?
  }

  /** Whether the user has a session whose end time is still unset. */
  predicate HasActiveSession(sessions: seq<WorkSession>, userId: int) {
    exists i :: 0 <= i < |sessions| && sessions[i].userId == userId && IsActive(sessions[i])
  }

  /** No user has two active sessions. */
  predicate AtMostOneActive(sessions: seq<WorkSession>) {
    forall i, j ::
      (0 <= i < |sessions| && 0 <= j < |sessions| && sessions[i].userId == sessions[j].userId
       && IsActive(sessions[i]) && IsActive(sessions[j])) ==> i == j
  }

  /** Row lookup by primary key. */
  function Row<T>(table: seq<T>, id: int): (r: Option<T>)
    ensures r.Some? <==> 1 <= id <= |table|
    ensures r.Some? ==> r.value == table[id - 1]
  {
    if 1 <= id <= |table| then Some(table[id - 1]) else None
  }

  /** Each interruption belongs to an existing session of the same user and
      has a non-negative duration. */
  predicate InterruptionsAttached(sessions: seq<WorkSession>, interruptions: seq<Interruption>) {
    forall k :: 0 <= k < |interruptions| ==>
      && 1 <= interruptions[k].sessionId <= |sessions|
      && sessions[interruptions[k].sessionId - 1].userId == interruptions[k].userId
      && interruptions[k].duration >= 0
  }

  /** Each session belongs to an existing user. */
  predicate SessionsOwned(users: seq<User>, sessions: seq<WorkSession>) {
    forall k :: 0 <= k < |sessions| ==> 1 <= sessions[k].userId <= |users|
  }

  /** A session that had an end time still has the same row afterwards:
      an end time is written at most once. */
  predicate EndTimesKept(before: seq<WorkSession>, after: seq<WorkSession>) {
    |before| <= |after|
    && forall k :: 0 <= k < |before| && before[k].endTime.Some? ==> after[k] == before[k]
  }

  lemma {:induction false} EndTimesKeptTransitive(a: seq<WorkSession>, b: seq<WorkSession>, c: seq<WorkSession>)
    requires EndTimesKept(a, b) && EndTimesKept(b, c)
    ensures EndTimesKept(a, c)
  {
    forall k | 0 <= k < |a| && a[k].endTime.Some? ensures c[k] == a[k] {
      assert b[k] == a[k];
    }
  }

  class Database {
    var users: seq<User>
    var sessions: seq<WorkSession>
    var interruptions: seq<Interruption>

    ghost predicate Valid()
      reads this
    {
      && IdsAreRowNumbers(users, sessions, interruptions)
      && UniqueEmails(users)
      && AtMostOneActive(sessions)
      && SessionsOwned(users, sessions)
      && InterruptionsAttached(sessions, interruptions)
    }

    constructor ()
      ensures Valid()
      ensures users == [] && sessions == [] && interruptions == []
    {
      users, sessions, interruptions := [], [], [];
    }
  }
}
