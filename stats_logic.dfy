/** The statistics service: per-user aggregates over the last `rangeDays`
    days (the window starts at `now - rangeDays` days). Each operation runs
    its queries (pure filters here), then accumulates in loops as the
    service does; each loop is proved against a specification function on
    the queried rows, and the lemmas state what those functions mean. */
module StatsLogic {
  import opened Common
  import opened Store
  import opened Buckets

  /** `now - timedelta(days=rangeDays)` */
  function Since(now: int, rangeDays: int): int {
    now - rangeDays * SecondsPerDay
  }

  // ---------------------------------------------------------------- queries

  /** Sessions of the user that started in the window, in table order. */
  function SessionsSince(ss: seq<WorkSession>, userId: int, since: int): (r: seq<WorkSession>)
    ensures |r| <= |ss|
    ensures forall s :: s in r <==> s in ss && s.userId == userId && s.startTime >= since
  {
    if |ss| == 0 then []
    else
      var prefix := ss[..|ss| - 1];
      var last := ss[|ss| - 1];
      assert ss == prefix + [last];
      var rest := SessionsSince(prefix, userId, since);
      if last.userId == userId && last.startTime >= since then rest + [last] else rest
  }

  /** The same, restricted to finished sessions (`end_time IS NOT NULL`). */
  function FinishedSince(ss: seq<WorkSession>, userId: int, since: int): (r: seq<WorkSession>)
    ensures |r| <= |ss|
    ensures forall s :: s in r <==> s in ss && s.userId == userId && s.startTime >= since && s.endTime.Some?
  {
    if |ss| == 0 then []
    else
      var prefix := ss[..|ss| - 1];
      var last := ss[|ss| - 1];
      assert ss == prefix + [last];
      var rest := FinishedSince(prefix, userId, since);
      if last.userId == userId && last.startTime >= since && last.endTime.Some? then rest + [last] else rest
  }

  /** Interruptions of the user that started in the window, in table order. */
  function InterruptionsSince(its: seq<Interruption>, userId: int, since: int): (r: seq<Interruption>)
    ensures |r| <= |its|
    ensures forall i :: i in r <==> i in its && i.userId == userId && i.startTime >= since
  {
    if |its| == 0 then []
    else
      var prefix := its[..|its| - 1];
      var last := its[|its| - 1];
      assert its == prefix + [last];
      var rest := InterruptionsSince(prefix, userId, since);
      if last.userId == userId && last.startTime >= since then rest + [last] else rest
  }

  // ---------------------------------------------------------------- summary

  /** Worked time: end - start over finished sessions, positive lengths only. */
  function Worked(ss: seq<WorkSession>): (w: int)
    ensures w >= 0
  {
    if |ss| == 0 then 0
    else
      var s := ss[|ss| - 1];
      Worked(ss[..|ss| - 1])
        + (if s.endTime.Some? && s.endTime.value - s.startTime > 0 then s.endTime.value - s.startTime else 0)
  }

  /** Lost time: the sum of the positive durations. */
  function Lost(its: seq<Interruption>): (l: int)
    ensures l >= 0
  {
    if |its| == 0 then 0
    else
      var d := its[|its| - 1].duration;
      Lost(its[..|its| - 1]) + (if d > 0 then d else 0)
  }

  /** With every stored duration non-negative, lost time is simply the total
      duration. */
  function TotalDuration(its: seq<Interruption>): int {
    if |its| == 0 then 0 else TotalDuration(its[..|its| - 1]) + its[|its| - 1].duration
  }

  lemma {:induction false} LostIsTotalDuration(its: seq<Interruption>)
    requires forall k :: 0 <= k < |its| ==> its[k].duration >= 0
    ensures Lost(its) == TotalDuration(its)
  {
    if |its| > 0 {
      LostIsTotalDuration(its[..|its| - 1]);
    }
  }

  datatype Summary = Summary(
    userId: int, rangeDays: int,
    totalSessions: int, totalInterruptions: int,
    timeWorkedSeconds: int, timeLostSeconds: int, effectiveTimeSeconds: int,
    averageInterruptionDuration: Ratio, interruptionsPerHour: Ratio)

  /** `r` is the general statistics of the user's rows in `sessions` and
      `interruptions` over the `rangeDays` days before `now`. */
  ghost predicate IsSummary(sessions: seq<WorkSession>, interruptions: seq<Interruption>,
                            userId: int, rangeDays: int, now: int, r: Summary)
  {
    var since := Since(now, rangeDays);
    var ss := SessionsSince(sessions, userId, since);
    var its := InterruptionsSince(interruptions, userId, since);
    && r.userId == userId && r.rangeDays == rangeDays
    && r.totalSessions == |ss| && r.totalInterruptions == |its|
    && r.timeWorkedSeconds == Worked(ss) && r.timeLostSeconds == Lost(its)
    && 0 <= r.effectiveTimeSeconds <= r.timeWorkedSeconds
    && r.effectiveTimeSeconds == Max(r.timeWorkedSeconds - r.timeLostSeconds, 0)
    && r.averageInterruptionDuration == Quotient(Lost(its), |its|)
    && r.interruptionsPerHour == Quotient(|its| * SecondsPerHour, r.effectiveTimeSeconds)
  }

  /** General statistics: counts of the user's sessions (active ones
      included) and interruptions that started in the window, worked and
      lost time, effective time = max(worked - lost, 0), the mean
      interruption duration and the interruptions per effective hour (0 when
      there is nothing to divide by). */
  method SummaryStats(db: Database, userId: int, rangeDays: int, now: int) returns (r: Summary)
    ensures IsSummary(db.sessions, db.interruptions, userId, rangeDays, now, r)
  {
    var since := Since(now, rangeDays);
    var sessions := SessionsSince(db.sessions, userId, since);
    var interruptions := InterruptionsSince(db.interruptions, userId, since);
    var totalSessions := |sessions|;
    var totalInterruptions := |interruptions|;

    var worked := 0;
    var i := 0;
    while i < |sessions|
      invariant 0 <= i <= |sessions|
      invariant worked == Worked(sessions[..i])
    {
      var s := sessions[i];
      TakeTake(sessions, i);
      if s.endTime.Some? {
        var delta := s.endTime.value - s.startTime;
        if delta > 0 {
          worked := worked + delta;
        }
      }
      i := i + 1;
    }
    TakeAll(sessions);

    var lost := 0;
    i := 0;
    while i < |interruptions|
      invariant 0 <= i <= |interruptions|
      invariant lost == Lost(interruptions[..i])
    {
      var it := interruptions[i];
      TakeTake(interruptions, i);
      if it.duration > 0 {
        lost := lost + it.duration;
      }
      i := i + 1;
    }
    TakeAll(interruptions);

    var effective := Max(worked - lost, 0);
    var average := if totalInterruptions > 0 then Ratio(lost, totalInterruptions) else Zero;
    var perHour := if effective > 0 then Ratio(totalInterruptions * SecondsPerHour, effective) else Zero;
    r := Summary(userId, rangeDays, totalSessions, totalInterruptions, worked, lost, effective, average, perHour);
  }

  // ------------------------------------------------------------- type stats

  /** A missing (empty) type is counted as "unknown". */
  function EffectiveKind(it: Interruption): string {
    if it.kind == "" then "unknown" else it.kind
  }

  /** Reference count: how many of the rows have effective type k. */
  function KindCount(its: seq<Interruption>, k: string): nat {
    if |its| == 0 then 0
    else KindCount(its[..|its| - 1], k) + (if EffectiveKind(its[|its| - 1]) == k then 1 else 0)
  }

  /** Where the first row of type k is, or |its| when there is none. */
  function FirstOf(its: seq<Interruption>, k: string): (i: nat)
    ensures i <= |its|
    ensures i < |its| <==> KindCount(its, k) > 0
    ensures i < |its| ==> EffectiveKind(its[i]) == k
    ensures forall j :: 0 <= j < i && j < |its| ==> EffectiveKind(its[j]) != k
  {
    if |its| == 0 then 0
    else
      var n := |its| - 1;
      var f := FirstOf(its[..n], k);
      assert forall j :: 0 <= j < n ==> its[..n][j] == its[j];
      if f < n then f else if EffectiveKind(its[n]) == k then n else |its|
  }

  /** Adding a row moves no type's first row; a type seen for the first
      time has it at the new row. */
  lemma FirstOfSnoc(its: seq<Interruption>, x: Interruption, k: string)
    ensures FirstOf(its + [x], k)
            == if FirstOf(its, k) < |its| then FirstOf(its, k)
               else if EffectiveKind(x) == k then |its| else |its| + 1
  {
    assert (its + [x])[..|its|] == its;
  }

  /** An insertion-ordered dictionary from type to count. */
  type Counts = seq<(string, int)>

  /** The keys, in insertion order. */
  function Keys(c: Counts): (ks: seq<string>)
    ensures |ks| == |c| && forall j :: 0 <= j < |c| ==> ks[j] == c[j].0
  {
    if |c| == 0 then [] else [c[0].0] + Keys(c[1..])
  }

  predicate HasKey(c: Counts, k: string) {
    k in Keys(c)
  }

  predicate UniqueKeys(c: Counts) {
    forall i, j :: 0 <= i < j < |c| ==> c[i].0 != c[j].0
  }

  predicate PositiveCounts(c: Counts) {
    forall j :: 0 <= j < |c| ==> c[j].1 >= 1
  }

  /** The position of the first occurrence of k, or -1. */
  function IndexOf(ks: seq<string>, k: string): (i: int)
    ensures -1 <= i < |ks|
    ensures i >= 0 ==> ks[i] == k && forall j :: 0 <= j < i ==> ks[j] != k
    ensures i < 0 <==> k !in ks
  {
    if |ks| == 0 then -1
    else if ks[0] == k then 0
    else
      var i := IndexOf(ks[1..], k);
      assert forall j :: 1 <= j < |ks| ==> ks[1..][j - 1] == ks[j];
      if i < 0 then -1 else i + 1
  }

  lemma {:induction false} IndexOfAppend(ks: seq<string>, k: string, j: string)
    ensures IndexOf(ks + [k], j) == (if j in ks then IndexOf(ks, j) else if j == k then |ks| else -1)
  {
    var i := IndexOf(ks + [k], j);
    if j in ks {
      var m := IndexOf(ks, j);
      assert (ks + [k])[m] == j;
    }
  }

  /** `counts.get(k, 0)` */
  function Get(c: Counts, k: string): (n: int)
    ensures !HasKey(c, k) ==> n == 0
    ensures PositiveCounts(c) && HasKey(c, k) ==> n >= 1
  {
    var i := IndexOf(Keys(c), k);
    if i < 0 then 0 else c[i].1
  }

  /** `sum(counts.values())` */
  function Total(c: Counts): int {
    if |c| == 0 then 0 else Total(c[..|c| - 1]) + c[|c| - 1].1
  }

  lemma {:induction false} TotalIncrement(c: Counts, i: nat)
    requires i < |c|
    ensures Total(c[i := (c[i].0, c[i].1 + 1)]) == Total(c) + 1
  {
    var t := c[i := (c[i].0, c[i].1 + 1)];
    if i == |c| - 1 {
      assert t[..|t| - 1] == c[..|c| - 1];
    } else {
      assert t[..|t| - 1] == c[..|c| - 1][i := (c[i].0, c[i].1 + 1)];
      TotalIncrement(c[..|c| - 1], i);
    }
  }

  /** `counts[k] = counts.get(k, 0) + 1`: an existing key keeps its place, a
      new key is appended with count 1. */
  function Bump(c: Counts, k: string): (r: Counts)
    ensures HasKey(c, k) ==> Keys(r) == Keys(c) && |r| == |c|
    ensures !HasKey(c, k) ==> r == c + [(k, 1)]
  {
    var i := IndexOf(Keys(c), k);
    if i >= 0 then
      var r := c[i := (k, c[i].1 + 1)];
      assert Keys(r) == Keys(c);
      r
    else c + [(k, 1)]
  }

  /** Bumping k adds one to k's count and leaves every other count alone. */
  lemma BumpGet(c: Counts, k: string, j: string)
    ensures Get(Bump(c, k), j) == Get(c, j) + (if j == k then 1 else 0)
  {
    if !HasKey(c, k) {
      var r := c + [(k, 1)];
      assert Keys(r) == Keys(c) + [k];
      IndexOfAppend(Keys(c), k, j);
    }
  }

  lemma KeysSnoc(c: Counts, p: (string, int))
    ensures Keys(c + [p]) == Keys(c) + [p.0]
  {
  }

  /** Bumping adds exactly one to the total. */
  lemma BumpTotal(c: Counts, k: string)
    ensures Total(Bump(c, k)) == Total(c) + 1
  {
    var r := Bump(c, k);
    if HasKey(c, k) {
      TotalIncrement(c, IndexOf(Keys(c), k));
    } else {
      assert r[..|r| - 1] == c;
    }
  }

  /** Bumping adds k to the keys, and keeps keys unique and counts
      positive. */
  lemma BumpKeepsShape(c: Counts, k: string)
    ensures forall j :: HasKey(Bump(c, k), j) <==> HasKey(c, j) || j == k
    ensures UniqueKeys(c) ==> UniqueKeys(Bump(c, k))
    ensures PositiveCounts(c) ==> PositiveCounts(Bump(c, k))
  {
    var r := Bump(c, k);
    if HasKey(c, k) {
      var i := IndexOf(Keys(c), k);
      assert r == c[i := (k, c[i].1 + 1)];
      assert forall j :: 0 <= j < |r| ==> r[j].0 == c[j].0 && r[j].1 >= c[j].1;
    } else {
      assert r == c + [(k, 1)];
      KeysSnoc(c, (k, 1));
      assert forall j :: 0 <= j < |c| ==> r[j] == c[j];
    }
  }

  /** The proportion of each type, keys in the same order as the counts. */
  function Proportions(c: Counts, total: int): (r: seq<(string, Ratio)>)
    ensures |r| == |c|
    ensures forall j :: 0 <= j < |c| ==> r[j].0 == c[j].0 && r[j].1 == Quotient(c[j].1, total)
  {
    if |c| == 0 then [] else [(c[0].0, Quotient(c[0].1, total))] + Proportions(c[1..], total)
  }

  datatype TypeStats = TypeStats(
    userId: int, rangeDays: int, counts: Counts, proportions: seq<(string, Ratio)>, totalInterruptions: int)

  /** `counts` is the tally of `its`: unique keys, each with the positive
      number of rows of its type, and nothing else. */
  ghost predicate TallyOf(counts: Counts, its: seq<Interruption>) {
    && UniqueKeys(counts) && PositiveCounts(counts) && InFirstOrder(counts, its)
    && (forall k :: Get(counts, k) == KindCount(its, k))
    && (forall k :: HasKey(counts, k) ==> KindCount(its, k) > 0)
    && Total(counts) == |its|
  }

  /** The keys are in the order in which their types first occur: each
      key's first row comes before the next key's. */
  predicate InFirstOrder(counts: Counts, its: seq<Interruption>) {
    forall a :: 0 < a < |counts| ==> FirstOf(its, counts[a - 1].0) < FirstOf(its, counts[a].0)
  }

  lemma TallyEmpty()
    ensures TallyOf([], [])
  {
  }

  /** Counting one more row bumps its type. */
  lemma TallyStep(counts: Counts, its: seq<Interruption>, x: Interruption)
    requires TallyOf(counts, its)
    ensures TallyOf(Bump(counts, EffectiveKind(x)), its + [x])
  {
    var kind := EffectiveKind(x);
    var its' := its + [x];
    assert its'[..|its'| - 1] == its;
    BumpTotal(counts, kind);
    BumpKeepsShape(counts, kind);
    forall k ensures Get(Bump(counts, kind), k) == KindCount(its', k) {
      BumpGet(counts, kind, k);
    }
    TallyKeysSeen(counts, its);
    BumpKeepsOrder(counts, its, x);
  }

  /** Every key of a tally has its first row among the rows. */
  lemma TallyKeysSeen(counts: Counts, its: seq<Interruption>)
    requires TallyOf(counts, its)
    ensures forall j :: 0 <= j < |counts| ==> FirstOf(its, counts[j].0) < |its|
  {
    forall j | 0 <= j < |counts| ensures FirstOf(its, counts[j].0) < |its| {
      assert Keys(counts)[j] == counts[j].0;
      assert HasKey(counts, counts[j].0);
    }
  }

  /** Adding a row moves the first row of no type already seen. */
  lemma SeenKeysStay(counts: Counts, its: seq<Interruption>, x: Interruption)
    requires forall j :: 0 <= j < |counts| ==> FirstOf(its, counts[j].0) < |its|
    ensures forall j :: 0 <= j < |counts| ==> FirstOf(its + [x], counts[j].0) == FirstOf(its, counts[j].0)
  {
    forall j | 0 <= j < |counts| ensures FirstOf(its + [x], counts[j].0) == FirstOf(its, counts[j].0) {
      FirstOfSnoc(its, x, counts[j].0);
    }
  }

  /** Bumping the type of a new row keeps the keys in first-occurrence
      order: an existing key's first row does not move, and a new key's
      first row is the new one, after all others. */
  lemma BumpKeepsOrder(counts: Counts, its: seq<Interruption>, x: Interruption)
    requires InFirstOrder(counts, its)
    requires forall j :: 0 <= j < |counts| ==> FirstOf(its, counts[j].0) < |its|
    requires !HasKey(counts, EffectiveKind(x)) ==> FirstOf(its, EffectiveKind(x)) == |its|
    ensures InFirstOrder(Bump(counts, EffectiveKind(x)), its + [x])
  {
    var kind := EffectiveKind(x);
    SeenKeysStay(counts, its, x);
    if HasKey(counts, kind) {
      SameKeysSameOrder(counts, Bump(counts, kind), its, x);
    } else {
      FirstOfSnoc(its, x, kind);
      NewKeyLast(counts, its, its + [x], kind);
    }
  }

  lemma SameKeysSameOrder(counts: Counts, r: Counts, its: seq<Interruption>, x: Interruption)
    requires InFirstOrder(counts, its)
    requires forall j :: 0 <= j < |counts| ==> FirstOf(its + [x], counts[j].0) == FirstOf(its, counts[j].0)
    requires Keys(r) == Keys(counts)
    ensures InFirstOrder(r, its + [x])
  {
    forall a | 0 < a < |r| ensures FirstOf(its + [x], r[a - 1].0) < FirstOf(its + [x], r[a].0) {
      assert r[a - 1].0 == Keys(r)[a - 1] == counts[a - 1].0;
      assert r[a].0 == Keys(r)[a] == counts[a].0;
    }
  }

  lemma NewKeyLast(counts: Counts, its: seq<Interruption>, its': seq<Interruption>, kind: string)
    requires InFirstOrder(counts, its)
    requires forall j :: 0 <= j < |counts| ==> FirstOf(its', counts[j].0) == FirstOf(its, counts[j].0) < |its|
    requires FirstOf(its', kind) == |its|
    ensures InFirstOrder(counts + [(kind, 1)], its')
  {
    var r := counts + [(kind, 1)];
    forall a | 0 < a < |r| ensures FirstOf(its', r[a - 1].0) < FirstOf(its', r[a].0) {
      var p, q := r[a - 1].0, r[a].0;
      assert p == counts[a - 1].0;
      assert FirstOf(its', p) < |its|;
      assert a < |counts| ==> q == counts[a].0;
      assert a == |counts| ==> q == kind;
    }
  }

  /** The counting loop: each type present among the rows appears once,
      in order of first appearance, with its number of rows. */
  method CountKinds(interruptions: seq<Interruption>) returns (counts: Counts)
    ensures TallyOf(counts, interruptions)
  {
    counts := [];
    var i := 0;
    TallyEmpty();
    while i < |interruptions|
      invariant 0 <= i <= |interruptions|
      invariant TallyOf(counts, interruptions[..i])
    {
      TallyStep(counts, interruptions[..i], interruptions[i]);
      TakeNext(interruptions, i);
      counts := Bump(counts, EffectiveKind(interruptions[i]));
      i := i + 1;
    }
    TakeAll(interruptions);
  }

  /** `r` is the interruptions per type of the user's rows in `sessions` and
      `interruptions` over the `rangeDays` days before `now`. */
  ghost predicate IsTypeStats(sessions: seq<WorkSession>, interruptions: seq<Interruption>,
                              userId: int, rangeDays: int, now: int, r: TypeStats)
  {
    var its := InterruptionsSince(interruptions, userId, Since(now, rangeDays));
    && r.userId == userId && r.rangeDays == rangeDays
    && UniqueKeys(r.counts)
    && (forall k :: HasKey(r.counts, k) <==> KindCount(its, k) > 0)
    && (forall k :: Get(r.counts, k) == KindCount(its, k))
    && InFirstOrder(r.counts, its)
    && r.totalInterruptions == Total(r.counts) == |its|
    && |r.proportions| == |r.counts|
    && (forall j :: 0 <= j < |r.counts| ==>
          r.proportions[j].0 == r.counts[j].0 && r.proportions[j].1 == Quotient(r.counts[j].1, |its|))
  }

  /** Interruptions per type: each type present among the in-window
      interruptions appears once with its count, the total is their number,
      and the proportions have exactly the keys of the counts. */
  method InterruptionTypeStats(db: Database, userId: int, rangeDays: int, now: int) returns (r: TypeStats)
    ensures IsTypeStats(db.sessions, db.interruptions, userId, rangeDays, now, r)
  {
    var interruptions := InterruptionsSince(db.interruptions, userId, Since(now, rangeDays));
    var counts := CountKinds(interruptions);
    var total := Total(counts);
    r := TypeStats(userId, rangeDays, counts, Proportions(counts, total), total);
  }

  // --------------------------------------------------- hour and day buckets

  /** One session's share of the work buckets; a session without an end
      adds nothing. */
  function AddSession(g: Grain, b: seq<int>, s: WorkSession, since: int, now: int): (r: seq<int>)
    requires |b| == BucketCount(g)
    ensures |r| == BucketCount(g)
  {
    match s.endTime
    case None => b
    case Some(end) => AddClipped(g, b, s.startTime, end, since, now)
  }

  /** The work buckets after every session of `ss`, in order. */
  function WorkBuckets(g: Grain, ss: seq<WorkSession>, since: int, now: int): (r: seq<int>)
    ensures |r| == BucketCount(g)
  {
    if |ss| == 0 then Zeros(BucketCount(g))
    else AddSession(g, WorkBuckets(g, ss[..|ss| - 1], since, now), ss[|ss| - 1], since, now)
  }

  /** The length of a session's overlap with the window [since, now). */
  function Overlap(s: WorkSession, since: int, now: int): nat {
    match s.endTime
    case None => 0
    case Some(end) => Max(0, Min(end, now) - Max(s.startTime, since))
  }

  function TotalOverlap(ss: seq<WorkSession>, since: int, now: int): nat {
    if |ss| == 0 then 0 else TotalOverlap(ss[..|ss| - 1], since, now) + Overlap(ss[|ss| - 1], since, now)
  }

  /** Seconds of the sessions' overlaps with the window that fall in bucket k. */
  function OverlapIn(g: Grain, k: int, ss: seq<WorkSession>, since: int, now: int): nat {
    if |ss| == 0 then 0
    else
      var s := ss[|ss| - 1];
      OverlapIn(g, k, ss[..|ss| - 1], since, now)
        + (match s.endTime
           case None => 0
           case Some(end) => SecondsIn(g, k, Max(s.startTime, since), Min(end, now)))
  }

  /** The buckets together hold exactly the sessions' time inside the window. */
  lemma {:induction false} WorkBucketsTotal(g: Grain, ss: seq<WorkSession>, since: int, now: int)
    ensures Sum(WorkBuckets(g, ss, since, now)) == TotalOverlap(ss, since, now)
  {
    if |ss| > 0 {
      WorkBucketsTotal(g, ss[..|ss| - 1], since, now);
      var s := ss[|ss| - 1];
      if s.endTime.Some? {
        AddClippedTotal(g, WorkBuckets(g, ss[..|ss| - 1], since, now), s.startTime, s.endTime.value, since, now);
      }
    }
  }

  /** Bucket k holds exactly the in-window seconds that fall in hour k of
      the day (or weekday k). */
  lemma {:induction false} WorkBucketsEach(g: Grain, ss: seq<WorkSession>, since: int, now: int, k: int)
    requires 0 <= k < BucketCount(g)
    ensures WorkBuckets(g, ss, since, now)[k] == OverlapIn(g, k, ss, since, now)
  {
    if |ss| > 0 {
      WorkBucketsEach(g, ss[..|ss| - 1], since, now, k);
      var s := ss[|ss| - 1];
      if s.endTime.Some? {
        AddClippedBucket(g, WorkBuckets(g, ss[..|ss| - 1], since, now), s.startTime, s.endTime.value, since, now, k);
      }
    }
  }

  /** The productive-hours view and the weekly view distribute the same
      amount of work. */
  lemma HoursAndWeekdaysAgree(ss: seq<WorkSession>, since: int, now: int)
    ensures Sum(WorkBuckets(Hour, ss, since, now)) == Sum(WorkBuckets(Day, ss, since, now))
  {
    WorkBucketsTotal(Hour, ss, since, now);
    WorkBucketsTotal(Day, ss, since, now);
  }

  /** Interruption counts by the bucket of their start. */
  function CountBuckets(g: Grain, its: seq<Interruption>): (r: seq<int>)
    ensures |r| == BucketCount(g)
  {
    if |its| == 0 then Zeros(BucketCount(g))
    else
      var c := CountBuckets(g, its[..|its| - 1]);
      var k := BucketOf(g, its[|its| - 1].startTime);
      c[k := c[k] + 1]
  }

  /** Reference count: the interruptions starting in bucket k. */
  function CountIn(g: Grain, k: int, its: seq<Interruption>): nat {
    if |its| == 0 then 0
    else CountIn(g, k, its[..|its| - 1]) + (if BucketOf(g, its[|its| - 1].startTime) == k then 1 else 0)
  }

  /** Every interruption lands in exactly one bucket: the counts add up to
      the number of interruptions. */
  lemma {:induction false} CountBucketsTotal(g: Grain, its: seq<Interruption>)
    ensures Sum(CountBuckets(g, its)) == |its|
  {
    if |its| > 0 {
      CountBucketsTotal(g, its[..|its| - 1]);
      SumUpdate(CountBuckets(g, its[..|its| - 1]), BucketOf(g, its[|its| - 1].startTime), 1);
    }
  }

  lemma {:induction false} CountBucketsEach(g: Grain, its: seq<Interruption>, k: int)
    requires 0 <= k < BucketCount(g)
    ensures CountBuckets(g, its)[k] == CountIn(g, k, its)
  {
    if |its| > 0 {
      CountBucketsEach(g, its[..|its| - 1], k);
    }
  }

  /** Lost time by weekday of the interruption's start, positive durations only. */
  function LostBuckets(its: seq<Interruption>): (r: seq<int>)
    ensures |r| == 7
  {
    if |its| == 0 then Zeros(7)
    else
      var c := LostBuckets(its[..|its| - 1]);
      var it := its[|its| - 1];
      var k := WeekdayOf(it.startTime);
      if it.duration > 0 then c[k := c[k] + it.duration] else c
  }

  /** The weekly lost times add up to the summary's lost time. */
  lemma {:induction false} LostBucketsTotal(its: seq<Interruption>)
    ensures Sum(LostBuckets(its)) == Lost(its)
  {
    if |its| > 0 {
      var pre := its[..|its| - 1];
      var it := its[|its| - 1];
      var c := LostBuckets(pre);
      LostBucketsTotal(pre);
      assert Lost(its) == Lost(pre) + (if it.duration > 0 then it.duration else 0);
      if it.duration > 0 {
        var k := WeekdayOf(it.startTime);
        assert LostBuckets(its) == c[k := c[k] + it.duration];
        SumUpdate(c, k, it.duration);
      } else {
        assert LostBuckets(its) == c;
      }
    } else {
      assert LostBuckets(its) == Zeros(7);
    }
  }

  /** The inner `while current < end` loop for one session: skip it when
      unfinished or outside the window, otherwise clip it and credit each
      chunk up to the next boundary to the bucket of the chunk's start. */
  method SplitSession(g: Grain, b: seq<int>, s: WorkSession, since: int, now: int) returns (r: seq<int>)
    requires |b| == BucketCount(g)
    ensures r == AddSession(g, b, s, since, now)
  {
    r := b;
    if s.endTime.None? {
      return;
    }
    var start := s.startTime;
    var end := s.endTime.value;
    if end <= since || start >= now {
      return;
    }
    start := Max(start, since);
    end := Min(end, now);
    if end <= start {
      return;
    }
    var current := start;
    while current < end
      invariant start <= current <= end
      invariant |r| == BucketCount(g)
      invariant AddSpan(g, r, current, end) == AddSpan(g, b, start, end)
      decreases end - current
    {
      var chunkEnd := Min(end, NextBoundary(g, current));
      var delta := chunkEnd - current;
      if delta > 0 {
        var k := BucketOf(g, current);
        r := r[k := r[k] + delta];
      }
      current := chunkEnd;
    }
  }

  /** The work buckets of a list of sessions, one session at a time. */
  method SplitAll(g: Grain, sessions: seq<WorkSession>, since: int, now: int) returns (r: seq<int>)
    ensures r == WorkBuckets(g, sessions, since, now)
  {
    r := Zeros(BucketCount(g));
    var i := 0;
    while i < |sessions|
      invariant 0 <= i <= |sessions|
      invariant r == WorkBuckets(g, sessions[..i], since, now)
    {
      TakeTake(sessions, i);
      r := SplitSession(g, r, sessions[i], since, now);
      i := i + 1;
    }
    TakeAll(sessions);
  }

  /** Interruption counts by bucket of their start, one interruption at a time. */
  method CountAll(g: Grain, interruptions: seq<Interruption>) returns (r: seq<int>)
    ensures r == CountBuckets(g, interruptions)
  {
    r := Zeros(BucketCount(g));
    var i := 0;
    while i < |interruptions|
      invariant 0 <= i <= |interruptions|
      invariant r == CountBuckets(g, interruptions[..i])
    {
      TakeTake(interruptions, i);
      var k := BucketOf(g, interruptions[i].startTime);
      r := r[k := r[k] + 1];
      i := i + 1;
    }
    TakeAll(interruptions);
  }

  // ------------------------------------------------------- productive hours

  datatype HourStat = HourStat(hour: int, workSeconds: int, interruptions: int, interruptionsPerHour: Ratio)

  datatype HoursReport = HoursReport(userId: int, rangeDays: int, hours: seq<HourStat>)

  /** `r` is the per-hour report of the user's rows in `sessions` and
      `interruptions` over the `rangeDays` days before `now`. */
  ghost predicate IsHoursReport(sessions: seq<WorkSession>, interruptions: seq<Interruption>,
                                userId: int, rangeDays: int, now: int, r: HoursReport)
  {
    var since := Since(now, rangeDays);
    var work := WorkBuckets(Hour, FinishedSince(sessions, userId, since), since, now);
    var counts := CountBuckets(Hour, InterruptionsSince(interruptions, userId, since));
    && r.userId == userId && r.rangeDays == rangeDays
    && |r.hours| == 24
    && forall h :: 0 <= h < 24 ==>
         && r.hours[h].hour == h
         && r.hours[h].workSeconds == work[h]
         && r.hours[h].interruptions == counts[h]
         && r.hours[h].interruptionsPerHour == Quotient(counts[h] * SecondsPerHour, work[h])
  }

  /** Per hour of the day: the seconds of finished sessions worked in that
      hour inside the window, the interruptions that started in it, and
      interruptions per hour worked (0 for an hour without work). */
  method ProductiveHours(db: Database, userId: int, rangeDays: int, now: int) returns (r: HoursReport)
    ensures IsHoursReport(db.sessions, db.interruptions, userId, rangeDays, now, r)
  {
    var since := Since(now, rangeDays);
    var work := SplitAll(Hour, FinishedSince(db.sessions, userId, since), since, now);
    var counts := CountAll(Hour, InterruptionsSince(db.interruptions, userId, since));
    var hours: seq<HourStat> := [];
    var h := 0;
    while h < 24
      invariant 0 <= h <= 24 && |hours| == h
      invariant forall j :: 0 <= j < h ==>
        hours[j] == HourStat(j, work[j], counts[j], Quotient(counts[j] * SecondsPerHour, work[j]))
    {
      var perHour := if work[h] > 0 then Ratio(counts[h] * SecondsPerHour, work[h]) else Zero;
      hours := hours + [HourStat(h, work[h], counts[h], perHour)];
      h := h + 1;
    }
    r := HoursReport(userId, rangeDays, hours);
  }

  // -------------------------------------------------------------- peak hour

  /** `max(range(n), key=lambda h: s[h])`: the first index of a maximum. */
  function FirstMax(s: seq<int>): (k: int)
    requires |s| > 0
    ensures 0 <= k < |s|
    ensures forall j :: 0 <= j < |s| ==> s[j] <= s[k]
    ensures forall j :: 0 <= j < k ==> s[j] < s[k]
  {
    if |s| == 1 then 0
    else
      var k := FirstMax(s[..|s| - 1]);
      if s[|s| - 1] > s[k] then |s| - 1 else k
  }

  datatype PeakReport = PeakReport(
    userId: int, rangeDays: int, peakHour: Option<int>, peakInterruptions: int, totalInterruptions: int)

  /** `r` is the peak-hour report of the user's rows in `sessions` and
      `interruptions` over the `rangeDays` days before `now`. */
  ghost predicate IsPeakReport(sessions: seq<WorkSession>, interruptions: seq<Interruption>,
                               userId: int, rangeDays: int, now: int, r: PeakReport)
  {
    var its := InterruptionsSince(interruptions, userId, Since(now, rangeDays));
    var counts := CountBuckets(Hour, its);
    && r.userId == userId && r.rangeDays == rangeDays
    && r.totalInterruptions == |its|
    && (|its| == 0 ==> r.peakHour == None && r.peakInterruptions == 0)
    && (|its| > 0 ==>
          && r.peakHour.Some? && 0 <= r.peakHour.value < 24
          && r.peakInterruptions == counts[r.peakHour.value]
          && (forall h :: 0 <= h < 24 ==> counts[h] <= r.peakInterruptions)
          && (forall h :: 0 <= h < r.peakHour.value ==> counts[h] < r.peakInterruptions))
  }

  /** The hour with the most interruptions, the earliest one on a tie; no
      hour (and 0) when there are no interruptions in the window. */
  method PeakDistractionHour(db: Database, userId: int, rangeDays: int, now: int) returns (r: PeakReport)
    ensures IsPeakReport(db.sessions, db.interruptions, userId, rangeDays, now, r)
  {
    var interruptions := InterruptionsSince(db.interruptions, userId, Since(now, rangeDays));
    var counts := Zeros(24);
    var total := 0;
    var i := 0;
    while i < |interruptions|
      invariant 0 <= i <= |interruptions|
      invariant counts == CountBuckets(Hour, interruptions[..i])
      invariant total == i
    {
      TakeTake(interruptions, i);
      var k := HourOf(interruptions[i].startTime);
      counts := counts[k := counts[k] + 1];
      total := total + 1;
      i := i + 1;
    }
    TakeAll(interruptions);
    if total == 0 {
      r := PeakReport(userId, rangeDays, None, 0, total);
    } else {
      var peak := FirstMax(counts);
      r := PeakReport(userId, rangeDays, Some(peak), counts[peak], total);
    }
  }

  /** With at least one interruption the peak hour has at least one. */
  lemma PeakIsPositive(its: seq<Interruption>)
    requires |its| > 0
    ensures CountBuckets(Hour, its)[FirstMax(CountBuckets(Hour, its))] >= 1
  {
    var counts := CountBuckets(Hour, its);
    var k := FirstMax(counts);
    CountBucketsTotal(Hour, its);
    if counts[k] < 1 {
      AllBelowSumsBelow(counts, 0);
      assert false;
    }
  }

  lemma {:induction false} AllBelowSumsBelow(s: seq<int>, m: int)
    requires forall j :: 0 <= j < |s| ==> s[j] <= m
    ensures Sum(s) <= |s| * m
  {
    if |s| > 0 {
      AllBelowSumsBelow(s[..|s| - 1], m);
    }
  }

  // ----------------------------------------------------------------- weekly

  const WeekdayNames: seq<string> := ["monday", "tuesday", "wednesday", "thursday", "friday", "saturday", "sunday"]

  datatype DayStat = DayStat(
    weekdayIndex: int, weekdayName: string,
    workSeconds: int, timeLostSeconds: int, effectiveTimeSeconds: int, interruptions: int)

  datatype WeeklyReport = WeeklyReport(userId: int, rangeDays: int, days: seq<DayStat>)

  /** The weekly interruption loop: one count and, for a positive duration,
      its lost time, on the weekday the interruption started. */
  method CountAndLoseByDay(interruptions: seq<Interruption>) returns (counts: seq<int>, lost: seq<int>)
    ensures counts == CountBuckets(Day, interruptions)
    ensures lost == LostBuckets(interruptions)
  {
    lost := Zeros(7);
    counts := Zeros(7);
    var i := 0;
    while i < |interruptions|
      invariant 0 <= i <= |interruptions|
      invariant counts == CountBuckets(Day, interruptions[..i])
      invariant lost == LostBuckets(interruptions[..i])
    {
      TakeTake(interruptions, i);
      var it := interruptions[i];
      var k := WeekdayOf(it.startTime);
      counts := counts[k := counts[k] + 1];
      if it.duration > 0 {
        lost := lost[k := lost[k] + it.duration];
      }
      i := i + 1;
    }
    TakeAll(interruptions);
  }

  /** The list of seven day entries, Monday first. */
  method BuildDays(work: seq<int>, lost: seq<int>, counts: seq<int>) returns (days: seq<DayStat>)
    requires |work| == 7 && |lost| == 7 && |counts| == 7
    ensures |days| == 7
    ensures forall d :: 0 <= d < 7 ==>
      days[d] == DayStat(d, WeekdayNames[d], work[d], lost[d], Max(work[d] - lost[d], 0), counts[d])
  {
    days := [];
    var d := 0;
    while d < 7
      invariant 0 <= d <= 7 && |days| == d
      invariant forall j :: 0 <= j < d ==>
        days[j] == DayStat(j, WeekdayNames[j], work[j], lost[j], Max(work[j] - lost[j], 0), counts[j])
    {
      days := days + [DayStat(d, WeekdayNames[d], work[d], lost[d], Max(work[d] - lost[d], 0), counts[d])];
      d := d + 1;
    }
  }

  /** `r` is the per-weekday report of the user's rows in `sessions` and
      `interruptions` over the `rangeDays` days before `now`. */
  ghost predicate IsWeeklyReport(sessions: seq<WorkSession>, interruptions: seq<Interruption>,
                                 userId: int, rangeDays: int, now: int, r: WeeklyReport)
  {
    var since := Since(now, rangeDays);
    var its := InterruptionsSince(interruptions, userId, since);
    var work := WorkBuckets(Day, FinishedSince(sessions, userId, since), since, now);
    var lost := LostBuckets(its);
    var counts := CountBuckets(Day, its);
    && r.userId == userId && r.rangeDays == rangeDays
    && |r.days| == 7
    && forall d :: 0 <= d < 7 ==>
         && r.days[d].weekdayIndex == d && r.days[d].weekdayName == WeekdayNames[d]
         && r.days[d].workSeconds == work[d] && r.days[d].timeLostSeconds == lost[d]
         && r.days[d].effectiveTimeSeconds == Max(work[d] - lost[d], 0)
         && r.days[d].interruptions == counts[d]
  }

  /** Per weekday (Monday first): the seconds of finished sessions worked
      on that weekday inside the window, the time lost to interruptions that
      started on it (positive durations only), effective time
      max(work - lost, 0), and the number of those interruptions. */
  method WeeklyPattern(db: Database, userId: int, rangeDays: int, now: int) returns (r: WeeklyReport)
    ensures IsWeeklyReport(db.sessions, db.interruptions, userId, rangeDays, now, r)
  {
    var since := Since(now, rangeDays);
    var work := SplitAll(Day, FinishedSince(db.sessions, userId, since), since, now);
    var counts, lost := CountAndLoseByDay(InterruptionsSince(db.interruptions, userId, since));
    var days := BuildDays(work, lost, counts);
    r := WeeklyReport(userId, rangeDays, days);
  }
}
