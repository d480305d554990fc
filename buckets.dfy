/** Calendar arithmetic on UTC instants (whole seconds since 1970-01-01
    00:00 UTC) and the splitting of a time span into hour-of-day or
    day-of-week buckets, as the productive-hours and weekly statistics do. */
module Buckets {
  import opened Common

  const SecondsPerHour := 3600
  const SecondsPerDay := 86400

  /** `datetime.hour` of a UTC instant. */
  function HourOf(t: int): (h: int)
    ensures 0 <= h < 24
  {
    (t % SecondsPerDay) / SecondsPerHour
  }

  /** `datetime.weekday()` of a UTC instant, Monday = 0. Day 0 of the epoch
      was a Thursday (3). */
  function WeekdayOf(t: int): (d: int)
    ensures 0 <= d < 7
  {
    (t / SecondsPerDay + 3) % 7
  }

  /** Hour-of-day buckets (24) or day-of-week buckets (7). */
  datatype Grain = Hour | Day

  function Unit(g: Grain): int {
    if g == Hour then SecondsPerHour else SecondsPerDay
  }

  function BucketCount(g: Grain): nat {
    if g == Hour then 24 else 7
  }

  function BucketOf(g: Grain, t: int): (k: int)
    ensures 0 <= k < BucketCount(g)
  {
    if g == Hour then HourOf(t) else WeekdayOf(t)
  }

  /** The next whole hour (or the next midnight) after t: t with the smaller
      fields zeroed, plus one unit. */
  function NextBoundary(g: Grain, t: int): (n: int)
    ensures t < n <= t + Unit(g)
  {
    t - t % Unit(g) + Unit(g)
  }

  lemma DivBetweenHour(x: int, q: int)
    requires 3600 * q <= x < 3600 * q + 3600
    ensures x / 3600 == q && x % 3600 == x - 3600 * q
  {
  }

  lemma DivBetweenDay(x: int, q: int)
    requires 86400 * q <= x < 86400 * q + 86400
    ensures x / 86400 == q && x % 86400 == x - 86400 * q
  {
  }

  /** The hour of the day is the hour count since the epoch, modulo 24. */
  lemma HourFromHourCount(x: int)
    ensures HourOf(x) == (x / 3600) % 24
  {
    var q := x / 3600;
    var r := x % 3600;
    var a := q / 24;
    var b := q % 24;
    assert x == 86400 * a + (3600 * b + r);
    DivBetweenDay(x, a);
    DivBetweenHour(x % 86400, b);
  }

  /** Every instant from t up to the next boundary lies in t's bucket. */
  lemma SameBucketUntilBoundary(g: Grain, t: int, u: int)
    requires t <= u < NextBoundary(g, t)
    ensures BucketOf(g, u) == BucketOf(g, t)
  {
    if g == Hour {
      DivBetweenHour(u, t / 3600);
      HourFromHourCount(t);
      HourFromHourCount(u);
    } else {
      DivBetweenDay(u, t / 86400);
    }
  }

  /** Reference definition: how many whole seconds of [lo, hi) fall in
      bucket k, counted one second at a time. */
  function SecondsIn(g: Grain, k: int, lo: int, hi: int): nat
    decreases hi - lo
  {
    if hi <= lo then 0
    else (if BucketOf(g, lo) == k then 1 else 0) + SecondsIn(g, k, lo + 1, hi)
  }

  lemma {:induction false} SecondsInSplit(g: Grain, k: int, lo: int, mid: int, hi: int)
    requires lo <= mid <= hi
    ensures SecondsIn(g, k, lo, hi) == SecondsIn(g, k, lo, mid) + SecondsIn(g, k, mid, hi)
    decreases mid - lo
  {
    if lo < mid {
      SecondsInSplit(g, k, lo + 1, mid, hi);
    }
  }

  /** Up to the next boundary after t0, every second is in t0's bucket. */
  lemma {:induction false} SecondsInChunk(g: Grain, k: int, t0: int, lo: int, hi: int)
    requires t0 <= lo <= hi <= NextBoundary(g, t0)
    ensures SecondsIn(g, k, lo, hi) == (if BucketOf(g, t0) == k then hi - lo else 0)
    decreases hi - lo
  {
    if lo < hi {
      SameBucketUntilBoundary(g, t0, lo);
      SecondsInChunk(g, k, t0, lo + 1, hi);
    }
  }

  /** The `while current < end` loop of the statistics service, as a
      function: the span [cur, end) is cut at hour (or midnight) boundaries
      and each chunk is credited to the bucket of its first instant. */
  function AddSpan(g: Grain, b: seq<int>, cur: int, end: int): (r: seq<int>)
    requires |b| == BucketCount(g)
    ensures |r| == BucketCount(g)
    decreases end - cur
  {
    if cur >= end then b
    else
      var chunkEnd := Min(end, NextBoundary(g, cur));
      var k := BucketOf(g, cur);
      AddSpan(g, b[k := b[k] + (chunkEnd - cur)], chunkEnd, end)
  }

  /** The chunks add up to the span: the buckets grow by exactly its length
      (nothing for an empty span). */
  lemma {:induction false} AddSpanTotal(g: Grain, b: seq<int>, cur: int, end: int)
    requires |b| == BucketCount(g)
    ensures Sum(AddSpan(g, b, cur, end)) == Sum(b) + Max(0, end - cur)
    decreases end - cur
  {
    if cur < end {
      var chunkEnd := Min(end, NextBoundary(g, cur));
      var k := BucketOf(g, cur);
      SumUpdate(b, k, chunkEnd - cur);
      AddSpanTotal(g, b[k := b[k] + (chunkEnd - cur)], chunkEnd, end);
    }
  }

  /** Each bucket grows by exactly the number of seconds of the span that
      fall in it, so no second is credited to the wrong hour or day. */
  lemma {:induction false} AddSpanBucket(g: Grain, b: seq<int>, cur: int, end: int, k: int)
    requires |b| == BucketCount(g) && 0 <= k < BucketCount(g)
    ensures AddSpan(g, b, cur, end)[k] == b[k] + SecondsIn(g, k, cur, end)
    decreases end - cur
  {
    if cur < end {
      var chunkEnd := Min(end, NextBoundary(g, cur));
      var j := BucketOf(g, cur);
      SecondsInSplit(g, k, cur, chunkEnd, end);
      SecondsInChunk(g, k, cur, cur, chunkEnd);
      AddSpanBucket(g, b[j := b[j] + (chunkEnd - cur)], chunkEnd, end, k);
    }
  }

  /** One finished session [start, end): skipped when it lies outside
      [since, now), otherwise clipped to that window and split. */
  function AddClipped(g: Grain, b: seq<int>, start: int, end: int, since: int, now: int): (r: seq<int>)
    requires |b| == BucketCount(g)
    ensures |r| == BucketCount(g)
  {
    if end <= since || start >= now then b
    else
      var lo := Max(start, since);
      var hi := Min(end, now);
      if hi <= lo then b else AddSpan(g, b, lo, hi)
  }

  /** What a session contributes in total: the length of its overlap with
      the window [since, now). */
  lemma AddClippedTotal(g: Grain, b: seq<int>, start: int, end: int, since: int, now: int)
    requires |b| == BucketCount(g)
    ensures Sum(AddClipped(g, b, start, end, since, now))
            == Sum(b) + Max(0, Min(end, now) - Max(start, since))
  {
    AddSpanTotal(g, b, Max(start, since), Min(end, now));
  }

  /** What a session contributes to bucket k: the seconds of its overlap
      with [since, now) that fall in that hour of the day (or day of the
      week). */
  lemma AddClippedBucket(g: Grain, b: seq<int>, start: int, end: int, since: int, now: int, k: int)
    requires |b| == BucketCount(g) && 0 <= k < BucketCount(g)
    ensures AddClipped(g, b, start, end, since, now)[k]
            == b[k] + SecondsIn(g, k, Max(start, since), Min(end, now))
  {
    AddSpanBucket(g, b, Max(start, since), Min(end, now), k);
  }
}
