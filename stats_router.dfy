/** The statistics endpoints under /users/{user_id}/stats: each checks that
    the user exists, then parses the `range` query parameter ("7d" by
    default), then runs one aggregate. */
module StatsRouter {
  import opened Common
  import opened Text
  import opened Store
  import opened StatsLogic

  const DefaultRange := "7d"

  const FormatError := HttpError(BadRequest, "Invalid range format. Use like '7d', '30d'.")
  const ValueError := HttpError(BadRequest, "Invalid range value. Must be a number of days, e.g. '7d'.")
  const NotPositiveError := HttpError(BadRequest, "Range must be a positive number of days.")

  /** `"<digits>d"` to a number of days, after stripping surrounding
      whitespace and lower-casing; a missing "d" suffix, a number part that
      is empty or not all digits, and zero are each rejected with 400. */
  function ParseRangeDays(range: string): (r: Result<int, HttpError>)
    ensures r.Ok? ==> r.value >= 1
    ensures r.Err? ==> r.error in {FormatError, ValueError, NotPositiveError}
  {
    var s := AsciiLower(Trim(Python, range));
    if |s| == 0 || s[|s| - 1] != 'd' then Err(FormatError)
    else
      var numPart := s[..|s| - 1];
      if |numPart| == 0 || !AllDigits(numPart) then Err(ValueError)
      else
        var days := DecimalValue(numPart);
        if days <= 0 then Err(NotPositiveError) else Ok(days)
  }

  lemma {:induction false} TrimStartPadded(pre: string, y: string)
    requires |y| > 0 && !IsSpace(Python, y[0])
    requires forall i :: 0 <= i < |pre| ==> IsSpace(Python, pre[i])
    ensures TrimStart(Python, pre + y) == y
  {
    if |pre| > 0 {
      assert (pre + y)[1..] == pre[1..] + y;
      TrimStartPadded(pre[1..], y);
    }
  }

  lemma {:induction false} TrimEndPadded(y: string, post: string)
    requires |y| > 0 && !IsSpace(Python, y[|y| - 1])
    requires forall i :: 0 <= i < |post| ==> IsSpace(Python, post[i])
    ensures TrimEnd(Python, y + post) == y
  {
    if |post| > 0 {
      assert (y + post)[..|y + post| - 1] == y + post[..|post| - 1];
      TrimEndPadded(y, post[..|post| - 1]);
    }
  }

  /** Stripping ignores whitespace padding around a string that starts and
      ends with non-whitespace. */
  lemma TrimPadded(pre: string, x: string, post: string)
    requires |x| > 0 && !IsSpace(Python, x[0]) && !IsSpace(Python, x[|x| - 1])
    requires forall i :: 0 <= i < |pre| ==> IsSpace(Python, pre[i])
    requires forall i :: 0 <= i < |post| ==> IsSpace(Python, post[i])
    ensures Trim(Python, pre + x + post) == x
  {
    assert pre + x + post == pre + (x + post);
    TrimStartPadded(pre, x + post);
    TrimEndPadded(x, post);
  }

  /** Any non-empty run of ASCII digits followed by "d" or "D" and
      surrounded by any whitespace reads as its decimal value, which is
      rejected when zero (leading zeros are allowed: " 007d" is 7 days). */
  lemma ParseDigits(ds: string, pre: string, post: string, suffix: char)
    requires |ds| > 0 && AllDigits(ds) && IsSuffixD(suffix)
    requires forall i :: 0 <= i < |pre| ==> IsSpace(Python, pre[i])
    requires forall i :: 0 <= i < |post| ==> IsSpace(Python, post[i])
    ensures ParseRangeDays(pre + ds + [suffix] + post)
            == if DecimalValue(ds) >= 1 then Ok(DecimalValue(ds)) else Err(NotPositiveError)
  {
    DigitsPadded(ds, pre, post, suffix);
    ParseStrippedDigits(pre + ds + [suffix] + post, ds, suffix);
  }

  lemma DigitsPadded(ds: string, pre: string, post: string, suffix: char)
    requires |ds| > 0 && AllDigits(ds) && IsSuffixD(suffix)
    requires forall i :: 0 <= i < |pre| ==> IsSpace(Python, pre[i])
    requires forall i :: 0 <= i < |post| ==> IsSpace(Python, post[i])
    ensures Trim(Python, pre + ds + [suffix] + post) == ds + [suffix]
  {
    var x := ds + [suffix];
    Regroup(pre, ds, suffix, post);
    assert IsAsciiDigit(x[0]);
    TrimPadded(pre, x, post);
  }

  lemma ParseStrippedDigits(range: string, ds: string, suffix: char)
    requires |ds| > 0 && AllDigits(ds) && IsSuffixD(suffix)
    requires Trim(Python, range) == ds + [suffix]
    ensures ParseRangeDays(range)
            == if DecimalValue(ds) >= 1 then Ok(DecimalValue(ds)) else Err(NotPositiveError)
  {
    ParseByStripped(range);
    assert (ds + [suffix])[..|ds|] == ds;
  }

  lemma Regroup<T>(a: seq<T>, b: seq<T>, c: T, d: seq<T>)
    ensures a + b + [c] + d == a + (b + [c]) + d
  {
  }

  /** Every positive day count written in decimal, followed by "d" or "D"
      and surrounded by any whitespace, parses back to itself. */
  lemma ParseRoundTrip(n: nat, pre: string, post: string, suffix: char)
    requires n >= 1 && IsSuffixD(suffix)
    requires forall i :: 0 <= i < |pre| ==> IsSpace(Python, pre[i])
    requires forall i :: 0 <= i < |post| ==> IsSpace(Python, post[i])
    ensures ParseRangeDays(pre + NatToDecimal(n) + [suffix] + post) == Ok(n)
  {
    DecimalRoundTrip(n);
    ParseDigits(NatToDecimal(n), pre, post, suffix);
  }

  predicate IsSuffixD(c: char) {
    c == 'd' || c == 'D'
  }

  /** The stripped range has the accepted shape: digits, then "d" or "D". */
  predicate DaysShaped(t: string) {
    |t| > 1 && IsSuffixD(t[|t| - 1]) && AllDigits(t[..|t| - 1])
  }

  /** Lower-casing turns "D" into "d" and no other character into "d", and
      turns a digit into itself and nothing else into a digit. */
  lemma LowerReadsSame(t: string)
    requires |t| > 0
    ensures var s := AsciiLower(t);
      && (s[|s| - 1] == 'd' <==> IsSuffixD(t[|t| - 1]))
      && (AllDigits(s[..|s| - 1]) <==> AllDigits(t[..|t| - 1]))
      && (AllDigits(t[..|t| - 1]) ==> s[..|s| - 1] == t[..|t| - 1])
  {
    var s := AsciiLower(t);
    var n := |t| - 1;
    var sp, tp := s[..n], t[..n];
    forall i | 0 <= i < n
      ensures IsAsciiDigit(sp[i]) <==> IsAsciiDigit(tp[i])
      ensures IsAsciiDigit(tp[i]) ==> sp[i] == tp[i]
    {
      assert sp[i] == s[i] && tp[i] == t[i];
    }
    if AllDigits(tp) {
      assert sp == tp;
    }
  }

  /** The outcome for every input, read off the range with its surrounding
      whitespace stripped: without a final "d" or "D" it is a format error;
      with one, a number part that is empty or holds a non-digit is a bad
      value; otherwise the number part's decimal value, rejected when
      zero. */
  lemma ParseByStripped(range: string)
    ensures var t := Trim(Python, range);
      var r := ParseRangeDays(range);
      && (r == Err(FormatError) <==> |t| == 0 || !IsSuffixD(t[|t| - 1]))
      && (r == Err(ValueError) <==> |t| > 0 && IsSuffixD(t[|t| - 1]) && !DaysShaped(t))
      && (r == Err(NotPositiveError) <==> DaysShaped(t) && DecimalValue(t[..|t| - 1]) == 0)
      && (r.Ok? <==> DaysShaped(t) && DecimalValue(t[..|t| - 1]) >= 1)
      && (r.Ok? ==> r.value == DecimalValue(t[..|t| - 1]))
  {
    var t := Trim(Python, range);
    if |t| > 0 {
      LowerReadsSame(t);
    }
  }

  /** The converse of `ParseDigits`: an accepted range is whitespace, a run
      of ASCII digits, "d" or "D", whitespace, and its value is the digits'
      decimal value. */
  lemma ParseOkShape(range: string)
    ensures ParseRangeDays(range).Ok? ==>
      exists a, b :: RangeShaped(range, a, b) && ParseRangeDays(range) == Ok(DecimalValue(range[a..b]))
  {
    if ParseRangeDays(range).Ok? {
      var t := Trim(Python, range);
      ParseByStripped(range);
      var a, c := TrimIsSlice(Python, range);
      ShapedSlice(range, t, a, c);
    }
  }

  lemma ShapedSlice(range: string, t: string, a: int, c: int)
    requires 0 <= a <= c <= |range| && t == range[a..c] && DaysShaped(t)
    requires forall i :: 0 <= i < a ==> IsSpace(Python, range[i])
    requires forall i :: c <= i < |range| ==> IsSpace(Python, range[i])
    ensures RangeShaped(range, a, c - 1) && range[a..c - 1] == t[..|t| - 1]
  {
    assert range[a..c - 1] == t[..|t| - 1];
    assert range[c - 1] == t[|t| - 1];
  }

  /** `range[a..b]` is the digits and `range[b]` the suffix, with only
      whitespace around them. */
  predicate RangeShaped(range: string, a: int, b: int) {
    && 0 <= a < b < |range|
    && (forall i :: 0 <= i < a ==> IsSpace(Python, range[i]))
    && AllDigits(range[a..b]) && IsSuffixD(range[b])
    && (forall i :: b < i < |range| ==> IsSpace(Python, range[i]))
  }

  /** The default range is seven days. */
  lemma ParseDefault()
    ensures ParseRangeDays(DefaultRange) == Ok(7)
  {
    assert NatToDecimal(7) == "7";
    assert DefaultRange == [] + NatToDecimal(7) + ['d'] + [];
    ParseRoundTrip(7, [], [], 'd');
  }

  /** Whitespace and case do not matter: " 14D " reads as 14 days. */
  lemma ParsePaddedUpperCase()
    ensures ParseRangeDays(" 14D ") == Ok(14)
  {
    assert NatToDecimal(14) == "14";
    assert " 14D " == " " + NatToDecimal(14) + ['D'] + " ";
    ParseRoundTrip(14, " ", " ", 'D');
  }

  /** Without the "d" suffix the format is rejected. */
  lemma ParseMissingSuffix()
    ensures ParseRangeDays("7") == Err(FormatError)
  {
    TrimPadded([], "7", []);
    assert [] + "7" + [] == "7";
  }

  /** An empty or non-numeric number part is rejected as a bad value. */
  lemma ParseBadNumber()
    ensures ParseRangeDays("d") == Err(ValueError)
    ensures ParseRangeDays("xd") == Err(ValueError)
  {
    TrimPadded([], "d", []);
    assert [] + "d" + [] == "d";
    TrimPadded([], "xd", []);
    assert [] + "xd" + [] == "xd";
    assert AsciiLower("xd")[..1] == "x";
  }

  /** Zero days is rejected. */
  lemma ParseZero()
    ensures ParseRangeDays("0d") == Err(NotPositiveError)
  {
    TrimPadded([], "0d", []);
    assert [] + "0d" + [] == "0d";
    assert AsciiLower("0d") == "0d";
    assert "0d"[..1] == "0";
    assert DecimalValue("0") == 0;
  }

  /** 404 for an unknown user. */
  function EnsureUserExists(db: Database, userId: int): (r: Result<User, HttpError>)
    reads db
    ensures r.Ok? <==> 1 <= userId <= |db.users|
    ensures r.Err? ==> r.error == HttpError(NotFound, "User not found")
  {
    match Row(db.users, userId)
    case Some(u) => Ok(u)
    case None => Err(HttpError(NotFound, "User not found"))
  }

  /** The two checks every endpoint makes, in their order: an unknown user
      is a 404 whatever the range, and only for an existing user can a bad
      range give 400. On success, the number of days. */
  function CheckRequest(db: Database, userId: int, range: string): (r: Result<int, HttpError>)
    reads db
    ensures !(1 <= userId <= |db.users|) ==> r == Err(HttpError(NotFound, "User not found"))
    ensures 1 <= userId <= |db.users| ==> r == ParseRangeDays(range)
    ensures r.Ok? ==> r.value >= 1
  {
    match EnsureUserExists(db, userId)
    case Err(e) => Err(e)
    case Ok(_) => ParseRangeDays(range)
  }

  method StatsSummary(db: Database, userId: int, range: string, now: int) returns (r: Result<Summary, HttpError>)
    ensures CheckRequest(db, userId, range).Err? ==> r == Err(CheckRequest(db, userId, range).error)
    ensures CheckRequest(db, userId, range).Ok? ==>
      && r.Ok?
      && IsSummary(db.sessions, db.interruptions, userId, CheckRequest(db, userId, range).value, now, r.value)
  {
    var check := CheckRequest(db, userId, range);
    if check.Err? {
      return Err(check.error);
    }
    var s := SummaryStats(db, userId, check.value, now);
    r := Ok(s);
  }

  method StatsInterruptionTypes(db: Database, userId: int, range: string, now: int) returns (r: Result<TypeStats, HttpError>)
    ensures CheckRequest(db, userId, range).Err? ==> r == Err(CheckRequest(db, userId, range).error)
    ensures CheckRequest(db, userId, range).Ok? ==>
      && r.Ok?
      && IsTypeStats(db.sessions, db.interruptions, userId, CheckRequest(db, userId, range).value, now, r.value)
  {
    var check := CheckRequest(db, userId, range);
    if check.Err? {
      return Err(check.error);
    }
    var s := InterruptionTypeStats(db, userId, check.value, now);
    r := Ok(s);
  }

  method StatsProductiveHours(db: Database, userId: int, range: string, now: int) returns (r: Result<HoursReport, HttpError>)
    ensures CheckRequest(db, userId, range).Err? ==> r == Err(CheckRequest(db, userId, range).error)
    ensures CheckRequest(db, userId, range).Ok? ==>
      && r.Ok?
      && IsHoursReport(db.sessions, db.interruptions, userId, CheckRequest(db, userId, range).value, now, r.value)
  {
    var check := CheckRequest(db, userId, range);
    if check.Err? {
      return Err(check.error);
    }
    var s := ProductiveHours(db, userId, check.value, now);
    r := Ok(s);
  }

  method StatsPeakDistractionTime(db: Database, userId: int, range: string, now: int) returns (r: Result<PeakReport, HttpError>)
    ensures CheckRequest(db, userId, range).Err? ==> r == Err(CheckRequest(db, userId, range).error)
    ensures CheckRequest(db, userId, range).Ok? ==>
      && r.Ok?
      && IsPeakReport(db.sessions, db.interruptions, userId, CheckRequest(db, userId, range).value, now, r.value)
  {
    var check := CheckRequest(db, userId, range);
    if check.Err? {
      return Err(check.error);
    }
    var s := PeakDistractionHour(db, userId, check.value, now);
    r := Ok(s);
  }

  method StatsWeeklyPattern(db: Database, userId: int, range: string, now: int) returns (r: Result<WeeklyReport, HttpError>)
    ensures CheckRequest(db, userId, range).Err? ==> r == Err(CheckRequest(db, userId, range).error)
    ensures CheckRequest(db, userId, range).Ok? ==>
      && r.Ok?
      && IsWeeklyReport(db.sessions, db.interruptions, userId, CheckRequest(db, userId, range).value, now, r.value)
  {
    var check := CheckRequest(db, userId, range);
    if check.Err? {
      return Err(check.error);
    }
    var s := WeeklyPattern(db, userId, check.value, now);
    r := Ok(s);
  }
}
