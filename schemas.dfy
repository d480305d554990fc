/** Request bodies the service accepts and the checks its validation layer
    applies before any handler runs (a failed check is a 422 response). */
module Schemas {
  import opened Common

  /** The six interruption causes. */
  datatype InterruptionType = Family | Phone | Noise | Self | UrgentTask | Unknown

  const AllTypes: seq<InterruptionType> := [Family, Phone, Noise, Self, UrgentTask, Unknown]

  /** The enum member's string value, as stored and sent on the wire. */
  function TypeValue(t: InterruptionType): string {
    match t
    case Family => "family"
    case Phone => "phone"
    case Noise => "noise"
    case Self => "self"
    case UrgentTask => "urgent_task"
    case Unknown => "unknown"
  }

  /** Coercion of a wire string to the enum: only an exact value is accepted. */
  function ParseType(s: string): (r: Option<InterruptionType>)
    ensures r.Some? ==> TypeValue(r.value) == s
    ensures (exists t :: TypeValue(t) == s) ==> r.Some?
  {
    if s == "family" then Some(Family)
    else if s == "phone" then Some(Phone)
    else if s == "noise" then Some(Noise)
    else if s == "self" then Some(Self)
    else if s == "urgent_task" then Some(UrgentTask)
    else if s == "unknown" then Some(Unknown)
    else None
  }

  /** The enum has exactly six members, listed once each, with distinct
      non-empty values. */
  lemma AllTypesExactlyOnce()
    ensures |AllTypes| == 6
    ensures forall t: InterruptionType :: t in AllTypes
    ensures forall i, j :: 0 <= i < j < |AllTypes| ==> TypeValue(AllTypes[i]) != TypeValue(AllTypes[j])
    ensures forall t :: TypeValue(t) != ""
  {
    forall t: InterruptionType ensures t in AllTypes {
      match t
      case Family => assert AllTypes[0] == t;
      case Phone => assert AllTypes[1] == t;
      case Noise => assert AllTypes[2] == t;
      case Self => assert AllTypes[3] == t;
      case UrgentTask => assert AllTypes[4] == t;
      case Unknown => assert AllTypes[5] == t;
    }
  }

  lemma TypeRoundTrip(t: InterruptionType)
    ensures ParseType(TypeValue(t)) == Some(t)
  {
  }

  const NameMinLength := 1
  const NameMaxLength := 100
  const DescriptionMinLength := 1
  const DescriptionMaxLength := 500

  /** Field names that failed validation, in declaration order. */
  type FieldErrors = seq<string>

  datatype UserCreate = UserCreate(name: string, email: string)

  /** Name length must lie in 1..100. */
  function ValidateUserCreate(name: string, email: string): (r: Result<UserCreate, FieldErrors>)
    ensures r.Ok? <==> NameMinLength <= |name| <= NameMaxLength
    ensures r.Ok? ==> r.value == UserCreate(name, email)
    ensures r.Err? ==> r.error == ["name"]
  {
    if NameMinLength <= |name| <= NameMaxLength then Ok(UserCreate(name, email)) else Err(["name"])
  }

  /** Body of "start session": the start time is optional (None by default). */
  datatype SessionStart = SessionStart(userId: int, startTime: Option<int> := None)

  /** A validated "create interruption" body. It has no duration field: the
      service computes the duration itself. */
  datatype InterruptionCreate = InterruptionCreate(
    sessionId: int, userId: int, kind: InterruptionType, description: string,
    startTime: int, endTime: int)

  /** The body as received: a type string, and datetimes that may be missing
      or unparseable (None). */
  datatype RawInterruption = RawInterruption(
    sessionId: int, userId: int, kind: string, description: string,
    startTime: Option<int>, endTime: Option<int>)

  /** The end_time validator: `start` is the already-validated start time, if
      any. An end not strictly after a present start is rejected. */
  function ValidateEndAfterStart(start: Option<int>, end: int): (r: Result<int, string>)
    ensures r.Ok? <==> start.None? || end > start.value
    ensures r.Ok? ==> r.value == end
  {
    if start.Some? && end <= start.value then Err("end_time debe ser posterior a start_time") else Ok(end)
  }

  /** Field-by-field validation; every failing field is reported. */
  function ValidateInterruptionCreate(raw: RawInterruption): (r: Result<InterruptionCreate, FieldErrors>)
    ensures r.Ok? <==>
      && ParseType(raw.kind).Some?
      && DescriptionMinLength <= |raw.description| <= DescriptionMaxLength
      && raw.startTime.Some? && raw.endTime.Some?
      && raw.endTime.value > raw.startTime.value
    ensures r.Ok? ==>
      && r.value.sessionId == raw.sessionId && r.value.userId == raw.userId
      && TypeValue(r.value.kind) == raw.kind && r.value.description == raw.description
      && Some(r.value.startTime) == raw.startTime && Some(r.value.endTime) == raw.endTime
    ensures r.Err? ==> |r.error| >= 1
    ensures r.Err? ==> ("end_time" in r.error <==> raw.endTime.None? || (raw.startTime.Some? && raw.endTime.value <= raw.startTime.value))
  {
    var kind := ParseType(raw.kind);
    var descOk := DescriptionMinLength <= |raw.description| <= DescriptionMaxLength;
    var endCheck := if raw.endTime.Some? then ValidateEndAfterStart(raw.startTime, raw.endTime.value) else Err("missing");
    var errors :=
      (if kind.None? then ["type"] else [])
      + (if !descOk then ["description"] else [])
      + (if raw.startTime.None? then ["start_time"] else [])
      + (if endCheck.Err? then ["end_time"] else []);
    if errors == [] then
      Ok(InterruptionCreate(raw.sessionId, raw.userId, kind.value, raw.description,
                            raw.startTime.value, raw.endTime.value))
    else Err(errors)
  }

  /** What a validated body guarantees: the end is strictly after the start. */
  lemma {:induction false} ValidatedEndAfterStart(raw: RawInterruption)
    requires ValidateInterruptionCreate(raw).Ok?
    ensures var b := ValidateInterruptionCreate(raw).value; b.endTime - b.startTime >= 1
  {
  }
}
