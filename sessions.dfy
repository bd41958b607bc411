/** Training sessions as the two edge functions receive them, and the
    validation and default injection both handlers run before aggregating. */
module Sessions {
  import opened Wrappers

  /** A JSON number member of a request body: missing, an explicit `null`,
      or a number. */
  datatype NumField = Absent | Null | Num(n: real)

  /** A session as it arrives in a request: any member may be missing. */
  datatype SessionInput = SessionInput(
    date: Option<string>,
    sport: Option<string>,
    durationMin: NumField,
    rpe: NumField,
    sleepHours: NumField,
    soreness: NumField)

  /** A session after validation: mandatory members present, sleep and
      soreness defaulted. Distance, heart rate, HRV and notes are carried
      through unread by the core and are not modelled. */
  datatype Session = Session(
    date: string,
    sport: string,
    durationMin: real,
    rpe: real,
    sleepHours: real,
    soreness: real)

  /** JavaScript truthiness of an optional string member. */
  predicate TruthyText(s: Option<string>) {
    s.Some? && s.value != ""
  }

  /** `!session.date || !session.sport || session.duration_min === undefined
      || session.rpe_1_10 === undefined` is false. An explicit null duration
      or RPE passes this test. */
  predicate SessionValid(s: SessionInput) {
    TruthyText(s.date) && TruthyText(s.sport) && s.durationMin != Absent && s.rpe != Absent
  }

  /** The number a present member stands for in arithmetic: `null` counts as 0. */
  function NumberValue(f: NumField): (r: real)
    requires f != Absent
    ensures f == Null ==> r == 0.0
  {
    match f
    case Null => 0.0
    case Num(n) => n
  }

  /** `f ?? d`: the default replaces a missing or null member, never a number. */
  function OrDefault(f: NumField, d: real): (r: real)
    ensures f.Num? ==> r == f.n
    ensures !f.Num? ==> r == d
  {
    match f
    case Num(n) => n
    case _ => d
  }

  const DefaultSleepHours: real := 7.0
  const DefaultSoreness: real := 0.0

  const InvalidSessionError: string := "Each session must have: date, sport, duration_min, rpe_1_10"

  /** The session object after `sleep_hours ?? 7.0` and `soreness_1_10 ?? 0.0`. */
  function WithDefaults(s: SessionInput): (r: Session)
    requires SessionValid(s)
    ensures r.date == s.date.value && r.sport == s.sport.value
    ensures r.durationMin == (if s.durationMin.Num? then s.durationMin.n else 0.0)
    ensures r.rpe == (if s.rpe.Num? then s.rpe.n else 0.0)
    ensures r.sleepHours == (if s.sleepHours.Num? then s.sleepHours.n else DefaultSleepHours)
    ensures r.soreness == (if s.soreness.Num? then s.soreness.n else DefaultSoreness)
  {
    Session(s.date.value, s.sport.value, NumberValue(s.durationMin), NumberValue(s.rpe),
            OrDefault(s.sleepHours, DefaultSleepHours), OrDefault(s.soreness, DefaultSoreness))
  }

  /** The validation loop both handlers run over `sessions`: the request
      fails as soon as one session lacks a mandatory member; otherwise every
      session gets its defaults. */
  function ValidateSessions(items: seq<SessionInput>): (r: Result<seq<Session>, string>)
    ensures r.Success? <==> forall i :: 0 <= i < |items| ==> SessionValid(items[i])
    ensures r.Failure? ==> r.error == InvalidSessionError
    ensures r.Success? ==> |r.value| == |items|
    ensures r.Success? ==> forall i :: 0 <= i < |items| ==> r.value[i] == WithDefaults(items[i])
    decreases |items|
  {
    if items == [] then Success([])
    else if !SessionValid(items[0]) then Failure(InvalidSessionError)
    else
      match ValidateSessions(items[1..])
      case Failure(e) => Failure(e)
      case Success(rest) => Success([WithDefaults(items[0])] + rest)
  }

  /** The handlers' `for` loop: it stops at the first invalid session and
      otherwise writes the defaults into every session. */
  method ApplyDefaults(items: seq<SessionInput>) returns (r: Result<seq<Session>, string>)
    ensures r == ValidateSessions(items)
  {
    var cleaned: seq<Session> := [];
    var i := 0;
    while i < |items|
      invariant 0 <= i <= |items|
      invariant |cleaned| == i
      invariant forall k :: 0 <= k < i ==> SessionValid(items[k]) && cleaned[k] == WithDefaults(items[k])
    {
      if !SessionValid(items[i]) {
        assert ValidateSessions(items).Failure?;
        return Failure(InvalidSessionError);
      }
      cleaned := cleaned + [WithDefaults(items[i])];
      i := i + 1;
    }
    assert ValidateSessions(items).Success?;
    assert cleaned == ValidateSessions(items).value;
    r := Success(cleaned);
  }

  /** `trainingLoad`: minutes times perceived exertion. */
  function TrainingLoad(s: Session): (r: real)
    ensures s.durationMin >= 0.0 && s.rpe >= 0.0 ==> r >= 0.0
  {
    s.durationMin * s.rpe
  }
}
