/** The analyze function's handler body without HTTP: the field checks,
    the session validation loop with its defaults, then the aggregation and
    its fully rounded record. */
module Analyze {
  import opened Wrappers
  import opened Sessions
  import opened Metrics

  /** A request to the analyze function: `None` stands for a member that is
      missing, null or (for `sessions`) not an array. */
  datatype AnalyzeRequest = AnalyzeRequest(today: Option<string>, sessions: Option<seq<SessionInput>>)

  const MissingAnalyzeFields: string := "Missing required fields: today, sessions"

  predicate AnalyzeRequestComplete(req: AnalyzeRequest) {
    TruthyText(req.today) && req.sessions.Some?
  }

  method HandleAnalyze(req: AnalyzeRequest, toDate: DateParser) returns (r: Result<Metrics, string>)
    ensures !AnalyzeRequestComplete(req) ==> r == Failure(MissingAnalyzeFields)
    ensures AnalyzeRequestComplete(req) && ValidateSessions(req.sessions.value).Failure? ==> r == Failure(InvalidSessionError)
    ensures r.Success? <==> AnalyzeRequestComplete(req) && ValidateSessions(req.sessions.value).Success?
    ensures r.Success? ==> r.value == AnalyzeOutput(Aggregate(ValidateSessions(req.sessions.value).value, req.today.value, toDate), req.today.value)
  {
    if !AnalyzeRequestComplete(req) {
      return Failure(MissingAnalyzeFields);
    }
    var cleaned := ApplyDefaults(req.sessions.value);
    if cleaned.Failure? {
      return Failure(cleaned.error);
    }
    var raw := AggregateMetrics(cleaned.value, req.today.value, toDate);
    r := Success(AnalyzeOutput(raw, req.today.value));
  }
}
