// Classifying the errors of Google Calendar API calls: the ordered rule
// table, and the if-chain the API wrapper actually applies.
module GoogleErrorFilter {
  import opened Wrappers
  import opened Errors

  const RateLimitMessages: seq<string> := ["User Rate Limit Exceeded", "Rate Limit Exceeded"]
  const UsageLimitMessages: seq<string> := ["Calendar usage limits exceeded.", "Calendar usage limits exceeded"]

  /** `[...].includes(data.message)`: an absent message is in no list. */
  predicate MessageIn(m: Option<string>, list: seq<string>)
  {
    m.Some? && m.value in list
  }

  /**
   * Reading `data.error.errors[0].reason`: a missing link on the path
   * throws the TypeError that names the property read through `undefined`;
   * a first entry gives its reason, or `None` for an entry without one.
   */
  function ReasonOf(f: FirstError): (r: Result<Option<string>, Failure>)
    ensures r.Ok? <==> f.FirstEntry?
    ensures r.Ok? ==> r.value == f.reason
    ensures r.Err? ==> r.error.TypeError?
  {
    match f
    case NoErrorObject => Err(TypeError("Cannot read properties of undefined (reading 'errors')"))
    case NoErrorList => Err(TypeError("Cannot read properties of undefined (reading '0')"))
    case EmptyErrorList => Err(TypeError("Cannot read properties of undefined (reading 'reason')"))
    case FirstEntry(reason) => Ok(reason)
  }

  /** `data.error.errors[0].reason === 'updatedMinTooLongAgo'`, when it can be read. */
  predicate TooLongAgo(f: FirstError)
  {
    f.FirstEntry? && f.reason == Some("updatedMinTooLongAgo")
  }

  // ---- the rule table ----

  datatype GoogleRule =
    | NoResponseRule | InvalidRequestRule | InvalidCredentialsRule | RateLimit403Rule
    | UsageLimit403Rule | ForbiddenRule | NotFoundRule | AlreadyDeletedRule
    | GoneUpdatedMinTooLongAgoRule | GoneRule | RateLimit429Rule | InternalServerErrorRule
    | UnknownErrorRule | IgnoreNotFoundRule

  const BaseRules: seq<GoogleRule> := [
    NoResponseRule, InvalidRequestRule, InvalidCredentialsRule, RateLimit403Rule,
    UsageLimit403Rule, ForbiddenRule, NotFoundRule, AlreadyDeletedRule,
    GoneUpdatedMinTooLongAgoRule, GoneRule, RateLimit429Rule, InternalServerErrorRule,
    UnknownErrorRule
  ]

  const ExtraRules: seq<GoogleRule> := [IgnoreNotFoundRule]

  /** A rule's condition on a response; only the reason lookup can throw. */
  function Condition(rule: GoogleRule, r: GaxiosResponse): Result<bool, Failure>
  {
    match rule
    case NoResponseRule => Ok(r.status.None?)
    case InvalidRequestRule => Ok(r.status == Some(400))
    case InvalidCredentialsRule => Ok(r.status == Some(401))
    case RateLimit403Rule => Ok(r.status == Some(403) && MessageIn(r.data.message, RateLimitMessages))
    case UsageLimit403Rule => Ok(r.status == Some(403) && MessageIn(r.data.message, UsageLimitMessages))
    case ForbiddenRule => Ok(r.status == Some(403))
    case NotFoundRule => Ok(r.status == Some(404))
    case AlreadyDeletedRule => Ok(r.status == Some(410) && r.data.message == Some("deleted"))
    case GoneUpdatedMinTooLongAgoRule =>
      if r.status != Some(410) then Ok(false)
      else if !r.data.firstError.FirstEntry? then Err(ReasonOf(r.data.firstError).error)
      else Ok(TooLongAgo(r.data.firstError))
    case GoneRule => Ok(r.status == Some(410))
    case RateLimit429Rule => Ok(r.status == Some(429))
    case InternalServerErrorRule => Ok(r.status == Some(500))
    case UnknownErrorRule => Ok(true)
    case IgnoreNotFoundRule => Ok(r.status == Some(404))
  }

  datatype Callback = Throws(code: GoogleApiCode) | RewindThenThrows(code: GoogleApiCode)

  /** What a rule's callback does; ALREADY_DELETED and IGNORE_NOT_FOUND have none. */
  function RuleCallback(rule: GoogleRule): Option<Callback>
  {
    match rule
    case NoResponseRule => Some(Throws(GoogleApiCode.UnknownError))
    case InvalidRequestRule => Some(Throws(GoogleApiCode.InvalidRequest))
    case InvalidCredentialsRule => Some(Throws(GoogleApiCode.InvalidCredentials))
    case RateLimit403Rule => Some(Throws(GoogleApiCode.RateLimit))
    case UsageLimit403Rule => Some(Throws(GoogleApiCode.UserCalendarUsageLimit))
    case ForbiddenRule => Some(Throws(GoogleApiCode.Forbidden))
    case NotFoundRule => Some(Throws(GoogleApiCode.NotFound))
    case AlreadyDeletedRule => None
    case GoneUpdatedMinTooLongAgoRule => Some(RewindThenThrows(GoogleApiCode.GoneUpdatedMinTooLongAgo))
    case GoneRule => Some(Throws(GoogleApiCode.Gone))
    case RateLimit429Rule => Some(Throws(GoogleApiCode.RateLimit))
    case InternalServerErrorRule => Some(Throws(GoogleApiCode.InternalServerError))
    case UnknownErrorRule => Some(Throws(GoogleApiCode.UnknownError))
    case IgnoreNotFoundRule => None
  }

  /** The first rule whose condition holds, in array order; a throwing condition ends the search. */
  function FirstMatchFrom(rules: seq<GoogleRule>, i: nat, r: GaxiosResponse): Result<Option<GoogleRule>, Failure>
    decreases |rules| - i
  {
    if i >= |rules| then Ok(None)
    else
      match Condition(rules[i], r)
      case Err(e) => Err(e)
      case Ok(true) => Ok(Some(rules[i]))
      case Ok(false) => FirstMatchFrom(rules, i + 1, r)
  }

  function FirstMatch(rules: seq<GoogleRule>, r: GaxiosResponse): Result<Option<GoogleRule>, Failure>
  {
    FirstMatchFrom(rules, 0, r)
  }

  /** The base rule a response meets first, written as a plain decision. */
  function TableRule(r: GaxiosResponse): Result<GoogleRule, Failure>
  {
    if r.status.None? then Ok(NoResponseRule)
    else if r.status == Some(400) then Ok(InvalidRequestRule)
    else if r.status == Some(401) then Ok(InvalidCredentialsRule)
    else if r.status == Some(403) && MessageIn(r.data.message, RateLimitMessages) then Ok(RateLimit403Rule)
    else if r.status == Some(403) && MessageIn(r.data.message, UsageLimitMessages) then Ok(UsageLimit403Rule)
    else if r.status == Some(403) then Ok(ForbiddenRule)
    else if r.status == Some(404) then Ok(NotFoundRule)
    else if r.status == Some(410) && r.data.message == Some("deleted") then Ok(AlreadyDeletedRule)
    else if r.status == Some(410) && !r.data.firstError.FirstEntry? then Err(ReasonOf(r.data.firstError).error)
    else if r.status == Some(410) && TooLongAgo(r.data.firstError) then Ok(GoneUpdatedMinTooLongAgoRule)
    else if r.status == Some(410) then Ok(GoneRule)
    else if r.status == Some(429) then Ok(RateLimit429Rule)
    else if r.status == Some(500) then Ok(InternalServerErrorRule)
    else Ok(UnknownErrorRule)
  }

  /** A response without a status meets NO_RESPONSE. */
  lemma SelectsNoResponse(r: GaxiosResponse)
    requires r.status.None?
    ensures FirstMatch(BaseRules, r) == Ok(Some(NoResponseRule))
  {
  }

  /** 400 meets INVALID_REQUEST. */
  lemma Selects400(r: GaxiosResponse)
    requires r.status == Some(400)
    ensures FirstMatch(BaseRules, r) == Ok(Some(InvalidRequestRule))
  {
    assert FirstMatchFrom(BaseRules, 0, r) == FirstMatchFrom(BaseRules, 1, r);
  }

  /** 401 meets INVALID_CREDENTIALS. */
  lemma Selects401(r: GaxiosResponse)
    requires r.status == Some(401)
    ensures FirstMatch(BaseRules, r) == Ok(Some(InvalidCredentialsRule))
  {
    assert FirstMatchFrom(BaseRules, 0, r) == FirstMatchFrom(BaseRules, 1, r);
    assert FirstMatchFrom(BaseRules, 1, r) == FirstMatchFrom(BaseRules, 2, r);
  }

  /** A 403 with a rate-limit message meets the first RATE_LIMIT. */
  lemma Selects403Rate(r: GaxiosResponse)
    requires r.status == Some(403) && MessageIn(r.data.message, RateLimitMessages)
    ensures FirstMatch(BaseRules, r) == Ok(Some(RateLimit403Rule))
  {
    assert FirstMatchFrom(BaseRules, 0, r) == FirstMatchFrom(BaseRules, 1, r);
    assert FirstMatchFrom(BaseRules, 1, r) == FirstMatchFrom(BaseRules, 2, r);
    assert FirstMatchFrom(BaseRules, 2, r) == FirstMatchFrom(BaseRules, 3, r);
  }

  /** A 403 with a usage-limit message meets USER_CALENDAR_USAGE_LIMIT. */
  lemma Selects403Usage(r: GaxiosResponse)
    requires r.status == Some(403) && !MessageIn(r.data.message, RateLimitMessages) && MessageIn(r.data.message, UsageLimitMessages)
    ensures FirstMatch(BaseRules, r) == Ok(Some(UsageLimit403Rule))
  {
    assert FirstMatchFrom(BaseRules, 0, r) == FirstMatchFrom(BaseRules, 1, r);
    assert FirstMatchFrom(BaseRules, 1, r) == FirstMatchFrom(BaseRules, 2, r);
    assert FirstMatchFrom(BaseRules, 2, r) == FirstMatchFrom(BaseRules, 3, r);
    assert FirstMatchFrom(BaseRules, 3, r) == FirstMatchFrom(BaseRules, 4, r);
  }

  /** Any other 403 meets FORBIDDEN. */
  lemma Selects403Other(r: GaxiosResponse)
    requires r.status == Some(403) && !MessageIn(r.data.message, RateLimitMessages) && !MessageIn(r.data.message, UsageLimitMessages)
    ensures FirstMatch(BaseRules, r) == Ok(Some(ForbiddenRule))
  {
    assert FirstMatchFrom(BaseRules, 0, r) == FirstMatchFrom(BaseRules, 1, r);
    assert FirstMatchFrom(BaseRules, 1, r) == FirstMatchFrom(BaseRules, 2, r);
    assert FirstMatchFrom(BaseRules, 2, r) == FirstMatchFrom(BaseRules, 3, r);
    assert FirstMatchFrom(BaseRules, 3, r) == FirstMatchFrom(BaseRules, 4, r);
    assert FirstMatchFrom(BaseRules, 4, r) == FirstMatchFrom(BaseRules, 5, r);
  }

  /** 404 meets NOT_FOUND. */
  lemma Selects404(r: GaxiosResponse)
    requires r.status == Some(404)
    ensures FirstMatch(BaseRules, r) == Ok(Some(NotFoundRule))
  {
    assert FirstMatchFrom(BaseRules, 0, r) == FirstMatchFrom(BaseRules, 1, r);
    assert FirstMatchFrom(BaseRules, 1, r) == FirstMatchFrom(BaseRules, 2, r);
    assert FirstMatchFrom(BaseRules, 2, r) == FirstMatchFrom(BaseRules, 3, r);
    assert FirstMatchFrom(BaseRules, 3, r) == FirstMatchFrom(BaseRules, 4, r);
    assert FirstMatchFrom(BaseRules, 4, r) == FirstMatchFrom(BaseRules, 5, r);
    assert FirstMatchFrom(BaseRules, 5, r) == FirstMatchFrom(BaseRules, 6, r);
  }

  /** A 410 'deleted' meets ALREADY_DELETED. */
  lemma Selects410Deleted(r: GaxiosResponse)
    requires r.status == Some(410) && r.data.message == Some("deleted")
    ensures FirstMatch(BaseRules, r) == Ok(Some(AlreadyDeletedRule))
  {
    assert FirstMatchFrom(BaseRules, 0, r) == FirstMatchFrom(BaseRules, 1, r);
    assert FirstMatchFrom(BaseRules, 1, r) == FirstMatchFrom(BaseRules, 2, r);
    assert FirstMatchFrom(BaseRules, 2, r) == FirstMatchFrom(BaseRules, 3, r);
    assert FirstMatchFrom(BaseRules, 3, r) == FirstMatchFrom(BaseRules, 4, r);
    assert FirstMatchFrom(BaseRules, 4, r) == FirstMatchFrom(BaseRules, 5, r);
    assert FirstMatchFrom(BaseRules, 5, r) == FirstMatchFrom(BaseRules, 6, r);
    assert FirstMatchFrom(BaseRules, 6, r) == FirstMatchFrom(BaseRules, 7, r);
  }

  /**
   * Any other 410 without a first error entry makes the next condition
   * throw, naming the property read through `undefined`.
   */
  lemma Selects410NoReason(r: GaxiosResponse)
    requires r.status == Some(410) && r.data.message != Some("deleted") && !r.data.firstError.FirstEntry?
    ensures r.data.firstError.NoErrorObject? ==>
              FirstMatch(BaseRules, r) == Err(TypeError("Cannot read properties of undefined (reading 'errors')"))
    ensures r.data.firstError.NoErrorList? ==>
              FirstMatch(BaseRules, r) == Err(TypeError("Cannot read properties of undefined (reading '0')"))
    ensures r.data.firstError.EmptyErrorList? ==>
              FirstMatch(BaseRules, r) == Err(TypeError("Cannot read properties of undefined (reading 'reason')"))
  {
    Reaches410Reason(r);
    assert BaseRules[8] == GoneUpdatedMinTooLongAgoRule;
    assert FirstMatchFrom(BaseRules, 8, r) == Err(ReasonOf(r.data.firstError).error);
  }

  /** A 410 with reason updatedMinTooLongAgo meets GONE_UPDATED_MIN_TOO_LONG_AGO. */
  lemma Selects410TooLongAgo(r: GaxiosResponse)
    requires r.status == Some(410) && r.data.message != Some("deleted") && TooLongAgo(r.data.firstError)
    ensures FirstMatch(BaseRules, r) == Ok(Some(GoneUpdatedMinTooLongAgoRule))
  {
    Reaches410Reason(r);
  }

  /** Any 410 other than 'deleted' passes the first eight rules and reaches the reason test. */
  lemma Reaches410Reason(r: GaxiosResponse)
    requires r.status == Some(410) && r.data.message != Some("deleted")
    ensures FirstMatch(BaseRules, r) == FirstMatchFrom(BaseRules, 8, r)
  {
    assert FirstMatchFrom(BaseRules, 0, r) == FirstMatchFrom(BaseRules, 1, r);
    assert FirstMatchFrom(BaseRules, 1, r) == FirstMatchFrom(BaseRules, 2, r);
    assert FirstMatchFrom(BaseRules, 2, r) == FirstMatchFrom(BaseRules, 3, r);
    assert FirstMatchFrom(BaseRules, 3, r) == FirstMatchFrom(BaseRules, 4, r);
    assert FirstMatchFrom(BaseRules, 4, r) == FirstMatchFrom(BaseRules, 5, r);
    assert FirstMatchFrom(BaseRules, 5, r) == FirstMatchFrom(BaseRules, 6, r);
    assert FirstMatchFrom(BaseRules, 6, r) == FirstMatchFrom(BaseRules, 7, r);
    assert FirstMatchFrom(BaseRules, 7, r) == FirstMatchFrom(BaseRules, 8, r);
  }

  /** Any other 410 with a first error entry meets GONE, an entry without a reason included. */
  lemma Selects410Other(r: GaxiosResponse)
    requires r.status == Some(410) && r.data.message != Some("deleted") && r.data.firstError.FirstEntry? &&
             !TooLongAgo(r.data.firstError)
    ensures FirstMatch(BaseRules, r) == Ok(Some(GoneRule))
  {
    assert FirstMatchFrom(BaseRules, 0, r) == FirstMatchFrom(BaseRules, 1, r);
    assert FirstMatchFrom(BaseRules, 1, r) == FirstMatchFrom(BaseRules, 2, r);
    assert FirstMatchFrom(BaseRules, 2, r) == FirstMatchFrom(BaseRules, 3, r);
    assert FirstMatchFrom(BaseRules, 3, r) == FirstMatchFrom(BaseRules, 4, r);
    assert FirstMatchFrom(BaseRules, 4, r) == FirstMatchFrom(BaseRules, 5, r);
    assert FirstMatchFrom(BaseRules, 5, r) == FirstMatchFrom(BaseRules, 6, r);
    assert FirstMatchFrom(BaseRules, 6, r) == FirstMatchFrom(BaseRules, 7, r);
    assert FirstMatchFrom(BaseRules, 7, r) == FirstMatchFrom(BaseRules, 8, r);
    assert FirstMatchFrom(BaseRules, 8, r) == FirstMatchFrom(BaseRules, 9, r);
  }

  /** 429 meets the second RATE_LIMIT. */
  lemma Selects429(r: GaxiosResponse)
    requires r.status == Some(429)
    ensures FirstMatch(BaseRules, r) == Ok(Some(RateLimit429Rule))
  {
    assert FirstMatchFrom(BaseRules, 0, r) == FirstMatchFrom(BaseRules, 1, r);
    assert FirstMatchFrom(BaseRules, 1, r) == FirstMatchFrom(BaseRules, 2, r);
    assert FirstMatchFrom(BaseRules, 2, r) == FirstMatchFrom(BaseRules, 3, r);
    assert FirstMatchFrom(BaseRules, 3, r) == FirstMatchFrom(BaseRules, 4, r);
    assert FirstMatchFrom(BaseRules, 4, r) == FirstMatchFrom(BaseRules, 5, r);
    assert FirstMatchFrom(BaseRules, 5, r) == FirstMatchFrom(BaseRules, 6, r);
    assert FirstMatchFrom(BaseRules, 6, r) == FirstMatchFrom(BaseRules, 7, r);
    assert FirstMatchFrom(BaseRules, 7, r) == FirstMatchFrom(BaseRules, 8, r);
    assert FirstMatchFrom(BaseRules, 8, r) == FirstMatchFrom(BaseRules, 9, r);
    assert FirstMatchFrom(BaseRules, 9, r) == FirstMatchFrom(BaseRules, 10, r);
  }

  /** 500 meets INTERNAL_SERVER_ERROR. */
  lemma Selects500(r: GaxiosResponse)
    requires r.status == Some(500)
    ensures FirstMatch(BaseRules, r) == Ok(Some(InternalServerErrorRule))
  {
    assert FirstMatchFrom(BaseRules, 0, r) == FirstMatchFrom(BaseRules, 1, r);
    assert FirstMatchFrom(BaseRules, 1, r) == FirstMatchFrom(BaseRules, 2, r);
    assert FirstMatchFrom(BaseRules, 2, r) == FirstMatchFrom(BaseRules, 3, r);
    assert FirstMatchFrom(BaseRules, 3, r) == FirstMatchFrom(BaseRules, 4, r);
    assert FirstMatchFrom(BaseRules, 4, r) == FirstMatchFrom(BaseRules, 5, r);
    assert FirstMatchFrom(BaseRules, 5, r) == FirstMatchFrom(BaseRules, 6, r);
    assert FirstMatchFrom(BaseRules, 6, r) == FirstMatchFrom(BaseRules, 7, r);
    assert FirstMatchFrom(BaseRules, 7, r) == FirstMatchFrom(BaseRules, 8, r);
    assert FirstMatchFrom(BaseRules, 8, r) == FirstMatchFrom(BaseRules, 9, r);
    assert FirstMatchFrom(BaseRules, 9, r) == FirstMatchFrom(BaseRules, 10, r);
    assert FirstMatchFrom(BaseRules, 10, r) == FirstMatchFrom(BaseRules, 11, r);
  }

  /** Every other status meets the catch-all UNKNOWN_ERROR. */
  lemma SelectsOther(r: GaxiosResponse)
    requires r.status.Some? && r.status.value !in {400, 401, 403, 404, 410, 429, 500}
    ensures FirstMatch(BaseRules, r) == Ok(Some(UnknownErrorRule))
  {
    assert FirstMatchFrom(BaseRules, 0, r) == FirstMatchFrom(BaseRules, 1, r);
    assert FirstMatchFrom(BaseRules, 1, r) == FirstMatchFrom(BaseRules, 2, r);
    assert FirstMatchFrom(BaseRules, 2, r) == FirstMatchFrom(BaseRules, 3, r);
    assert FirstMatchFrom(BaseRules, 3, r) == FirstMatchFrom(BaseRules, 4, r);
    assert FirstMatchFrom(BaseRules, 4, r) == FirstMatchFrom(BaseRules, 5, r);
    assert FirstMatchFrom(BaseRules, 5, r) == FirstMatchFrom(BaseRules, 6, r);
    assert FirstMatchFrom(BaseRules, 6, r) == FirstMatchFrom(BaseRules, 7, r);
    assert FirstMatchFrom(BaseRules, 7, r) == FirstMatchFrom(BaseRules, 8, r);
    assert FirstMatchFrom(BaseRules, 8, r) == FirstMatchFrom(BaseRules, 9, r);
    assert FirstMatchFrom(BaseRules, 9, r) == FirstMatchFrom(BaseRules, 10, r);
    assert FirstMatchFrom(BaseRules, 10, r) == FirstMatchFrom(BaseRules, 11, r);
    assert FirstMatchFrom(BaseRules, 11, r) == FirstMatchFrom(BaseRules, 12, r);
  }

  /**
   * The table, tried in order, selects exactly the rule of the plain
   * decision; the catch-all means some rule is always selected unless the
   * reason lookup throws.
   */
  lemma TableSelects(r: GaxiosResponse)
    ensures FirstMatch(BaseRules, r) == match TableRule(r) case Ok(rule) => Ok(Some(rule)) case Err(e) => Err(e)
  {
    if r.status.None? {
      SelectsNoResponse(r);
    } else if r.status == Some(400) {
      Selects400(r);
    } else if r.status == Some(401) {
      Selects401(r);
    } else if r.status == Some(403) {
      if MessageIn(r.data.message, RateLimitMessages) {
        Selects403Rate(r);
      } else if MessageIn(r.data.message, UsageLimitMessages) {
        Selects403Usage(r);
      } else {
        Selects403Other(r);
      }
    } else if r.status == Some(404) {
      Selects404(r);
    } else if r.status == Some(410) {
      if r.data.message == Some("deleted") {
        Selects410Deleted(r);
      } else if !r.data.firstError.FirstEntry? {
        Selects410NoReason(r);
      } else if TooLongAgo(r.data.firstError) {
        Selects410TooLongAgo(r);
      } else {
        Selects410Other(r);
      }
    } else if r.status == Some(429) {
      Selects429(r);
    } else if r.status == Some(500) {
      Selects500(r);
    } else {
      SelectsOther(r);
    }
  }

  lemma {:induction false} FirstMatchShift(p: seq<GoogleRule>, q: seq<GoogleRule>, i: nat, r: GaxiosResponse)
    requires i <= |q|
    ensures FirstMatchFrom(p + q, |p| + i, r) == FirstMatchFrom(q, i, r)
    decreases |q| - i
  {
    if i < |q| {
      assert (p + q)[|p| + i] == q[i];
      FirstMatchShift(p, q, i + 1, r);
    }
  }

  /** With IGNORE_NOT_FOUND in front, a 404 meets it; every other response meets what the base table gives. */
  lemma ExtraRuleFirst(r: GaxiosResponse)
    ensures r.status == Some(404) ==> FirstMatch(ExtraRules + BaseRules, r) == Ok(Some(IgnoreNotFoundRule))
    ensures r.status != Some(404) ==> FirstMatch(ExtraRules + BaseRules, r) == FirstMatch(BaseRules, r)
  {
    assert (ExtraRules + BaseRules)[0] == IgnoreNotFoundRule;
    if r.status != Some(404) {
      FirstMatchShift(ExtraRules, BaseRules, 0, r);
    }
  }

  // ---- the if-chain ----

  /** What a filter decides about an error: swallow it, throw a code, rewind the sync time and throw, or fail itself. */
  datatype Verdict = Swallow | Throw(code: GoogleApiCode) | RewindAndThrow(code: GoogleApiCode) | Crash(error: Failure)

  /** The verdict of the table: a rule without a callback is read as swallowing the error. */
  function TableVerdict(r: GaxiosResponse): Verdict
  {
    match TableRule(r)
    case Err(e) => Crash(e)
    case Ok(rule) =>
      match RuleCallback(rule)
      case None => Swallow
      case Some(Throws(c)) => Throw(c)
      case Some(RewindThenThrows(c)) => RewindAndThrow(c)
  }

  /** `googleCalendarAPIErrorFilter`'s decision on a Gaxios error with this response. */
  function ChainVerdict(response: Option<GaxiosResponse>): (v: Verdict)
    ensures response.None? ==> v == Throw(GoogleApiCode.UnknownError)
    ensures v.Swallow? <==> response.Some? && response.value.status == Some(410) && response.value.data.message == Some("deleted")
    ensures v.RewindAndThrow? <==> response.Some? && response.value.status == Some(410) &&
                                   response.value.data.message != Some("deleted") &&
                                   TooLongAgo(response.value.data.firstError)
    ensures v.RewindAndThrow? ==> v.code == GoogleApiCode.GoneUpdatedMinTooLongAgo
    ensures v.Crash? <==> response.Some? && response.value.status == Some(410) &&
                          response.value.data.message != Some("deleted") && !response.value.data.firstError.FirstEntry?
    ensures v.Crash? ==> v.error == ReasonOf(response.value.data.firstError).error
  {
    if response.None? then Throw(GoogleApiCode.UnknownError)
    else
      var r := response.value;
      if r.status == Some(400) then Throw(GoogleApiCode.InvalidRequest)
      else if r.status == Some(401) then Throw(GoogleApiCode.InvalidCredentials)
      else if r.status == Some(403) then
        if MessageIn(r.data.message, RateLimitMessages) then Throw(GoogleApiCode.RateLimit)
        else if MessageIn(r.data.message, UsageLimitMessages) then Throw(GoogleApiCode.Forbidden)
        else Throw(GoogleApiCode.UserCalendarUsageLimit)
      else if r.status == Some(404) then Throw(GoogleApiCode.NotFound)
      else if r.status == Some(410) then
        if r.data.message == Some("deleted") then Swallow
        else if !r.data.firstError.FirstEntry? then Crash(ReasonOf(r.data.firstError).error)
        else if TooLongAgo(r.data.firstError) then RewindAndThrow(GoogleApiCode.GoneUpdatedMinTooLongAgo)
        else Throw(GoogleApiCode.Gone)
      else if r.status == Some(429) then Throw(GoogleApiCode.RateLimit)
      else if r.status == Some(500) then Throw(GoogleApiCode.InternalServerError)
      else Throw(GoogleApiCode.UnknownError)
  }

  /** The end of a filtered call. `rewind` says whether the user's last sync time was moved back. */
  datatype GoogleFilterOutcome<T> = GoogleFilterOutcome(result: Result<Option<T>, Failure>, rewind: bool)

  /**
   * `googleCalendarAPIErrorFilter(func)`: the call's value on success
   * (`None` stands for the `undefined` a swallowed error returns), other
   * errors rethrown unchanged, Gaxios errors decided by the chain.
   */
  function Filter<T>(call: Result<T, Failure>): (o: GoogleFilterOutcome<T>)
    ensures call.Ok? ==> o == GoogleFilterOutcome(Ok(Some(call.value)), false)
    ensures call.Err? && !call.error.GaxiosError? ==> o == GoogleFilterOutcome(Err(call.error), false)
    ensures o.rewind <==> call.Err? && call.error.GaxiosError? && ChainVerdict(call.error.response).RewindAndThrow?
    ensures call.Err? && call.error.GaxiosError? ==>
              match ChainVerdict(call.error.response)
              case Swallow => o.result == Ok(None)
              case Throw(c) => o.result == Err(GoogleApiFailure(c))
              case RewindAndThrow(c) => o.result == Err(GoogleApiFailure(c))
              case Crash(e) => o.result == Err(e)
  {
    match call
    case Ok(v) => GoogleFilterOutcome(Ok(Some(v)), false)
    case Err(e) =>
      if !e.GaxiosError? then GoogleFilterOutcome(Err(e), false)
      else
        match ChainVerdict(e.response)
        case Swallow => GoogleFilterOutcome(Ok(None), false)
        case Throw(c) => GoogleFilterOutcome(Err(GoogleApiFailure(c)), false)
        case RewindAndThrow(c) => GoogleFilterOutcome(Err(GoogleApiFailure(c)), true)
        case Crash(f) => GoogleFilterOutcome(Err(f), false)
  }

  // ---- properties ----

  /** The chain's 403 codes: rate-limit message, usage-limit message, anything else. */
  lemma Chain403(r: GaxiosResponse)
    requires r.status == Some(403)
    ensures MessageIn(r.data.message, RateLimitMessages) ==> ChainVerdict(Some(r)) == Throw(GoogleApiCode.RateLimit)
    ensures !MessageIn(r.data.message, RateLimitMessages) && MessageIn(r.data.message, UsageLimitMessages) ==>
              ChainVerdict(Some(r)) == Throw(GoogleApiCode.Forbidden)
    ensures !MessageIn(r.data.message, RateLimitMessages) && !MessageIn(r.data.message, UsageLimitMessages) ==>
              ChainVerdict(Some(r)) == Throw(GoogleApiCode.UserCalendarUsageLimit)
  {
  }

  /** The table's 403 codes, checked in the table's order. */
  lemma Table403(r: GaxiosResponse)
    requires r.status == Some(403)
    ensures MessageIn(r.data.message, RateLimitMessages) ==> TableVerdict(r) == Throw(GoogleApiCode.RateLimit)
    ensures !MessageIn(r.data.message, RateLimitMessages) && MessageIn(r.data.message, UsageLimitMessages) ==>
              TableVerdict(r) == Throw(GoogleApiCode.UserCalendarUsageLimit)
    ensures !MessageIn(r.data.message, RateLimitMessages) && !MessageIn(r.data.message, UsageLimitMessages) ==>
              TableVerdict(r) == Throw(GoogleApiCode.Forbidden)
  {
  }

  /**
   * The table and the chain decide alike on every response except a 403
   * without a rate-limit message, where their two codes are swapped.
   */
  lemma TableAndChainDisagreeOnlyOn403(r: GaxiosResponse)
    ensures TableVerdict(r) != ChainVerdict(Some(r)) <==>
              r.status == Some(403) && !MessageIn(r.data.message, RateLimitMessages)
  {
  }

  /** An already-deleted event is the only error the chain lets through. */
  lemma OnlyDeletedReturns<T>(call: Result<T, Failure>)
    requires call.Err?
    ensures Filter(call).result.Ok? <==>
              call.error.GaxiosError? && call.error.response.Some? &&
              call.error.response.value.status == Some(410) && call.error.response.value.data.message == Some("deleted")
  {
  }
}
