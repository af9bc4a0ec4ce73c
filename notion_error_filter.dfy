// The error filter around every Notion API call: an ordered list of rules,
// the caller's extra rules first, the first rule whose condition holds
// decides what becomes of the error.
module NotionErrorFilter {
  import opened Wrappers
  import opened Errors

  datatype Target = PageTarget | DatabaseTarget

  datatype Rule =
    | InvalidRequestRule | UnauthorizedRule | DatabaseNotFoundRule | PageNotFoundRule
    | RateLimitRule | InternalServerErrorRule | ServiceUnavailableRule | UnknownErrorRule
    | IgnoreAlreadyArchivedPage | IgnoreNotFound

  const ArchivedPageMessage: string :=
    "Can't update a page that is archived. You must unarchive the page before updating."

  /** The base rules in the order they are tried. */
  const BaseRules: seq<Rule> := [
    InvalidRequestRule, UnauthorizedRule, DatabaseNotFoundRule, PageNotFoundRule,
    RateLimitRule, InternalServerErrorRule, ServiceUnavailableRule, UnknownErrorRule
  ]

  /** The extra rules the page-deleting and page-updating calls add. */
  const IgnoreRules: seq<Rule> := [IgnoreAlreadyArchivedPage, IgnoreNotFound]

  predicate Condition(rule: Rule, status: int, message: string, target: Target)
  {
    match rule
    case InvalidRequestRule => status == 400
    case UnauthorizedRule => status == 401
    case DatabaseNotFoundRule => status == 404 && target == DatabaseTarget
    case PageNotFoundRule => status == 404 && target == PageTarget
    case RateLimitRule => status == 429
    case InternalServerErrorRule => status == 500
    case ServiceUnavailableRule => status == 503
    case UnknownErrorRule => true
    case IgnoreAlreadyArchivedPage => message == ArchivedPageMessage
    case IgnoreNotFound => status == 404
  }

  /** The code a rule's callback throws with; the two ignore rules have no callback. */
  function Callback(rule: Rule): Option<NotionApiCode>
  {
    match rule
    case InvalidRequestRule => Some(NotionApiCode.InvalidRequest)
    case UnauthorizedRule => Some(NotionApiCode.Unauthorized)
    case DatabaseNotFoundRule => Some(NotionApiCode.DatabaseNotFound)
    case PageNotFoundRule => Some(NotionApiCode.PageNotFound)
    case RateLimitRule => Some(NotionApiCode.RateLimit)
    case InternalServerErrorRule => Some(NotionApiCode.InternalServerError)
    case ServiceUnavailableRule => Some(NotionApiCode.ServiceUnavailable)
    case UnknownErrorRule => Some(NotionApiCode.UnknownError)
    case IgnoreAlreadyArchivedPage => None
    case IgnoreNotFound => None
  }

  /** The first rule of `rules` whose condition holds, as `find` picks it. */
  function FirstMatch(rules: seq<Rule>, status: int, message: string, target: Target): (r: Option<Rule>)
    ensures r.Some? ==> r.value in rules && Condition(r.value, status, message, target)
    ensures r.None? <==> forall k :: 0 <= k < |rules| ==> !Condition(rules[k], status, message, target)
  {
    if |rules| == 0 then None
    else if Condition(rules[0], status, message, target) then Some(rules[0])
    else FirstMatch(rules[1..], status, message, target)
  }

  /** The rule picked among the extra rules followed by the base rules. */
  function SelectRule(extra: seq<Rule>, status: int, message: string, target: Target): Option<Rule>
  {
    FirstMatch(extra + BaseRules, status, message, target)
  }

  /** The end of a filtered call: its value, `undefined` after a handled error, or a thrown error. */
  datatype FilterOutcome<T> = Returned(value: T) | Swallowed | Thrown(error: Failure)

  /** `notionAPIErrorFilter`: what becomes of the call's result. */
  function Filter<T>(call: Result<T, Failure>, target: Target, extra: seq<Rule>): FilterOutcome<T>
  {
    match call
    case Ok(v) => Returned(v)
    case Err(e) =>
      if !e.NotionResponseError? then Thrown(e)
      else
        match SelectRule(extra, e.status, e.message, target)
        case None => Swallowed
        case Some(rule) =>
          match Callback(rule)
          case Some(code) => Thrown(NotionApiFailure(code))
          case None => Thrown(MissingCallback)
  }

  /** The classification the base rules implement, written as a plain decision. */
  function BaseCode(status: int, target: Target): NotionApiCode
  {
    if status == 400 then NotionApiCode.InvalidRequest
    else if status == 401 then NotionApiCode.Unauthorized
    else if status == 404 && target == DatabaseTarget then NotionApiCode.DatabaseNotFound
    else if status == 404 then NotionApiCode.PageNotFound
    else if status == 429 then NotionApiCode.RateLimit
    else if status == 500 then NotionApiCode.InternalServerError
    else if status == 503 then NotionApiCode.ServiceUnavailable
    else NotionApiCode.UnknownError
  }

  lemma {:induction false} FirstMatchFrom(rules: seq<Rule>, i: nat, status: int, message: string, target: Target)
    requires i <= |rules|
    requires forall k :: 0 <= k < i ==> !Condition(rules[k], status, message, target)
    ensures FirstMatch(rules, status, message, target) == FirstMatch(rules[i..], status, message, target)
  {
    if i > 0 {
      assert rules[1..][i - 1..] == rules[i..];
      FirstMatchFrom(rules[1..], i - 1, status, message, target);
    }
  }

  lemma FirstMatchSkip(rules: seq<Rule>, i: nat, status: int, message: string, target: Target)
    requires i < |rules| && !Condition(rules[i], status, message, target)
    ensures FirstMatch(rules[i..], status, message, target) == FirstMatch(rules[i + 1..], status, message, target)
  {
    assert rules[i..][0] == rules[i] && rules[i..][1..] == rules[i + 1..];
  }

  lemma FirstMatchHit(rules: seq<Rule>, i: nat, status: int, message: string, target: Target)
    requires i < |rules| && Condition(rules[i], status, message, target)
    ensures FirstMatch(rules[i..], status, message, target) == Some(rules[i])
  {
    assert rules[i..][0] == rules[i];
  }

  /** The base rule an error with this status meets first. */
  function BaseRule(status: int, target: Target): Rule
  {
    if status == 400 then InvalidRequestRule
    else if status == 401 then UnauthorizedRule
    else if status == 404 && target == DatabaseTarget then DatabaseNotFoundRule
    else if status == 404 then PageNotFoundRule
    else if status == 429 then RateLimitRule
    else if status == 500 then InternalServerErrorRule
    else if status == 503 then ServiceUnavailableRule
    else UnknownErrorRule
  }

  lemma SelectBaseRuleFrom(i: nat, status: int, message: string, target: Target)
    requires i < 8
    requires forall k :: 0 <= k < i ==> !Condition(BaseRules[k], status, message, target)
    ensures FirstMatch(BaseRules[i..], status, message, target) == Some(BaseRule(status, target))
    decreases 8 - i
  {
    if Condition(BaseRules[i], status, message, target) {
      FirstMatchHit(BaseRules, i, status, message, target);
      var c := (k: nat) requires k < 8 => Condition(BaseRules[k], status, message, target);
      assert i > 0 ==> !c(0);
      assert i > 1 ==> !c(1);
      assert i > 2 ==> !c(2);
      assert i > 3 ==> !c(3);
      assert i > 4 ==> !c(4);
      assert i > 5 ==> !c(5);
      assert i > 6 ==> !c(6);
    } else {
      FirstMatchSkip(BaseRules, i, status, message, target);
      SelectBaseRuleFrom(i + 1, status, message, target);
    }
  }

  lemma SelectBaseRule(status: int, message: string, target: Target)
    ensures SelectRule([], status, message, target) == Some(BaseRule(status, target))
  {
    assert [] + BaseRules == BaseRules;
    assert BaseRules[0..] == BaseRules;
    SelectBaseRuleFrom(0, status, message, target);
  }

  /** The base rule's callback gives the code of the status. */
  lemma BaseRuleCallback(status: int, target: Target)
    ensures Callback(BaseRule(status, target)) == Some(BaseCode(status, target))
  {
  }

  /** Without extra rules every Notion API error is rethrown as a sync error with the base code. */
  lemma BaseRulesClassify<T>(status: int, message: string, target: Target)
    ensures Filter<T>(Err(NotionResponseError(status, message)), target, [])
            == Thrown(NotionApiFailure(BaseCode(status, target)))
  {
    SelectBaseRule(status, message, target);
    BaseRuleCallback(status, target);
  }

  /** Successful calls pass through and errors of other kinds are rethrown unchanged. */
  lemma PassThrough<T>(call: Result<T, Failure>, target: Target, extra: seq<Rule>)
    requires call.Ok? || !call.error.NotionResponseError?
    ensures Filter(call, target, extra) == if call.Ok? then Returned(call.value) else Thrown(call.error)
  {
  }

  /** The catch-all rule means a Notion API error is never silently swallowed. */
  lemma NeverSwallowed<T>(call: Result<T, Failure>, target: Target, extra: seq<Rule>)
    ensures !Filter(call, target, extra).Swallowed?
  {
    if call.Err? && call.error.NotionResponseError? {
      var e := call.error;
      assert (extra + BaseRules)[|extra| + 7] == UnknownErrorRule;
    }
  }

  /**
   * An error that matches an ignore rule is not ignored: the rule has no
   * callback, so awaiting it throws a TypeError.
   */
  lemma IgnoreRulesThrow<T>(status: int, message: string, target: Target)
    requires status == 404 || message == ArchivedPageMessage
    ensures Filter<T>(Err(NotionResponseError(status, message)), target, IgnoreRules) == Thrown(MissingCallback)
  {
    var all := IgnoreRules + BaseRules;
    assert all[0] == IgnoreAlreadyArchivedPage && all[1] == IgnoreNotFound;
    if !Condition(all[0], status, message, target) {
      FirstMatchFrom(all, 1, status, message, target);
      assert all[1..][0] == IgnoreNotFound;
    }
  }

  /** An error that matches no ignore rule is classified by the base rules alone. */
  lemma IgnoreRulesOtherwiseBase<T>(status: int, message: string, target: Target)
    requires status != 404 && message != ArchivedPageMessage
    ensures Filter<T>(Err(NotionResponseError(status, message)), target, IgnoreRules)
            == Thrown(NotionApiFailure(BaseCode(status, target)))
  {
    var all := IgnoreRules + BaseRules;
    assert all[2..] == [] + BaseRules;
    FirstMatchFrom(all, 2, status, message, target);
    SelectBaseRule(status, message, target);
    BaseRuleCallback(status, target);
  }
}
