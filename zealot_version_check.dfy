/** The `zealot_version_check` action: asks whether a version already exists and records the
    answer in `lane_context` as `ZEALOT_APP_VERSION_EXISTED`. */
module ZealotVersionCheck {
  import opened Runtime
  import opened ZealotHelper

  const EXISTED := "ZEALOT_APP_VERSION_EXISTED"

  /** The `case` on the status: 200 means the version exists, 404 that it does not, and
      anything else has no answer. */
  function Existence(status: int): Option<bool> {
    if status == 200 then Some(true)
    else if status == 404 then Some(false)
    else None
  }

  /** What `parse_response` returns or raises. Without an answer, `body['error']` goes to
      `show_error`; reading it can itself raise. */
  function ParseOutcome(response: Response, failOnError: bool): Outcome<Value> {
    match Existence(response.status)
    case Some(existed) => Returned(Bool(existed))
    case None =>
      var error :- Index(response.body, "error");
      ShowError(Raw(error), failOnError)
  }

  /** The `lane_context` entry `parse_response` writes. */
  function ExistedWrite(response: Response): map<string, Value> {
    match Existence(response.status)
    case Some(existed) => map[EXISTED := Bool(existed)]
    case None => map[]
  }

  /** `parse_response` on a real response. */
  method ParseResponse(ctx: LaneContext, response: Response, failOnError: bool)
    returns (r: Outcome<Value>)
    modifies ctx
    ensures r == ParseOutcome(response, failOnError)
    ensures ctx.values == old(ctx.values) + ExistedWrite(response)
  {
    var isExisted := Existence(response.status);
    if isExisted.None? {
      var error := Index(response.body, "error");
      if error.Raised? {
        return Raised(error.failure);
      }
      r := ShowError(Raw(error.value), failOnError);
      return;
    }
    ctx.Put(EXISTED, Bool(isExisted.value));
    r := Returned(Bool(isExisted.value));
  }

  /** `run`: `check_app_version`, then `parse_response` with the caller's `fail_on_error`.
      A refused query or a raise in the request ends the run with nothing written; a
      timed-out request that was only reported hands `false` to `parse_response`, whose
      first `response.status` has no such method. */
  method Run(ctx: LaneContext, params: map<string, Value>, delivery: Delivery)
    returns (query: Outcome<map<string, Value>>, r: Outcome<Value>)
    modifies ctx
    ensures query == BuildVersionCheckQuery(params)
    ensures query.Raised? ==> r == Raised(query.failure) && ctx.values == old(ctx.values)
    ensures query.Returned? && delivery.Delivered? ==>
      r == ParseOutcome(delivery.response, Truthy(Lookup(params, "fail_on_error")))
      && ctx.values == old(ctx.values) + ExistedWrite(delivery.response)
    ensures query.Returned? && delivery.TimedOut? ==>
      r == (if Truthy(Lookup(params, "fail_on_error"))
            then Raised(UserError(Text(VERSION_TIMED_OUT))) else Raised(Crash("NoMethodError")))
      && ctx.values == old(ctx.values)
    ensures query.Returned? && delivery.ConnectionFailed? ==>
      r == Raised(Crash("Faraday::ConnectionFailed")) && ctx.values == old(ctx.values)
  {
    var response;
    query, response := CheckAppVersion(params, delivery);
    if response.Raised? {
      return query, Raised(response.failure);
    }
    if response.value.None? {
      return query, Raised(Crash("NoMethodError"));
    }
    r := ParseResponse(ctx, response.value.value, Truthy(Lookup(params, "fail_on_error")));
  }

  /** 200: the version exists; the action answers `true` and records `true`. */
  lemma FoundOn200(response: Response, failOnError: bool)
    requires response.status == 200
    ensures ParseOutcome(response, failOnError) == Returned(Bool(true))
    ensures ExistedWrite(response) == map[EXISTED := Bool(true)]
  {
  }

  /** 404 is an answer, not an error: `false` is returned and recorded whatever
      `fail_on_error` says. */
  lemma NotFoundOn404(response: Response, failOnError: bool)
    requires response.status == 404
    ensures ParseOutcome(response, failOnError) == Returned(Bool(false))
    ensures ParseOutcome(response, failOnError) == ParseOutcome(response, !failOnError)
    ensures ExistedWrite(response) == map[EXISTED := Bool(false)]
  {
  }

  /** Any other status reports the body's `error` through `show_error`: a raise under
      `fail_on_error`, `false` otherwise, and nothing recorded. */
  lemma OtherStatusIsError(response: Response, failOnError: bool)
    requires response.status != 200 && response.status != 404
    requires response.body.Hash?
    ensures failOnError ==>
      ParseOutcome(response, failOnError) == Raised(UserError(Raw(Lookup(response.body.entries, "error"))))
    ensures !failOnError ==> ParseOutcome(response, failOnError) == Returned(Bool(false))
    ensures ExistedWrite(response) == map[]
  {
  }

  /** With any other status, a body that has no String `[]` (an empty reply decodes to
      `nil`) makes `body['error']` itself raise, whatever `fail_on_error` says, and nothing
      is recorded. */
  lemma OtherStatusUnreadableBody(response: Response, failOnError: bool)
    requires response.status != 200 && response.status != 404
    requires !(response.body.Hash? || response.body.Str? || response.body.Sym?)
    ensures ParseOutcome(response, failOnError).Raised?
    ensures ParseOutcome(response, failOnError).failure.Crash?
    ensures ParseOutcome(response, failOnError) == ParseOutcome(response, !failOnError)
    ensures response.body == Nil ==> ParseOutcome(response, failOnError) == Raised(Crash("NoMethodError"))
    ensures ExistedWrite(response) == map[]
  {
  }

  /** Whenever `ZEALOT_APP_VERSION_EXISTED` is written, the action answers the same value;
      when it is not, the action never answers `true`. */
  lemma AnswerMatchesRecord(response: Response, failOnError: bool)
    ensures EXISTED in ExistedWrite(response) ==>
      ParseOutcome(response, failOnError) == Returned(ExistedWrite(response)[EXISTED])
    ensures EXISTED !in ExistedWrite(response) ==>
      ParseOutcome(response, failOnError) != Returned(Bool(true))
  {
  }

  /** The answer is `true` exactly for status 200. */
  lemma TrueIffStatus200(response: Response, failOnError: bool)
    ensures ParseOutcome(response, failOnError) == Returned(Bool(true)) <==> response.status == 200
  {
  }
}
