/** The `zealot` action: uploads an app package, classifies the reply, and on success
    records the new release in `lane_context`. */
module ZealotAction {
  import opened Runtime
  import opened ZealotHelper

  const APP_ID := "ZEALOT_APP_ID"
  const RELEASE_ID := "ZEALOT_RELEASE_ID"
  const RELEASE_URL := "ZEALOT_RELEASE_URL"
  const QRCODE_URL := "ZEALOT_QRCODE_URL"
  const INSTALL_URL := "ZEALOT_INSTALL_URL"

  const NO_TOKEN := "No user token for Zealot given, pass using `token: 'token'`"
  const EMPTY_FILE := "Couldn't pass empty to file"

  /** The five values a successful upload hands to later steps. */
  datatype Release = Release(appId: Value, releaseId: Value, releaseUrl: Value, installUrl: Value, qrcodeUrl: Value)

  /** `body['app']['id']`, `body['id']`, `body['release_url']`, `body['install_url']`,
      `body['qrcode_url']`, read in that order; the first `[]` that raises ends the call. */
  function ReleaseOf(body: Value): Outcome<Release> {
    var app :- Index(body, "app");
    var appId :- Index(app, "id");
    var releaseId :- Index(body, "id");
    var releaseUrl :- Index(body, "release_url");
    var installUrl :- Index(body, "install_url");
    var qrcodeUrl :- Index(body, "qrcode_url");
    Returned(Release(appId, releaseId, releaseUrl, installUrl, qrcodeUrl))
  }

  /** How `parse_response` reads what `upload_app` returned. */
  datatype Verdict =
    | NoResponse                    // `nil` or `false`: nothing to parse
    | Rejected(message: Message)    // handed to `show_error`
    | Created(release: Release)     // recorded in `lane_context`
    | Crashed(failure: Failure)     // a `[]` on the body raised

  function Classify(response: Option<Response>): Verdict {
    match response
    case None => NoResponse
    case Some(r) =>
      if r.status != 201 then Rejected(StatusError(r.status, r.body))
      else
        match ErrorField(r.body)
        case Raised(f) => Crashed(f)
        case Returned(flagged) =>
          if flagged then Rejected(BodyError(r.body))
          else
            match ReleaseOf(r.body)
            case Raised(f) => Crashed(f)
            case Returned(release) => Created(release)
  }

  /** What `parse_response` returns or raises. */
  function ParseOutcome(response: Option<Response>, failOnError: bool): Outcome<Value> {
    match Classify(response)
    case NoResponse => Returned(Nil)
    case Rejected(m) => ShowError(m, failOnError)
    case Created(_) => Returned(Bool(true))
    case Crashed(f) => Raised(f)
  }

  /** The `lane_context` entries `parse_response` writes. */
  function LaneWrites(response: Option<Response>): map<string, Value> {
    match Classify(response)
    case Created(rel) =>
      map[APP_ID := rel.appId, RELEASE_ID := rel.releaseId, RELEASE_URL := rel.releaseUrl,
          INSTALL_URL := rel.installUrl, QRCODE_URL := rel.qrcodeUrl]
    case _ => map[]
  }

  /** The five `lane_context` assignments of a successful upload, in source order. */
  method RecordRelease(ctx: LaneContext, rel: Release)
    modifies ctx
    ensures ctx.values == old(ctx.values) + map[APP_ID := rel.appId, RELEASE_ID := rel.releaseId,
      RELEASE_URL := rel.releaseUrl, INSTALL_URL := rel.installUrl, QRCODE_URL := rel.qrcodeUrl]
  {
    ctx.Put(APP_ID, rel.appId);
    ctx.Put(RELEASE_ID, rel.releaseId);
    ctx.Put(RELEASE_URL, rel.releaseUrl);
    ctx.Put(INSTALL_URL, rel.installUrl);
    ctx.Put(QRCODE_URL, rel.qrcodeUrl);
  }

  /** `parse_response`, writing the release into the shared `lane_context` one entry at a
      time, as the source does. */
  method ParseResponse(ctx: LaneContext, response: Option<Response>, failOnError: bool)
    returns (r: Outcome<Value>)
    modifies ctx
    ensures r == ParseOutcome(response, failOnError)
    ensures ctx.values == old(ctx.values) + LaneWrites(response)
  {
    if response.None? {
      return Returned(Nil);
    }
    var resp := response.value;
    if resp.status != 201 {
      r := ShowError(StatusError(resp.status, resp.body), failOnError);
      return;
    }
    var flagged := ErrorField(resp.body);
    if flagged.Raised? {
      return Raised(flagged.failure);
    }
    if flagged.value {
      r := ShowError(BodyError(resp.body), failOnError);
      return;
    }
    var body := resp.body;
    var app := Index(body, "app");
    if app.Raised? {
      return Raised(app.failure);
    }
    var appId := Index(app.value, "id");
    if appId.Raised? {
      return Raised(appId.failure);
    }
    CleanCreated(resp, app.value, appId.value);
    RecordRelease(ctx, Release(appId.value, Index(body, "id").value, Index(body, "release_url").value,
                               Index(body, "install_url").value, Index(body, "qrcode_url").value));
    r := Returned(Bool(true));
  }

  /** Once `body['app']['id']` has been read on a clean 201, the remaining reads succeed and
      the reply is classified as created with those values. */
  lemma CleanCreated(resp: Response, app: Value, appId: Value)
    requires resp.status == 201 && ErrorField(resp.body) == Returned(false)
    requires Index(resp.body, "app") == Returned(app) && Index(app, "id") == Returned(appId)
    ensures Index(resp.body, "id").Returned? && Index(resp.body, "release_url").Returned?
    ensures Index(resp.body, "install_url").Returned? && Index(resp.body, "qrcode_url").Returned?
    ensures Classify(Some(resp)) == Created(Release(appId, Index(resp.body, "id").value,
      Index(resp.body, "release_url").value, Index(resp.body, "install_url").value,
      Index(resp.body, "qrcode_url").value))
  {
    IndexRaisesForEveryKey(resp.body, "app", "id");
    IndexRaisesForEveryKey(resp.body, "app", "release_url");
    IndexRaisesForEveryKey(resp.body, "app", "install_url");
    IndexRaisesForEveryKey(resp.body, "app", "qrcode_url");
  }

  /** `run`: upload, then parse with the caller's `fail_on_error`. The result says whether
      the success lines are printed. A file that cannot be opened (a missing `file` option
      among others, whose verify block fastlane skips) raises out of `run` before any
      request, with nothing written. */
  method Run(ctx: LaneContext, params: map<string, Value>, fileExists: string -> bool, delivery: Delivery)
    returns (form: Outcome<map<string, Value>>, announced: Outcome<bool>)
    requires UploadParamsTyped(params)
    modifies ctx
    ensures form == UploadForm(params, fileExists)
    ensures form.Raised? ==> announced == Raised(form.failure) && ctx.values == old(ctx.values)
    ensures form.Returned? && delivery.Delivered? ==>
      announced == Announce(ParseOutcome(Some(delivery.response), Truthy(Lookup(params, "fail_on_error"))))
      && ctx.values == old(ctx.values) + LaneWrites(Some(delivery.response))
    ensures form.Returned? && delivery.TimedOut? ==>
      announced == (if Truthy(Lookup(params, "fail_on_error"))
                    then Raised(UserError(Text(UPLOAD_TIMED_OUT))) else Returned(false))
      && ctx.values == old(ctx.values)
    ensures form.Returned? && delivery.ConnectionFailed? ==>
      announced == Raised(Crash("Faraday::ConnectionFailed")) && ctx.values == old(ctx.values)
  {
    var failOnError := Truthy(Lookup(params, "fail_on_error"));
    var response;
    form, response := UploadApp(params, fileExists, delivery);
    if response.Raised? {
      return form, Raised(response.failure);
    }
    var parsed := ParseResponse(ctx, response.value, failOnError);
    announced := Announce(parsed);
  }

  /** A `nil` or `false` response answers `nil` and writes nothing. */
  lemma FalsyResponseChangesNothing(failOnError: bool)
    ensures ParseOutcome(None, failOnError) == Returned(Nil)
    ensures LaneWrites(None) == map[]
  {
  }

  /** Any status other than 201, 200 included, is reported with the status in the message and
      writes nothing, even when the body also carries an `error`. */
  lemma StatusCheckedFirst(r: Response, failOnError: bool)
    requires r.status != 201
    ensures ParseOutcome(Some(r), failOnError) == ShowError(StatusError(r.status, r.body), failOnError)
    ensures LaneWrites(Some(r)) == map[]
  {
  }

  /** A 201 whose body carries a truthy `error` is reported and writes nothing. */
  lemma CreatedWithErrorRejected(r: Response, failOnError: bool)
    requires r.status == 201 && r.body.Hash? && Truthy(Lookup(r.body.entries, "error"))
    ensures ParseOutcome(Some(r), failOnError) == ShowError(BodyError(r.body), failOnError)
    ensures LaneWrites(Some(r)) == map[]
  {
  }

  /** A clean 201 answers `true` and records the five release values from the body. */
  lemma CreatedRecordsRelease(r: Response, failOnError: bool)
    requires r.status == 201 && r.body.Hash? && !Truthy(Lookup(r.body.entries, "error"))
    requires Lookup(r.body.entries, "app").Hash?
    ensures ParseOutcome(Some(r), failOnError) == Returned(Bool(true))
    ensures LaneWrites(Some(r)) ==
      map[APP_ID := Lookup(Lookup(r.body.entries, "app").entries, "id"),
          RELEASE_ID := Lookup(r.body.entries, "id"),
          RELEASE_URL := Lookup(r.body.entries, "release_url"),
          INSTALL_URL := Lookup(r.body.entries, "install_url"),
          QRCODE_URL := Lookup(r.body.entries, "qrcode_url")]
  {
  }

  /** `parse_response` answers `true` exactly when it wrote the release, and it writes all
      five entries or none. */
  lemma TrueIffReleaseWritten(response: Option<Response>, failOnError: bool)
    ensures ParseOutcome(response, failOnError) == Returned(Bool(true)) <==> LaneWrites(response) != map[]
    ensures LaneWrites(response) == map[] ||
      LaneWrites(response).Keys == {APP_ID, RELEASE_ID, RELEASE_URL, INSTALL_URL, QRCODE_URL}
  {
    if Classify(response).Created? {
      assert APP_ID in LaneWrites(response);
    }
  }

  /** A rejected upload raises under `fail_on_error` and otherwise answers `false`; either
      way `run` prints no success line. */
  lemma RejectionFollowsPolicy(response: Option<Response>, failOnError: bool)
    requires Classify(response).Rejected?
    ensures failOnError ==>
      ParseOutcome(response, failOnError) == Raised(UserError(Classify(response).message))
    ensures !failOnError ==> ParseOutcome(response, failOnError) == Returned(Bool(false))
    ensures Announce(ParseOutcome(response, failOnError)) != Returned(true)
  {
  }

  /** The upload reply `{"app": {"id": 1}, "id": 2, "release_url": "https://x/r/2"}`
      with status 201. */
  lemma ExampleUploadReply(failOnError: bool)
    ensures var body := Hash(map["app" := Hash(map["id" := Int(1)]), "id" := Int(2),
                                 "release_url" := Str("https://x/r/2")]);
      LaneWrites(Some(Response(201, body))) ==
        map[APP_ID := Int(1), RELEASE_ID := Int(2), RELEASE_URL := Str("https://x/r/2"),
            INSTALL_URL := Nil, QRCODE_URL := Nil]
      && ParseOutcome(Some(Response(201, body)), failOnError) == Returned(Bool(true))
  {
    var body := Hash(map["app" := Hash(map["id" := Int(1)]), "id" := Int(2),
                         "release_url" := Str("https://x/r/2")]);
    CreatedRecordsRelease(Response(201, body), failOnError);
  }

  /** The `token` option's verify block. */
  function VerifyToken(value: Value): Outcome<()>
    requires StringOrNil(value)
  {
    if value.Nil? || value.s == "" then Raised(UserError(Text(NO_TOKEN))) else Returned(())
  }

  /** The `file` option's verify block; `fileExists` stands for `File.exist?`. */
  function VerifyFile(value: Value, fileExists: string -> bool): Outcome<()>
    requires StringOrNil(value)
  {
    if value.Nil? || value.s == "" then Raised(UserError(Text(EMPTY_FILE)))
    else if !fileExists(value.s) then Raised(UserError(MissingFile(value.s)))
    else Returned(())
  }

  /** A token that passed its verify block reaches a built form as a non-empty String, and
      one that did not never does. */
  lemma VerifiedTokenIsSent(params: map<string, Value>, fileExists: string -> bool)
    requires StringOrNil(Lookup(params, "token"))
    ensures UploadForm(params, fileExists).Returned? ==>
      (VerifyToken(Lookup(params, "token")).Returned? <==>
        UploadForm(params, fileExists).value["token"].Str? && UploadForm(params, fileExists).value["token"].s != "")
  {
  }

  /** A file passes its verify block exactly when the form gets built and uploads a
      non-empty path that exists. */
  lemma VerifiedFileIsSent(params: map<string, Value>, fileExists: string -> bool)
    requires StringOrNil(Lookup(params, "file"))
    ensures VerifyFile(Lookup(params, "file"), fileExists).Returned? <==>
      exists p :: p != "" && fileExists(p) && UploadForm(params, fileExists).Returned?
        && UploadForm(params, fileExists).value["file"] == Upload(Str(p))
  {
    if VerifyFile(Lookup(params, "file"), fileExists).Returned? {
      var p := Lookup(params, "file").s;
      assert UploadForm(params, fileExists).value["file"] == Upload(Str(p));
    }
  }

  /** Without a `file` option the verify block is never run, and the upload raises
      `TypeError` before any request. */
  lemma MissingFileRaisesBeforeUpload(params: map<string, Value>, fileExists: string -> bool)
    requires "file" !in params
    ensures UploadForm(params, fileExists) == Raised(Crash("TypeError"))
  {
  }
}
