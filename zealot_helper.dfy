/** The helper shared by the Zealot actions: the upload form, the version-check query, the
    rows `print_table` shows, and the fail-or-warn policy `show_error`. */
module ZealotHelper {
  import opened Runtime

  /** The optional upload fields copied into the form when they are set. */
  const UPLOAD_APP_PARAMS_KEYS: seq<string> :=
    ["name", "changelog", "release_type", "slug", "source", "branch", "git_commit", "password"]

  const BUNDLE_ID_MISSING := "bundle id is missing"
  const VERSION_MISSING := "release_version + build_version or git_commit is missing"
  const UPLOAD_TIMED_OUT := "Uploading build to Apphost timed out ⏳"
  const VERSION_TIMED_OUT := "Check app version from Zealot timed out ⏳"

  /** The optional upload keys are declared `type: String`, so fastlane hands them over as a
      String or not at all. */
  predicate UploadParamsTyped(params: map<string, Value>) {
    forall k :: k in params && k in UPLOAD_APP_PARAMS_KEYS ==> StringOrNil(params[k])
  }

  /** `value && !value.empty?` for a String-typed option. */
  predicate Filled(v: Value) {
    v.Str? && v.s != ""
  }

  /** The optional part of the upload form. */
  function OptionalFields(params: map<string, Value>): map<string, Value> {
    map k | k in UPLOAD_APP_PARAMS_KEYS && k in params && Filled(params[k]) :: params[k]
  }

  /** `Faraday::UploadIO.new(file, 'application/octet-stream')`: the String-typed option
      is opened with `File.open`, which refuses a missing `file` (`TypeError` on nil; every
      other non-String is treated the same here) and a path with no file behind it
      (`Errno::ENOENT`). `fileExists` stands for the file system. */
  function FileHandle(file: Value, fileExists: string -> bool): (r: Outcome<Value>)
    ensures r.Returned? <==> file.Str? && fileExists(file.s)
    ensures r.Returned? ==> r.value == Upload(file)
    ensures !file.Str? ==> r == Raised(Crash("TypeError"))
  {
    if !file.Str? then Raised(Crash("TypeError"))
    else if !fileExists(file.s) then Raised(Crash("Errno::ENOENT"))
    else Returned(Upload(file))
  }

  /** The form once the upload handle is open: the three mandatory fields merged with the
      optional ones. */
  function FormFields(params: map<string, Value>): map<string, Value> {
    map["token" := Lookup(params, "token"),
        "channel_key" := Lookup(params, "channel_key"),
        "file" := Upload(Lookup(params, "file"))]
    + OptionalFields(params)
  }

  /** What `upload_app_params` returns or raises: the Hash literal opens the upload handle
      before the optional fields are looked at. */
  function UploadForm(params: map<string, Value>, fileExists: string -> bool): Outcome<map<string, Value>> {
    var _ :- FileHandle(Lookup(params, "file"), fileExists);
    Returned(FormFields(params))
  }

  /** `avialable_upload_app_params`: walks the optional keys in order and keeps the set ones. */
  method AvailableUploadParams(params: map<string, Value>) returns (obj: map<string, Value>)
    requires UploadParamsTyped(params)
    ensures obj == OptionalFields(params)
  {
    obj := map[];
    var i := 0;
    while i < |UPLOAD_APP_PARAMS_KEYS|
      invariant 0 <= i <= |UPLOAD_APP_PARAMS_KEYS|
      invariant forall k :: k in obj <==>
        k in UPLOAD_APP_PARAMS_KEYS[..i] && k in params && Filled(params[k])
      invariant forall k :: k in obj ==> obj[k] == params[k]
    {
      var key := UPLOAD_APP_PARAMS_KEYS[i];
      var value := Lookup(params, key);
      if Truthy(value) && value.s != "" {
        obj := obj[key := value];
      }
      assert UPLOAD_APP_PARAMS_KEYS[..i + 1] == UPLOAD_APP_PARAMS_KEYS[..i] + [key];
      i := i + 1;
    }
    assert UPLOAD_APP_PARAMS_KEYS[..i] == UPLOAD_APP_PARAMS_KEYS;
  }

  /** `upload_app_params`. */
  method UploadAppParams(params: map<string, Value>, fileExists: string -> bool)
    returns (form: Outcome<map<string, Value>>)
    requires UploadParamsTyped(params)
    ensures form == UploadForm(params, fileExists)
  {
    var token := Lookup(params, "token");
    var channelKey := Lookup(params, "channel_key");
    var file := FileHandle(Lookup(params, "file"), fileExists);
    if file.Raised? {
      return Raised(file.failure);
    }
    var optional := AvailableUploadParams(params);
    form := Returned(map["token" := token, "channel_key" := channelKey, "file" := file.value] + optional);
  }

  /** A form is built exactly when the file option names a file that exists; a missing or
      non-String file raises `TypeError`. A built form always carries the three mandatory
      fields, taken from the options as given. */
  lemma UploadFormMandatory(params: map<string, Value>, fileExists: string -> bool)
    ensures UploadForm(params, fileExists).Returned? <==>
      Lookup(params, "file").Str? && fileExists(Lookup(params, "file").s)
    ensures !Lookup(params, "file").Str? ==> UploadForm(params, fileExists) == Raised(Crash("TypeError"))
    ensures UploadForm(params, fileExists).Returned? ==>
      var form := UploadForm(params, fileExists).value;
      && "token" in form && form["token"] == Lookup(params, "token")
      && "channel_key" in form && form["channel_key"] == Lookup(params, "channel_key")
      && "file" in form && form["file"] == Upload(Lookup(params, "file"))
  {
  }

  /** In a built form, any other key is present exactly when it is a whitelisted optional key
      set to a non-empty String, and then it carries that String unchanged. */
  lemma UploadFormOptional(params: map<string, Value>, fileExists: string -> bool, k: string)
    requires k !in {"token", "channel_key", "file"}
    requires UploadForm(params, fileExists).Returned?
    ensures var form := UploadForm(params, fileExists).value;
      && (k in form <==> k in UPLOAD_APP_PARAMS_KEYS && k in params && params[k].Str? && params[k].s != "")
      && (k in form ==> form[k] == params[k] && form[k] != Str(""))
  {
  }

  /** `custom_fields` and `ci_url` are options of the action but never reach the form. */
  lemma UploadFormOmitsCustomFieldsAndCiUrl(params: map<string, Value>, fileExists: string -> bool)
    requires UploadForm(params, fileExists).Returned?
    ensures "custom_fields" !in UploadForm(params, fileExists).value
    ensures "ci_url" !in UploadForm(params, fileExists).value
  {
  }

  /** `build_app_version_check_params`: both failures come before any connection is made. */
  function BuildVersionCheckQuery(params: map<string, Value>): Outcome<map<string, Value>> {
    var bundleId := Lookup(params, "bundle_id");
    var releaseVersion := Lookup(params, "release_version");
    var buildVersion := Lookup(params, "build_version");
    var gitCommit := Lookup(params, "git_commit");
    if IsBlank(bundleId) then Raised(UserError(Text(BUNDLE_ID_MISSING)))
    else
      var hasVersion := !(IsBlank(releaseVersion) && IsBlank(buildVersion));
      var hasGitCommit := !IsBlank(gitCommit);
      if !(hasVersion || hasGitCommit) then Raised(UserError(Text(VERSION_MISSING)))
      else if hasVersion then
        Returned(map["token" := Lookup(params, "token"),
                     "channel_key" := Lookup(params, "channel_key"),
                     "bundle_id" := bundleId,
                     "release_version" := releaseVersion,
                     "build_version" := buildVersion])
      else
        Returned(map["token" := Lookup(params, "token"),
                     "channel_key" := Lookup(params, "channel_key"),
                     "bundle_id" := bundleId,
                     "git_commit" := gitCommit])
  }

  /** A missing or empty bundle id is refused first, whatever else is given. */
  lemma VersionQueryNeedsBundleId(params: map<string, Value>)
    requires "bundle_id" !in params || params["bundle_id"] in {Nil, Str("")}
    ensures BuildVersionCheckQuery(params) == Raised(UserError(Text(BUNDLE_ID_MISSING)))
  {
  }

  /** With a bundle id but neither version nor commit, the query is refused. */
  lemma VersionQueryNeedsVersionOrCommit(params: map<string, Value>)
    requires !IsBlank(Lookup(params, "bundle_id"))
    requires IsBlank(Lookup(params, "release_version")) && IsBlank(Lookup(params, "build_version"))
    requires IsBlank(Lookup(params, "git_commit"))
    ensures BuildVersionCheckQuery(params) == Raised(UserError(Text(VERSION_MISSING)))
  {
  }

  /** The query is refused exactly when the bundle id is blank or both modes are blank. */
  lemma VersionQueryRefusedIff(params: map<string, Value>)
    ensures BuildVersionCheckQuery(params).Raised? <==>
      IsBlank(Lookup(params, "bundle_id")) ||
      (IsBlank(Lookup(params, "release_version")) && IsBlank(Lookup(params, "build_version"))
       && IsBlank(Lookup(params, "git_commit")))
  {
  }

  /** Version mode: either version field set gives exactly these five keys; a given git
      commit is dropped. */
  lemma VersionQueryVersionMode(params: map<string, Value>)
    requires !IsBlank(Lookup(params, "bundle_id"))
    requires !IsBlank(Lookup(params, "release_version")) || !IsBlank(Lookup(params, "build_version"))
    ensures BuildVersionCheckQuery(params).Returned?
    ensures BuildVersionCheckQuery(params).value.Keys ==
      {"token", "channel_key", "bundle_id", "release_version", "build_version"}
    ensures "git_commit" !in BuildVersionCheckQuery(params).value
    ensures BuildVersionCheckQuery(params).value["release_version"] == Lookup(params, "release_version")
    ensures BuildVersionCheckQuery(params).value["build_version"] == Lookup(params, "build_version")
  {
  }

  /** Commit mode: no version field set but a git commit gives exactly these four keys. */
  lemma VersionQueryCommitMode(params: map<string, Value>)
    requires !IsBlank(Lookup(params, "bundle_id"))
    requires IsBlank(Lookup(params, "release_version")) && IsBlank(Lookup(params, "build_version"))
    requires !IsBlank(Lookup(params, "git_commit"))
    ensures BuildVersionCheckQuery(params).Returned?
    ensures BuildVersionCheckQuery(params).value.Keys == {"token", "channel_key", "bundle_id", "git_commit"}
    ensures BuildVersionCheckQuery(params).value["git_commit"] == Lookup(params, "git_commit")
    ensures BuildVersionCheckQuery(params).value["bundle_id"] == Lookup(params, "bundle_id")
  {
  }

  /** An entry of `hidden_keys`: Ruby compares it with `k.to_s`, so only a String entry can
      ever match. */
  datatype HiddenKey = SymKey(name: string) | StrKey(text: string)

  /** What `print_table` shows for one value: an upload shows the path it was opened on. */
  function Display(v: Value): Value {
    if v.Upload? then v.source else v
  }

  predicate Shown(form: map<string, Value>, k: string, hiddenKeys: seq<HiddenKey>, removeEmptyValue: bool)
    requires k in form
  {
    !(removeEmptyValue && !Truthy(form[k])) && StrKey(k) !in hiddenKeys
  }

  /** The rows `print_table` hands to the table. */
  function ShownRows(form: map<string, Value>, hiddenKeys: seq<HiddenKey>, removeEmptyValue: bool): map<string, Value> {
    map k | k in form && Shown(form, k, hiddenKeys, removeEmptyValue) :: Display(form[k])
  }

  /** The row filter of `print_table`: a copy of the form is walked key by key, deleting
      empty and hidden entries and replacing uploads by their path. */
  method PrintTableRows(form: map<string, Value>, hiddenKeys: seq<HiddenKey>, removeEmptyValue: bool)
    returns (rows: map<string, Value>)
    ensures rows == ShownRows(form, hiddenKeys, removeEmptyValue)
  {
    rows := form;
    var pending := form.Keys;
    while pending != {}
      invariant pending <= form.Keys
      invariant rows.Keys <= form.Keys
      invariant forall k :: k in pending ==> k in rows && rows[k] == form[k]
      invariant forall k :: k in form && k !in pending ==>
        (k in rows <==> Shown(form, k, hiddenKeys, removeEmptyValue))
      invariant forall k :: k in rows && k !in pending ==> rows[k] == Display(form[k])
      decreases pending
    {
      var k :| k in pending;
      if removeEmptyValue && !Truthy(rows[k]) {
        rows := rows - {k};
      }
      if StrKey(k) in hiddenKeys {
        rows := rows - {k};
      }
      if k in rows && rows[k].Upload? {
        rows := rows[k := rows[k].source];
      }
      pending := pending - {k};
    }
  }

  /** A row is shown exactly when its value is truthy and no String entry of `hidden_keys`
      names it. */
  lemma ShownRowsIff(form: map<string, Value>, hiddenKeys: seq<HiddenKey>, k: string)
    ensures k in ShownRows(form, hiddenKeys, true) <==>
      k in form && Truthy(form[k]) && StrKey(k) !in hiddenKeys
  {
  }

  /** Symbol entries of `hidden_keys` hide nothing: the list behaves as if they were absent. */
  lemma SymbolHiddenKeysHideNothing(form: map<string, Value>, name: string, removeEmptyValue: bool)
    ensures ShownRows(form, [SymKey(name)], removeEmptyValue) == ShownRows(form, [], removeEmptyValue)
  {
  }

  /** The upload summary passes `[:token]`, so a set token is shown in the table. */
  lemma UploadSummaryShowsToken(params: map<string, Value>, fileExists: string -> bool)
    requires Lookup(params, "token").Str?
    requires UploadForm(params, fileExists).Returned?
    ensures "token" in ShownRows(UploadForm(params, fileExists).value, [SymKey("token")], true)
    ensures ShownRows(UploadForm(params, fileExists).value, [SymKey("token")], true)["token"] == Lookup(params, "token")
  {
  }

  /** The version-check summary passes `['token']`, so the token never appears. */
  lemma VersionSummaryHidesToken(params: map<string, Value>)
    requires BuildVersionCheckQuery(params).Returned?
    ensures "token" !in ShownRows(BuildVersionCheckQuery(params).value, [StrKey("token")], true)
  {
  }

  /** `show_error`: with `fail_on_error` the message is raised as a user error, otherwise it
      is only reported and the call answers `false`. */
  function ShowError(message: Message, failOnError: bool): (r: Outcome<Value>)
    ensures r.Raised? <==> failOnError
    ensures r.Raised? ==> r.failure == UserError(message)
    ensures r.Returned? ==> r.value == Bool(false)
  {
    if failOnError then Raised(UserError(message)) else Returned(Bool(false))
  }

  /** An action's `run` prints its success line exactly when `parse_response` answers
      something truthy; a raise passes through. */
  function Announce(parsed: Outcome<Value>): Outcome<bool> {
    match parsed
    case Raised(f) => Raised(f)
    case Returned(v) => Returned(Truthy(v))
  }

  /** `upload_app`: the form is built (and summarised) before the POST, so a file that
      cannot be opened raises before any request and `delivery` is never looked at; a
      timeout goes to `show_error`, whose `false` becomes the response; a refused
      connection is not rescued. `None` stands for that falsy response. */
  method UploadApp(params: map<string, Value>, fileExists: string -> bool, delivery: Delivery)
    returns (form: Outcome<map<string, Value>>, response: Outcome<Option<Response>>)
    requires UploadParamsTyped(params)
    ensures form == UploadForm(params, fileExists)
    ensures form.Raised? ==> response == Raised(form.failure)
    ensures form.Returned? && delivery.Delivered? ==> response == Returned(Some(delivery.response))
    ensures form.Returned? && delivery.TimedOut? ==>
      response == (if Truthy(Lookup(params, "fail_on_error"))
                   then Raised(UserError(Text(UPLOAD_TIMED_OUT))) else Returned(None))
    ensures form.Returned? && delivery.ConnectionFailed? ==>
      response == Raised(Crash("Faraday::ConnectionFailed"))
  {
    form := UploadAppParams(params, fileExists);
    if form.Raised? {
      return form, Raised(form.failure);
    }
    match delivery
    case Delivered(r) =>
      response := Returned(Some(r));
    case TimedOut =>
      var shown := ShowError(Text(UPLOAD_TIMED_OUT), Truthy(Lookup(params, "fail_on_error")));
      if shown.Raised? {
        response := Raised(shown.failure);
      } else {
        response := Returned(None);
      }
    case ConnectionFailed =>
      response := Raised(Crash("Faraday::ConnectionFailed"));
  }

  /** `check_app_version`: the query is built before any request, so a refused query raises
      and `delivery` is never looked at; a request that timed out goes to `show_error`,
      whose `false` takes the place of the response (`None` here). */
  method CheckAppVersion(params: map<string, Value>, delivery: Delivery)
    returns (query: Outcome<map<string, Value>>, response: Outcome<Option<Response>>)
    ensures query == BuildVersionCheckQuery(params)
    ensures query.Raised? ==> response == Raised(query.failure)
    ensures query.Returned? && delivery.Delivered? ==> response == Returned(Some(delivery.response))
    ensures query.Returned? && delivery.TimedOut? ==>
      response == (if Truthy(Lookup(params, "fail_on_error"))
                   then Raised(UserError(Text(VERSION_TIMED_OUT))) else Returned(None))
    ensures query.Returned? && delivery.ConnectionFailed? ==>
      response == Raised(Crash("Faraday::ConnectionFailed"))
  {
    query := BuildVersionCheckQuery(params);
    if query.Raised? {
      return query, Raised(query.failure);
    }
    match delivery
    case Delivered(r) =>
      response := Returned(Some(r));
    case TimedOut =>
      var shown := ShowError(Text(VERSION_TIMED_OUT), Truthy(Lookup(params, "fail_on_error")));
      if shown.Raised? {
        response := Raised(shown.failure);
      } else {
        response := Returned(None);
      }
    case ConnectionFailed =>
      response := Raised(Crash("Faraday::ConnectionFailed"));
  }
}
