# Zealot fastlane plugin — decision core in Dafny

This project models the decision logic of the Zealot fastlane plugin, the client that uploads
app packages and debug-symbol archives to a Zealot release server. It covers four actions:

- `zealot` uploads an app and records the new release in `lane_context`.
- `zealot_version_check` asks whether a version already exists.
- `zealot_debug_file` has a dSYM or ProGuard archive produced, then uploads it.
- `zealot_sync_devices` pushes every registered Apple device to the server.

Around its HTTP calls the plugin has three jobs:
- it builds request forms and queries from option bags;
- it classifies the server's `(status, body)` replies;
- it applies the `fail_on_error` policy: raise, or warn and answer `false`.

These are what the model covers.

How the Ruby code appears here:

- `Runtime` (runtime.dfy) holds the shared pieces.
  - `Value` is one Ruby value: nil, a boolean, an integer, a String, a Symbol, an Array, a
    Hash or an upload handle. Option bags, forms, decoded JSON bodies and `lane_context`
    entries are all Values or maps of them.
  - `Truthy` is Ruby truthiness. `IsBlank` is `to_s.empty?`.
  - `Index` is `v['key']` on each kind of value. A Hash gives a lookup. A String or a
    Symbol gives a substring test. Anything else raises, which models what `body['app']['id']` does on an
    unexpected body.
  - `Outcome` says whether a call returned a value or raised. The raise is either
    `UserError`, for `UI.user_error!`, or `Crash`, for a Ruby runtime exception such as
    `NoMethodError` or `TypeError`.
  - `LaneContext` is a class over the shared `Actions.lane_context` map. The actions write
    to it in place.
- `ZealotHelper` (zealot_helper.dfy) covers:
  - the upload form and its optional-key whitelist;
  - the version-check query with its two modes;
  - the row filter of `print_table`;
  - `show_error`;
  - the request wrappers `upload_app` and `check_app_version`, with the transport outcome
    (delivered, timed out, connection failed) as an input.
- `ZealotAction`, `ZealotVersionCheck`, `ZealotDebugFile` and `ZealotSyncDevices` each
  cover one action.
  - Each action's `parse_response` is specified by a function: what it returns or raises,
    and which `lane_context` entries it writes.
  - The imperative steps are methods proved against those functions. These steps are the
    five `lane_context` writes, the in-place rewriting of the debug-file option Hash, and
    the device loop with its rescue clauses.
  - The lemmas state the properties of those functions.

Behaviour of the code worth knowing, which the model keeps:

- A version check with status 200 answers only `true`. No release details are read from the
  body.
- With any status other than 200 or 404, the version check reports `body['error']`.
- Only status 201 counts as an upload success. Every other status, 200 included, is reported
  as an error.
- The optional upload fields are a fixed list of eight. `custom_fields` and `ci_url` are
  never among them.
- A missing `file` option is not caught by its verify block. The upload then raises
  `TypeError` when the upload handle is opened, before any request is sent.
- The debug-file platform must be one of five exact Symbols. For an unknown platform, the
  message at zealot_debug_file.rb:39 names `value`, which is local to the option-copying block
  at line 26. There it is a call of an unknown class method, so fastlane's
  `Action.method_missing` raises its own user error ("To call another action from an action
  use `other_action.value` instead") before the platform message is built.
- With any status other than 200 or 404 and an empty reply body (`nil`), the version check
  raises `NoMethodError` on `nil['error']`, whatever `fail_on_error` says.
- When a version check times out without `fail_on_error`, the check does not answer
  `false`: `parse_response` receives `false` and raises `NoMethodError` on `false.status`.

## Model

| member | source | states |
|---|---|---|
| Runtime.IsSubstringIffOccurs | lib/fastlane/plugin/zealot/actions/zealot_sync_devices.rb:132 | Ruby `String#include?` (the recursive test) holds exactly when the needle occurs at some index of the haystack |
| Runtime.IndexRaisesForEveryKey | lib/fastlane/plugin/zealot/actions/zealot_action.rb:45-49 | whether `v[key]` raises depends only on the kind of `v`, never on the key, so once `body['app']` has passed, the later reads of `body` cannot raise |
| Runtime.ErrorField | lib/fastlane/plugin/zealot/actions/zealot_action.rb:41 | `(body = response.body) && body['error']`: a falsy body is never flagged; on a Hash body the flag is the truthiness of its `error` entry |
| Runtime.LaneContext.Put | lib/fastlane/plugin/zealot/actions/zealot_action.rb:45 | one `lane_context` assignment: the key is bound to the value and every other entry is kept |
| ZealotHelper.AvailableUploadParams | lib/fastlane/plugin/zealot/helper/zealot_helper.rb:36-46 | the loop over the whitelist builds exactly the map of whitelisted keys whose option is a non-empty String |
| ZealotHelper.FileHandle | lib/fastlane/plugin/zealot/helper/zealot_helper.rb:30 | `UploadIO.new` gives a handle exactly when `file` is a String naming a file that exists; a missing `file` (nil, the only non-String the String option can hold) raises `TypeError` |
| ZealotHelper.UploadAppParams | lib/fastlane/plugin/zealot/helper/zealot_helper.rb:26-34 | the Hash literal opens the upload handle first, so a file that cannot be opened raises; otherwise the form is `token`, `channel_key` and the handle, merged with the optional fields |
| ZealotHelper.UploadFormMandatory | lib/fastlane/plugin/zealot/helper/zealot_helper.rb:26-34 | a form is built if and only if `file` is a String naming a file that exists, and a non-String `file` raises `TypeError`; a built form always carries `token`, `channel_key` and `file` as given, whatever optional options are set |
| ZealotHelper.UploadFormOptional | lib/fastlane/plugin/zealot/helper/zealot_helper.rb:36-46 | in a built form, any other key is present if and only if it is one of the eight whitelisted keys and is set to a non-empty String; it is then copied unchanged and is never the empty String |
| ZealotHelper.UploadFormOmitsCustomFieldsAndCiUrl | lib/fastlane/plugin/zealot/helper/zealot_helper.rb:36-39 | `custom_fields` and `ci_url` never reach a built form |
| ZealotHelper.BuildVersionCheckQuery | lib/fastlane/plugin/zealot/helper/zealot_helper.rb:64-94 | `build_app_version_check_params`: no contract of its own; its refusals and its two query modes are stated by VersionQueryNeedsBundleId, VersionQueryNeedsVersionOrCommit, VersionQueryRefusedIff, VersionQueryVersionMode and VersionQueryCommitMode |
| ZealotHelper.VersionQueryNeedsBundleId | lib/fastlane/plugin/zealot/helper/zealot_helper.rb:72 | a missing or empty bundle id raises 'bundle id is missing', whatever else is given |
| ZealotHelper.VersionQueryNeedsVersionOrCommit | lib/fastlane/plugin/zealot/helper/zealot_helper.rb:74-76 | with a bundle id but neither version field nor commit, the query raises the version-or-commit error |
| ZealotHelper.VersionQueryRefusedIff | lib/fastlane/plugin/zealot/helper/zealot_helper.rb:72-76 | the query is refused exactly when the bundle id is blank or all three of release_version, build_version and git_commit are blank |
| ZealotHelper.VersionQueryVersionMode | lib/fastlane/plugin/zealot/helper/zealot_helper.rb:78-85 | with either version field set, the query has exactly the keys token, channel_key, bundle_id, release_version and build_version; a given git commit is dropped |
| ZealotHelper.VersionQueryCommitMode | lib/fastlane/plugin/zealot/helper/zealot_helper.rb:86-93 | with no version field but a commit, the query has exactly the keys token, channel_key, bundle_id and git_commit |
| ZealotHelper.PrintTableRows | lib/fastlane/plugin/zealot/helper/zealot_helper.rb:111-117 | the in-place walk over a copy of the form leaves exactly the shown rows, with each upload handle replaced by its path |
| ZealotHelper.ShownRowsIff | lib/fastlane/plugin/zealot/helper/zealot_helper.rb:113-115 | a row is shown if and only if its value is truthy and no String entry of `hidden_keys` equals its key |
| ZealotHelper.SymbolHiddenKeysHideNothing | lib/fastlane/plugin/zealot/helper/zealot_helper.rb:115 | `k.to_s` is compared against the entries, so a Symbol entry of `hidden_keys` hides nothing |
| ZealotHelper.UploadSummaryShowsToken | lib/fastlane/plugin/zealot/helper/zealot_helper.rb:12 | the upload summary passes `[:token]`, so a set token is shown in the table unchanged |
| ZealotHelper.VersionSummaryHidesToken | lib/fastlane/plugin/zealot/helper/zealot_helper.rb:52 | the version-check summary passes `['token']`, so the token row is never shown |
| ZealotHelper.ShowError | lib/fastlane/plugin/zealot/helper/zealot_helper.rb:124-132 | raises the message as a user error exactly when `fail_on_error` holds, and otherwise answers `false` |
| ZealotHelper.UploadApp | lib/fastlane/plugin/zealot/helper/zealot_helper.rb:10-24 | the form is built first, and a file that cannot be opened raises before any request; otherwise a reply is passed on; a timeout goes to `show_error` (raise, or a falsy response); a connection failure propagates |
| ZealotHelper.CheckAppVersion | lib/fastlane/plugin/zealot/helper/zealot_helper.rb:50-62 | a refused query raises before any request; otherwise the reply is passed on, a timeout goes to `show_error`, and a connection failure propagates |
| ZealotAction.ParseResponse | lib/fastlane/plugin/zealot/actions/zealot_action.rb:33-52 | the early-return branches answer the specified outcome, and `lane_context` ends as before plus exactly the specified release entries |
| ZealotAction.RecordRelease | lib/fastlane/plugin/zealot/actions/zealot_action.rb:45-49 | the five assignments add exactly APP_ID, RELEASE_ID, RELEASE_URL, INSTALL_URL and QRCODE_URL to `lane_context` and keep every other entry |
| ZealotAction.CleanCreated | lib/fastlane/plugin/zealot/actions/zealot_action.rb:45-49 | once `body['app']['id']` has been read on a clean 201, the four remaining reads cannot raise, and the reply counts as created with exactly the values read |
| ZealotAction.Run | lib/fastlane/plugin/zealot/actions/zealot_action.rb:20-31 | a file that cannot be opened raises out of `run` with nothing written; otherwise the success lines are printed exactly when `parse_response` is truthy, `fail_on_error` is passed on unchanged, and transport failures follow `upload_app` and write nothing |
| ZealotAction.FalsyResponseChangesNothing | lib/fastlane/plugin/zealot/actions/zealot_action.rb:34 | a `nil` or `false` response answers `nil` and writes nothing |
| ZealotAction.StatusCheckedFirst | lib/fastlane/plugin/zealot/actions/zealot_action.rb:37-43 | any status other than 201, 200 included, is reported through `show_error` with the status in the message and writes nothing, even when the body has an `error` |
| ZealotAction.CreatedWithErrorRejected | lib/fastlane/plugin/zealot/actions/zealot_action.rb:41-43 | a 201 whose body has a truthy `error` is reported through `show_error` and writes nothing |
| ZealotAction.CreatedRecordsRelease | lib/fastlane/plugin/zealot/actions/zealot_action.rb:45-51 | a clean 201 answers `true` and writes APP_ID as `body.app.id`, and RELEASE_ID, RELEASE_URL, INSTALL_URL and QRCODE_URL as the matching body fields |
| ZealotAction.TrueIffReleaseWritten | lib/fastlane/plugin/zealot/actions/zealot_action.rb:45-51 | `parse_response` answers `true` if and only if it wrote the release, and it writes all five keys or none |
| ZealotAction.RejectionFollowsPolicy | lib/fastlane/plugin/zealot/actions/zealot_action.rb:37-43 | a rejected reply raises under `fail_on_error` and otherwise answers `false`; either way no success line is printed |
| ZealotAction.ExampleUploadReply | lib/fastlane/plugin/zealot/actions/zealot_action.rb:45-51 | the reply `{"app":{"id":1},"id":2,"release_url":"https://x/r/2"}` with 201 records app id 1, release id 2 and that URL, with nil install and QR-code URLs |
| ZealotAction.VerifyToken | lib/fastlane/plugin/zealot/actions/zealot_action.rb:73-75 | the `token` verify block: no contract of its own; stated by VerifiedTokenIsSent |
| ZealotAction.VerifyFile | lib/fastlane/plugin/zealot/actions/zealot_action.rb:85-88 | the `file` verify block: no contract of its own; stated by VerifiedFileIsSent and MissingFileRaisesBeforeUpload |
| ZealotAction.VerifiedTokenIsSent | lib/fastlane/plugin/zealot/actions/zealot_action.rb:73-75 | in a built form, the token verify block passes if and only if the form carries a non-empty String token |
| ZealotAction.VerifiedFileIsSent | lib/fastlane/plugin/zealot/actions/zealot_action.rb:85-88 | the file verify block passes if and only if the form gets built and uploads a non-empty path that exists |
| ZealotAction.MissingFileRaisesBeforeUpload | lib/fastlane/plugin/zealot/actions/zealot_action.rb:84-89 | the `file` option is optional and its verify block does not run on nil, so without it the upload raises `TypeError` at `UploadIO.new` before any request |
| ZealotVersionCheck.ParseResponse | lib/fastlane/plugin/zealot/actions/zealot_version_check.rb:20-40 | answers the specified outcome, and `lane_context` ends as before plus exactly the EXISTED entry for 200 or 404 |
| ZealotVersionCheck.Run | lib/fastlane/plugin/zealot/actions/zealot_version_check.rb:15-18 | a refused query raises with nothing written; a reply is parsed with the caller's `fail_on_error` unchanged; a reported timeout ends in `NoMethodError` on `false.status` |
| ZealotVersionCheck.FoundOn200 | lib/fastlane/plugin/zealot/actions/zealot_version_check.rb:24-39 | status 200 answers `true` and records EXISTED as `true` |
| ZealotVersionCheck.NotFoundOn404 | lib/fastlane/plugin/zealot/actions/zealot_version_check.rb:24-39 | status 404 answers `false` and records it, whatever `fail_on_error` says, so `show_error` is not involved |
| ZealotVersionCheck.OtherStatusIsError | lib/fastlane/plugin/zealot/actions/zealot_version_check.rb:24-29 | any other status with a Hash body reports `body['error']`: a raise under `fail_on_error`, `false` otherwise, and EXISTED stays unwritten |
| ZealotVersionCheck.OtherStatusUnreadableBody | lib/fastlane/plugin/zealot/actions/zealot_version_check.rb:28 | any other status with a body that has no String `[]`, an empty (`nil`) body included, raises a Ruby exception from `body['error']` under either `fail_on_error` setting (`NoMethodError` for `nil`), and EXISTED stays unwritten |
| ZealotVersionCheck.AnswerMatchesRecord | lib/fastlane/plugin/zealot/actions/zealot_version_check.rb:31-39 | whenever EXISTED is written the answer equals it, and without a write the answer is never `true` |
| ZealotVersionCheck.TrueIffStatus200 | lib/fastlane/plugin/zealot/actions/zealot_version_check.rb:24-27 | the answer is `true` exactly for status 200 |
| ZealotDebugFile.Bag.Delete | lib/fastlane/plugin/zealot/actions/zealot_debug_file.rb:30 | `Hash#delete` answers the removed value, or nil, and removes exactly that key |
| ZealotDebugFile.CompactOptions | lib/fastlane/plugin/zealot/actions/zealot_debug_file.rb:26-29 | the copied bag holds exactly the options with a truthy value, unchanged |
| ZealotDebugFile.GenerateDsymZip | lib/fastlane/plugin/zealot/actions/zealot_debug_file.rb:43-52 | the in-place rewrite leaves the bag equal to the dSYM options for the path, the lane archive and the default |
| ZealotDebugFile.GenerateProguardZip | lib/fastlane/plugin/zealot/actions/zealot_debug_file.rb:54-59 | the in-place rewrite leaves the bag equal to the ProGuard options for the path |
| ZealotDebugFile.GenerateZipFile | lib/fastlane/plugin/zealot/actions/zealot_debug_file.rb:25-41 | the hash rewriting in place yields exactly the specified dispatch; an unknown platform raises the user error of `method_missing` for the unknown method `value` |
| ZealotDebugFile.Run | lib/fastlane/plugin/zealot/actions/zealot_debug_file.rb:15-23 | a dispatch error propagates; a falsy archive raises the compress error before any upload; otherwise the success line follows `parse_response` |
| ZealotDebugFile.ParseOutcome | lib/fastlane/plugin/zealot/actions/zealot_debug_file.rb:61-70 | the debug-file `parse_response`: no contract of its own; stated by StatusIgnored and ParseOutcomeCases |
| ZealotDebugFile.VerifyPlatform | lib/fastlane/plugin/zealot/actions/zealot_debug_file.rb:102-104 | the `platform` verify block: no contract of its own; stated by VerifiedPlatformDispatches |
| ZealotDebugFile.GeneratorInput | lib/fastlane/plugin/zealot/actions/zealot_debug_file.rb:26-30 | the bag handed to the arms holds exactly the truthy options other than `path`, unchanged, and the path is the truthy `path` option or nil |
| ZealotDebugFile.DispatchByPlatform | lib/fastlane/plugin/zealot/actions/zealot_debug_file.rb:33-40 | ios, mac, macos and osx go to the dSYM arm, android to the ProGuard arm, and any other platform, a missing one included, raises the user error that fastlane's `Action.method_missing` gives for the unknown method `value` at line 39 |
| ZealotDebugFile.VerifiedPlatformDispatches | lib/fastlane/plugin/zealot/actions/zealot_debug_file.rb:102-104 | a platform the verify block accepts always reaches one of the two arms |
| ZealotDebugFile.DsymOptionsSpec | lib/fastlane/plugin/zealot/actions/zealot_debug_file.rb:44-50 | `archive_path` is the path when truthy, else the lane's archive, else the default; `xcode_scheme` becomes `scheme` and is gone; all other keys are untouched |
| ZealotDebugFile.ProguardOptionsSpec | lib/fastlane/plugin/zealot/actions/zealot_debug_file.rb:55-57 | `app_path` is set only from a non-empty path; the two android keys move to `build_type` and `flavor` and are gone; all other keys are untouched |
| ZealotDebugFile.StatusIgnored | lib/fastlane/plugin/zealot/actions/zealot_debug_file.rb:61-70 | the reply's status never changes the outcome |
| ZealotDebugFile.ParseOutcomeCases | lib/fastlane/plugin/zealot/actions/zealot_debug_file.rb:61-70 | no reply answers nil; a truthy `error` goes to `show_error`; every other Hash body answers `true` |
| ZealotSyncDevices.FirstAbort | lib/fastlane/plugin/zealot/actions/zealot_sync_devices.rb:45-53 | the index where the loop stops: no device before it raised an unrescued error, and the device at it did |
| ZealotSyncDevices.SyncAll | lib/fastlane/plugin/zealot/actions/zealot_sync_devices.rb:44-56 | every device is attempted in input order up to and including the first unrescued error, and the result is the specified outcome |
| ZealotSyncDevices.AbortOutcome | lib/fastlane/plugin/zealot/actions/zealot_sync_devices.rb:46-52 | an exception other than the two rescued ones aborts the run with that exception |
| ZealotSyncDevices.CompleteOutcome | lib/fastlane/plugin/zealot/actions/zealot_sync_devices.rb:44-56 | without such an exception every device is attempted, connection failures and timeouts included, and the summary is `failed_devices` with its counts |
| ZealotSyncDevices.FailedListAppend | lib/fastlane/plugin/zealot/actions/zealot_sync_devices.rb:44-53 | the failures of a concatenated device list are the failures of each part in order, so entries follow device order |
| ZealotSyncDevices.FailedListCount | lib/fastlane/plugin/zealot/actions/zealot_sync_devices.rb:44-53 | there is one entry per device whose sync raised a rescued error, and never more than there are devices |
| ZealotSyncDevices.FailedListEntries | lib/fastlane/plugin/zealot/actions/zealot_sync_devices.rb:48-51 | every entry is `{udid, 'Can not connecting to Zealot'}` or `{udid, 'Timed out to Zealot'}` for a device that failed that way |
| ZealotSyncDevices.SummaryCounts | lib/fastlane/plugin/zealot/actions/zealot_sync_devices.rb:55-56 | `failed` is the size of `failed_devices`, `successed + failed` is the device count, and `0 <= failed <= devices.size` |
| ZealotSyncDevices.ThreeDevicesOneRefused | lib/fastlane/plugin/zealot/actions/zealot_sync_devices.rb:44-56 | with three devices where only the second cannot connect, all three are attempted and the summary is that one failure with counts 2 and 1 |
| ZealotSyncDevices.ApiFilter | lib/fastlane/plugin/zealot/actions/zealot_sync_devices.rb:24 | the API filter: no contract of its own; `Devices` states that the API listing gets 'IOS' exactly for the String 'ios', otherwise 'MAC_OS' |
| ZealotSyncDevices.LegacyMacFlag | lib/fastlane/plugin/zealot/actions/zealot_sync_devices.rb:36 | the legacy mac flag: no contract of its own; `Devices` states that the legacy listing gets `mac: true` exactly for the String 'mac' |
| ZealotSyncDevices.SupportedPlatforms | lib/fastlane/plugin/zealot/actions/zealot_sync_devices.rb:16-17 | since `is_supported?` is always true, the supported set is the one given platform whenever it has `to_sym` |
| ZealotSyncDevices.Devices | lib/fastlane/plugin/zealot/actions/zealot_sync_devices.rb:16-37 | the devices come from the API listing when a token exists, with filter 'IOS' exactly for the String 'ios' and 'MAC_OS' otherwise, else from the legacy listing with `mac: true` exactly for the String 'mac'; other platform values raise |
| ZealotSyncDevices.Run | lib/fastlane/plugin/zealot/actions/zealot_sync_devices.rb:13-56 | a platform that cannot be listed raises before any sync; otherwise the fetched devices are attempted in order up to and including the first unrescued error, and the outcome is the specified one |
| ZealotSyncDevices.VerifyPlatform | lib/fastlane/plugin/zealot/actions/zealot_sync_devices.rb:132 | the `platform` verify block as written: no contract of its own; stated by VerifyPlatformAcceptsFragments |
| ZealotSyncDevices.VerifyPlatformIntended | lib/fastlane/plugin/zealot/actions/zealot_sync_devices.rb:132 | the corrected `platform` check: no contract of its own; stated by VerifyPlatformIntendedSpec |
| ZealotSyncDevices.VerifyPlatformAcceptsFragments | lib/fastlane/plugin/zealot/actions/zealot_sync_devices.rb:132 | the verify block as written accepts 'os', '' and "'" besides 'ios' and 'mac', and refuses 'tvos' |
| ZealotSyncDevices.VerifyPlatformIntendedSpec | lib/fastlane/plugin/zealot/actions/zealot_sync_devices.rb:132 | the corrected check accepts exactly 'ios' and 'mac', never accepts what the check as written refuses, and refuses 'os' and '' |

## Left out

- HTTP plumbing is not modelled. This covers `make_connection`, the Faraday retry setting (3 tries, 5 s apart), SSL verification, the request timeout value and the JSON middleware. A request is an input: a reply, a timeout or a connection failure.
- Console output is not modelled. This covers `UI.*`, `puts` and the `Terminal::Table` rendering in `print_table`. Only the row filter of `print_table` is modelled.
- Messages are structured values, not interpolated text, because Ruby's `Hash#to_s` rendering is not modelled.
- Spaceship and CredentialsManager are not modelled; they are network calls into other libraries. This covers login, team selection, API token creation and the two `Device.all` listings. Whether a token exists is an input, and the listings are function parameters.
- `DsymAction.run` and `ProguardAction.run` belong to the debug_file plugin and are function parameters. `DsymAction::ARCHIVE_PATH` is an input.
- The definitions of `upload_debug_file`, `sync_deivce` and `build_table_data` are not part of this model. The upload reply is an input, and each device's sync result comes from a function parameter.
- Option defaults taken from ENV, `Dir[...]` globs and `lane_context` at load time are not modelled. Neither are the team verify blocks that write ENV.
- ConfigItem type coercion is not modelled. Options declared `type: String` are assumed to be a String or nil (the `StringOrNil` requires).
- The `api_key_path` verify block is not modelled, because it only checks that a file exists.
- The `custom_fields` and `ci_url` options are not modelled beyond the fact that they never reach the form.
- Which Faraday exception a timeout raises is not modelled. Both rescue clauses are taken to catch it.
- ZealotHelper.UploadSummaryShowsToken: stated only for a String token. That is what the option's `type: String` allows.
- ZealotSyncDevices.SyncAll: the per-device request is abstract, so what is sent for each device is not modelled. Each device's result is a function of the device, so two equal devices in one list have the same result. The Ruby loop could see different results for them, for example one timeout and one success.
- ZealotHelper.FileHandle: `File.open` is taken to succeed exactly when the file exists. Permission errors are not modelled. Every non-String `file` is taken to raise `TypeError`. The String-typed option only ever holds nil there. The contract does not cover an IO object, which `UploadIO.new` would use directly, or an Integer, which `File.open` would treat as a file descriptor.
- Options are a plain map. `params[key]` in fastlane is `Configuration#fetch`. For a mandatory option that is unset (the upload and version-check `token` and `channel_key`, the version-check `bundle_id`, the debug-file `platform`), `fetch` prompts, or outside interactive mode runs the verify block or raises, before plugin code runs. None of that is modelled. The helper refusals, such as 'bundle id is missing', are stated for the helpers applied to such a map.

## Findings

| source | as written | input that shows it | evidently intended | confidence | as-written member | corrected member |
|---|---|---|---|---|---|---|
| lib/fastlane/plugin/zealot/actions/zealot_sync_devices.rb:132 | `%('ios', 'mac').include?(value)` tests whether the value is a substring of the single String `'ios', 'mac'` | platform `'os'` (also `''` or `"'"`) passes the check | accept only `ios` or `mac` (`%w[ios mac].include?(value)`) | high; derived by proof, not executed | ZealotSyncDevices.VerifyPlatform, exhibited by ZealotSyncDevices.VerifyPlatformAcceptsFragments | ZealotSyncDevices.VerifyPlatformIntended, proved by ZealotSyncDevices.VerifyPlatformIntendedSpec |
