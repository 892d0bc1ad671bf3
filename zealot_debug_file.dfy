/** The `zealot_debug_file` action: has a dSYM or ProGuard archive produced from the action's
    options, then uploads it. Producing the archive belongs to the debug_file plugin's
    `DsymAction` and `ProguardAction`; here they are functions of the option bag they get. */
module ZealotDebugFile {
  import opened Runtime
  import opened ZealotHelper

  const PLATFORM: seq<string> := ["ios", "mac", "macos", "osx", "android"]
  const APPLE_PLATFORMS: set<string> := {"ios", "mac", "macos", "osx"}
  const XCODEBUILD_ARCHIVE := "XCODEBUILD_ARCHIVE"
  const COMPRESS_FAILED := "Something wrong with compress debug file"

  /** The Hash handed from `generate_zip_file` to the arm that rewrites it in place. */
  class Bag {
    var entries: map<string, Value>

    constructor (initial: map<string, Value>)
      ensures entries == initial
    {
      entries := initial;
    }

    function Get(key: string): Value
      reads this
    {
      Lookup(entries, key)
    }

    /** `hash[key] = v`. */
    method Store(key: string, v: Value)
      modifies this
      ensures entries == old(entries)[key := v]
    {
      entries := entries[key := v];
    }

    /** `hash.delete(key)`: answers the removed value, `nil` when there was none. */
    method Delete(key: string) returns (v: Value)
      modifies this
      ensures v == Lookup(old(entries), key)
      ensures entries == old(entries) - {key}
    {
      v := Lookup(entries, key);
      entries := entries - {key};
    }
  }

  /** The options with a truthy value. */
  function TruthyEntries(params: map<string, Value>): map<string, Value> {
    map k | k in params && Truthy(params[k]) :: params[k]
  }

  /** The `each_with_object` at the top of `generate_zip_file`: copies every option whose
      value is truthy. */
  method CompactOptions(params: map<string, Value>) returns (bag: map<string, Value>)
    ensures forall k :: k in bag <==> k in params && Truthy(params[k])
    ensures forall k :: k in bag ==> bag[k] == params[k]
  {
    bag := map[];
    var pending := params.Keys;
    while pending != {}
      invariant pending <= params.Keys
      invariant forall k :: k in bag <==> k in params && k !in pending && Truthy(params[k])
      invariant forall k :: k in bag ==> bag[k] == params[k]
      decreases pending
    {
      var key :| key in pending;
      var value := params[key];
      if Truthy(value) {
        bag := bag[key := value];
      }
      pending := pending - {key};
    }
  }

  /** The bag `generate_dsym_zip` hands to `DsymAction`. */
  function DsymOptions(bag: map<string, Value>, path: Value, laneArchive: Value, defaultArchive: Value): map<string, Value> {
    var archive := if Truthy(path) then path else if Truthy(laneArchive) then laneArchive else defaultArchive;
    var withArchive := bag["archive_path" := archive];
    (withArchive - {"xcode_scheme"})["scheme" := Lookup(withArchive, "xcode_scheme")]
  }

  /** The bag `generate_proguard_zip` hands to `ProguardAction`. */
  function ProguardOptions(bag: map<string, Value>, path: Value): map<string, Value>
    requires StringOrNil(path)
  {
    var withApp := if Truthy(path) && path.s != "" then bag["app_path" := path] else bag;
    var withType := (withApp - {"android_build_type"})["build_type" := Lookup(withApp, "android_build_type")];
    (withType - {"android_flavor"})["flavor" := Lookup(withType, "android_flavor")]
  }

  /** `generate_dsym_zip` up to the call into `DsymAction`; `defaultArchive` stands for
      `DsymAction::ARCHIVE_PATH`. */
  method GenerateDsymZip(bag: Bag, path: Value, ctx: LaneContext, defaultArchive: Value)
    modifies bag
    ensures bag.entries == DsymOptions(old(bag.entries), path, ctx.Get(XCODEBUILD_ARCHIVE), defaultArchive)
  {
    if Truthy(path) {
      bag.Store("archive_path", path);
    } else {
      var fromLane := ctx.Get(XCODEBUILD_ARCHIVE);
      bag.Store("archive_path", if Truthy(fromLane) then fromLane else defaultArchive);
    }
    var scheme := bag.Delete("xcode_scheme");
    bag.Store("scheme", scheme);
  }

  /** `generate_proguard_zip` up to the call into `ProguardAction`. */
  method GenerateProguardZip(bag: Bag, path: Value)
    requires StringOrNil(path)
    modifies bag
    ensures bag.entries == ProguardOptions(old(bag.entries), path)
  {
    if Truthy(path) && path.s != "" {
      bag.Store("app_path", path);
    }
    var buildType := bag.Delete("android_build_type");
    bag.Store("build_type", buildType);
    var flavor := bag.Delete("android_flavor");
    bag.Store("flavor", flavor);
  }

  /** Which external action `generate_zip_file` calls, with which options. */
  datatype Job = DsymJob(options: map<string, Value>) | ProguardJob(options: map<string, Value>)

  /** `generate_zip_file` up to the external call. The branch for an unknown platform builds
      its message from `value`, which is local to the block that copied the options. There
      it is a call of an unknown class method, so the action's inherited `method_missing`
      raises its own user error before the platform message is built. */
  function ZipJob(params: map<string, Value>, laneArchive: Value, defaultArchive: Value): Outcome<Job>
    requires StringOrNil(Lookup(params, "path"))
  {
    var compact := TruthyEntries(params);
    var path := Lookup(compact, "path");
    var bag := compact - {"path"};
    var platform := Lookup(bag, "platform");
    if platform.Sym? && platform.name in APPLE_PLATFORMS then
      Returned(DsymJob(DsymOptions(bag, path, laneArchive, defaultArchive)))
    else if platform == Sym("android") then
      Returned(ProguardJob(ProguardOptions(bag, path)))
    else
      Raised(UserError(UnknownMethod("value")))
  }

  /** `generate_zip_file`, rewriting a fresh Hash in place as the source does. */
  method GenerateZipFile(params: map<string, Value>, ctx: LaneContext, defaultArchive: Value)
    returns (r: Outcome<Job>)
    requires StringOrNil(Lookup(params, "path"))
    ensures r == ZipJob(params, ctx.Get(XCODEBUILD_ARCHIVE), defaultArchive)
  {
    var compact := CompactOptions(params);
    assert compact == TruthyEntries(params);
    var bag := new Bag(compact);
    var path := bag.Delete("path");
    var platform := bag.Get("platform");
    if platform.Sym? && platform.name in APPLE_PLATFORMS {
      GenerateDsymZip(bag, path, ctx, defaultArchive);
      r := Returned(DsymJob(bag.entries));
    } else if platform == Sym("android") {
      GenerateProguardZip(bag, path);
      r := Returned(ProguardJob(bag.entries));
    } else {
      r := Raised(UserError(UnknownMethod("value")));
    }
  }

  /** What the external action returns for a job: the archive path, or something falsy. */
  function Produced(job: Job, dsym: map<string, Value> -> Value, proguard: map<string, Value> -> Value): Value {
    match job
    case DsymJob(o) => dsym(o)
    case ProguardJob(o) => proguard(o)
  }

  /** `parse_response`: only an `error` in the body counts; the status is never looked at. */
  function ParseOutcome(response: Option<Response>, failOnError: bool): Outcome<Value> {
    match response
    case None => Returned(Nil)
    case Some(r) =>
      var flagged :- ErrorField(r.body);
      if flagged then ShowError(BodyError(r.body), failOnError) else Returned(Bool(true))
  }

  /** `run`: produce the archive, refuse to go on without one, upload (its reply is
      `response`), and print the success line when `parse_response` is truthy. */
  method Run(ctx: LaneContext, params: map<string, Value>, defaultArchive: Value,
             dsym: map<string, Value> -> Value, proguard: map<string, Value> -> Value,
             response: Option<Response>)
    returns (announced: Outcome<bool>)
    requires StringOrNil(Lookup(params, "path"))
    ensures var job := ZipJob(params, ctx.Get(XCODEBUILD_ARCHIVE), defaultArchive);
      && (job.Raised? ==> announced == Raised(job.failure))
      && (job.Returned? && !Truthy(Produced(job.value, dsym, proguard)) ==>
            announced == Raised(UserError(Text(COMPRESS_FAILED))))
      && (job.Returned? && Truthy(Produced(job.value, dsym, proguard)) ==>
            announced == Announce(ParseOutcome(response, Truthy(Lookup(params, "fail_on_error")))))
  {
    var job := GenerateZipFile(params, ctx, defaultArchive);
    if job.Raised? {
      return Raised(job.failure);
    }
    var file := Produced(job.value, dsym, proguard);
    if !Truthy(file) {
      return Raised(UserError(Text(COMPRESS_FAILED)));
    }
    var parsed := ParseOutcome(response, Truthy(Lookup(params, "fail_on_error")));
    announced := Announce(parsed);
  }

  /** The `platform` option's verify block. */
  function VerifyPlatform(value: Value): Outcome<()> {
    if value.Sym? && value.name in PLATFORM then Returned(()) else Raised(UserError(BadPlatform(value)))
  }

  /** The bag the arms start from holds exactly the options with a truthy value other than
      `path`, unchanged; the path they get is the `path` option when it is truthy. */
  lemma GeneratorInput(params: map<string, Value>, k: string)
    ensures k in TruthyEntries(params) - {"path"} <==> k in params && Truthy(params[k]) && k != "path"
    ensures k in TruthyEntries(params) - {"path"} ==> (TruthyEntries(params) - {"path"})[k] == params[k]
    ensures Lookup(TruthyEntries(params), "path") == (if Truthy(Lookup(params, "path")) then params["path"] else Nil)
  {
  }

  /** ios, mac, macos and osx go to the dSYM arm, android to the ProGuard arm, and any other
      value, a missing platform included, raises. */
  lemma DispatchByPlatform(params: map<string, Value>, laneArchive: Value, defaultArchive: Value)
    requires StringOrNil(Lookup(params, "path"))
    ensures var p := Lookup(params, "platform");
      var job := ZipJob(params, laneArchive, defaultArchive);
      && (p.Sym? && p.name in APPLE_PLATFORMS ==> job.Returned? && job.value.DsymJob?)
      && (p == Sym("android") ==> job.Returned? && job.value.ProguardJob?)
      && (!(p.Sym? && p.name in PLATFORM) ==> job == Raised(UserError(UnknownMethod("value"))))
  {
    var compact := TruthyEntries(params);
    assert Lookup(compact - {"path"}, "platform") ==
      if Truthy(Lookup(params, "platform")) then Lookup(params, "platform") else Nil;
  }

  /** Once the verify block has accepted the platform, the unknown-platform branch cannot be
      reached. */
  lemma VerifiedPlatformDispatches(params: map<string, Value>, laneArchive: Value, defaultArchive: Value)
    requires StringOrNil(Lookup(params, "path"))
    requires VerifyPlatform(Lookup(params, "platform")).Returned?
    ensures ZipJob(params, laneArchive, defaultArchive).Returned?
  {
    DispatchByPlatform(params, laneArchive, defaultArchive);
  }

  /** The dSYM arm: `archive_path` is the path when given, else the lane's archive, else the
      default; `xcode_scheme` is renamed to `scheme`; every other option is left alone. */
  lemma DsymOptionsSpec(bag: map<string, Value>, path: Value, laneArchive: Value, defaultArchive: Value, k: string)
    ensures var o := DsymOptions(bag, path, laneArchive, defaultArchive);
      && "archive_path" in o
      && o["archive_path"] == (if Truthy(path) then path else if Truthy(laneArchive) then laneArchive else defaultArchive)
      && "xcode_scheme" !in o
      && "scheme" in o && o["scheme"] == Lookup(bag, "xcode_scheme")
      && (k !in {"archive_path", "xcode_scheme", "scheme"} ==>
            (k in o <==> k in bag) && (k in bag ==> o[k] == bag[k]))
  {
  }

  /** The ProGuard arm: `app_path` is set only from a non-empty path, the two android keys
      move to `build_type` and `flavor`, and every other option is left alone. */
  lemma ProguardOptionsSpec(bag: map<string, Value>, path: Value, k: string)
    requires StringOrNil(path)
    ensures var o := ProguardOptions(bag, path);
      && (path.Str? && path.s != "" ==> "app_path" in o && o["app_path"] == path)
      && (!(path.Str? && path.s != "") ==>
            ("app_path" in o <==> "app_path" in bag) && ("app_path" in bag ==> o["app_path"] == bag["app_path"]))
      && "android_build_type" !in o && "android_flavor" !in o
      && "build_type" in o && o["build_type"] == Lookup(bag, "android_build_type")
      && "flavor" in o && o["flavor"] == Lookup(bag, "android_flavor")
      && (k !in {"app_path", "android_build_type", "build_type", "android_flavor", "flavor"} ==>
            (k in o <==> k in bag) && (k in bag ==> o[k] == bag[k]))
  {
  }

  /** The reply's status never matters. */
  lemma StatusIgnored(s1: int, s2: int, body: Value, failOnError: bool)
    ensures ParseOutcome(Some(Response(s1, body)), failOnError) == ParseOutcome(Some(Response(s2, body)), failOnError)
  {
  }

  /** No reply answers `nil`; a Hash body with a truthy `error` goes to `show_error`; any
      other Hash body answers `true`, whatever the status. */
  lemma ParseOutcomeCases(r: Response, failOnError: bool)
    requires r.body.Hash?
    ensures ParseOutcome(None, failOnError) == Returned(Nil)
    ensures Truthy(Lookup(r.body.entries, "error")) ==>
      ParseOutcome(Some(r), failOnError) == ShowError(BodyError(r.body), failOnError)
    ensures !Truthy(Lookup(r.body.entries, "error")) ==> ParseOutcome(Some(r), failOnError) == Returned(Bool(true))
  {
  }
}
