/** The part of Ruby, fastlane and Faraday the plugin relies on: the values that flow through
    option bags, request forms, decoded response bodies and `lane_context`; Ruby's truthiness
    and `[]` on those values; `UI.user_error!` and uncaught exceptions as an `Outcome`; the
    shared `Actions.lane_context` map; and a transport outcome as the plugin sees it. */
module Runtime {

  datatype Option<+T> = None | Some(value: T)

  /** A Ruby value. Hash keys (Symbols in option bags, Strings in JSON bodies) are kept as
      their names. `Upload` is a `Faraday::UploadIO` wrapping the value it was opened on. */
  datatype Value =
    | Nil
    | Bool(b: bool)
    | Int(i: int)
    | Str(s: string)
    | Sym(name: string)
    | Arr(items: seq<Value>)
    | Hash(entries: map<string, Value>)
    | Upload(source: Value)

  /** Ruby truthiness: everything except `nil` and `false`. */
  predicate Truthy(v: Value) {
    !v.Nil? && v != Bool(false)
  }

  /** What a `type: String` option can hold. */
  predicate StringOrNil(v: Value) {
    v.Nil? || v.Str?
  }

  /** `v.to_s.empty?`: only `nil`, `""` and the empty Symbol print as the empty string. */
  predicate IsBlank(v: Value) {
    match v
    case Nil => true
    case Str(s) => s == ""
    case Sym(n) => n == ""
    case _ => false
  }

  /** `hash[key]` with a missing key answers `nil`. */
  function Lookup(m: map<string, Value>, key: string): Value {
    if key in m then m[key] else Nil
  }

  predicate OccursAt(needle: string, haystack: string, i: int) {
    0 <= i && i + |needle| <= |haystack| && haystack[i..i + |needle|] == needle
  }

  /** `haystack.include?(needle)` on two Strings. */
  predicate IsSubstring(needle: string, haystack: string)
    decreases |haystack|
  {
    needle <= haystack || (|haystack| > 0 && IsSubstring(needle, haystack[1..]))
  }

  lemma {:induction false} IsSubstringIffOccurs(needle: string, haystack: string)
    ensures IsSubstring(needle, haystack) <==> exists i :: OccursAt(needle, haystack, i)
    decreases |haystack|
  {
    if exists i :: OccursAt(needle, haystack, i) {
      var i :| OccursAt(needle, haystack, i);
      if i == 0 {
        assert haystack[..|needle|] == needle;
      } else {
        var tail := haystack[1..];
        assert tail[i - 1..i - 1 + |needle|] == haystack[i..i + |needle|];
        assert OccursAt(needle, tail, i - 1);
        IsSubstringIffOccurs(needle, tail);
      }
    }
    if IsSubstring(needle, haystack) {
      if needle <= haystack {
        assert OccursAt(needle, haystack, 0);
      } else {
        var tail := haystack[1..];
        IsSubstringIffOccurs(needle, tail);
        var i :| OccursAt(needle, tail, i);
        assert haystack[i + 1..i + 1 + |needle|] == tail[i..i + |needle|];
        assert OccursAt(needle, haystack, i + 1);
      }
    }
  }

  /** The text of a message handed to `UI.user_error!` / `UI.error`; interpolated messages
      keep the values interpolated into them. */
  datatype Message =
    | Text(text: string)
    | StatusError(status: int, body: Value)   // "Error uploading to Zealot [<status>]: <body>"
    | BodyError(body: Value)                  // "Error uploading to Zealot: <body>"
    | Raw(value: Value)                       // a value from the response used as the message
    | MissingFile(path: string)               // "Couldn't find file at path '<path>'"
    | BadPlatform(value: Value)               // "No match value of platform: <value>"
    | UnknownMethod(name: string)             // "To call another action from an action use `other_action.<name>` instead"

  /** Why a call ended by raising: `UI.user_error!` (a `FastlaneError`) or a Ruby exception
      class that the plugin does not rescue. */
  datatype Failure = UserError(message: Message) | Crash(exception: string)

  /** A Ruby call either returns a value or raises. */
  datatype Outcome<+T> = Returned(value: T) | Raised(failure: Failure) {
    predicate IsFailure() { Raised? }
    function PropagateFailure<U>(): Outcome<U> requires Raised? { Raised(failure) }
    function Extract(): T requires Returned? { value }
  }

  /** `v[key]` with a String key: a Hash looks the key up, a String or Symbol answers the
      key when it is a substring of it and `nil` otherwise, an Integer or Array refuses a
      String index, and everything else has no `[]`. */
  function Index(v: Value, key: string): Outcome<Value> {
    match v
    case Hash(m) => Returned(Lookup(m, key))
    case Str(s) => Returned(if IsSubstring(key, s) then Str(key) else Nil)
    case Sym(n) => Returned(if IsSubstring(key, n) then Str(key) else Nil)
    case Int(_) => Raised(Crash("TypeError"))
    case Arr(_) => Raised(Crash("TypeError"))
    case Nil => Raised(Crash("NoMethodError"))
    case Bool(_) => Raised(Crash("NoMethodError"))
    case Upload(_) => Raised(Crash("NoMethodError"))
  }

  /** Whether `v[...]` raises depends only on the kind of `v`, never on the key. */
  lemma IndexRaisesForEveryKey(v: Value, k1: string, k2: string)
    ensures Index(v, k1).Raised? <==> Index(v, k2).Raised?
    ensures Index(v, k1).Raised? ==> Index(v, k1) == Index(v, k2)
  {
  }

  /** `(body = response.body) && (error = body['error'])`: whether the body carries a truthy
      `error` entry, or the exception `body['error']` raises. */
  function ErrorField(body: Value): (r: Outcome<bool>)
    ensures body.Hash? ==> r == Returned(Truthy(Lookup(body.entries, "error")))
    ensures !Truthy(body) ==> r == Returned(false)
  {
    if !Truthy(body) then Returned(false)
    else
      var error :- Index(body, "error");
      Returned(Truthy(error))
  }

  /** A Faraday response after the JSON middleware: its status and its decoded body. */
  datatype Response = Response(status: int, body: Value)

  /** What the HTTP call ended with: a response of any status, or one of the two Faraday
      transport errors. */
  datatype Delivery = Delivered(response: Response) | TimedOut | ConnectionFailed

  /** fastlane's `Actions.lane_context`, the map actions use to hand values to later steps. */
  class LaneContext {
    var values: map<string, Value>

    constructor (initial: map<string, Value>)
      ensures values == initial
    {
      values := initial;
    }

    /** `Actions.lane_context[key]`. */
    function Get(key: string): Value
      reads this
    {
      Lookup(values, key)
    }

    /** `Actions.lane_context[key] = v`. */
    method Put(key: string, v: Value)
      modifies this
      ensures values == old(values)[key := v]
    {
      values := values[key := v];
    }
  }
}
