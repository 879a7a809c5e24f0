/**
 * Browser-side collaborators shared by every page: the key/value local
 * storage, the parsed shape of JSON values read back from it, the JSON
 * codec (a foreign library, taken as a pair of functions), and the
 * whitespace trimming that `String.prototype.trim` performs.
 */
module Storage {

  datatype Option<+T> = None | Some(value: T) {
    function GetOr(default: T): T {
      match this
      case Some(v) => v
      case None => default
    }
  }

  /** Keys of the three persisted records shared by the pages. */
  const CheckInsKey: string := "participantCheckIns"
  const SurveyParticipantKey: string := "currentSurveyParticipant"
  const SurveyDataKey: string := "activitySurveyData"

  /** A JSON value as `JSON.parse` returns it (numbers kept integral). */
  datatype Json =
    | JNull
    | JBool(b: bool)
    | JNum(n: int)
    | JStr(s: string)
    | JArr(items: seq<Json>)
    | JObj(fields: map<string, Json>)

  /**
   * JavaScript truthiness of a looked-up value; `None` is `undefined`.
   */
  predicate Truthy(v: Option<Json>) {
    match v
    case None => false
    case Some(JNull) => false
    case Some(JBool(b)) => b
    case Some(JNum(n)) => n != 0
    case Some(JStr(s)) => s != ""
    case Some(_) => true
  }

  /** Property access `j[key]` on a parsed value; a missing property is `undefined`. */
  function Lookup(j: Json, key: string): (v: Option<Json>)
    ensures v.Some? <==> j.JObj? && key in j.fields
    ensures v.Some? ==> v.value == j.fields[key]
  {
    match j
    case JObj(fields) => if key in fields then Some(fields[key]) else None
    case _ => None
  }

  /** `JSON.stringify` and `JSON.parse`, which this model does not implement. */
  datatype Codec = Codec(stringify: Json -> string, parse: string -> Option<Json>)

  /**
   * What the model relies on about the codec: parsing what was stringified
   * gives the value back, and stringifying never yields the empty string
   * (JSON text is never empty, so a stored record is always truthy).
   */
  ghost predicate Faithful(c: Codec) {
    && (forall j :: c.parse(c.stringify(j)) == Some(j))
    && (forall j :: c.stringify(j) != "")
  }

  /** `window.localStorage`: one string map shared by all pages. */
  class LocalStorage {
    var items: map<string, string>

    constructor (initial: map<string, string>)
      ensures items == initial
    {
      items := initial;
    }

    /** `getItem`: the stored string, or `null` (`None`) when the key is absent. */
    function GetItem(key: string): (v: Option<string>)
      reads this
      ensures v.Some? <==> key in items
      ensures v.Some? ==> v.value == items[key]
    {
      if key in items then Some(items[key]) else None
    }

    /** `setItem`: overwrites one key; every other key is unchanged. */
    method SetItem(key: string, value: string)
      modifies this
      ensures items == old(items)[key := value]
    {
      items := items[key := value];
    }
  }

  /**
   * The characters `String.prototype.trim` removes: the ECMAScript
   * WhiteSpace and LineTerminator code points.
   */
  predicate IsWhitespace(c: char) {
    || c == '\t' || c == '\n' || c == '\U{000B}' || c == '\U{000C}' || c == '\r'
    || c == ' ' || c == '\U{00A0}' || c == '\U{1680}'
    || ('\U{2000}' <= c <= '\U{200A}')
    || c == '\U{2028}' || c == '\U{2029}' || c == '\U{202F}' || c == '\U{205F}'
    || c == '\U{3000}' || c == '\U{FEFF}'
  }

  /** Every character of `s` is whitespace (vacuously so for ""). */
  predicate IsBlank(s: string) {
    forall i :: 0 <= i < |s| ==> IsWhitespace(s[i])
  }

  /** Drops the leading whitespace of `s`. */
  function TrimStart(s: string): (r: string)
    ensures |r| <= |s| && r == s[|s| - |r|..]
    ensures IsBlank(s[..|s| - |r|])
    ensures r == "" || !IsWhitespace(r[0])
  {
    if s != [] && IsWhitespace(s[0]) then
      var r := TrimStart(s[1..]);
      assert s[..|s| - |r|] == [s[0]] + s[1..][..|s[1..]| - |r|];
      r
    else s
  }

  /** Drops the trailing whitespace of `s`. */
  function TrimEnd(s: string): (r: string)
    ensures |r| <= |s| && r == s[..|r|]
    ensures IsBlank(s[|r|..])
    ensures r == "" || !IsWhitespace(r[|r| - 1])
  {
    if s != [] && IsWhitespace(s[|s| - 1]) then
      var r := TrimEnd(s[..|s| - 1]);
      assert s[|r|..] == s[..|s| - 1][|r|..] + [s[|s| - 1]];
      r
    else s
  }

  /** `s.trim()`. */
  function Trim(s: string): string {
    TrimEnd(TrimStart(s))
  }

  /** `s.trim()` is falsy exactly when `s` is all whitespace. */
  lemma TrimEmptyIffBlank(s: string)
    ensures Trim(s) == "" <==> IsBlank(s)
  {
    var t := TrimStart(s);
    if Trim(s) == "" {
      assert s[..|s|] == s;
    }
  }
}
