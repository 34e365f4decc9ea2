/**
 * JSON values as `JSON.parse` produces them, and the pair of browser
 * functions that turn them into text and back.
 */
module Json {
  import opened Wrappers

  /** A parsed JSON value. Object members keep their textual order. */
  datatype Json =
    | JNull
    | JBool(b: bool)
    | JNumber(n: int)
    | JString(s: string)
    | JArray(items: seq<Json>)
    | JObject(members: seq<(string, Json)>)

  /** `obj[key]` on a parsed object: the last member with that key wins, as in `JSON.parse`. */
  function Get(members: seq<(string, Json)>, key: string): (r: Option<Json>)
    ensures r.Some? <==> exists i :: 0 <= i < |members| && members[i].0 == key
    ensures r.Some? ==>
              exists i :: (0 <= i < |members| && members[i] == (key, r.value) &&
                           forall k :: i < k < |members| ==> members[k].0 != key)
  {
    if members == [] then None
    else if members[|members| - 1].0 == key then Some(members[|members| - 1].1)
    else
      var r := Get(members[..|members| - 1], key);
      assert forall i :: 0 <= i < |members| - 1 ==> members[..|members| - 1][i] == members[i];
      r
  }

  /** When a key occurs once among the members, `Get` finds its value. */
  lemma {:induction false} GetUnique(members: seq<(string, Json)>, key: string, i: int)
    requires 0 <= i < |members| && members[i].0 == key
    requires forall k :: 0 <= k < |members| && k != i ==> members[k].0 != key
    ensures Get(members, key) == Some(members[i].1)
    decreases |members|
  {
    if i < |members| - 1 {
      var init := members[..|members| - 1];
      GetUnique(init, key, i);
    }
  }

  /** The string stored under `key` when `j` is an object whose member `key` is a string. */
  function GetString(j: Json, key: string): Option<string> {
    if j.JObject? then
      match Get(j.members, key)
      case Some(JString(s)) => Some(s)
      case _ => None
    else None
  }

  /**
   * `JSON.parse` and `JSON.stringify`, which are browser code outside this
   * model: `parse` gives None where the browser throws a SyntaxError.
   */
  datatype Codec = Codec(parse: string -> Option<Json>, stringify: Json -> string)

  /** The largest integer a JavaScript number holds exactly (`Number.MAX_SAFE_INTEGER`). */
  const MaxSafeInteger := 9007199254740991

  /**
   * A key made of decimal digits without a leading zero. JavaScript objects
   * list such keys first, in numeric order, so `JSON.stringify` does not keep
   * their textual position.
   */
  predicate IsIntegerKey(key: string) {
    key != [] && (forall i :: 0 <= i < |key| ==> '0' <= key[i] <= '9') && (key[0] == '0' ==> |key| == 1)
  }

  /**
   * The values a JavaScript object graph can give back unchanged through
   * `JSON.stringify` then `JSON.parse`: no object repeats a key or has an
   * integer-like key, and every number is a safe integer.
   */
  predicate Canonical(j: Json)
    decreases j
  {
    match j
    case JNumber(n) => -MaxSafeInteger <= n <= MaxSafeInteger
    case JArray(items) => forall i :: 0 <= i < |items| ==> Canonical(items[i])
    case JObject(members) =>
      (forall i, k :: 0 <= i < k < |members| ==> members[i].0 != members[k].0) &&
      (forall i :: 0 <= i < |members| ==> !IsIntegerKey(members[i].0)) &&
      (forall i :: 0 <= i < |members| ==> Canonical(members[i].1))
    case _ => true
  }

  /**
   * What the browser guarantees of the pair: parsing what was stringified gives
   * a canonical value back, and the empty string is not JSON.
   */
  ghost predicate RoundTrips(c: Codec) {
    c.parse("") == None && forall j :: Canonical(j) ==> c.parse(c.stringify(j)) == Some(j)
  }

  /** A canonical array keeps every one of its items canonical when some are dropped. */
  lemma CanonicalSubarray(items: seq<Json>, kept: seq<Json>)
    requires Canonical(JArray(items))
    requires forall i :: 0 <= i < |kept| ==> kept[i] in items
    ensures Canonical(JArray(kept))
  {
    forall i | 0 <= i < |kept| ensures Canonical(kept[i]) {
      var k :| 0 <= k < |items| && items[k] == kept[i];
    }
  }
}
