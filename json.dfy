/**
 * A JSON document as Go's `encoding/json` decodes it into `interface{}`, and the text
 * `fmt.Sprintf("%v", ...)` gives for such a value.
 */
module Json {
  import opened Text

  /**
   * `JNumber` carries the `%v` text of the decoded float64 (e.g. "1", "1.5", "1e+21").
   * `JObject` lists its members as given; nothing here sorts them or removes repeated keys
   * (`fmt` prints a decoded map sorted by key, and `Member` reads the last repeat).
   */
  datatype Value =
    | JNull
    | JBool(b: bool)
    | JNumber(text: string)
    | JString(s: string)
    | JArray(items: seq<Value>)
    | JObject(members: seq<(string, Value)>)

  /** `fmt.Sprintf("%v", v)`. */
  function Render(v: Value): string
    decreases v, 1
  {
    match v
    case JNull => "<nil>"
    case JBool(b) => if b then "true" else "false"
    case JNumber(t) => t
    case JString(s) => s
    case JArray(items) => "[" + JoinWith(RenderItems(v, |items|), " ") + "]"
    case JObject(members) => "map[" + JoinWith(RenderMembers(v, |members|), " ") + "]"
  }

  /** The texts of the first `k` elements of an array. */
  function RenderItems(parent: Value, k: nat): seq<string>
    requires parent.JArray? && k <= |parent.items|
    decreases parent, 0, k
  {
    if k == 0 then [] else RenderItems(parent, k - 1) + [Render(parent.items[k - 1])]
  }

  /** The `key:value` texts of the first `k` members of an object. */
  function RenderMembers(parent: Value, k: nat): seq<string>
    requires parent.JObject? && k <= |parent.members|
    decreases parent, 0, k
  {
    if k == 0 then []
    else
      var m := parent.members[k - 1];
      assert m in parent.members;
      RenderMembers(parent, k - 1) + [m.0 + ":" + Render(m.1)]
  }

  /**
   * `raw[key]` on the decoded map: the value of the key, or nil when absent. When a
   * document repeats a key the decoder keeps the last one, so the search runs from the end.
   */
  function Member(members: seq<(string, Value)>, key: string): (r: Value)
    ensures r != JNull ==> (key, r) in members
    ensures (forall m :: m in members ==> m.0 != key) ==> r == JNull
  {
    if |members| == 0 then JNull
    else if members[|members| - 1].0 == key then members[|members| - 1].1
    else Member(members[..|members| - 1], key)
  }
}
