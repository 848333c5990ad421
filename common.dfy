/**
 * Values shared by the three pages and the two prediction backends:
 * optional values, the JSON documents that cross the HTTP boundary, the
 * random draw the quiz pages make, and the arg-max the backends take of a
 * probability vector.
 */
module Common {

  datatype Option<+T> = None | Some(value: T)

  /**
   * A JSON document as the browser's `res.json()` and FastAPI's response
   * encoder see it. Numbers are kept as reals; floating-point rounding is
   * not modelled.
   */
  datatype Json =
    | JNull
    | JBool(b: bool)
    | JNum(n: real)
    | JStr(s: string)
    | JArr(items: seq<Json>)
    | JObj(fields: map<string, Json>)

  /**
   * What a page's `await fetch(...)` followed by `await res.json()` yields:
   * a parsed JSON body, or Failed when either step throws (a network error,
   * or a server error whose plain-text body is not JSON).
   */
  datatype HttpReply = Failed | Body(json: Json)

  /**
   * The label list as the pages receive it from `/labels`: the request or
   * its parsing failed, the body was not an array, or an array of labels.
   */
  datatype LabelsReply = FetchFailed | NotArray | WordArray(words: seq<string>)

  /**
   * `value[name]` in JavaScript for a value that is not null: a field of an
   * object, or `undefined` (None) for a missing field and for anything that
   * is not an object.
   */
  function Member(value: Json, name: string): (r: Option<Json>)
    ensures r.Some? <==> value.JObj? && name in value.fields
    ensures r.Some? ==> r.value == value.fields[name]
  {
    if value.JObj? && name in value.fields then Some(value.fields[name]) else None
  }

  /** An object with exactly one field, as a Python `{"key": value}` literal. */
  function Single(name: string, value: Json): (r: Json)
    ensures r.JObj? && r.fields.Keys == {name} && r.fields[name] == value
  {
    JObj(map[name := value])
  }

  /**
   * A JavaScript string-valued variable that may hold `null`, tested for
   * truthiness: null and the empty string are falsy.
   */
  predicate Truthy(s: Option<string>)
    ensures s == None || s == Some("") ==> !Truthy(s)
    ensures Truthy(s) ==> s.Some? && |s.value| > 0
  {
    s.Some? && s.value != ""
  }

  lemma ScaledBelow(r: real, n: real)
    requires 0.0 <= r < 1.0 && n > 0.0
    ensures 0.0 <= r * n < n
  {
    assert n - r * n == (1.0 - r) * n;
  }

  /**
   * `Math.floor(Math.random() * n)`: the draw `r` is what `Math.random()`
   * returned, which the platform guarantees to lie in [0, 1).
   */
  function RandomIndex(r: real, n: nat): (k: nat)
    requires 0.0 <= r < 1.0 && n > 0
    ensures k < n
    ensures k as real <= r * (n as real) < (k + 1) as real
  {
    var x := r * (n as real);
    ScaledBelow(r, n as real);
    assert x.Floor as real < n as real;
    x.Floor
  }

  /** Every index can be drawn: the draw `i / n` lands on index `i`. */
  lemma RandomIndexReaches(n: nat, i: nat)
    requires i < n
    ensures 0.0 <= (i as real) / (n as real) < 1.0
    ensures RandomIndex((i as real) / (n as real), n) == i
  {
    var r := (i as real) / (n as real);
    assert r * (n as real) == i as real;
  }

  /**
   * `np.argmax` / `torch.argmax` of a probability vector: the index of the
   * first maximal entry. Both libraries raise on an empty vector, so callers
   * handle that case before asking.
   */
  function FirstArgMax(v: seq<real>): (k: nat)
    requires |v| > 0
    ensures k < |v|
    ensures forall j :: 0 <= j < |v| ==> v[j] <= v[k]
    ensures forall j :: 0 <= j < k ==> v[j] < v[k]
  {
    if |v| == 1 then 0
    else
      var k := FirstArgMax(v[..|v| - 1]);
      if v[|v| - 1] > v[k] then |v| - 1 else k
  }

  /** The two properties of FirstArgMax determine it: no other index has both. */
  lemma FirstArgMaxUnique(v: seq<real>, k: nat)
    requires k < |v|
    requires forall j :: 0 <= j < |v| ==> v[j] <= v[k]
    requires forall j :: 0 <= j < k ==> v[j] < v[k]
    ensures FirstArgMax(v) == k
  {
  }
}
