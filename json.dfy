/**
 * JSON values as the client's JSON library presents them, with the library's
 * Option-returning accessors: reading a missing key or indexing a non-object
 * gives null, `arrayValue` of a non-array is empty, and the typed accessors
 * answer only for a value of their own kind.
 */
module Json {
  import opened Wrappers

  /** A JSON value whose numbers are of type N. */
  datatype Json<N> =
    | JNull
    | JBool(b: bool)
    | JNum(n: N)
    | JStr(s: string)
    | JArr(items: seq<Json<N>>)
    | JObj(fields: map<string, Json<N>>)

  /** True iff `j` is an object with member `key`. */
  predicate Has<N>(j: Json<N>, key: string) {
    j.JObj? && key in j.fields
  }

  /** `json[key]`: the member, or null when there is none. */
  function Get<N>(j: Json<N>, key: string): (r: Json<N>)
    ensures Has(j, key) ==> r == j.fields[key]
    ensures !Has(j, key) ==> r == JNull
  {
    if Has(j, key) then j.fields[key] else JNull
  }

  /** `json.arrayValue`: the elements of an array, and nothing for any other value. */
  function ArrayValue<N>(j: Json<N>): (r: seq<Json<N>>)
    ensures j.JArr? ==> r == j.items
    ensures !j.JArr? ==> r == []
  {
    if j.JArr? then j.items else []
  }

  /** `json.string`. */
  function Str<N>(j: Json<N>): Option<string> {
    if j.JStr? then Some(j.s) else None
  }

  /** `json.double`: the number, when the value is one. */
  function Double(j: Json<real>): Option<real> {
    if j.JNum? then Some(j.n) else None
  }

  /** `json.int`: the number cut toward zero to an integer, when the value is one. */
  function Int(j: Json<real>): Option<int> {
    if j.JNum? then Some(Truncate(j.n)) else None
  }

  /** Conversion of a number to an integer by dropping its fraction (rounding toward zero). */
  function Truncate(x: real): (k: int)
    ensures 0.0 <= x ==> 0 <= k && k as real <= x < k as real + 1.0
    ensures x < 0.0 ==> k <= 0 && k as real - 1.0 < x <= k as real
  {
    if 0.0 <= x then x.Floor else -((-x).Floor)
  }

  /** Reading a chain of keys, one after another. */
  function GetPath<N>(j: Json<N>, keys: seq<string>): Json<N>
    decreases |keys|
  {
    if keys == [] then j else GetPath(Get(j, keys[0]), keys[1..])
  }

  /**
   * Reading never fails: once a key is missing, every key below it reads as
   * null too, and null gives no string, number, integer or array elements.
   */
  lemma {:induction false} MissingKeyReadsNothing(j: Json<real>, key: string, below: seq<string>)
    requires !Has(j, key)
    ensures GetPath(Get(j, key), below) == JNull
    ensures var v := GetPath(Get(j, key), below);
      Str(v) == None && Double(v) == None && Int(v) == None && ArrayValue(v) == []
    decreases |below|
  {
    if below != [] {
      MissingKeyReadsNothing(Get(j, key), below[0], below[1..]);
    }
  }

  /**
   * The typed accessors answer only for a value of their own kind, so at most
   * one of them answers; `int` answers exactly when `double` does, with the
   * number cut toward zero.
   */
  lemma AccessorsFollowKind(j: Json<real>)
    ensures Str(j).Some? <==> j.JStr?
    ensures Double(j).Some? <==> j.JNum?
    ensures Int(j).Some? <==> Double(j).Some?
    ensures Int(j).Some? ==> Int(j).value == Truncate(Double(j).value)
    ensures !(Str(j).Some? && Double(j).Some?)
    ensures |ArrayValue(j)| > 0 ==> Str(j).None? && Double(j).None?
  {
  }
}
