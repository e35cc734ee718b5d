/**
 * A request body as Flask's get_json() hands it over, and the Python
 * operations the POST handler applies to it: truth value, `'key' in data`,
 * `data['key']` and isinstance(value, int).
 */
module PyJson {
  import opened PyStr

  datatype Json =
    | Null
    | Bool(b: bool)
    | Int(i: int)
    | Float(f: real)
    | Str(s: string)
    | Array(items: seq<Json>)
    | Object(fields: map<string, Json>)

  /** The exception Python raises when an operator does not apply to a value's type. */
  datatype PyError = TypeError

  datatype Result<T> = Ok(value: T) | Err(error: PyError)

  /** bool(v): null, false, zero and empty values are falsy. */
  predicate Truthy(v: Json) {
    match v
    case Null => false
    case Bool(b) => b
    case Int(i) => i != 0
    case Float(f) => f != 0.0
    case Str(s) => s != ""
    case Array(items) => items != []
    case Object(fields) => fields != map[]
  }

  /** k occurs in s as a contiguous piece. */
  predicate IsSubstring(k: string, s: string) {
    k <= s || (s != [] && IsSubstring(k, s[1..]))
  }

  /** k occurs in s starting at index i. */
  predicate OccursAt(k: string, s: string, i: int) {
    0 <= i && i + |k| <= |s| && s[i..i + |k|] == k
  }

  /** The recursive substring test agrees with "k occurs at some index of s". */
  lemma {:induction false} SubstringIffOccurs(k: string, s: string)
    ensures IsSubstring(k, s) <==> exists i :: OccursAt(k, s, i)
  {
    if k <= s {
      assert OccursAt(k, s, 0);
    }
    if s != [] {
      SubstringIffOccurs(k, s[1..]);
      forall i | OccursAt(k, s[1..], i) ensures OccursAt(k, s, i + 1) {
        assert s[1..][i..i + |k|] == s[i + 1..i + 1 + |k|];
      }
      forall i | OccursAt(k, s, i) && i > 0 ensures OccursAt(k, s[1..], i - 1) {
        assert s[1..][i - 1..i - 1 + |k|] == s[i..i + |k|];
      }
    }
  }

  /**
   * key in v: a substring test on a string, an element test on a list, a key
   * test on a dict; numbers, booleans and null are not iterable.
   */
  function Contains(v: Json, key: string): (r: Result<bool>)
    ensures r.Err? <==> v.Null? || v.Bool? || v.Int? || v.Float?
    ensures v.Object? ==> r == Ok(key in v.fields)
    ensures v.Array? ==> r == Ok(exists j :: 0 <= j < |v.items| && v.items[j] == Str(key))
    ensures v.Str? ==> r == Ok(exists i :: OccursAt(key, v.s, i))
  {
    match v
    case Str(s) =>
      SubstringIffOccurs(key, s);
      Ok(IsSubstring(key, s))
    case Array(items) => Ok(Str(key) in items)
    case Object(fields) => Ok(key in fields)
    case _ => Err(TypeError)
  }

  /** v[key] for a string key, once `key in v` held: only a dict can be indexed by a string. */
  function Subscript(v: Json, key: string): (r: Result<Json>)
    requires Contains(v, key) == Ok(true)
    ensures r.Ok? <==> v.Object?
    ensures r.Ok? ==> key in v.fields && r.value == v.fields[key]
  {
    if v.Object? then Ok(v.fields[key]) else Err(TypeError)
  }

  /** isinstance(v, int): a bool is an int in Python. */
  predicate IsInt(v: Json) {
    v.Int? || v.Bool?
  }

  /** The integer value of an int or a bool. */
  function IntValue(v: Json): int
    requires IsInt(v)
  {
    if v.Int? then v.i else if v.b then 1 else 0
  }

  /** str(v) of an int or a bool. */
  function IntText(v: Json): string
    requires IsInt(v)
  {
    if v.Int? then IntToString(v.i) else BoolToString(v.b)
  }
}
