/**
 * JSON values as Python's json.loads returns them, and the three Python
 * operations the quest validator applies to them: `key in value`, iteration
 * and `value[key]`, including the TypeError each raises on the wrong type.
 */
module PyJson {
  import opened Wrappers

  /** A JSON value. An object keeps its keys in insertion order. */
  datatype Json =
    | JNull
    | JBool(b: bool)
    | JNum(n: int)
    | JStr(s: string)
    | JArr(items: seq<Json>)
    | JObj(fields: seq<(string, Json)>)

  /** The Python exceptions the validator can raise. */
  datatype PyError = TypeError | KeyError

  /** True when the object's fields hold `key`. */
  predicate HasKey(fields: seq<(string, Json)>, key: string) {
    fields != [] && (fields[0].0 == key || HasKey(fields[1..], key))
  }

  /** A field at any position makes its key present. */
  lemma {:induction false} HasKeyAt(fields: seq<(string, Json)>, i: nat)
    requires i < |fields|
    ensures HasKey(fields, fields[i].0)
  {
    if i > 0 {
      HasKeyAt(fields[1..], i - 1);
    }
  }

  /** The value stored under `key`: the first field with that key. */
  function Get(fields: seq<(string, Json)>, key: string): (v: Json)
    requires HasKey(fields, key)
    ensures (key, v) in fields
  {
    if fields[0].0 == key then fields[0].1 else Get(fields[1..], key)
  }

  /** The first field carrying a key is the one Get returns. */
  lemma {:induction false} GetFirst(fields: seq<(string, Json)>, i: nat)
    requires i < |fields|
    requires forall j :: 0 <= j < i ==> fields[j].0 != fields[i].0
    ensures HasKey(fields, fields[i].0) && Get(fields, fields[i].0) == fields[i].1
  {
    HasKeyAt(fields, i);
    if i > 0 {
      GetFirst(fields[1..], i - 1);
    }
  }

  /** `needle` occurs as a contiguous piece of `haystack`. */
  predicate IsSubstring(needle: string, haystack: string) {
    exists i :: 0 <= i <= |haystack| && needle <= haystack[i..]
  }

  /**
   * Python's `key in container` for a string key: key membership for a dict,
   * element equality for a list, substring for a str, TypeError otherwise.
   */
  function Contains(container: Json, key: string): (r: Result<bool, PyError>)
    ensures r.Err? <==> !(container.JObj? || container.JArr? || container.JStr?)
    ensures r.Err? ==> r.error == TypeError
    ensures container.JObj? ==> r == Ok(HasKey(container.fields, key))
    ensures container.JArr? ==>
      r == Ok(exists i :: 0 <= i < |container.items| && container.items[i] == JStr(key))
    ensures container.JStr? ==> r == Ok(IsSubstring(key, container.s))
  {
    match container
    case JObj(fields) => Ok(HasKey(fields, key))
    case JArr(items) => Ok(JStr(key) in items)
    case JStr(s) => Ok(IsSubstring(key, s))
    case _ => Err(TypeError)
  }

  /**
   * Python's `all(key in container for key in keys)`: stops at the first
   * False, and raises at the first key whose test raises.
   */
  function ContainsAll(container: Json, keys: seq<string>): (r: Result<bool, PyError>)
    ensures r.Err? <==> keys != [] && !(container.JObj? || container.JArr? || container.JStr?)
    ensures r.Err? ==> r.error == TypeError
    ensures r == Ok(true) <==> forall k :: 0 <= k < |keys| ==> Contains(container, keys[k]) == Ok(true)
  {
    if keys == [] then Ok(true)
    else
      match Contains(container, keys[0])
      case Err(e) => Err(e)
      case Ok(false) => Ok(false)
      case Ok(true) => ContainsAll(container, keys[1..])
  }

  /** On a dict, `all(key in d for key in keys)` holds exactly when every key is present, and never raises. */
  lemma {:induction false} ContainsAllOnObject(fields: seq<(string, Json)>, keys: seq<string>)
    ensures ContainsAll(JObj(fields), keys) == Ok(forall k :: 0 <= k < |keys| ==> HasKey(fields, keys[k]))
  {
    if keys != [] {
      ContainsAllOnObject(fields, keys[1..]);
      if HasKey(fields, keys[0]) {
        forall k | 0 <= k < |keys[1..]| ensures keys[1..][k] == keys[k + 1] { }
      }
    }
  }

  /** The items Python's `for x in value` visits: list items, dict keys, or one-character strings. */
  function Iterate(value: Json): (r: Result<seq<Json>, PyError>)
    ensures r.Err? <==> !(value.JObj? || value.JArr? || value.JStr?)
    ensures r.Err? ==> r.error == TypeError
    ensures value.JArr? ==> r == Ok(value.items)
    // a dict yields its keys
    ensures value.JObj? ==>
      r.Ok? && |r.value| == |value.fields| &&
      forall i :: 0 <= i < |value.fields| ==> r.value[i] == JStr(value.fields[i].0)
    // a str yields its one-character strings
    ensures value.JStr? ==>
      r.Ok? && |r.value| == |value.s| &&
      forall i :: 0 <= i < |value.s| ==> r.value[i] == JStr([value.s[i]])
  {
    match value
    case JArr(items) => Ok(items)
    case JObj(fields) => Ok(seq(|fields|, i requires 0 <= i < |fields| => JStr(fields[i].0)))
    case JStr(s) => Ok(seq(|s|, i requires 0 <= i < |s| => JStr([s[i]])))
    case _ => Err(TypeError)
  }

  /** Python's `value[key]` for a string key: a dict lookup; a list or str cannot be indexed by a str. */
  function Subscript(value: Json, key: string): (r: Result<Json, PyError>)
    ensures value.JObj? && HasKey(value.fields, key) ==> r == Ok(Get(value.fields, key))
    ensures value.JObj? && !HasKey(value.fields, key) ==> r == Err(KeyError)
    ensures !value.JObj? ==> r == Err(TypeError)
  {
    match value
    case JObj(fields) => if HasKey(fields, key) then Ok(Get(fields, key)) else Err(KeyError)
    case _ => Err(TypeError)
  }

  /** Python's `d[key] = value` on a dict: replaces the value in place, or appends a new field. */
  function SetKey(fields: seq<(string, Json)>, key: string, value: Json): (r: seq<(string, Json)>)
    ensures HasKey(r, key) && Get(r, key) == value
    ensures forall k :: k != key ==> (HasKey(r, k) <==> HasKey(fields, k))
    ensures forall k :: k != key && HasKey(fields, k) ==> Get(r, k) == Get(fields, k)
  {
    if fields == [] then [(key, value)]
    else if fields[0].0 == key then [(key, value)] + fields[1..]
    else [fields[0]] + SetKey(fields[1..], key, value)
  }
}
