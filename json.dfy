/**
 * JSON documents as the Python services see them after json.loads: the values that
 * their dict2* functions read and their toDict methods build.
 */
module Json {
  import opened Wrappers
  import Text

  /** A decoded JSON value; `Null` is Python's None. */
  datatype Value =
    | Null
    | Int(i: int)
    | Str(s: string)
    | List(elems: seq<Value>)
    | Object(fields: map<string, Value>)

  /** The Python exceptions the modelled converters and service methods can raise. */
  datatype PyError = TypeError | AttributeError

  /** Python's `dic[key] if key in dic else None`, the pattern of every dict2* function. */
  function Get(fields: map<string, Value>, key: string): (v: Value)
    ensures key in fields ==> v == fields[key]
    ensures key !in fields ==> v == Null
  {
    if key in fields then fields[key] else Null
  }

  /**
   * Python's `key in v` for a string key: a key of a dict, a substring of a string, an
   * element of a list. None and integers are not containers and raise TypeError.
   */
  function Contains(v: Value, key: string): (r: Result<bool, PyError>)
    ensures r.Failure? <==> v.Null? || v.Int?
  {
    match v
    case Object(m) => Success(key in m)
    case Str(s) => Success(Text.Contains(s, key))
    case List(es) => Success(Str(key) in es)
    case _ => Failure(TypeError)
  }

  /**
   * The entries a dict2* function that tests each of `keys` with `in` finds in `v`. A dict
   * gives its own entries. A string or a list that contains none of the keys behaves as an
   * empty dict; once it contains one, `v[key]` raises TypeError, since strings and lists
   * are indexed by integers. None and integers raise TypeError at the first `in`.
   */
  function FieldsOf(v: Value, keys: set<string>): (r: Result<map<string, Value>, PyError>)
    ensures v.Object? ==> r == Success(v.fields)
    ensures r.Failure? ==> r.error == TypeError
    ensures !v.Object? ==>
      (r.Success? <==> (v.Str? || v.List?) && forall k | k in keys :: Contains(v, k) == Success(false))
    ensures !v.Object? && r.Success? ==> r.value == map[]
  {
    match v
    case Object(m) => Success(m)
    case Null => Failure(TypeError)
    case Int(_) => Failure(TypeError)
    case _ => if forall k | k in keys :: Contains(v, k) == Success(false) then Success(map[]) else Failure(TypeError)
  }

  /** The one-character strings of `s`, in order: what iterating a Python string yields. */
  function Chars(s: string): (r: seq<Value>)
    ensures |r| == |s|
    ensures forall i | 0 <= i < |s| :: r[i] == Str([s[i]])
  {
    seq(|s|, i requires 0 <= i < |s| => Str([s[i]]))
  }

  /**
   * Python's `for x in v`: a list's elements or a string's characters; None and integers
   * raise TypeError. A dict yields its keys in document order, which a decoded `Object`
   * does not keep, so iterating one is a TypeError here.
   */
  function Elements(v: Value): (r: Result<seq<Value>, PyError>)
    ensures v.List? ==> r == Success(v.elems)
    ensures v.Str? ==> r == Success(Chars(v.s))
    ensures r.Failure? <==> !v.List? && !v.Str?
  {
    match v
    case List(es) => Success(es)
    case Str(s) => Success(Chars(s))
    case _ => Failure(TypeError)
  }

  /** A string containing none of the keys reads as a dict without entries. */
  lemma {:induction false} ShortStringHasNoFields(s: string, keys: set<string>)
    requires forall k | k in keys :: |s| < |k|
    ensures FieldsOf(Str(s), keys) == Success(map[])
  {
    forall k | k in keys
      ensures !Text.Contains(s, k)
    {
      Text.ShorterNotContained(s, k);
    }
  }
}
