/**
 * The few Python values and operations the modelled code relies on: a dynamic
 * value type, exceptions, and the subscripting, membership and `len` operations
 * whose failures the orchestrator's try-block catches.
 */
module PyValues {

  datatype Option<+T> = None | Some(value: T)

  /** A UUID, known to the model only by its string form `str(u)`. */
  datatype Uuid = Uuid(text: string)

  /** A dynamically typed Python value; dictionaries have string keys only. */
  datatype Value =
    | NoneValue
    | Bool(b: bool)
    | Int(i: int)
    | Str(s: string)
    | List(items: seq<Value>)
    | Dict(entries: map<string, Value>)
    | UuidObject(u: Uuid)

  datatype ExcKind = KeyError | TypeError | ValueError | TableNotFound | Other(name: string)

  /** A raised exception; `text` is what `str(e)` gives. */
  datatype Exc = Exc(kind: ExcKind, text: string)

  /** What a call into a collaborator does: return a value or raise. */
  datatype Outcome = Returned(value: Value) | Raised(error: Exc)

  /** Python truthiness. */
  predicate Truthy(v: Value)
  {
    match v
    case NoneValue => false
    case Bool(b) => b
    case Int(i) => i != 0
    case Str(s) => s != ""
    case List(items) => items != []
    case Dict(entries) => entries != map[]
    case UuidObject(_) => true
  }

  function TypeName(v: Value): string
  {
    match v
    case NoneValue => "NoneType"
    case Bool(_) => "bool"
    case Int(_) => "int"
    case Str(_) => "str"
    case List(_) => "list"
    case Dict(_) => "dict"
    case UuidObject(_) => "UUID"
  }

  /** `str(KeyError(key))` is the quoted key. */
  function MissingKey(key: string): Exc
  {
    Exc(KeyError, "'" + key + "'")
  }

  /** `v[key]` for a string key. */
  function Subscript(v: Value, key: string): (r: Outcome)
    ensures r.Returned? <==> v.Dict? && key in v.entries
    ensures r.Returned? ==> r.value == v.entries[key]
    ensures v.Dict? && key !in v.entries ==> r == Raised(MissingKey(key))
    ensures !v.Dict? ==> r.Raised? && r.error.kind == TypeError
  {
    match v
    case Dict(entries) =>
      if key in entries then Returned(entries[key]) else Raised(MissingKey(key))
    case Str(_) => Raised(Exc(TypeError, "string indices must be integers"))
    case List(_) => Raised(Exc(TypeError, "list indices must be integers or slices, not str"))
    case _ => Raised(Exc(TypeError, "'" + TypeName(v) + "' object is not subscriptable"))
  }

  /** `needle` occurs in `hay` starting at index `i`. */
  predicate OccursAt(needle: string, hay: string, i: int)
  {
    0 <= i <= |hay| - |needle| && hay[i..i + |needle|] == needle
  }

  /** `needle` occurs as a contiguous part of `hay`. */
  predicate IsSubstring(needle: string, hay: string)
  {
    exists i | 0 <= i <= |hay| :: OccursAt(needle, hay, i)
  }

  /** `key in container` for a string `key`. */
  function Contains(key: string, container: Value): (r: Result<bool>)
    ensures r.Ok? <==> container.Dict? || container.Str? || container.List?
    ensures container.Dict? ==> r == Ok(key in container.entries)
    ensures container.List? ==> r == Ok(Str(key) in container.items)
    ensures container.Str? ==> r == Ok(IsSubstring(key, container.s))
  {
    match container
    case Dict(entries) => Ok(key in entries)
    case Str(s) => Ok(IsSubstring(key, s))
    case List(items) => Ok(Str(key) in items)
    case _ => Err(Exc(TypeError, "argument of type '" + TypeName(container) + "' is not iterable"))
  }

  /** `len(v)`. */
  function Len(v: Value): (r: Result<nat>)
    ensures r.Ok? <==> v.Str? || v.List? || v.Dict?
    ensures v.List? ==> r == Ok(|v.items|)
  {
    match v
    case Str(s) => Ok(|s|)
    case List(items) => Ok(|items|)
    case Dict(entries) => Ok(|entries|)
    case _ => Err(Exc(TypeError, "object of type '" + TypeName(v) + "' has no len()"))
  }

  datatype Result<+T> = Ok(value: T) | Err(error: Exc)

  /** `s.startswith(prefix)`. */
  predicate StartsWith(s: string, prefix: string)
  {
    |prefix| <= |s| && s[..|prefix|] == prefix
  }

  // Sequence facts, proved once in a small context and used where the context is large.

  lemma TakeOneMore<T>(s: seq<T>, i: nat)
    requires i < |s|
    ensures s[..i + 1] == s[..i] + [s[i]]
  {
  }

  lemma PrefixThenNext<T>(a: seq<T>, b: seq<T>)
    requires |b| > 0
    ensures (a + b)[..|a|] == a && (a + b)[|a|] == b[0]
  {
  }

  lemma AppendAssoc<T>(a: seq<T>, b: seq<T>, c: seq<T>)
    ensures a + (b + c) == a + b + c
  {
  }
}
