/**
  The accessors of Kubernetes' unstructured objects that the reconciler uses to
  read a custom resource: a JSON-like field map navigated by a path of keys.
  The semantics follow the apimachinery helpers `NestedFieldNoCopy`,
  `NestedMap`, `NestedString` and `GetName`/`GetNamespace`: a missing key or
  a null intermediate value is "not found", a value of the wrong type is an
  accessor error, and the name accessors fall back to the empty string.
*/
module Unstructured {

  /** A JSON value as it sits in an unstructured object. */
  datatype Value =
    | Null
    | Bool(b: bool)
    | Num(n: int)
    | Str(s: string)
    | List(items: seq<Value>)
    | Obj(fields: map<string, Value>)

  /** The top-level field map of an unstructured object. */
  type Object = map<string, Value>

  /** The three outcomes of a nested accessor: `(v, true, nil)`, `(_, false, nil)`, `(_, _, err)`. */
  datatype Lookup<+T> = NotFound | Found(value: T) | AccessorError

  /** Follows `path` from `val`, one map key at a time. */
  function NestedField(val: Value, path: seq<string>): Lookup<Value>
    decreases |path|
  {
    if path == [] then Found(val)
    else match val
      case Null => NotFound
      case Obj(m) => if path[0] in m then NestedField(m[path[0]], path[1..]) else NotFound
      case _ => AccessorError
  }

  /** The map found at `path`; any other value there is an accessor error. */
  function NestedMap(obj: Object, path: seq<string>): Lookup<map<string, Value>>
  {
    match NestedField(Obj(obj), path)
    case Found(Obj(m)) => Found(m)
    case Found(_) => AccessorError
    case NotFound => NotFound
    case AccessorError => AccessorError
  }

  /** The string found at `path`; any other value there is an accessor error. */
  function NestedString(obj: Object, path: seq<string>): Lookup<string>
  {
    match NestedField(Obj(obj), path)
    case Found(Str(s)) => Found(s)
    case Found(_) => AccessorError
    case NotFound => NotFound
    case AccessorError => AccessorError
  }

  /** `metadata.<key>` as a string, or "" when it is missing or malformed. */
  function MetadataString(obj: Object, key: string): string
  {
    match NestedString(obj, ["metadata", key])
    case Found(s) => s
    case _ => ""
  }

  /** `obj.GetName()` */
  function GetName(obj: Object): string
  {
    MetadataString(obj, "name")
  }

  /** `obj.GetNamespace()` */
  function GetNamespace(obj: Object): string
  {
    MetadataString(obj, "namespace")
  }

  /** A one-key path reaches exactly the value stored under that key of the object. */
  lemma NestedFieldAtKey(obj: Object, key: string)
    ensures NestedField(Obj(obj), [key]) == if key in obj then Found(obj[key]) else NotFound
  {
    assert [key][0] == key && [key][1..] == [];
    if key in obj {
      assert NestedField(obj[key], []) == Found(obj[key]);
    }
  }

  /** A one-key map lookup finds exactly the map stored under that key. */
  lemma NestedMapAtKey(obj: Object, key: string)
    ensures NestedMap(obj, [key]).Found? <==> key in obj && obj[key].Obj?
    ensures NestedMap(obj, [key]).Found? ==> NestedMap(obj, [key]).value == obj[key].fields
    ensures NestedMap(obj, [key]) == NotFound <==> key !in obj
  {
    NestedFieldAtKey(obj, key);
  }

  /** A one-key string lookup finds exactly the string stored under that key. */
  lemma NestedStringAtKey(obj: Object, key: string)
    ensures NestedString(obj, [key]).Found? <==> key in obj && obj[key].Str?
    ensures NestedString(obj, [key]).Found? ==> NestedString(obj, [key]).value == obj[key].s
    ensures NestedString(obj, [key]) == NotFound <==> key !in obj
  {
    NestedFieldAtKey(obj, key);
  }

  /** The metadata accessors read `metadata.<key>` when it is a string and give "" otherwise. */
  lemma MetadataStringReads(obj: Object, key: string)
    ensures var present := "metadata" in obj && obj["metadata"].Obj?
                           && key in obj["metadata"].fields && obj["metadata"].fields[key].Str?;
            MetadataString(obj, key) == if present then obj["metadata"].fields[key].s else ""
  {
    var path := ["metadata", key];
    assert path[0] == "metadata" && path[1..] == [key];
    if "metadata" in obj {
      assert NestedField(Obj(obj), path) == NestedField(obj["metadata"], [key]);
      match obj["metadata"]
      case Obj(m) => NestedFieldAtKey(m, key);
      case _ => assert !NestedField(obj["metadata"], [key]).Found?;
    }
  }
}
