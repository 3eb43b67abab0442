/** The Python values the orchestration passes around: agent inputs and
    outputs, step results, request bodies. Only what the source inspects is
    distinguished; `str()` of a value is not computed here but passed in
    where the source renders one (see `Renderer`). */
module Values {
  import opened Common
  import opened Dicts

  datatype Value =
    | VNone
    | VBool(b: bool)
    | VInt(i: int)
    | VReal(r: real)
    | VStr(s: string)
    | VList(items: seq<Value>)
    | VDict(entries: Dict<Value>)

  /** Python's `str()` of a value, supplied by the caller of the model. */
  type Renderer = Value -> string

  /** Python truthiness: `None`, `False`, zero and empty containers are
      false, everything else is true. */
  predicate Truthy(v: Value) {
    match v
    case VNone => false
    case VBool(b) => b
    case VInt(i) => i != 0
    case VReal(r) => r != 0.0
    case VStr(s) => |s| > 0
    case VList(items) => |items| > 0
    case VDict(entries) => |entries| > 0
  }

  /** `key in value` when `value` is a dict; false for anything else. */
  predicate IsDictWith(v: Value, key: string) {
    v.VDict? && HasKey(v.entries, key)
  }

  /** `value.get(key)` on a dict. */
  function Field(v: Value, key: string): Option<Value> {
    if v.VDict? then Get(v.entries, key) else None
  }

  /** A value found in a dict is structurally smaller than the dict. */
  lemma GetSmaller(d: Dict<Value>, k: string)
    requires HasKey(d, k)
    ensures Get(d, k).value < VDict(d)
  {
    var i := GetIndex(d, k);
    assert d[i] in d;
  }

  /** `type(v).__name__`, as exception messages show it. */
  function TypeName(v: Value): string {
    match v
    case VNone => "NoneType"
    case VBool(_) => "bool"
    case VInt(_) => "int"
    case VReal(_) => "float"
    case VStr(_) => "str"
    case VList(_) => "list"
    case VDict(_) => "dict"
  }

  /** The `AttributeError` of calling `v.<attr>` on a value without it. */
  function NoAttribute(v: Value, attr: string): string {
    "'" + TypeName(v) + "' object has no attribute '" + attr + "'"
  }
}
