/** Option and Result wrappers shared by every module of the model. */
module Wrappers {
  datatype Option<+T> = None | Some(value: T) {
    function GetOr(default: T): T {
      match this
      case Some(v) => v
      case None => default
    }
  }
}

/**
 * The dynamic values that flow through the orchestration runtime: task
 * results, context entries, request payload fields.  Python exceptions are
 * modelled as `PyError` values carried by `Result`.
 */
module Values {
  import opened Wrappers

  datatype Value =
    | VNone
    | VBool(b: bool)
    | VInt(i: int)
    | VStr(s: string)
    | VList(items: seq<Value>)
    | VDict(entries: map<string, Value>)

  /** A context: a string-keyed dictionary of arbitrary values. */
  type Ctx = map<string, Value>

  /** The exception kinds the modelled code raises or lets escape. */
  datatype PyError =
    | KeyError(key: string)
    | ValueError(msg: string)
    | TypeError(msg: string)
    | IndexError(msg: string)
    | RuntimeError(msg: string)
    | AttributeError(msg: string)
    | ValidationError(msg: string)
    | UnboundLocalError(msg: string)
    | Panic(msg: string)

  datatype Result<+T> = Ok(value: T) | Err(error: PyError)

  /** Python truthiness (`if not x`) of a value. */
  predicate Truthy(v: Value) {
    match v
    case VNone => false
    case VBool(b) => b
    case VInt(i) => i != 0
    case VStr(s) => s != ""
    case VList(items) => items != []
    case VDict(entries) => entries != map[]
  }

  /** Truthiness of an optional string field (`None` and `""` are falsy). */
  predicate Given(s: Option<string>) {
    s.Some? && s.value != ""
  }

  /** `str(e)`: a KeyError prints the repr of its key, the others their message. */
  function ErrorText(e: PyError): string {
    match e
    case KeyError(k) => "'" + k + "'"
    case ValueError(m) => m
    case TypeError(m) => m
    case IndexError(m) => m
    case RuntimeError(m) => m
    case AttributeError(m) => m
    case ValidationError(m) => m
    case UnboundLocalError(m) => m
    case Panic(m) => m
  }

  /** Decimal digits of a natural number. */
  function Digits(n: nat): string
    decreases n
  {
    if n < 10 then ["0123456789"[n]] else Digits(n / 10) + ["0123456789"[n % 10]]
  }

  /**
   * Python's `repr()` of a value.  Quotes inside strings are not escaped, and
   * a dictionary's entries come in some order of its keys: a Dafny map keeps
   * no insertion order, so the text is exact only for up to one entry.
   */
  ghost function Repr(v: Value): string
    decreases v, 1
  {
    match v
    case VNone => "None"
    case VBool(b) => if b then "True" else "False"
    case VInt(i) => if i < 0 then "-" + Digits(-i) else Digits(i)
    case VStr(s) => "'" + s + "'"
    case VList(items) => "[" + ItemsRepr(items) + "]"
    case VDict(entries) => "{" + EntriesRepr(v, entries.Keys) + "}"
  }

  ghost function ItemsRepr(items: seq<Value>): string
    decreases items
  {
    if items == [] then ""
    else if |items| == 1 then Repr(items[0])
    else Repr(items[0]) + ", " + ItemsRepr(items[1..])
  }

  ghost function EntriesRepr(d: Value, keys: set<string>): string
    requires d.VDict? && keys <= d.entries.Keys
    decreases d, 0, keys
  {
    if keys == {} then ""
    else
      var k :| k in keys;
      var rest := keys - {k};
      "'" + k + "': " + Repr(d.entries[k]) + (if rest == {} then "" else ", " + EntriesRepr(d, rest))
  }

  /** Python's `str()`, as an f-string inserts it: a string as it is, anything else as its repr. */
  ghost function Str(v: Value): string {
    if v.VStr? then v.s else Repr(v)
  }

  /** A one-entry dictionary prints as `{'k': repr(v)}`. */
  lemma ReprSingleEntry(k: string, v: Value)
    ensures Repr(VDict(map[k := v])) == "{'" + k + "': " + Repr(v) + "}"
  {
    var d := VDict(map[k := v]);
    assert d.entries.Keys == {k};
    assert {k} - {k} == {};
  }

  /** Python's `dict.update`: entries of `newer` win. */
  function Update(older: Ctx, newer: Ctx): (r: Ctx)
    ensures r.Keys == older.Keys + newer.Keys
    ensures forall k :: k in newer ==> r[k] == newer[k]
    ensures forall k :: k in older && k !in newer ==> r[k] == older[k]
  {
    older + newer
  }
}
