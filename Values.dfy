/** The values that travel through the platform's dictionaries: agent inputs and
    outputs, step inputs, workflow configurations.  Python's `Dict[str, Any]`
    becomes a map from strings to a small `Value` datatype, and the exceptions
    that the orchestrator catches become `Fault` values. */
module Values {

  datatype Option<+T> = None | Some(value: T) {
    /** `d.get(key, default)` style fallback. */
    function GetOr(default: T): T {
      match this
      case Some(v) => v
      case None => default
    }
  }

  datatype Result<+T, +E> = Ok(value: T) | Err(error: E)

  /** A Python value as it can appear in a JSON-like dictionary.  Values other
      than strings, integers, booleans and None (lists, nested dicts, floats)
      are kept abstract: only their type name, their `str()` text and their
      truthiness matter to the code being modelled. */
  datatype Value =
    | Str(s: string)
    | Int(i: int)
    | Bool(b: bool)
    | Null
    | Other(typeName: string, text: string, truthy: bool)

  type Dict = map<string, Value>

  /** `d.get(key, default)`. */
  function Get(d: Dict, key: string, default: Value): Value {
    if key in d then d[key] else default
  }

  /** `type(v).__name__`. */
  function TypeName(v: Value): string {
    match v
    case Str(_) => "str"
    case Int(_) => "int"
    case Bool(_) => "bool"
    case Null => "NoneType"
    case Other(t, _, _) => t
  }

  /** `bool(v)`. */
  predicate Truthy(v: Value) {
    match v
    case Str(s) => s != ""
    case Int(i) => i != 0
    case Bool(b) => b
    case Null => false
    case Other(_, _, t) => t
  }

  /** `str(v)`, as an f-string interpolates it. */
  function Display(v: Value): string {
    match v
    case Str(s) => s
    case Int(i) => IntString(i)
    case Bool(b) => if b then "True" else "False"
    case Null => "None"
    case Other(_, text, _) => text
  }

  function DigitChar(d: nat): (c: char)
    requires d < 10
    ensures '0' <= c <= '9'
  {
    "0123456789"[d]
  }

  /** Decimal digits of a natural number, most significant first. */
  function NatString(n: nat): (s: string)
    ensures |s| >= 1
    ensures forall k :: 0 <= k < |s| ==> '0' <= s[k] <= '9'
    decreases n
  {
    if n < 10 then [DigitChar(n)] else NatString(n / 10) + [DigitChar(n % 10)]
  }

  /** `str(i)` for a Python int. */
  function IntString(i: int): string {
    if i < 0 then "-" + NatString(-i) else NatString(i)
  }

  /** Value of a string of decimal digits; the inverse of `NatString`. */
  function ParseNat(s: string): nat
    requires forall k :: 0 <= k < |s| ==> '0' <= s[k] <= '9'
  {
    if s == [] then 0 else 10 * ParseNat(s[..|s| - 1]) + (s[|s| - 1] as int - '0' as int)
  }

  lemma {:induction false} ParseNatString(n: nat)
    ensures ParseNat(NatString(n)) == n
    decreases n
  {
    var s := NatString(n);
    if n < 10 {
      assert s[..|s| - 1] == [];
    } else {
      ParseNatString(n / 10);
      assert s[..|s| - 1] == NatString(n / 10);
    }
  }

  /** The exceptions the modelled code raises, one constructor per kind. */
  datatype Fault =
    | NotIterable(typeName: string)                  // TypeError of `x in None`
    | NoAttribute(typeName: string, attribute: string) // AttributeError
    | MissingKey(key: string)                        // KeyError of `d[key]`
    | NotFound(message: string)                      // ValueError raised with a message

  /** `str(e)` for each fault, in CPython 3's wording. */
  function FaultText(f: Fault): string {
    match f
    case NotIterable(t) => "argument of type '" + t + "' is not iterable"
    case NoAttribute(t, a) => "'" + t + "' object has no attribute '" + a + "'"
    case MissingKey(k) => "'" + k + "'"
    case NotFound(m) => m
  }
}
