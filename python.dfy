/**
 * The Python 2 values the client passes around (None, bool, int, str, list,
 * dict), Python's truthiness, the exceptions the client raises, and an
 * abstract JSON codec standing for the json module.
 */
module Python {
  import opened Wrappers

  datatype Value =
    | PyNone
    | PyBool(b: bool)
    | PyInt(i: int)
    | PyStr(s: string)
    | PyList(items: seq<Value>)
    | PyDict(entries: map<string, Value>)

  /** Python's bool(v): None, False, 0, '', [] and {} are falsy. */
  predicate Truthy(v: Value) {
    match v
    case PyNone => false
    case PyBool(b) => b
    case PyInt(i) => i != 0
    case PyStr(s) => s != ""
    case PyList(items) => items != []
    case PyDict(entries) => entries != map[]
  }

  /** The exceptions raised by the modelled code. CmdFailed is the Exception that
      results_or_die raises, carrying the three values its message formats. */
  datatype PyError =
    | AssertionError(msg: string)
    | ValueError(msg: string)
    | TypeError(msg: string)
    | KeyError(key: string)
    | NotImplementedError(msg: string)
    | AttributeError(msg: string)
    | Exception(arg: Value)
    | CmdFailed(cmd: Value, name: Value, data: Value)

  /** Python's v[key] for a string key: KeyError on a dict without it, TypeError
      on anything that is not a dict. */
  function GetItem(v: Value, key: string): (r: Result<Value, PyError>)
    ensures r.Success? <==> v.PyDict? && key in v.entries
    ensures r.Success? ==> r.value == v.entries[key]
    ensures v.PyDict? && key !in v.entries ==> r == Failure(KeyError(key))
  {
    match v
    case PyDict(entries) => if key in entries then Success(entries[key]) else Failure(KeyError(key))
    case _ => Failure(TypeError("object has no attribute '__getitem__'"))
  }

  /** The json module: dumps turns a value into text, loads parses text and gives
      None where Python raises ValueError. */
  datatype Json = Json(dumps: Value -> string, loads: string -> Option<Value>)

  /** What the client relies on: loads undoes dumps, and dumps never gives "". */
  ghost predicate Lawful(json: Json) {
    forall v :: json.loads(json.dumps(v)) == Some(v) && json.dumps(v) != ""
  }

  /** json.loads(s) for a string value; TypeError for anything else. */
  function Loads(json: Json, v: Value): (r: Result<Value, PyError>)
    ensures v.PyStr? && json.loads(v.s).Some? ==> r == Success(json.loads(v.s).value)
    ensures r.Success? ==> v.PyStr?
  {
    match v
    case PyStr(s) =>
      (match json.loads(s)
       case Some(x) => Success(x)
       case None => Failure(ValueError("No JSON object could be decoded")))
    case _ => Failure(TypeError("expected string or buffer"))
  }
}
