/** The Python values that a rule-definition file can pass as an attribute
    default, as far as this model needs them. They are only ever handed to
    Python's `repr`, which is not modelled: callers supply it as a function
    `repr: Value -> string`. */
module PyValues {

  datatype Value =
    | PyNone
    | PyBool(b: bool)
    | PyInt(i: int)
    | PyStr(s: string)
    | PyList(items: seq<Value>)
    | PyDict(entries: seq<(Value, Value)>)
}
