/** Values shared by every part of the model: optional values, the exceptions the
    program raises, the dynamically typed values it stores in dicts, and points. */
module Common {

  datatype Option<T> = None | Some(value: T)

  /** The Python exceptions the modelled code raises or lets escape. */
  datatype Error =
    | KeyError     // a missing set element or dict key
    | ValueError   // an argument the callee refuses

  /** The outcome of a call that returns nothing: it finished, or it raised. */
  datatype Outcome = Pass | Fail(error: Error)

  /** The outcome of a call that returns a value: the value, or the exception raised. */
  datatype Result<T> = Ok(value: T) | Err(error: Error)

  /** A dynamically typed value, as held by the dicts that the program serializes
      and exports. */
  datatype Value =
    | Nothing                      // None
    | Flag(b: bool)                // bool
    | Int(i: int)                  // int
    | Num(r: real)                 // float
    | Text(s: string)              // str
    | List(items: seq<Value>)      // list
    | Dict(entries: map<string, Value>)

  /** A point in scene coordinates. */
  datatype Point = Point(x: real, y: real) {
    function Plus(dx: real, dy: real): (p: Point)
      ensures p.x - x == dx && p.y - y == dy
    {
      Point(x + dx, y + dy)
    }
  }

  /** A dict passed by reference and filled in place by its callee. */
  class DictRef {
    var entries: map<string, Value>

    constructor (entries: map<string, Value>)
      ensures this.entries == entries
    {
      this.entries := entries;
    }
  }
}
