/** Dynamic values, Python truthiness and the exceptions the battery saver can raise. */
module Values {

  datatype Option<T> = None | Some(value: T)

  /** The values a setting, a preference or `remember_settings` can hold once loaded:
      JSON null, a boolean, an integer, a float (as the real it denotes) or a string. */
  datatype Value = Null | Bool(b: bool) | Int(i: int) | Num(x: real) | Str(s: string)

  /** Python's `if v:` test on a value. */
  predicate Truthy(v: Value)
  {
    match v
    case Null => false
    case Bool(b) => b
    case Int(i) => i != 0
    case Num(x) => x != 0.0
    case Str(s) => s != []
  }

  /** The exceptions the modelled code can raise (nothing catches them). */
  datatype Error =
    | TooFewTokens               // IndexError: `out.split()[1]` on fewer than two words
    | NotAnInteger(token: string) // ValueError: `int(token)`
    | MissingKey(key: string)     // KeyError on a dictionary lookup
    | FileNotFound(name: string)  // IOError: `open(file)` on a name that is not in the directory
    | NotASnapshot(name: string)  // the file is there but is not a snapshot record
    | EmptyValue                  // IndexError: `value[0]` on an empty preference value
    | NotANumber(text: string)    // ValueError: `float(value)`

  datatype Result<T> = Ok(value: T) | Err(error: Error)

  /** What a call that returns nothing useful ends with: normal return or an exception. */
  datatype Outcome = Pass | Fail(error: Error)
}
