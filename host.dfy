/** Shapes shared by every part of the model: optional values, results, Go errors and the
    values a script exports back to the host.

    Go's `error` is an interface; the model keeps the shapes that the modelled code inspects or
    builds: a message made by `fmt.Errorf` without `%w`, one made with `%w` (a prefix around a
    cause), a script exception carrying the value it threw, and a panic recovered at a loader
    boundary. An exception's exported value may itself hold an error, so `Error` and `Value` are
    declared together. */
module Host {

  datatype Option<+T> = None | Some(value: T)

  datatype Result<+T, +E> = Success(value: T) | Failure(error: E)

  datatype Error =
    | Plain(msg: string)                        // fmt.Errorf / errors.New without %w
    | Wrapped(prefix: string, cause: Error)     // fmt.Errorf("<prefix>%w", cause)
    | Exception(thrown: Value)                  // *goja.Exception; `thrown` is Value().Export()
    | Recovered(origin: string, panic: string)  // a panic turned into an error at a loader boundary

  /** A script value as the host sees it after `Export()`. */
  datatype Value =
    | Undefined
    | Bool(b: bool)
    | Int(i: int)
    | Str(s: string)
    | ErrorValue(err: Error)                    // a Go error travelling through the script
    | Record(fields: map<string, Value>)        // map[string]any
    | List(items: seq<Value>)
    | Function(source: string)                  // a script function, known by its source text
    | HostFunction(name: string)                // a Go function installed into a runtime

  /** `strings.HasPrefix`. */
  predicate HasPrefix(s: string, prefix: string) {
    |prefix| <= |s| && s[..|prefix|] == prefix
  }
}
