/** Values and failures of the Python runtime that the run-list driver and the content sources exchange. */
module Runtime {

  datatype Option<+T> = None | Some(value: T)

  /** The exceptions the core raises itself or lets propagate from the calls it makes. */
  datatype Exception =
    | Fail(message: string)              // kokki.exceptions.Fail
    | TemplateNotFound(message: string)  // jinja2.TemplateNotFound
    | KeyError(key: string)
    | IOError(path: string)              // open() or read() of a path that is not a readable regular file
    | OSError(path: string)              // os.path.getmtime or os.makedirs
    | AttributeError(message: string)
    | TypeError(message: string)
    | ValueError(message: string)        // json.load on text that is not JSON
    | NetworkError(url: string)          // urllib2.urlopen failing

  /** The outcome of a call that either returns a value or raises. */
  datatype Result<+T> = Ok(value: T) | Err(error: Exception)

  /** A value held in a configuration or template-context mapping: decoded JSON, or a Python object
      (the environment, a builtin callable) known only by name. */
  datatype Value =
    | Null
    | Bool(b: bool)
    | Number(n: int)
    | Str(s: string)
    | List(items: seq<Value>)
    | Dict(entries: map<string, Value>)
    | Object(name: string)
}
