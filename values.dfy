/** Values shared by the benchmark pipeline and the diff helpers: the Python
    values a record can hold, the exceptions the modelled code raises, and
    the `Option`/`Result` wrappers used for Python's `None` and for raising. */
module Values {

  datatype Option<+T> = None | Some(value: T)

  /** The outcome of a Python call: it returns a value or raises. */
  datatype Result<+T> = Ok(value: T) | Err(error: Error)

  // The fields of a naive `datetime.datetime`, each within Python's bounds.
  type Year = y: int | 1 <= y <= 9999 witness 1
  type Month = m: int | 1 <= m <= 12 witness 1
  // The day is bounded by 31 but not checked against the month, so values
  // such as 31 February, which `datetime` refuses, are admitted; formatting
  // and parsing treat each field on its own and are unaffected.
  type Day = d: int | 1 <= d <= 31 witness 1
  type Hour = h: int | 0 <= h < 24
  type Minute = m: int | 0 <= m < 60
  type Second = s: int | 0 <= s < 60
  type Microsecond = u: int | 0 <= u < 1000000

  datatype DateTime = DateTime(
    year: Year, month: Month, day: Day,
    hour: Hour, minute: Minute, second: Second, microsecond: Microsecond)

  /** A Python value as far as the pipeline cares: the arguments tuple,
      the keyword-argument dict, the wrapped function object (known by its
      `__name__`), timestamps, and anything else as an opaque object. */
  datatype Value =
    | Null
    | Bool(b: bool)
    | Int(i: int)
    | Str(s: string)
    | Time(t: DateTime)
    | Func(name: string)
    | Tuple(items: seq<Value>)
    | Dict(entries: map<string, Value>)
    | Object(id: nat)

  /** The exceptions the modelled code can raise; `Raised` carries an
      exception raised by the wrapped function itself. */
  datatype Error =
    | ValueError(message: string)
    | TypeError(message: string)
    | KeyError(key: string)
    | AttributeError(name: string)
    | ImportError(message: string)
    | AssertionError
    | Raised(exception: Value)

  /** `bm_data`: a dict from string keys to values. */
  type Record = map<string, Value>

  /** Python's `str.startswith`. */
  predicate StartsWith(s: string, prefix: string)
  {
    |prefix| <= |s| && s[..|prefix|] == prefix
  }
}
