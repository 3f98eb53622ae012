/** Shared value types: the crate's three-way error, optional values, results
    that work with `:-` (Rust's `?`), and the fixed-width integers the program uses. */
module Types {

  /** The crate's error type (src/error.rs): an I/O error, an HTTP error, or a
      failure to find or parse an expected part of a page. The wrapped
      library errors carry no information the model needs. */
  datatype Error = Io | Reqwest | Scraping

  datatype Option<+T> = None | Some(value: T) {
    function GetOr(default: T): T {
      match this
      case Some(v) => v
      case None => default
    }
  }

  datatype Result<+T> = Ok(value: T) | Err(error: Error) {
    predicate IsFailure() {
      Err?
    }

    function PropagateFailure<U>(): Result<U>
      requires Err?
    {
      Err(error)
    }

    function Extract(): T
      requires Ok?
    {
      value
    }
  }

  /** Rust's `Option::ok_or`. */
  function OkOr<T>(o: Option<T>, e: Error): (r: Result<T>)
    ensures r.Ok? <==> o.Some?
    ensures r.Ok? ==> r.value == o.value
    ensures r.Err? ==> r.error == e
  {
    match o
    case Some(v) => Ok(v)
    case None => Err(e)
  }

  const U32_MAX: int := 0xFFFF_FFFF

  type U32 = x: int | 0 <= x <= U32_MAX
  type I32 = x: int | -0x8000_0000 <= x < 0x8000_0000
  type Byte = x: int | 0 <= x < 256

  /** `s` starts with `prefix` (Rust's `strip_prefix` succeeds). */
  predicate StartsWith<T(==)>(s: seq<T>, prefix: seq<T>) {
    |prefix| <= |s| && s[..|prefix|] == prefix
  }
}
