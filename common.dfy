/** Small shared vocabulary: optional values, results and timestamps. */
module Common {

  /** A Go pointer that may be nil, or a TypeScript value that may be null. */
  datatype Option<+T> = None | Some(value: T)

  /** A value or the error that replaced it. */
  datatype Result<+T, +E> = Ok(value: T) | Err(error: E)

  /**
   * An instant, in whole seconds. The Go store writes timestamps as RFC 3339
   * text at second precision and parses them back, so at this granularity a
   * stored instant reads back unchanged.
   */
  type Time = int

  /** Go's `int32` and `int8`, the widths of external ids and location codes. */
  type Int32 = x: int | -0x8000_0000 <= x < 0x8000_0000
  type Int8 = x: int | -0x80 <= x < 0x80
}
