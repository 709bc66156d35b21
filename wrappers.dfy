/** Optional values (C# null) and outcomes that may end in an exception. */
module Wrappers {

  /** A value that may be absent: `None` stands for a C# null reference. */
  datatype Option<+T> = None | Some(value: T)

  /** The outcome of a call that either returns a value or throws.
      `Exception` covers every exception type the source lets escape
      (HttpRequestException, JsonException, InvalidCastException,
      NullReferenceException); none of the callers tell them apart. */
  datatype Result<+T> = Ok(value: T) | Exception
}
