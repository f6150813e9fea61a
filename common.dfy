/**
 * Values shared by every part of the model: optional values, byte strings, and the Python
 * exceptions the signer raises or catches, kept as values so that an operation that may raise
 * returns an `Outcome`.
 */
module Common {
  import opened Paths

  datatype Option<+T> = None | Some(value: T)

  newtype byte = b: int | 0 <= b < 256

  type Bytes = seq<byte>

  /** The exceptions the modelled code raises, propagates or converts into results. */
  datatype Exception =
    | ValueError(message: string)
      /** The ValueError of the ledger, listing the keys it did not find. */
    | MissingRecords(keys: seq<string>)
    | RuntimeError(message: string)
    | TypeError(message: string)
      /** `list[0]` on an empty list. */
    | IndexError
      /** `open(path, "rb")` on a path that does not name a file. */
    | FileNotFound(path: Path)
      /** An error raised by a call into the native signing library. */
    | LibraryError(code: int)
      /** A base64 string the decoder rejects. */
    | DecodeError
      /** Any other exception, coming from code outside the model (a worker thread, say). */
    | Unexpected(code: int)

  /** What a Python call that may raise produces: its value, or the exception it raised. */
  datatype Outcome<+T> = Ok(value: T) | Raised(error: Exception)
}
