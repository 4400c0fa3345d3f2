/** Values shared by the whole model: bytes, optional values, results and the
    errors the client returns, with the text Go's `err.Error()` would print. */
module Base {

  newtype byte = x: int | 0 <= x < 256

  datatype Option<T> = None | Some(value: T)

  datatype Result<T> = Ok(value: T) | Err(error: Error)

  /** The errors of the client. Go returns plain `error` values; each
      constructor stands for one place that builds one. */
  datatype Error =
    | Failure(msg: string)                    // an error handed back by a collaborator, passed on unchanged
    | Upstream(msg: string)                   // errors.New(e.error_msg) for a rejected envelope
    | NoUploadParam                           // "Can not get oss upload param"
    | SplitFailed(cause: Error)               // "Split Part Error: ..."
    | InitFailed(cause: Error)                // "Init Part Error: ..."
    | PartExhausted(fileName: string, chunk: int)  // "<file> [chunk n] upload try max time"
    | SaveFailed(cause: Error)                // "doSave error, ..."
    | SaveEmpty                               // "doSave error, vresp.Data empty"
    | CompleteFailed(cause: Error)            // "doComplete error, ..."
    | IndexOutOfRange                         // the run-time panic of indexing an empty slice

  /** The text of an error, as `err.Error()` renders it. */
  function Message(e: Error): string
  {
    match e
    case Failure(msg) => msg
    case Upstream(msg) => msg
    case NoUploadParam => "Can not get oss upload param"
    case SplitFailed(cause) => "Split Part Error: " + Message(cause)
    case InitFailed(cause) => "Init Part Error: " + Message(cause)
    case PartExhausted(fileName, chunk) => fileName + " [chunk " + Decimal(chunk) + "] upload try max time"
    case SaveFailed(cause) => "doSave error, " + Message(cause)
    case SaveEmpty => "doSave error, vresp.Data empty"
    case CompleteFailed(cause) => "doComplete error, " + Message(cause)
    case IndexOutOfRange => "runtime error: index out of range [0] with length 0"
  }

  function Digit(d: nat): char
    requires d < 10
  {
    "0123456789"[d]
  }

  function Natural(n: nat): string
    decreases n
  {
    if n < 10 then [Digit(n)] else Natural(n / 10) + [Digit(n % 10)]
  }

  /** Decimal text of an integer, as `fmt.Sprint` prints it. */
  function Decimal(n: int): string
  {
    if n < 0 then "-" + Natural(-n) else Natural(n)
  }

  /** `strings.Contains(s, sub)`. */
  predicate Contains(s: string, sub: string)
    decreases |s|
  {
    sub <= s || (|s| > 0 && Contains(s[1..], sub))
  }
}
