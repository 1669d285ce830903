/** Small datatypes shared by every module of the model. */
module Wrappers {

  /** An octet of a buffer. */
  newtype Byte = x: int | 0 <= x < 256

  /** A value that may be absent: JavaScript's `undefined`/`null`. */
  datatype Option<+T> = None | Some(value: T)

  /** The outcome of an operation that either returns a value or throws an
      `Error` carrying `message`. */
  datatype Result<+T> = Ok(value: T) | Err(message: string)

  /** An HTTP reply as the Express controllers send it: a status code, the
      `message` field of the JSON body ("" when the body has none) and the
      payload of a successful reply. */
  datatype Reply<+T> = Reply(status: nat, message: string, data: Option<T>)
  {
    /** The `success` field the controllers put in every JSON body. */
    predicate Success() { 200 <= status < 300 }
  }
}
