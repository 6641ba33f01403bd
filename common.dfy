/** Failure-carrying wrappers shared by every module of the model. */
module Common {

  /** Python's `None` / value. */
  datatype Option<+T> = None | Some(value: T)

  /** A return value or the error the source reports (an exception, or a
      printed message followed by exit status 1). */
  datatype Result<+T, +E> = Ok(value: T) | Err(error: E)

  /** What a call to one of the HTTP back ends gives: the connector raised
      `RuntimeError` with a message, or a response came back with its status
      code and its body, `None` when the body does not parse as the
      expected record. */
  datatype Reply<+T> = Raised(message: string) | Answered(status: int, body: Option<T>)

  /** Python truthiness of an optional string or list: present and non-empty. */
  predicate Filled<T>(x: Option<seq<T>>) {
    x.Some? && x.value != []
  }

  /** What an existing path names: a text file, held as its lines, or a
      directory. */
  datatype Node = TextFile(lines: seq<string>) | Directory

  /** A file system reduced to what the client reads, keyed by path. A path
      that is not a key does not exist, except the current directory `.`,
      which always does. */
  type Files = map<string, Node>
}
