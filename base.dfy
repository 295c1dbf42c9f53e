/** Small value types shared by the test harness and the caching demo. */
module Base {

  /** A value that may be absent; `None` stands for C#'s `null` / `default(T)`. */
  datatype Option<+T> = None | Some(value: T)

  /** How a call to a `void` C# member ended: it returned normally, or it threw
      an exception carrying a message. */
  datatype Completion = Returns | Throws(message: string)
}
