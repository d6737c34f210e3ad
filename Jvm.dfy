/** The few JVM/Kotlin runtime notions the library's code relies on: nullable
    values, the exceptions it creates or catches, and calls that may throw. */
module Jvm {

  /** A Kotlin nullable value: `null` is `None`. */
  datatype Option<+T> = None | Some(value: T)

  /** The exceptions that appear in the library: the transport's `IOException`,
      the `RuntimeException` raised for a missing body, Gson's
      `JsonSyntaxException`, the `IllegalArgumentException` of an unparsable
      base URL and the `UninitializedPropertyAccessException` of a `lateinit`
      property read before it was set. */
  datatype Throwable =
    | IOException(message: string)
    | RuntimeException(message: string)
    | JsonSyntaxException(message: string)
    | IllegalArgumentException(message: string)
    | UninitializedPropertyAccessException(message: string)

  /** The outcome of a call that may throw: the value it returned, or the
      exception that escaped it. */
  datatype Try<+T> = Returned(value: T) | Threw(exception: Throwable)
}
