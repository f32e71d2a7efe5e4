// Shared vocabulary: Java's nullable references, the exception family the
// library raises, and the result wrappers that replace throwing.

module Common {

  /** A Java reference that may be null. */
  datatype Nullable<+T> = Null | NonNull(value: T)

  datatype Option<+T> = None | Some(value: T)

  /** The exceptions the modelled code raises, collapsed into one type.
      NullDeref covers Objects.requireNonNull and unboxing/dereferencing
      a null; IndexOutOfBounds covers List.get on an empty list. */
  datatype Error =
    | NullDeref(message: string)
    | ResourceNotFound(message: string)
    | Connection(message: string)
    | TestKube(message: string)
    | IndexOutOfBounds(index: int)
    | IllegalArgument(message: string)

  /** The value a Java method returns, or the exception it throws. */
  datatype Result<+T> = Ok(value: T) | Err(error: Error)

  /** The outcome of a Java method returning void. */
  datatype Outcome = Pass | Fail(error: Error)

  /** Integer.toString / string concatenation of an int: decimal digits,
      with a leading '-' for negative values. */
  function DecimalString(n: int): string
  {
    if n < 0 then "-" + Digits(-n) else Digits(n)
  }

  function Digits(n: nat): string
    decreases n
  {
    var d := ['0', '1', '2', '3', '4', '5', '6', '7', '8', '9'];
    if n < 10 then [d[n]] else Digits(n / 10) + [d[n % 10]]
  }

  /** Concatenation regrouped: a hint the solver needs when a log grows
      by one more piece. */
  lemma SeqAssoc<T>(a: seq<T>, b: seq<T>, c: seq<T>)
    ensures (a + b) + c == a + (b + c)
  {
  }
}
