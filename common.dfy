/**
 * Values shared by every part of the NATS Streaming connector model: optional
 * and fallible results, the Java exceptions the client library can raise, the
 * error values the connector hands back to Ballerina code, and Java's 32-bit
 * narrowing of a Ballerina `int`.
 */
module Common {

  datatype Option<+T> = None | Some(value: T)
  {
    function GetOr(default: T): T
    {
      if Some? then value else default
    }
  }

  datatype Result<+T, +E> = Ok(value: T) | Err(error: E)

  type byte = b: int | 0 <= b < 256

  /** The Java exception classes that the modelled code catches or lets escape. */
  datatype ExceptionKind =
    | IOException
    | InterruptedException
    | TimeoutException
    | CertificateException
    | NoSuchAlgorithmException
    | UnrecoverableKeyException
    | KeyStoreException
    | KeyManagementException
    | NullPointerException
    | AssertionError
    | IllegalArgumentException
    | OtherException

  datatype JavaException = JavaException(kind: ExceptionKind, message: string)

  /**
   * An error as Ballerina code sees it.
   *  - `NatsError`: the module's own `Error`, built by `createNatsError` or
   *    `ErrorCreator.createError` with the given message.
   *  - `Escaped`: a Java exception that the connector does not catch.
   */
  datatype Failure =
    | NatsError(message: string)
    | Escaped(cause: JavaException)

  const TWO_TO_THE_31: int := 0x8000_0000
  const TWO_TO_THE_32: int := 0x1_0000_0000

  /**
   * Java's `Long.intValue()`: keeps the low 32 bits, read as two's complement.
   * The result is always a Java `int` and equals the input when the input fits.
   */
  function ToInt32(x: int): (r: int)
    ensures -TWO_TO_THE_31 <= r < TWO_TO_THE_31
    ensures (r - x) % TWO_TO_THE_32 == 0
    ensures -TWO_TO_THE_31 <= x < TWO_TO_THE_31 ==> r == x
  {
    var low := x % TWO_TO_THE_32;
    if low >= TWO_TO_THE_31 then low - TWO_TO_THE_32 else low
  }

  predicate StartsWith(s: string, prefix: string)
  {
    |prefix| <= |s| && s[..|prefix|] == prefix
  }

  predicate EndsWith(s: string, suffix: string)
  {
    |suffix| <= |s| && s[|s| - |suffix|..] == suffix
  }
}
