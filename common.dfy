/** Types shared by the Hello World client and server models. */
module Common {

  /** std::optional: the quota is either absent (unbounded) or a number. */
  datatype Option<T> = None | Some(value: T)

  /** A 32-bit unsigned value, as returned by the random word generator and used as an Interest nonce. */
  type Word32 = x: int | 0 <= x < 0x1_0000_0000

  /** The signed 64-bit integers the command-line parser produces for --count and --interval. */
  type Int64 = x: int | -0x8000_0000_0000_0000 <= x < 0x8000_0000_0000_0000

  /** An unsigned 64-bit quota (setMaximumInterests takes a uint64_t). */
  type Uint64 = x: int | 0 <= x < 0x1_0000_0000_0000_0000

  /** Process exit statuses used by both programs. */
  const ExitOk: int := 0
  const ExitError: int := 1
  const ExitUsage: int := 2

  /** Both run() methods map "an exception escaped the event loop, or the error flag is set" to 1, else 0. */
  function ExitStatus(hasError: bool, threw: bool): (status: int)
    ensures status == ExitOk || status == ExitError
    ensures status == ExitError <==> hasError || threw
  {
    if threw || hasError then ExitError else ExitOk
  }
}
