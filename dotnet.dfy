/** The few pieces of the .NET runtime the model relies on: fixed-width integers,
    the unchecked conversions between them, and the exceptions the code throws. */
module DotNet {

  /** C# `int`. */
  type int32 = x: int | -0x8000_0000 <= x < 0x8000_0000

  /** C# `uint`. */
  type uint32 = x: int | 0 <= x < 0x1_0000_0000

  const TwoTo32: int := 0x1_0000_0000

  /** C#'s unchecked `(int)` conversion of a `uint`: the same 32 bits read as a
      two's-complement value, so everything from 2^31 up becomes negative. */
  function UncheckedToInt32(u: uint32): (r: int32)
    ensures r % TwoTo32 == u
    ensures u < 0x8000_0000 <==> r == u
    ensures r < 0 <==> u >= 0x8000_0000
  {
    if u < 0x8000_0000 then u else u - TwoTo32
  }

  /** C#'s unchecked `(uint)` conversion of an `int`. */
  function UncheckedToUInt32(i: int32): (r: uint32)
    ensures r == i % TwoTo32
  {
    if i < 0 then i + TwoTo32 else i
  }

  /** The two unchecked conversions undo each other. */
  lemma UncheckedCastRoundTrip(u: uint32, i: int32)
    ensures UncheckedToUInt32(UncheckedToInt32(u)) == u
    ensures UncheckedToInt32(UncheckedToUInt32(i)) == i
  {
  }

  /** The exceptions the modelled code raises or lets through. */
  datatype Exception =
    | Win32Exception(nativeErrorCode: int32, message: string)
    | InvalidOperationException(message: string)
    | ArgumentOutOfRangeException

  /** A reference that may be null. */
  datatype Option<T> = None | Some(value: T)

  /** The value of a call that either returns or throws. */
  datatype Result<T> = Success(value: T) | Failure(error: Exception)

  /** The outcome of a call that returns nothing or throws. */
  datatype Outcome = Pass | Fail(error: Exception)
}
