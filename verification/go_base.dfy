/** Go's primitive values as the translation layer uses them, and the outcome
    types that stand for Go's `(value, error)` returns and for its panics. */
module GoBase {

  /** Go's `byte` (uint8). */
  type byte = b: int | 0 <= b < 256

  /** Go's `[]byte`. */
  type Bytes = seq<byte>

  /** Go's `string`: an immutable sequence of bytes, not of code points. Because
      `[]byte` and `string` share one representation here, the `unsafe`
      reinterpretations between them are the identity. */
  type Str = seq<byte>

  /** Go's `int64` and `int32`. */
  type Int64 = v: int | -0x8000_0000_0000_0000 <= v < 0x8000_0000_0000_0000
  type Int32 = v: int | -0x8000_0000 <= v < 0x8000_0000

  /** Go's `float64`. Floating-point values are only stored and copied by the
      translation layer, never computed with, so an exact number stands for one. */
  type Float64 = real

  /** The bytes of an ASCII literal (each character taken modulo 256). */
  function Ascii(s: string): (r: Str)
    ensures |r| == |s|
  {
    seq(|s|, i requires 0 <= i < |s| => (s[i] as int) % 256)
  }

  /** `strings.HasPrefix`. */
  predicate HasPrefix(s: Str, prefix: Str) {
    |prefix| <= |s| && s[..|prefix|] == prefix
  }

  /** Go's conversion `int32(v)` of an `int64`: keeps the low 32 bits and reads
      them in two's complement. */
  function ToInt32(v: Int64): (r: Int32)
    ensures -0x8000_0000 <= v < 0x8000_0000 ==> r == v
    ensures (v - r) % 0x1_0000_0000 == 0
  {
    var low := v % 0x1_0000_0000;
    if low < 0x8000_0000 then low else low - 0x1_0000_0000
  }

  /** The result of `int32(v)` is the only `int32` congruent to `v` modulo 2^32,
      so it is exactly the low 32 bits of `v` in two's complement. */
  lemma ToInt32IsLowBits(v: Int64, r: Int32)
    requires (v - r) % 0x1_0000_0000 == 0
    ensures r == ToInt32(v)
  {
    var t := ToInt32(v);
    assert (t - r) % 0x1_0000_0000 == 0 by {
      assert t - r == (v - r) - (v - t);
    }
    assert -0x1_0000_0000 < t - r < 0x1_0000_0000;
  }

  datatype Option<+T> = None | Some(value: T)

  /** Why an operation did not produce its native value. */
  datatype Failure =
    | Unsupported(op: string)         // an operation whose body is `panic("todo")`
    | BadType(want: string)           // a failed type assertion `x.(T)`
    | ToolDispatch(message: Str)      // "unsupported standard tool: <name>"
    | InvalidToolResult(message: Str) // "invalid tool result: <json error>"
    | MarshalFailed(message: Str)     // "failed to marshal tool result: <json error>"
    | CorruptBase64                   // base64.CorruptInputError
    | ReadFailed(message: Str)        // the error of an external read

  /** The outcome of a builder call that returns only its receiver. */
  datatype Outcome = Pass | Fail(error: Failure)

  /** The outcome of a call that produces a value. */
  datatype Result<+T> = Ok(value: T) | Err(error: Failure)

  /** A `(T, error)` pair returned by code outside the model (a reader, a JSON codec). */
  datatype Call<+T> = Returned(value: T) | Errored(message: Str)
}
