/**
 Go's dynamically typed `interface{}` values as the logging facade sees
 them: one constructor per concrete type the field encoder distinguishes,
 plus `Object` for a value of any other type (described by the two method
 sets the encoder asks about) and `Nil` for the nil interface.
 */
module Values {

  datatype Option<+T> = None | Some(value: T)

  // Go's fixed-width integers. `int`, `uint` and `uintptr` are taken to be
  // 64 bits wide, as on every 64-bit platform Go supports.
  type int8 = x: int | -0x80 <= x < 0x80
  type int16 = x: int | -0x8000 <= x < 0x8000
  type int32 = x: int | -0x8000_0000 <= x < 0x8000_0000
  type int64 = x: int | -0x8000_0000_0000_0000 <= x < 0x8000_0000_0000_0000
  type uint8 = x: int | 0 <= x < 0x100
  type uint16 = x: int | 0 <= x < 0x1_0000
  type uint32 = x: int | 0 <= x < 0x1_0000_0000
  type uint64 = x: int | 0 <= x < 0x1_0000_0000_0000_0000

  /** Go's conversion `int32(x)` of a 64-bit integer: keeps the low 32 bits
      and reads them as two's complement. */
  function ToInt32(x: int64): (r: int32)
    ensures (r - x) % 0x1_0000_0000 == 0
    ensures -0x8000_0000 <= x < 0x8000_0000 ==> r == x
  {
    var low := x % 0x1_0000_0000;
    if low < 0x8000_0000 then low else low - 0x1_0000_0000
  }

  /** A `time.Time`, kept abstract: seconds since the Unix epoch and a
      nanosecond offset. */
  datatype Instant = Instant(unixSec: int64, nsec: int)

  datatype Value =
    | Nil
    | Bool(boolVal: bool)
    | Complex128(re128: bv64, im128: bv64)
    | Complex64(re64: bv32, im64: bv32)
    | Float64(bits64: bv64)
    | Float32(bits32: bv32)
    | Int(intVal: int64)
    | Int64(int64Val: int64)
    | Int32(int32Val: int32)
    | Int16(int16Val: int16)
    | Int8(int8Val: int8)
    | Str(str: string)
    | Uint(uintVal: uint64)
    | Uint64(uint64Val: uint64)
    | Uint32(uint32Val: uint32)
    | Uint16(uint16Val: uint16)
    | Uint8(uint8Val: uint8)
    | Bytes(bytes: seq<uint8>)
    | Uintptr(ptr: uint64)
    | Time(instant: Instant)
      /** The project's `xtime.Time`: Unix seconds. */
    | XTime(xsec: int64)
      /** `time.Duration`, in nanoseconds. */
    | Duration(nanos: int64)
      /** The project's `xtime.Duration`, a renamed `time.Duration`. */
    | XDuration(xnanos: int64)
      /** A value of any other type: `errorText` is what its `Error()` method
          returns when the type implements `error`, `stringText` what its
          `String()` method returns when it implements `fmt.Stringer`. */
    | Object(typeName: string, errorText: Option<string>, stringText: Option<string>)

  /** `xtime.Time.Time()`: the instant `time.Unix(sec, 0)`. */
  function XTimeToTime(sec: int64): Instant {
    Instant(sec, 0)
  }
}
