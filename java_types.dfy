/** The Java value types the configuration holder stores. */
module JavaTypes {

  /** A Java `int`. */
  type Int32 = x: int | -0x8000_0000 <= x < 0x8000_0000

  /** A Java `long`. */
  type Int64 = x: int | -0x8000_0000_0000_0000 <= x < 0x8000_0000_0000_0000

  /** A Java `float`, kept as its IEEE 754 bit pattern: the holder only stores it. */
  datatype Float32 = Float32(bits: bv32)

  /** The exception both failing construction paths throw. */
  datatype Exception = IllegalArgumentException(message: string)
}
