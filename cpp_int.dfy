/** The C++ `int` (32 bits) used for vertex counts, offsets, ids and file words. */
module CppInt {
  const MinInt32: int := -0x8000_0000
  const MaxInt32: int := 0x7fff_ffff

  predicate IsInt32(x: int) { MinInt32 <= x <= MaxInt32 }

  type Int32 = x: int | IsInt32(x)
}
