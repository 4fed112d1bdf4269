/** Values shared by the models of the restore engine and the deletion helpers. */
module Common {

  /** A Go value that may be nil (a nil map, a nil error, a nil pointer). */
  datatype Option<+T> = None | Some(value: T)

  /** Go's int64, used for tar header modes and block counts. */
  newtype Int64 = x: int | -0x8000_0000_0000_0000 <= x < 0x8000_0000_0000_0000

  /** The largest value of Go's int on a 64-bit build (math.MaxInt). */
  const MaxInt: int := 0x7FFF_FFFF_FFFF_FFFF

  /** Go's uint32, the representation of os.FileMode. */
  newtype UInt32 = x: int | 0 <= x < 0x1_0000_0000
}
