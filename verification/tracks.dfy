/** The track record the setlist builder reads from its database, reduced to
    the attributes the build uses. */
module Tracks {

  const INT32_MIN: int := -0x8000_0000
  const INT32_MAX: int := 0x7fff_ffff

  /** Go's `int32`. */
  type Int32 = x: int | INT32_MIN <= x <= INT32_MAX

  /** Go's `int32(x)` conversion of an integer that may not fit: two's-complement wrap-around. */
  function WrapInt32(x: int): (r: Int32)
    ensures INT32_MIN <= x <= INT32_MAX ==> r == x
    ensures (r - x) % 0x1_0000_0000 == 0
  {
    var m := (x - INT32_MIN) % 0x1_0000_0000;
    m + INT32_MIN
  }

  /** A row of the working table: a song is identified by its name within a build. */
  datatype Track = Track(name: string, artist: string, key: string, durationSeconds: Int32)
}
