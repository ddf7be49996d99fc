/** The 64-bit signed integers of Go and SQLite. */
module Int64 {

  const MAX_INT64: int := 0x7fff_ffff_ffff_ffff

  type int64 = n: int | -MAX_INT64 - 1 <= n <= MAX_INT64

  /** Wrap-around. */
  function Wrap64(n: int): int64 { (n + MAX_INT64 + 1) % 0x1_0000_0000_0000_0000 - MAX_INT64 - 1 }
}
