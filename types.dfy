/** Machine integer types and the Option wrapper shared by the heuristics model. */
module Types {

  const U64_LIMIT: int := 0x1_0000_0000_0000_0000

  /** Rust's `u64`: content lengths, URL path lengths and filter fields. */
  type u64 = x: int | 0 <= x < 0x1_0000_0000_0000_0000

  /** Rust's `u16`: HTTP status codes. */
  type u16 = x: int | 0 <= x < 0x1_0000

  datatype Option<+T> = None | Some(value: T)

  /** `a + b` on `u64` as a release build computes it (overflow wraps around). */
  function WrappingAdd(a: u64, b: u64): (r: u64)
    ensures a + b < U64_LIMIT ==> r == a + b
    ensures a + b >= U64_LIMIT ==> r == a + b - U64_LIMIT && r < a
  {
    (a + b) % U64_LIMIT
  }

  /** `a - b` on `u64` as a release build computes it (underflow wraps around). */
  function WrappingSub(a: u64, b: u64): (r: u64)
    ensures b <= a ==> r == a - b
    ensures a < b ==> r == a - b + U64_LIMIT && r > a
  {
    (a - b) % U64_LIMIT
  }
}
