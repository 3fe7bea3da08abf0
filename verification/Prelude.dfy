/** Failure-carrying result types and the machine integers the programs use. */
module Prelude {
  datatype Option<+T> = None | Some(value: T)

  datatype Result<+R, +E> = Success(value: R) | Failure(error: E)

  type Byte = x: int | 0 <= x < 256

  const U32_MAX := 0xFFFF_FFFF

  type U32 = x: int | 0 <= x <= U32_MAX

  /** Rust's `+` on `u32` in a build without overflow checks: it wraps. */
  function Add32(a: U32, b: U32): U32 {
    (a + b) % 0x1_0000_0000
  }

  lemma MergeThenUpdate<K, V>(m: map<K, V>, r: map<K, V>, k: K, v: V)
    ensures (m + r)[k := v] == m + r[k := v]
  {
  }
}
