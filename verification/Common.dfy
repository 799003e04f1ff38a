/** Small value types shared by the models. */
module Common {

  datatype Option<+T> = None | Some(value: T)

  /** Time is counted in whole nanoseconds since an arbitrary origin. */
  type Instant = int

  newtype u8 = x: int | 0 <= x < 0x100
  newtype u16 = x: int | 0 <= x < 0x1_0000

  const SECOND: int := 1_000_000_000

  function Max(a: int, b: int): int {
    if a < b then b else a
  }

  function Min(a: int, b: int): int {
    if a < b then a else b
  }

  /** Dropping the last element of `s + [x]` gives back `s`. */
  lemma ButLast<T>(s: seq<T>, x: T)
    ensures (s + [x])[..|s + [x]| - 1] == s
  {
  }

  function Lookup<K, V>(m: map<K, V>, k: K): Option<V> {
    if k in m then Some(m[k]) else None
  }
}
