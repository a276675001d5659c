/** Result types shared by the component models. */
module Common {
  datatype Option<+T> = None | Some(value: T)

  datatype Result<+T, +E> = Ok(value: T) | Err(error: E)

  /** The value stored under a key, as a JavaScript Map.get call reports it. */
  function Lookup<K, V>(m: map<K, V>, k: K): Option<V> {
    if k in m then Some(m[k]) else None
  }

  function Min(a: int, b: int): int { if a < b then a else b }

  function Max(a: int, b: int): int { if a < b then b else a }

  /** Math.ceil of x / d for a positive divisor. */
  function CeilDiv(x: int, d: int): int
    requires d > 0
  {
    -((-x) / d)
  }

  /** A subset of a finite set has no more elements than the set. */
  lemma {:induction false} SubsetSize<T>(a: set<T>, b: set<T>)
    requires a <= b
    ensures |a| <= |b|
  {
    assert b == a + (b - a);
  }
}
