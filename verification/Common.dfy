/** Value types shared by every module of the model. */
module Common {

  datatype Option<+T> = None | Some(value: T)

  datatype Result<+T, +E> = Ok(value: T) | Err(error: E)

  /** `HashMap::get`. */
  function Get<K, V>(m: map<K, V>, k: K): Option<V> {
    if k in m then Some(m[k]) else None
  }

  /** One octet on the wire. */
  type byte = x: int | 0 <= x < 256

  type PeerId = nat

  // The REPE version and the error codes (`repe-core/src/constants.rs`).

  const REPE_VERSION: byte := 1

  const OK := 0
  const VERSION_MISMATCH := 1
  const INVALID_QUERY := 3
  const INVALID_BODY := 4
  const METHOD_NOT_FOUND := 6

  lemma Associate<T>(a: seq<T>, b: seq<T>, c: seq<T>)
    ensures a + b + c == a + (b + c)
  {
  }

  lemma Regroup<T>(a: seq<T>, b: seq<T>, c: seq<T>, d: seq<T>)
    ensures a + b + c + d == a + (b + c + d)
    ensures a + b + [] + d == a + b + d && a + b + c + [] == a + b + c
  {
  }
}
