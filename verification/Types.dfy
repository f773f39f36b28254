/** Types shared by the modules of the model. */
module Types {

  datatype Option<+T> = None | Some(value: T)

  type byte = x: int | 0 <= x < 0x100
  type uint16 = x: int | 0 <= x < 0x1_0000
  type uint32 = x: int | 0 <= x < 0x1_0000_0000

  /** Workers are numbered by the coordinator with an unsigned 16-bit integer. */
  type WorkerId = uint16

  /** Index of a bucket of the fixed partitioning of the key space. */
  type Bucket = nat

  /** State keys and values as the state backend stores them. */
  type Key = seq<byte>
  type Value = seq<byte>

  function Lookup<K, V>(m: map<K, V>, k: K): Option<V> {
    if k in m then Some(m[k]) else None
  }

  predicate Distinct<T(==)>(s: seq<T>) {
    forall i, j :: 0 <= i < j < |s| ==> s[i] != s[j]
  }

  function Elements<T>(s: seq<T>): set<T> {
    set x | x in s
  }

  function Repeat<T>(x: T, n: nat): seq<T> {
    seq(n, _ => x)
  }

  lemma SubsetSize<T>(a: set<T>, b: set<T>)
    requires a <= b
    ensures |a| <= |b| && (|a| == |b| ==> a == b)
  {
    assert |b| == |a| + |b - a| by { assert b == a + (b - a); }
    if |a| == |b| { assert b - a == {}; assert b == a + (b - a); }
  }
}
