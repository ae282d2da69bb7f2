/** Fixed-width words and the BPF hash-map operations shared by every collector. */
module Machine {

  const TWO32: nat := 0x1_0000_0000
  const TWO64: nat := 0x1_0000_0000_0000_0000

  type u32 = x: nat | x < 0x1_0000_0000
  type u64 = x: nat | x < 0x1_0000_0000_0000_0000

  datatype Option<+T> = None | Some(value: T)

  /** C's conversion of any integer result to an unsigned 64-bit word. */
  function Wrap64(x: int): u64 { x % TWO64 }

  /** C's conversion of any integer result to an unsigned 32-bit word. */
  function Wrap32(x: int): u32 { x % TWO32 }

  // ---- 64-bit keys made of two 32-bit halves ----

  /** `((__u64)hi << 32) | lo`: the halves do not overlap, so the `or` is a sum. */
  function Pack(hi: u32, lo: u32): u64 { hi * TWO32 + lo }

  function HighHalf(key: u64): u32 { key / TWO32 }

  function LowHalf(key: u64): u32 { key % TWO32 }

  /** Packing and splitting are inverse to each other, in both orders. */
  lemma PackRoundTrip(hi: u32, lo: u32, key: u64)
    ensures HighHalf(Pack(hi, lo)) == hi && LowHalf(Pack(hi, lo)) == lo
    ensures Pack(HighHalf(key), LowHalf(key)) == key
  {
    assert (hi * TWO32 + lo) / TWO32 == hi;
  }

  /** Reduction can be postponed to the end of a chain of additions. */
  lemma WrapAdd(x: int, y: int)
    ensures Wrap64(Wrap64(x) + y) == Wrap64(x + y)
    ensures Wrap64(x + Wrap64(y)) == Wrap64(x + y)
  {
    assert x == x / TWO64 * TWO64 + Wrap64(x);
    assert y == y / TWO64 * TWO64 + Wrap64(y);
    WrapShift(Wrap64(x) + y, x / TWO64);
    WrapShift(x + Wrap64(y), y / TWO64);
  }

  lemma WrapSmall(x: nat)
    ensures x < TWO64 ==> Wrap64(x) == x
  {
  }

  lemma WrapShift(x: int, k: int)
    ensures Wrap64(x + k * TWO64) == Wrap64(x)
  {
    assert (x + k * TWO64) / TWO64 == x / TWO64 + k;
  }

  // ---- BPF hash maps ----

  /** `bpf_map_update_elem(.., BPF_ANY)`: fails only for an absent key in a full map. */
  function UpdateAny<K, V>(m: map<K, V>, capacity: nat, key: K, value: V): map<K, V> {
    if key in m || |m| < capacity then m[key := value] else m
  }

  /** `bpf_map_update_elem(.., BPF_NOEXIST)`: also fails for a present key. */
  function UpdateNoExist<K, V>(m: map<K, V>, capacity: nat, key: K, value: V): map<K, V> {
    if key !in m && |m| < capacity then m[key := value] else m
  }

  function Lookup<K, V>(m: map<K, V>, key: K): Option<V> {
    if key in m then Some(m[key]) else None
  }

  /** Some order in which the kernel may walk a map's keys: each exactly once. */
  ghost predicate VisitsEach<K(!new)>(order: seq<K>, keys: set<K>) {
    && (forall i, j | 0 <= i < j < |order| :: order[i] != order[j])
    && (forall k :: k in order <==> k in keys)
  }

  /** No operation takes a map past its declared capacity. */
  lemma CapacityKept<K, V>(m: map<K, V>, capacity: nat, key: K, value: V)
    requires |m| <= capacity
    ensures |UpdateAny(m, capacity, key, value)| <= capacity
    ensures |UpdateNoExist(m, capacity, key, value)| <= capacity
    ensures |m - {key}| <= capacity
  {
    InsertSize(m, key, value);
    SubmapSize(m - {key}, m);
  }

  lemma InsertSize<K, V>(m: map<K, V>, key: K, value: V)
    ensures |m[key := value]| == if key in m then |m| else |m| + 1
  {
    var m' := m[key := value];
    assert m'.Keys == m.Keys + {key};
    assert |m'| == |m'.Keys| && |m| == |m.Keys|;
  }

  lemma SubsetSize<T>(a: set<T>, b: set<T>)
    requires a <= b
    ensures |a| <= |b|
  {
    assert |b| == |a| + |b - a| by { assert b == a + (b - a); }
  }

  lemma SubmapSize<K, V, W>(a: map<K, V>, b: map<K, W>)
    requires a.Keys <= b.Keys
    ensures |a| <= |b|
  {
    SubsetSize(a.Keys, b.Keys);
    assert |a| == |a.Keys| && |b| == |b.Keys|;
  }
}
