/** Go byte slices and strings: nil-able slices, `bytes.Equal`, and the
    lexicographic order used by `sort.Strings` and by the key-value store. */
module GoBytes {

  datatype Option<+T> = None | Some(value: T)

  type byte = x: int | 0 <= x < 256
  type Bytes = seq<byte>

  /** A Go byte slice: `None` is the nil slice, `Some([])` the empty one. */
  type Val = Option<Bytes>

  function Content(v: Val): Bytes {
    if v.Some? then v.value else []
  }

  /** `bytes.Equal`: nil and empty are not told apart. */
  predicate BytesEqual(a: Val, b: Val) {
    Content(a) == Content(b)
  }

  /** Absent or non-empty: the values on which `BytesEqual` is equality. */
  predicate Proper(v: Val) {
    v != Some([])
  }

  const UINT64: nat := 0x1_0000_0000_0000_0000

  function Lookup<K, V>(m: map<K, V>, k: K): Option<V> {
    if k in m then Some(m[k]) else None
  }

  lemma SameLookup<K(!new), V>(m: map<K, V>, n: map<K, V>)
    ensures m == n <==> forall k: K :: Lookup(m, k) == Lookup(n, k)
  {
    if forall k: K :: Lookup(m, k) == Lookup(n, k) {
      assert forall k: K :: k in m <==> Lookup(m, k).Some?;
      assert forall k: K :: k in n <==> Lookup(n, k).Some?;
      assert forall k | k in m :: Lookup(m, k) == Some(m[k]) && Lookup(n, k) == Some(n[k]);
    }
  }

  predicate Distinct<T(==)>(s: seq<T>) {
    forall i, j | 0 <= i < j < |s| :: s[i] != s[j]
  }

  /** `a < b` in the byte-wise lexicographic order. */
  predicate Less(a: Bytes, b: Bytes) {
    if b == [] then false
    else if a == [] then true
    else if a[0] != b[0] then a[0] < b[0]
    else Less(a[1..], b[1..])
  }

  lemma {:induction false} LessIrreflexive(a: Bytes)
    ensures !Less(a, a)
  {
    if a != [] { LessIrreflexive(a[1..]); }
  }

  lemma {:induction false} LessTotal(a: Bytes, b: Bytes)
    ensures a == b || Less(a, b) || Less(b, a)
  {
    if a != [] && b != [] && a[0] == b[0] {
      LessTotal(a[1..], b[1..]);
      assert a == [a[0]] + a[1..] && b == [b[0]] + b[1..];
    }
  }

  lemma {:induction false} LessTransitive(a: Bytes, b: Bytes, c: Bytes)
    requires Less(a, b) && Less(b, c)
    ensures Less(a, c)
  {
    if a != [] && a[0] == b[0] && b[0] == c[0] {
      LessTransitive(a[1..], b[1..], c[1..]);
    }
  }

  lemma LessAsymmetric(a: Bytes, b: Bytes)
    requires Less(a, b)
    ensures !Less(b, a)
  {
    if Less(b, a) {
      LessTransitive(a, b, a);
      LessIrreflexive(a);
    }
  }
}
