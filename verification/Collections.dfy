/** Slices of sequences and overlays of maps, stated apart so that larger proofs can use them by name. */
module Collections {

  lemma Whole<T>(s: seq<T>)
    ensures s[..|s|] == s
  {
  }

  lemma Shorter<T>(s: seq<T>, n: nat)
    requires n < |s|
    ensures s[..n + 1][..n] == s[..n]
  {
  }

  lemma Prefixes<T>(s: seq<T>, m: nat, n: nat)
    requires m <= n <= |s|
    ensures s[..n][..m] == s[..m]
  {
  }

  lemma Snoc<T>(s: seq<T>, x: T)
    ensures (s + [x])[..|s|] == s
  {
  }

  lemma PlusNothing<T>(s: seq<T>)
    ensures s + [] == s
  {
  }

  // Dropping the last element of a concatenation.
  lemma PlusSnoc<T>(s: seq<T>, r: seq<T>)
    requires r != []
    ensures s + r != [] && (s + r)[..|s + r| - 1] == s + r[..|r| - 1] && (s + r)[|s + r| - 1] == r[|r| - 1]
  {
  }

  lemma PairOf<T>(x: T, y: T)
    ensures [x] == [] + [x] && [x, y] == [x] + [y]
  {
  }

  lemma PlusEmpty<K, V>(m: map<K, V>)
    ensures m + map[] == m
  {
  }

  lemma PlusOne<K, V>(m: map<K, V>, k: K, v: V)
    ensures m + map[k := v] == m[k := v]
  {
  }

  lemma PlusUpdate<K, V>(m: map<K, V>, n: map<K, V>, k: K, v: V)
    ensures m + n[k := v] == (m + n)[k := v]
  {
  }
}
