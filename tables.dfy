/**
  Finite tables keyed by name, built one entry at a time in ascending name
  order, so that every table is an ordinary chain of map updates.
*/
module Tables {
  import opened Strings

  /** The table that maps each name of `names`, taken in order, to `f` of it. */
  function TabulateSeq<V>(names: seq<string>, f: string -> V): (m: map<string, V>)
    ensures forall n :: n in m <==> n in names
    ensures forall n | n in m :: m[n] == f(n)
  {
    if names == [] then map[]
    else TabulateSeq(names[..|names| - 1], f)[names[|names| - 1] := f(names[|names| - 1])]
  }

  /** The table that maps each name of `names` to `f` of it. */
  function Tabulate<V>(names: set<string>, f: string -> V): (m: map<string, V>)
    ensures m.Keys == names
    ensures forall n | n in m :: m[n] == f(n)
  {
    TabulateSeq(Sorted(names), f)
  }

  /** Two maps with the same keys and the same value under each key are equal. */
  lemma SameEntries<K, V>(m: map<K, V>, n: map<K, V>)
    requires m.Keys == n.Keys
    requires forall k | k in m :: m[k] == n[k]
    ensures m == n
  {
  }

  /** The empty map joined with `m` is `m`. */
  lemma JoinEmpty<K, V>(m: map<K, V>)
    ensures map[] + m == m
  {
  }

  /** A map with one key is the one-entry map display. */
  lemma OneEntry<K, V>(m: map<K, V>, k: K, v: V)
    requires m.Keys == {k} && m[k] == v
    ensures m == map[k := v]
  {
  }

  /** A map that differs from `m` only at `k`, where it holds `x`, is `m` updated there. */
  lemma UpdatedAt<V>(m: map<string, V>, m': map<string, V>, k: string, x: V)
    requires m'.Keys == m.Keys + {k} && m'[k] == x
    requires forall j | j in m' && j != k :: m'[j] == m[j]
    ensures m' == m[k := x]
  {
  }

  /** Two one-entry maps under different keys join into the two-entry map display. */
  lemma JoinOnes<V>(a: string, x: V, b: string, y: V)
    requires a != b
    ensures map[a := x] + map[b := y] == map[a := x, b := y]
  {
  }
}
