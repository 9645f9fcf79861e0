/** Facts about sequence slices, stated once for every element type. */
module Seqs {

  lemma TakeNext<T>(s: seq<T>, i: nat)
    requires i < |s|
    ensures s[..i + 1] == s[..i] + [s[i]]
  {
  }

  lemma TakeAll<T>(s: seq<T>)
    ensures s[..|s|] == s
  {
  }

  lemma AppendThree<T>(s: seq<T>, a: T, b: T, c: T)
    ensures s + [a, b, c] == s + [a] + [b] + [c]
  {
  }

  lemma AppendFour<T>(s: seq<T>, a: T, b: T, c: T, d: T)
    ensures s + [a, b, c, d] == s + [a] + [b] + [c] + [d]
  {
  }

  lemma AppendAssoc<T>(s: seq<T>, t: seq<T>, u: seq<T>)
    ensures s + t + u == s + (t + u)
  {
  }

  lemma AppendFourAssoc<T>(s: seq<T>, t: seq<T>, a: T, b: T, c: T, d: T)
    ensures s + t + [a] + [b] + [c] + [d] == s + (t + [a] + [b] + [c] + [d])
  {
  }

  lemma Regroup<T>(s: seq<T>, a: T, b: T, c: T, d: T, t: seq<T>, e: T)
    ensures s + [a] + [b] + [c] + [d] + t + [e] == s + ([a, b, c, d] + t + [e])
  {
  }

  /** The list `f(k), f(k + 1), ..., f(n - 1)`. */
  function Tabulate<T>(f: nat -> T, k: nat, n: nat): (r: seq<T>)
    requires k <= n
    ensures |r| == n - k
    decreases n - k
  {
    if k == n then [] else [f(k)] + Tabulate(f, k + 1, n)
  }

  lemma {:induction false} TabulateAt<T>(f: nat -> T, k: nat, n: nat, j: nat)
    requires k <= j < n
    ensures Tabulate(f, k, n)[j - k] == f(j)
    decreases j - k
  {
    if k < j {
      TabulateAt(f, k + 1, n, j);
    }
  }

  lemma AppendSlices<T>(s: seq<T>, t: seq<T>)
    ensures (s + t)[..|s|] == s && (s + t)[|s|..] == t
  {
  }

  lemma AppendAssocFour<T>(s: seq<T>, t: seq<T>, u: seq<T>, v: seq<T>)
    ensures s + t + u + v == s + (t + u + v)
  {
  }

  lemma TakePrefix<T>(s: seq<T>, i: nat, j: nat)
    requires i <= j <= |s|
    ensures s[..j][..i] == s[..i]
  {
  }

  lemma SliceNext<T>(s: seq<T>, i: nat, j: nat)
    requires i <= j < |s|
    ensures s[i..j + 1] == s[i..j] + [s[j]]
  {
  }

  lemma SplitAround<T>(s: seq<T>, i: nat)
    requires i < |s|
    ensures s == s[..i] + [s[i]] + s[i + 1..]
  {
  }
}
