/** Sequences of blocks: the order in which a loop over table rows emits the commands of
    each row, one row's commands after the previous row's. */
module Seqs {

  /** The first `n` blocks, one after the other. */
  function Concat<T>(xss: seq<seq<T>>, n: nat): seq<T>
    requires n <= |xss|
    decreases n
  {
    if n == 0 then [] else Concat(xss, n - 1) + xss[n - 1]
  }

  /** An element of the first `n` blocks comes from one of them. */
  lemma {:induction false} ConcatMember<T>(xss: seq<seq<T>>, n: nat, x: T)
    requires n <= |xss| && x in Concat(xss, n)
    ensures exists k :: 0 <= k < n && x in xss[k]
    decreases n
  {
    if x !in xss[n - 1] {
      ConcatMember(xss, n - 1, x);
    }
  }

  /** Every element of each of the first `n` blocks is among them. */
  lemma {:induction false} ConcatContains<T>(xss: seq<seq<T>>, n: nat, k: nat, x: T)
    requires k < n <= |xss| && x in xss[k]
    ensures x in Concat(xss, n)
    decreases n
  {
    if k < n - 1 {
      ConcatContains(xss, n - 1, k, x);
    }
  }

  lemma Snoc<T>(xs: seq<T>, j: nat)
    requires j < |xs|
    ensures xs[..j] + [xs[j]] == xs[..j + 1]
  {
  }

  lemma Assoc<T>(a: seq<T>, b: seq<T>, c: seq<T>)
    ensures a + b + c == a + (b + c)
  {
  }
}
