/** Sequence helpers shared by the article grid and the source picker. */
module Seqs {

  /** Concatenation of a sequence of rows. */
  function Flatten<T>(rows: seq<seq<T>>): seq<T> {
    if rows == [] then [] else rows[0] + Flatten(rows[1..])
  }

  /** Rust's `slice::chunks(n)`: consecutive rows of `n` items, the last one possibly shorter. */
  function Chunks<T>(xs: seq<T>, n: nat): (rows: seq<seq<T>>)
    requires n > 0
    decreases |xs|
  {
    if |xs| <= n then (if xs == [] then [] else [xs])
    else [xs[..n]] + Chunks(xs[n..], n)
  }

  /** Every row is non-empty and holds at most `n` items, and every row but the last holds exactly `n`. */
  ghost predicate WellChunked<T>(rows: seq<seq<T>>, n: nat) {
    && (forall k :: 0 <= k < |rows| ==> 0 < |rows[k]| <= n)
    && (forall k :: 0 <= k < |rows| - 1 ==> |rows[k]| == n)
  }

  /** Chunking loses and reorders nothing, and its rows have the sizes `chunks` promises. */
  lemma {:induction false} ChunksCorrect<T>(xs: seq<T>, n: nat)
    requires n > 0
    ensures Flatten(Chunks(xs, n)) == xs
    ensures WellChunked(Chunks(xs, n), n)
    decreases |xs|
  {
    if |xs| <= n {
      if xs != [] {
        assert Flatten([xs]) == xs + Flatten([xs][1..]);
      }
    } else {
      var rest := Chunks(xs[n..], n);
      ChunksCorrect(xs[n..], n);
      assert Chunks(xs, n) == [xs[..n]] + rest;
      assert ([xs[..n]] + rest)[1..] == rest;
      assert xs[..n] + xs[n..] == xs;
    }
  }

  /** `xs` keeps some of the elements of `ys`, in their original order. */
  predicate IsSubsequence<T(==)>(xs: seq<T>, ys: seq<T>)
    decreases |ys|
  {
    if xs == [] then true
    else if ys == [] then false
    else if xs[0] == ys[0] then IsSubsequence(xs[1..], ys[1..])
    else IsSubsequence(xs, ys[1..])
  }

  /** Every item of every row is an item of the concatenation. */
  lemma {:induction false} InFlatten<T>(rows: seq<seq<T>>, k: nat, x: T)
    requires k < |rows| && x in rows[k]
    ensures x in Flatten(rows)
  {
    if k > 0 {
      InFlatten(rows[1..], k - 1, x);
    }
  }
}
