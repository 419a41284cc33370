/**
 * Order-preserving partition of a list into contiguous chunks of bounded size,
 * as done by `Scraper.chunk` before the batched user lookups.
 */
module Chunking {

  function Min(x: int, y: int): int
  {
    if x <= y then x else y
  }

  /** The concatenation of a list of lists, in order. */
  function Flatten<T>(ss: seq<seq<T>>): seq<T>
  {
    if ss == [] then [] else ss[0] + Flatten(ss[1..])
  }

  /**
   * The chunks of `a`: a first chunk of `n` elements (fewer when `a` is
   * shorter, as `Array.prototype.slice` clamps its end), followed by the
   * chunks of what is left.
   */
  function Chunked<T>(a: seq<T>, n: nat): seq<seq<T>>
    requires n > 0
    decreases |a|
  {
    if a == [] then []
    else
      var k := Min(n, |a|);
      [a[..k]] + Chunked(a[k..], n)
  }

  /** Independent description of chunk number `k`: the slice [k*n, min((k+1)*n, |a|)). */
  ghost predicate IsChunkAt<T>(a: seq<T>, n: nat, k: nat, c: seq<T>)
  {
    k * n <= |a| && c == a[k * n .. Min((k + 1) * n, |a|)]
  }

  /** `chunk(array, chunkSize)`: an index loop that pushes one slice per step. */
  method Chunk<T>(a: seq<T>, chunkSize: nat) returns (results: seq<seq<T>>)
    requires chunkSize > 0
    ensures results == Chunked(a, chunkSize)
  {
    results := [];
    var i, len := 0, |a|;
    while i < len
      invariant 0 <= i
      invariant results + Chunked(a[Min(i, len)..], chunkSize) == Chunked(a, chunkSize)
      decreases len - i
    {
      var slice := a[i..Min(i + chunkSize, len)];
      ChunkedFrom(a, chunkSize, i);
      results := results + [slice];
      i := i + chunkSize;
    }
    assert a[Min(i, len)..] == [];
  }

  /** Unfolds `Chunked` once at offset `i`: the slice the loop pushes, then the rest. */
  lemma ChunkedFrom<T>(a: seq<T>, n: nat, i: nat)
    requires n > 0 && i < |a|
    ensures Chunked(a[i..], n) == [a[i..Min(i + n, |a|)]] + Chunked(a[Min(i + n, |a|)..], n)
  {
    var k := Min(n, |a| - i);
    assert a[i..][..k] == a[i..Min(i + n, |a|)];
    assert a[i..][k..] == a[Min(i + n, |a|)..];
  }

  /** Concatenating the chunks gives back the input: nothing dropped, duplicated or reordered. */
  lemma {:induction false} FlattenChunked<T>(a: seq<T>, n: nat)
    requires n > 0
    ensures Flatten(Chunked(a, n)) == a
    decreases |a|
  {
    if a != [] {
      var k := Min(n, |a|);
      FlattenChunked(a[k..], n);
      assert Chunked(a, n)[1..] == Chunked(a[k..], n);
      assert a == a[..k] + a[k..];
    }
  }

  /** Every chunk is non-empty and at most `n` long; every chunk but the last is exactly `n` long. */
  lemma {:induction false} ChunkLengths<T>(a: seq<T>, n: nat)
    requires n > 0
    ensures forall k :: 0 <= k < |Chunked(a, n)| ==> 0 < |Chunked(a, n)[k]| <= n
    ensures forall k :: 0 <= k < |Chunked(a, n)| - 1 ==> |Chunked(a, n)[k]| == n
    decreases |a|
  {
    if a != [] {
      var k := Min(n, |a|);
      ChunkLengths(a[k..], n);
      var r := Chunked(a, n);
      assert r[1..] == Chunked(a[k..], n);
      assert k < n ==> a[k..] == [];
      forall j | 1 <= j < |r|
        ensures 0 < |r[j]| <= n && (j < |r| - 1 ==> |r[j]| == n)
      {
        assert r[j] == Chunked(a[k..], n)[j - 1];
      }
    }
  }

  /**
   * The number of chunks is the ceiling of |a| / n; an empty input gives no
   * chunks at all.
   */
  lemma {:induction false} ChunkCount<T>(a: seq<T>, n: nat)
    requires n > 0
    ensures |Chunked(a, n)| == (|a| + n - 1) / n
    ensures a == [] <==> Chunked(a, n) == []
    decreases |a|
  {
    if a != [] {
      var k := Min(n, |a|);
      ChunkCount(a[k..], n);
      if |a| <= n {
        assert a[k..] == [];
        DivUnique(|a| + n - 1, n, 1, |a| - 1);
      } else {
        DivShift(|a| + n - 1, n);
      }
    }
  }

  lemma DivShift(x: nat, n: nat)
    requires n > 0 && x >= n
    ensures x / n == (x - n) / n + 1
  {
    var q, r := (x - n) / n, (x - n) % n;
    assert x == (q + 1) * n + r;
    DivUnique(x, n, q + 1, r);
  }

  lemma DivUnique(x: nat, n: nat, q: nat, r: nat)
    requires n > 0 && r < n && x == q * n + r
    ensures x / n == q
  {
    var q', r' := x / n, x % n;
    assert (q - q') * n == r' - r;
    MulAtLeast(q - q', n);
  }

  /** A non-zero multiple of `n` is at least `n` away from zero, stated branch by branch. */
  lemma MulAtLeast(d: int, n: int)
    requires n > 0
    ensures d >= 1 ==> d * n >= n
    ensures d <= -1 ==> d * n <= -n
  {
  }

  /** Chunk number `k` is the slice [k*n, min((k+1)*n, |a|)) of the input. */
  lemma {:induction false} ChunkAt<T>(a: seq<T>, n: nat, k: nat)
    requires n > 0
    requires k < |Chunked(a, n)|
    ensures IsChunkAt(a, n, k, Chunked(a, n)[k])
    decreases |a|
  {
    if |a| <= n {
      assert a[Min(n, |a|)..] == [];
    } else if k > 0 {
      var rest := a[n..];
      assert Chunked(a, n) == [a[..n]] + Chunked(rest, n);
      ChunkAt(rest, n, k - 1);
      var lo, mid, hi := (k - 1) * n, k * n, (k + 1) * n;
      assert lo + n == mid && mid + n == hi;
    }
  }
}
