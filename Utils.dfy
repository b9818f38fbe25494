/**
 * utils.py: `create_chunks`, the fixed-size partition of a list that every
 * bulk remote call is built on.
 */
module Utils {

  /** Concatenation of a sequence of sequences, in order. */
  function Flatten<T>(ss: seq<seq<T>>): seq<T>
  {
    if |ss| == 0 then [] else ss[0] + Flatten(ss[1..])
  }

  lemma {:induction false} FlattenAppend<T>(a: seq<seq<T>>, b: seq<seq<T>>)
    ensures Flatten(a + b) == Flatten(a) + Flatten(b)
  {
    if |a| > 0 {
      assert (a + b)[1..] == a[1..] + b;
      FlattenAppend(a[1..], b);
    } else {
      assert a + b == b;
    }
  }

  /** An element of a concatenation comes from one of its parts. */
  lemma {:induction false} FlattenMember<T>(ss: seq<seq<T>>, x: T)
    requires x in Flatten(ss)
    ensures exists j :: 0 <= j < |ss| && x in ss[j]
  {
    if x !in ss[0] {
      FlattenMember(ss[1..], x);
      var j :| 0 <= j < |ss[1..]| && x in ss[1..][j];
      assert x in ss[j + 1];
    }
  }

  function Min(a: int, b: int): int
  {
    if a <= b then a else b
  }

  /** `q` is ceil(n / k): the least q with n <= q * k. */
  ghost predicate IsCeilDiv(q: int, n: int, k: int)
  {
    (q - 1) * k < n <= q * k
  }

  /** The integer ceiling of n / k, the `ceil(len(arr) / chunk_size)` of utils.py. */
  function CeilDiv(n: nat, k: nat): (q: nat)
    requires k > 0
    ensures IsCeilDiv(q, n, k)
  {
    var q := (n + k - 1) / k;
    assert q * k + (n + k - 1) % k == n + k - 1;
    q
  }

  lemma CeilDivUnique(q1: int, q2: int, n: int, k: int)
    requires k > 0 && IsCeilDiv(q1, n, k) && IsCeilDiv(q2, n, k)
    ensures q1 == q2
  {
    if q1 < q2 {
      MulMonotone(q1, q2 - 1, k);
    } else if q2 < q1 {
      MulMonotone(q2, q1 - 1, k);
    }
  }

  lemma MulMonotone(a: int, b: int, k: int)
    requires a <= b && k >= 0
    ensures a * k <= b * k
  {
  }

  /**
   * The reference definition of the partition: a first chunk of `k` elements
   * (or all of them, when fewer remain) followed by the chunks of the rest.
   */
  function ChunksOf<T>(s: seq<T>, k: nat): seq<seq<T>>
    requires k > 0
    decreases |s|
  {
    if |s| == 0 then []
    else if |s| <= k then [s]
    else [s[..k]] + ChunksOf(s[k..], k)
  }

  /** Python's `arr[start:end]` for non-negative bounds: both ends are clamped to the length. */
  function Slice<T>(s: seq<T>, start: nat, end: nat): seq<T>
  {
    var lo := Min(start, |s|);
    var hi := Min(end, |s|);
    if lo <= hi then s[lo..hi] else []
  }

  /** The number of chunks is ceil(len / k): empty input gives none. */
  lemma {:induction false} ChunksOfCount<T>(s: seq<T>, k: nat)
    requires k > 0
    ensures |ChunksOf(s, k)| == CeilDiv(|s|, k)
    ensures |s| == 0 <==> ChunksOf(s, k) == []
  {
    var n := |ChunksOf(s, k)|;
    if |s| > k {
      ChunksOfCount(s[k..], k);
      var m := CeilDiv(|s| - k, k);
      assert n == m + 1;
      assert (m - 1) * k < |s| - k <= m * k;
      assert (n - 1) * k == m * k && n * k == m * k + k;
    }
    CeilDivUnique(n, CeilDiv(|s|, k), |s|, k);
  }

  /** Where chunk `i` starts, by repeated addition: `i * k`. */
  function Offset(i: nat, k: nat): (o: nat)
  {
    if i == 0 then 0 else Offset(i - 1, k) + k
  }

  lemma {:induction false} OffsetIsProduct(i: nat, k: nat)
    ensures Offset(i, k) == i * k
  {
    if i > 0 {
      OffsetIsProduct(i - 1, k);
      MulStep(i, k);
    }
  }

  lemma MulStep(i: int, k: int)
    ensures (i - 1) * k + k == i * k
  {
  }

  lemma {:induction false} ChunkAtOffset<T>(s: seq<T>, k: nat, i: nat)
    requires k > 0 && i < |ChunksOf(s, k)|
    ensures Offset(i, k) < |s|
    ensures ChunksOf(s, k)[i] == Slice(s, Offset(i, k), Offset(i, k) + k)
  {
    var r := ChunksOf(s, k);
    if i > 0 {
      assert |s| > k;
      var rest := ChunksOf(s[k..], k);
      assert r == [s[..k]] + rest;
      assert r[i] == rest[i - 1];
      ChunkAtOffset(s[k..], k, i - 1);
      var j := Offset(i - 1, k);
      SliceOfDrop(s, k, j, j + k);
    } else {
      assert r[0] == if |s| <= k then s else s[..k];
    }
  }

  /** Chunk `i` is the slice `s[i*k : i*k + k]` of the source loop. */
  lemma ChunksOfAt<T>(s: seq<T>, k: nat, i: nat)
    requires k > 0 && i < |ChunksOf(s, k)|
    ensures i * k < |s|
    ensures ChunksOf(s, k)[i] == Slice(s, i * k, i * k + k)
  {
    ChunkAtOffset(s, k, i);
    OffsetIsProduct(i, k);
  }

  lemma SliceOfDrop<T>(s: seq<T>, k: nat, start: nat, end: nat)
    requires k <= |s| && start < |s| - k
    ensures Slice(s[k..], start, end) == Slice(s, start + k, end + k)
  {
  }

  /** Concatenating the chunks in order gives back the input exactly. */
  lemma {:induction false} FlattenChunks<T>(s: seq<T>, k: nat)
    requires k > 0
    ensures Flatten(ChunksOf(s, k)) == s
  {
    var r := ChunksOf(s, k);
    if |s| > k {
      FlattenChunks(s[k..], k);
      assert r == [s[..k]] + ChunksOf(s[k..], k);
      assert r[0] == s[..k] && r[1..] == ChunksOf(s[k..], k);
      assert Flatten(r) == s[..k] + Flatten(ChunksOf(s[k..], k));
      assert s == s[..k] + s[k..];
    } else if |s| > 0 {
      assert r == [s] && r[1..] == [];
      assert Flatten(r) == s + Flatten([]);
    }
  }

  /** Every chunk is non-empty and at most `k` long; all but the last are exactly `k` long. */
  lemma {:induction false} ChunkSizes<T>(s: seq<T>, k: nat)
    requires k > 0
    ensures forall i :: 0 <= i < |ChunksOf(s, k)| ==> 0 < |ChunksOf(s, k)[i]| <= k
    ensures forall i :: 0 <= i < |ChunksOf(s, k)| - 1 ==> |ChunksOf(s, k)[i]| == k
  {
    if |s| > k {
      ChunkSizes(s[k..], k);
      var r := ChunksOf(s, k);
      forall i | 0 < i < |r|
        ensures r[i] == ChunksOf(s[k..], k)[i - 1]
      {
      }
    }
  }

  /** A length that is a multiple of `k` gives exactly len / k full chunks, no empty trailing one. */
  lemma {:induction false} ExactMultiple<T>(s: seq<T>, k: nat, m: nat)
    requires k > 0 && |s| == m * k
    ensures |ChunksOf(s, k)| == m
    ensures forall i :: 0 <= i < m ==> |ChunksOf(s, k)[i]| == k
  {
    if m > 0 {
      assert |s| >= k by { MulMonotone(1, m, k); }
      if |s| > k {
        assert |s[k..]| == (m - 1) * k;
        ExactMultiple(s[k..], k, m - 1);
        var r := ChunksOf(s, k);
        forall i | 0 < i < m
          ensures |r[i]| == k
        {
          assert r[i] == ChunksOf(s[k..], k)[i - 1];
        }
      } else {
        assert m == 1;
      }
    }
  }

  /**
   * `create_chunks(arr, chunk_size)`: a loop over ceil(len / chunk_size)
   * chunk indices, each producing the slice `arr[start:end]`.
   */
  method CreateChunks<T>(arr: seq<T>, chunkSize: nat) returns (chunks: seq<seq<T>>)
    requires chunkSize > 0
    ensures chunks == ChunksOf(arr, chunkSize)
  {
    var numberOfChunks := CeilDiv(|arr|, chunkSize);
    ChunksOfCount(arr, chunkSize);
    chunks := [];
    for chunk := 0 to numberOfChunks
      invariant chunks == ChunksOf(arr, chunkSize)[..chunk]
    {
      var start := chunk * chunkSize;
      var end := start + chunkSize;
      ChunksOfAt(arr, chunkSize, chunk);
      chunks := chunks + [Slice(arr, start, end)];
    }
  }
}
