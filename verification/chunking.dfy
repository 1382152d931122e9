/**
 * The read loop of the upload: `until file.eof? ... file.read(chunk_size)`.
 * Reading a stream of n bytes in steps of k yields the pieces `Chunks`
 * describes; the lemmas here are what an APPEND sequence built from them
 * guarantees about the file that ends up on the server.
 */
module Chunking {

  function Min(a: nat, b: nat): nat {
    if a < b then a else b
  }

  /**
   * One `read(k)` per iteration while the stream is not at its end: each read
   * takes k bytes, or what is left when fewer than k remain.
   */
  function Chunks<T>(s: seq<T>, k: nat): seq<seq<T>>
    requires k > 0
    decreases |s|
  {
    if |s| == 0 then []
    else
      var n := Min(k, |s|);
      [s[..n]] + Chunks(s[n..], k)
  }

  /** The bytes the server holds after the chunks were appended in order. */
  function Flatten<T>(chunks: seq<seq<T>>): seq<T>
  {
    if |chunks| == 0 then [] else chunks[0] + Flatten(chunks[1..])
  }

  /** Number of reads before end of stream: the size divided by k, rounded up. */
  function CeilDiv(n: nat, k: nat): nat
    requires k > 0
  {
    (n + k - 1) / k
  }

  lemma {:induction false} FlattenAppend<T>(a: seq<seq<T>>, b: seq<seq<T>>)
    ensures Flatten(a + b) == Flatten(a) + Flatten(b)
    decreases |a|
  {
    if |a| == 0 {
      assert a + b == b;
    } else {
      FlattenAppend(a[1..], b);
      assert (a + b)[0] == a[0];
      assert (a + b)[1..] == a[1..] + b;
    }
  }

  /** One more `read(k)` from position `pos` yields the next chunk. */
  lemma ChunksStep<T>(s: seq<T>, k: nat, pos: nat)
    requires k > 0 && pos < |s|
    ensures Chunks(s[pos..], k) == [s[pos..pos + Min(k, |s| - pos)]] + Chunks(s[pos + Min(k, |s| - pos)..], k)
  {
    var n := Min(k, |s| - pos);
    assert s[pos..][..n] == s[pos..pos + n];
    assert s[pos..][n..] == s[pos + n..];
  }

  /** Appending the chunks in call order rebuilds exactly the input. */
  lemma {:induction false} ChunksFlatten<T>(s: seq<T>, k: nat)
    requires k > 0
    ensures Flatten(Chunks(s, k)) == s
    decreases |s|
  {
    if |s| > 0 {
      var n := Min(k, |s|);
      ChunksFlatten(s[n..], k);
      assert s[..n] + s[n..] == s;
    }
  }

  /**
   * Every chunk is non-empty and at most k long, and every chunk except the
   * last is exactly k long.
   */
  lemma {:induction false} ChunksSizes<T>(s: seq<T>, k: nat)
    requires k > 0
    ensures forall i :: 0 <= i < |Chunks(s, k)| ==> 0 < |Chunks(s, k)[i]| <= k
    ensures forall i :: 0 <= i < |Chunks(s, k)| - 1 ==> |Chunks(s, k)[i]| == k
    decreases |s|
  {
    if |s| > 0 {
      var n := Min(k, |s|);
      ChunksSizes(s[n..], k);
      var c := Chunks(s, k);
      assert c == [s[..n]] + Chunks(s[n..], k);
      forall i | 0 <= i < |c|
        ensures 0 < |c[i]| <= k
        ensures i < |c| - 1 ==> |c[i]| == k
      {
        if i > 0 {
          assert c[i] == Chunks(s[n..], k)[i - 1];
        } else if |c| > 1 {
          assert |s[n..]| > 0;
        }
      }
    }
  }

  /**
   * The number of APPEND calls: zero for an empty stream, ceil(n / k) in
   * general, that is the one count c with (c - 1) * k < n <= c * k.
   */
  lemma {:induction false} ChunksCount<T>(s: seq<T>, k: nat)
    requires k > 0
    ensures |Chunks(s, k)| == CeilDiv(|s|, k)
    ensures |s| == 0 <==> |Chunks(s, k)| == 0
    ensures |s| <= |Chunks(s, k)| * k
    ensures |Chunks(s, k)| > 0 ==> (|Chunks(s, k)| - 1) * k < |s|
  {
    var c := |Chunks(s, k)|;
    ChunksBetween(s, k);
    if c == 0 {
      DivOf(k - 1, k, 0);
    } else {
      assert (c - 1) * k + k == c * k;
      DivOf(|s| + k - 1, k, c);
    }
  }

  lemma {:induction false} ChunksBetween<T>(s: seq<T>, k: nat)
    requires k > 0
    ensures |s| == 0 <==> |Chunks(s, k)| == 0
    ensures |s| <= |Chunks(s, k)| * k
    ensures |Chunks(s, k)| > 0 ==> (|Chunks(s, k)| - 1) * k < |s|
    decreases |s|
  {
    if |s| > k {
      ChunksBetween(s[k..], k);
      var c := |Chunks(s[k..], k)|;
      assert |Chunks(s, k)| == c + 1;
      assert (c + 1) * k == c * k + k;
      assert (c + 1 - 1) * k == c * k;
    } else if |s| > 0 {
      assert |Chunks(s, k)| == 1;
    }
  }

  /** Euclidean division pinned down by its bounds. */
  lemma DivOf(m: nat, k: nat, q: nat)
    requires k > 0 && q * k <= m < q * k + k
    ensures m / k == q
  {
    var d := m / k;
    DivModBounds(m, k);
    if d > q {
      MulMono(q + 1, d, k);
      MulSucc(q, k);
    } else if d < q {
      MulMono(d + 1, q, k);
      MulSucc(d, k);
    }
  }

  lemma DivModBounds(m: nat, k: nat)
    requires k > 0
    ensures (m / k) * k <= m < (m / k) * k + k
  {
  }

  lemma MulMono(a: nat, b: nat, k: nat)
    requires a <= b
    ensures a * k <= b * k
  {
  }

  lemma MulSucc(a: nat, k: nat)
    ensures (a + 1) * k == a * k + k
  {
  }

  /**
   * Chunk i is the byte range [i*k, min((i+1)*k, n)) of the input: chunks
   * come in stream order and neither overlap nor leave gaps.
   */
  lemma ChunkAt<T>(s: seq<T>, k: nat, i: nat)
    requires k > 0
    requires i < |Chunks(s, k)|
    ensures i * k < |s|
    ensures Chunks(s, k)[i] == s[i * k .. Min((i + 1) * k, |s|)]
  {
    ChunkFrom(s, k, i);
    OffsetIsProduct(i, k);
    MulSucc(i, k);
  }

  /** Where chunk i starts: k added up i times. */
  function Offset(i: nat, k: nat): nat
  {
    if i == 0 then 0 else Offset(i - 1, k) + k
  }

  lemma {:induction false} OffsetIsProduct(i: nat, k: nat)
    ensures Offset(i, k) == i * k
  {
    if i > 0 {
      OffsetIsProduct(i - 1, k);
      MulSucc(i - 1, k);
    }
  }

  /** `ChunkAt` in terms of `Offset`, so that the induction needs no multiplication. */
  lemma {:induction false} ChunkFrom<T>(s: seq<T>, k: nat, i: nat)
    requires k > 0
    requires i < |Chunks(s, k)|
    ensures Offset(i, k) < |s|
    ensures Chunks(s, k)[i] == s[Offset(i, k) .. Min(Offset(i, k) + k, |s|)]
    decreases |s|
  {
    var n := Min(k, |s|);
    var c := Chunks(s, k);
    assert c == [s[..n]] + Chunks(s[n..], k);
    if i > 0 {
      ChunksBetween(s[n..], k);
      assert n == k;
      ChunkFrom(s[k..], k, i - 1);
      var lo := Offset(i - 1, k);
      var hi := Min(lo + k, |s| - k);
      assert Offset(i, k) == lo + k;
      SliceShift(s, k, lo, hi);
      assert c[i] == Chunks(s[k..], k)[i - 1];
    }
  }

  lemma SliceShift<T>(s: seq<T>, k: nat, lo: nat, hi: nat)
    requires k <= |s| && lo <= hi <= |s| - k
    ensures s[k..][lo..hi] == s[k + lo .. k + hi]
  {
  }

  /**
   * After the first j APPENDs of the run the remote file holds exactly the
   * first min(j*k, n) bytes of the input: an upload cut short leaves a
   * prefix, never a gap.
   */
  lemma {:induction false} ChunksPrefix<T>(s: seq<T>, k: nat, j: nat)
    requires k > 0
    requires j <= |Chunks(s, k)|
    ensures Flatten(Chunks(s, k)[..j]) == s[..Min(j * k, |s|)]
  {
    var c := Chunks(s, k);
    if j == 0 {
      assert c[..0] == [];
    } else {
      ChunksPrefix(s, k, j - 1);
      ChunkAt(s, k, j - 1);
      MulSucc(j - 1, k);
      assert c[..j] == c[..j - 1] + [c[j - 1]];
      FlattenAppend(c[..j - 1], [c[j - 1]]);
      assert Flatten([c[j - 1]]) == c[j - 1] + Flatten([c[j - 1]][1..]);
      assert [c[j - 1]][1..] == [];
      var lo := (j - 1) * k;
      assert Min(lo, |s|) == lo;
      assert s[..lo] + s[lo..Min(j * k, |s|)] == s[..Min(j * k, |s|)];
    }
  }
}
