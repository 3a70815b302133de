/** Sequence helpers for numpy's tiling and reshaping, and the index arithmetic
    they need. A row-major array of `c` blocks of `n` elements is a `seq` whose
    element `b * n + q` is element `q` of block `b`. */
module Seqs {

  function Last<T>(s: seq<T>): T
    requires |s| > 0
  {
    s[|s| - 1]
  }

  /** `n` copies of `x`. */
  function Repeat<T>(x: T, n: nat): (r: seq<T>)
    ensures |r| == n
    ensures forall i :: 0 <= i < n ==> r[i] == x
  {
    seq(n, _ => x)
  }

  /** Every block has length `n`. */
  ghost predicate Uniform<T>(blocks: seq<seq<T>>, n: nat) {
    forall b :: 0 <= b < |blocks| ==> |blocks[b]| == n
  }

  /** For every element of `a`, a position of it in `b`. */
  lemma {:induction false} IndexIn<T>(a: seq<T>, b: seq<T>) returns (idx: seq<nat>)
    requires forall x :: x in a ==> x in b
    ensures |idx| == |a|
    ensures forall t :: 0 <= t < |a| ==> idx[t] < |b| && b[idx[t]] == a[t]
  {
    if a == [] {
      idx := [];
    } else {
      assert a[0] in a;
      forall x | x in a[1..] ensures x in b {
        assert x in a;
      }
      var rest := IndexIn(a[1..], b);
      var u :| 0 <= u < |b| && b[u] == a[0];
      idx := [u] + rest;
      assert forall t :: 1 <= t < |a| ==> idx[t] == rest[t - 1] && a[t] == a[1..][t - 1];
    }
  }

  /** The blocks concatenated in order (numpy's reshape(-1, ...)). */
  function Flatten<T>(blocks: seq<seq<T>>): seq<T> {
    if blocks == [] then [] else blocks[0] + Flatten(blocks[1..])
  }

  lemma MulNonNeg(a: int, b: int)
    requires a >= 0 && b >= 0
    ensures a * b >= 0
  {
  }

  lemma MulSucc(b: nat, n: nat)
    ensures (b + 1) * n == b * n + n
  {
  }

  lemma MulMonotone(a: nat, b: nat, n: nat)
    requires a <= b
    ensures a * n <= b * n
  {
    var d := b - a;
    assert b * n == a * n + d * n;
  }

  lemma {:induction false} FlattenLength<T>(blocks: seq<seq<T>>, n: nat)
    requires Uniform(blocks, n)
    ensures |Flatten(blocks)| == |blocks| * n
  {
    if blocks != [] {
      FlattenLength(blocks[1..], n);
      MulSucc(|blocks| - 1, n);
    }
  }

  /** Element `q` of block `b` sits at row `b * n + q` of the flattened sequence. */
  lemma {:induction false} FlattenIndex<T>(blocks: seq<seq<T>>, n: nat, b: nat, q: nat)
    requires Uniform(blocks, n)
    requires b < |blocks| && q < n
    ensures |Flatten(blocks)| == |blocks| * n
    ensures 0 <= b * n + q < |Flatten(blocks)| && Flatten(blocks)[b * n + q] == blocks[b][q]
  {
    FlattenLength(blocks, n);
    MulMonotone(b + 1, |blocks|, n);
    MulSucc(b, n);
    if b > 0 {
      FlattenIndex(blocks[1..], n, b - 1, q);
      MulSucc(b - 1, n);
    }
  }

  /** Row `i` of the flattened sequence is element `i % n` of block `i / n`. */
  lemma FlattenAll<T>(blocks: seq<seq<T>>, n: nat)
    requires Uniform(blocks, n)
    ensures |Flatten(blocks)| == |blocks| * n
    ensures forall i :: 0 <= i < |Flatten(blocks)| ==>
      n > 0 && 0 <= i / n < |blocks| && Flatten(blocks)[i] == blocks[i / n][i % n]
  {
    FlattenLength(blocks, n);
    forall i | 0 <= i < |Flatten(blocks)|
      ensures n > 0 && 0 <= i / n < |blocks| && Flatten(blocks)[i] == blocks[i / n][i % n]
    {
      DivSplit(i, |blocks|, n);
      FlattenIndex(blocks, n, i / n, i % n);
    }
  }

  /** A row below `c * n` splits into block `i / n` below `c` and offset `i % n`. */
  lemma DivSplit(i: nat, c: nat, n: nat)
    requires i < c * n
    ensures n > 0 && 0 <= i / n < c && i % n < n && i == (i / n) * n + i % n
  {
    if n > 0 && i / n >= c {
      MulMonotone(c, i / n, n);
    }
  }

  /** Source-major tiling: every element of `xs` repeated `n` times in place
      (numpy: tiling a `(len, d)` array along its last axis, then reshape(-1, d)). */
  function TileRows<T>(xs: seq<T>, n: nat): (r: seq<T>)
    ensures |r| == |xs| * n
    ensures forall i :: 0 <= i < |r| ==> n > 0 && 0 <= i / n < |xs| && r[i] == xs[i / n]
  {
    var blocks := seq(|xs|, s requires 0 <= s < |xs| => Repeat(xs[s], n));
    TileBlocks(xs, n, blocks);
    Flatten(blocks)
  }

  lemma TileBlocks<T>(xs: seq<T>, n: nat, blocks: seq<seq<T>>)
    requires blocks == seq(|xs|, s requires 0 <= s < |xs| => Repeat(xs[s], n))
    ensures |Flatten(blocks)| == |xs| * n
    ensures forall i :: 0 <= i < |Flatten(blocks)| ==>
      n > 0 && 0 <= i / n < |xs| && Flatten(blocks)[i] == xs[i / n]
  {
    FlattenAll(blocks, n);
    forall i | 0 <= i < |Flatten(blocks)|
      ensures n > 0 && 0 <= i / n < |xs| && Flatten(blocks)[i] == xs[i / n]
    {
      var b := i / n;
      assert Flatten(blocks)[i] == blocks[b][i % n];
    }
  }

  lemma TileRowsAt<T>(xs: seq<T>, n: nat, s: nat, p: nat, r: nat)
    requires s < |xs| && p < n && r == s * n + p
    ensures r < |TileRows(xs, n)| && TileRows(xs, n)[r] == xs[s]
  {
    var blocks := seq(|xs|, s requires 0 <= s < |xs| => Repeat(xs[s], n));
    FlattenIndex(blocks, n, s, p);
  }

  /** The whole of `xs` repeated `c` times (numpy: tiling a 1-D array, or
      `np.tile(a, (c, 1))` on a 2-D one). */
  function RepeatWhole<T>(xs: seq<T>, c: nat): (r: seq<T>)
    ensures |r| == c * |xs|
    ensures forall i :: 0 <= i < |r| ==> |xs| > 0 && r[i] == xs[i % |xs|]
  {
    var blocks := seq(c, _ => xs);
    FlattenAll(blocks, |xs|);
    Flatten(blocks)
  }

  lemma RepeatWholeAt<T>(xs: seq<T>, c: nat, b: nat, q: nat, r: nat)
    requires b < c && q < |xs| && r == b * |xs| + q
    ensures r < |RepeatWhole(xs, c)| && RepeatWhole(xs, c)[r] == xs[q]
  {
    var blocks := seq(c, _ => xs);
    FlattenIndex(blocks, |xs|, b, q);
  }

  /** Euclidean division is determined by quotient and remainder. */
  lemma DivModUnique(a: int, n: int, q: int, r: int)
    requires n > 0 && 0 <= r < n && a == q * n + r
    ensures a / n == q && a % n == r
  {
    var q', r' := a / n, a % n;
    assert a == q' * n + r';
    assert (q - q') * n == r' - r;
    if q > q' {
      MulMonotone(1, q - q', n);
    } else if q < q' {
      MulMonotone(1, q' - q, n);
    }
  }

  /** `c` consecutive blocks of `n` elements (numpy's reshape(c, n, ...)). */
  function Chunk<T>(s: seq<T>, c: nat, n: nat): (r: seq<seq<T>>)
    requires |s| == c * n
    ensures |r| == c && Uniform(r, n)
  {
    seq(c, b requires 0 <= b < c => Block(s, c, n, b))
  }

  function Block<T>(s: seq<T>, c: nat, n: nat, b: nat): (r: seq<T>)
    requires |s| == c * n && b < c
    ensures |r| == n
  {
    ChunkBound(b, c, n);
    s[b * n .. b * n + n]
  }

  lemma ChunkBound(b: nat, c: nat, n: nat)
    requires b < c
    ensures b * n + n <= c * n
  {
    MulSucc(b, n);
    MulMonotone(b + 1, c, n);
  }

  lemma ChunkAt<T>(s: seq<T>, c: nat, n: nat, b: nat, q: nat)
    requires |s| == c * n && b < c && q < n
    ensures 0 <= b * n + q < |s| && Chunk(s, c, n)[b][q] == s[b * n + q]
  {
    MulNonNeg(b, n);
    ChunkBound(b, c, n);
  }

  /** Chunking undoes flattening. */
  lemma ChunkFlatten<T>(blocks: seq<seq<T>>, n: nat)
    requires Uniform(blocks, n)
    ensures |Flatten(blocks)| == |blocks| * n
    ensures Chunk(Flatten(blocks), |blocks|, n) == blocks
  {
    FlattenLength(blocks, n);
    var r := Chunk(Flatten(blocks), |blocks|, n);
    forall b | 0 <= b < |blocks| ensures r[b] == blocks[b] {
      forall q | 0 <= q < n ensures r[b][q] == blocks[b][q] {
        ChunkAt(Flatten(blocks), |blocks|, n, b, q);
        FlattenIndex(blocks, n, b, q);
      }
    }
  }

  /** The row-major index identities behind every reshape of this layer:
      `s` sources, `j` path steps of `m`, `i` sensors of `k`, `p` pixels of `kp`. */
  lemma IndexIdentities(s: nat, j: nat, i: nat, p: nat, m: nat, k: nat, kp: nat)
    ensures s * (m * (k * kp)) + ((j * k + i) * kp + p) == (s * m + j) * (k * kp) + (i * kp + p)
    ensures (j * k + i) * kp + p == j * (k * kp) + (i * kp + p)
  {
  }

  /** Row `(j * k + i) * kp + p` lies inside an `m * k * kp` block. */
  lemma IndexBound(j: nat, i: nat, p: nat, m: nat, k: nat, kp: nat)
    requires j < m && i < k && p < kp
    ensures (j * k + i) * kp + p < m * (k * kp)
    ensures j * (k * kp) + (i * kp + p) < m * (k * kp)
  {
    ChunkBound(i, k, kp);
    ChunkBound(j, m, k * kp);
    IndexIdentities(0, j, i, p, m, k, kp);
  }

  /** `a` has shape (l, m, k, kp). */
  ghost predicate Shape4<T>(a: seq<seq<seq<seq<T>>>>, l: nat, m: nat, k: nat, kp: nat) {
    |a| == l && forall s :: 0 <= s < l ==> Shape3(a[s], m, k, kp)
  }

  /** `a` has shape (m, k, kp). */
  ghost predicate Shape3<T>(a: seq<seq<seq<T>>>, m: nat, k: nat, kp: nat) {
    |a| == m && forall j :: 0 <= j < m ==> |a[j]| == k && Uniform(a[j], kp)
  }

  /** Two arrays of one shape are equal when their elements are. */
  lemma SeqEqual4<T>(a: seq<seq<seq<seq<T>>>>, b: seq<seq<seq<seq<T>>>>, l: nat, m: nat, k: nat, kp: nat)
    requires Shape4(a, l, m, k, kp) && Shape4(b, l, m, k, kp)
    requires forall s, j, i, p :: 0 <= s < l && 0 <= j < m && 0 <= i < k && 0 <= p < kp ==>
      a[s][j][i][p] == b[s][j][i][p]
    ensures a == b
  {
    forall s | 0 <= s < l ensures a[s] == b[s] {
      SeqEqual3(a[s], b[s], m, k, kp);
    }
  }

  lemma SeqEqual3<T>(a: seq<seq<seq<T>>>, b: seq<seq<seq<T>>>, m: nat, k: nat, kp: nat)
    requires Shape3(a, m, k, kp) && Shape3(b, m, k, kp)
    requires forall j, i, p :: 0 <= j < m && 0 <= i < k && 0 <= p < kp ==> a[j][i][p] == b[j][i][p]
    ensures a == b
  {
    forall j | 0 <= j < m ensures a[j] == b[j] {
      forall i | 0 <= i < k ensures a[j][i] == b[j][i] {
        assert |a[j][i]| == kp == |b[j][i]|;
      }
    }
  }

  lemma MulAssoc(a: nat, b: nat, c: nat)
    ensures (a * b) * c == a * (b * c)
  {
  }

  /** numpy's reshape of a flat sequence to (m, k, kp). */
  function Reshape3<T>(v: seq<T>, m: nat, k: nat, kp: nat): (r: seq<seq<seq<T>>>)
    requires |v| == m * (k * kp)
    ensures Shape3(r, m, k, kp)
  {
    var steps := Chunk(v, m, k * kp);
    seq(m, j requires 0 <= j < m => Chunk(steps[j], k, kp))
  }

  lemma Reshape3At<T>(v: seq<T>, m: nat, k: nat, kp: nat, j: nat, i: nat, p: nat)
    requires |v| == m * (k * kp) && j < m && i < k && p < kp
    ensures i * kp + p < k * kp
    ensures 0 <= j * (k * kp) + (i * kp + p) < |v| && Reshape3(v, m, k, kp)[j][i][p] == v[j * (k * kp) + (i * kp + p)]
  {
    Reshape3Bound(m, k, kp, j, i, p);
    var steps := Chunk(v, m, k * kp);
    ChunkAt(steps[j], k, kp, i, p);
    ChunkAt(v, m, k * kp, j, i * kp + p);
  }

  lemma Reshape3Bound(m: nat, k: nat, kp: nat, j: nat, i: nat, p: nat)
    requires j < m && i < k && p < kp
    ensures 0 <= i * kp + p < k * kp
    ensures 0 <= j * (k * kp) + (i * kp + p) < m * (k * kp)
  {
    ChunkBound(i, k, kp);
    MulNonNeg(i, kp);
    MulNonNeg(j, k * kp);
    ChunkBound(j, m, k * kp);
  }
}
