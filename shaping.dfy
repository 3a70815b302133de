/** The returned array: the (l0, m, k * kp) rows rearranged to the shape
    (l0, m, k, N1, N2, ...), optionally summed over the sources and optionally
    with every axis of length one dropped. The trailing axis of the three
    field components is the `Vec3` of each entry. */
module Shaping {
  import opened Geometry
  import opened Objects
  import opened Seqs
  import opened Tiling
  import opened Grouping
  import opened Assemble

  /** A numpy array of field vectors: a shape and its entries in row-major
      order. */
  datatype Field = Field(shape: seq<nat>, data: seq<Vec3>)

  predicate Consistent(f: Field) {
    |f.data| == Product(f.shape)
  }

  lemma ProductCons(a: nat, t: seq<nat>)
    ensures Product([a] + t) == a * Product(t)
  {
    assert ([a] + t)[1..] == t;
  }

  /** The entries of one block in row-major order. */
  function FlattenBlock(b: Block, m: nat, k: nat, kp: nat): (v: seq<Vec3>)
    requires Shape3(b, m, k, kp)
    ensures |v| == m * (k * kp)
    ensures Reshape3(v, m, k, kp) == b
  {
    var steps := seq(m, j requires 0 <= j < m => Flatten(b[j]));
    forall j | 0 <= j < m ensures |steps[j]| == k * kp {
      FlattenLength(b[j], kp);
    }
    ChunkFlatten(steps, k * kp);
    var v := Flatten(steps);
    forall j | 0 <= j < m ensures Chunk(Chunk(v, m, k * kp)[j], k, kp) == b[j] {
      ChunkFlatten(b[j], kp);
    }
    v
  }

  /** The rows of all sources rearranged to (l0, m, k, N1, N2, ...): reading
      the entries back with the dispatch's reshape gives the rows again. */
  function Arrange(D: seq<Block>, m: nat, k: nat, pixShape: seq<nat>): (f: Field)
    requires Shape4(D, |D|, m, k, Product(pixShape))
    ensures f.shape == [|D|, m, k] + pixShape && Consistent(f)
    ensures |f.data| == |D| * (m * (k * Product(pixShape)))
    ensures ReshapeGroup(f.data, |D|, m, k, Product(pixShape)) == D
  {
    ArrangeShape(|D|, m, k, pixShape);
    Field([|D|, m, k] + pixShape, ArrangeData(D, m, k, Product(pixShape)))
  }

  /** The entries of all rows in row-major order. */
  function ArrangeData(D: seq<Block>, m: nat, k: nat, kp: nat): (v: seq<Vec3>)
    requires Shape4(D, |D|, m, k, kp)
    ensures |v| == |D| * (m * (k * kp))
    ensures ReshapeGroup(v, |D|, m, k, kp) == D
  {
    var rows := seq(|D|, s requires 0 <= s < |D| => FlattenBlock(D[s], m, k, kp));
    ChunkFlatten(rows, m * (k * kp));
    Flatten(rows)
  }

  lemma ArrangeShape(n: nat, m: nat, k: nat, pixShape: seq<nat>)
    ensures Product([n, m, k] + pixShape) == n * (m * (k * Product(pixShape)))
  {
    var t := [n, m, k] + pixShape;
    assert t[1..][1..][1..] == pixShape;
    assert Product(t[1..][1..]) == k * Product(pixShape);
    assert Product(t[1..]) == m * (k * Product(pixShape));
  }

  /** One block rearranged to (m, k, N1, N2, ...). */
  function ArrangeBlock(b: Block, m: nat, k: nat, pixShape: seq<nat>): (f: Field)
    requires Shape3(b, m, k, Product(pixShape))
    ensures f.shape == [m, k] + pixShape && Consistent(f)
    ensures |f.data| == m * (k * Product(pixShape))
    ensures Reshape3(f.data, m, k, Product(pixShape)) == b
  {
    ProductCons(m, [k] + pixShape);
    ProductCons(k, pixShape);
    assert [m] + ([k] + pixShape) == [m, k] + pixShape;
    Field([m, k] + pixShape, FlattenBlock(b, m, k, Product(pixShape)))
  }

  /** `np.squeeze`: the shape without its axes of length one. */
  function {:induction false} DropOnes(shape: seq<nat>): (r: seq<nat>)
    ensures |r| <= |shape|
    ensures forall t :: 0 <= t < |r| ==> r[t] != 1
    ensures forall d :: d in r ==> d in shape
    ensures Product(r) == Product(shape)
  {
    if shape == [] then []
    else
      var rest := DropOnes(shape[1..]);
      if shape[0] == 1 then rest
      else
        ProductCons(shape[0], rest);
        [shape[0]] + rest
  }

  /** Squeezing only drops axes: a shape without ones is left as it is, and
      squeezing twice is squeezing once. */
  lemma {:induction false} DropOnesNoOp(shape: seq<nat>)
    ensures DropOnes(shape) == shape <==> 1 !in shape
  {
    if shape != [] {
      DropOnesNoOp(shape[1..]);
      if shape[0] == 1 {
        assert |DropOnes(shape)| < |shape|;
      } else {
        assert shape == [shape[0]] + shape[1..];
      }
    }
  }

  lemma DropOnesIdempotent(shape: seq<nat>)
    ensures DropOnes(DropOnes(shape)) == DropOnes(shape)
  {
    DropOnesNoOp(DropOnes(shape));
  }

  /** The axis lengths squeezing keeps: every entry of the shape other than
      one. */
  lemma {:induction false} DropOnesKeeps(shape: seq<nat>, d: nat)
    requires d != 1
    ensures d in DropOnes(shape) <==> d in shape
  {
    if shape != [] {
      DropOnesKeeps(shape[1..], d);
      assert d in shape <==> d == shape[0] || d in shape[1..];
    }
  }

  /** Squeezing works axis by axis: one axis is dropped iff its length is
      one, ... */
  lemma DropOnesSingle(d: nat)
    ensures DropOnes([d]) == if d == 1 then [] else [d]
  {
    assert [d][1..] == [];
  }

  /** ... and the kept axes of a shape split in two are those of the first
      part followed by those of the second, so their order is kept. */
  lemma {:induction false} DropOnesConcat(a: seq<nat>, b: seq<nat>)
    ensures DropOnes(a + b) == DropOnes(a) + DropOnes(b)
  {
    if a != [] {
      assert (a + b)[0] == a[0];
      assert (a + b)[1..] == a[1..] + b;
      DropOnesConcat(a[1..], b);
    } else {
      assert a + b == b;
    }
  }

  function Squeeze(f: Field): (r: Field)
    requires Consistent(f)
    ensures Consistent(r) && r.data == f.data && r.shape == DropOnes(f.shape)
  {
    Field(DropOnes(f.shape), f.data)
  }

  /** The end of the computation: the rearranged rows, or with `sumup` their
      sum over the sources, squeezed when asked. */
  function Finish(D: seq<Block>, m: nat, k: nat, pixShape: seq<nat>, sumup: bool, squeeze: bool): (f: Field)
    requires Shape4(D, |D|, m, k, Product(pixShape))
    ensures Consistent(f)
    ensures sumup ==> f.shape == if squeeze then DropOnes([m, k] + pixShape) else [m, k] + pixShape
    ensures !sumup ==> f.shape == if squeeze then DropOnes([|D|, m, k] + pixShape) else [|D|, m, k] + pixShape
  {
    var f := Unsqueezed(D, m, k, pixShape, sumup);
    if squeeze then Squeeze(f) else f
  }

  /** The rearranged rows, or with `sumup` their sum over the sources. */
  function Unsqueezed(D: seq<Block>, m: nat, k: nat, pixShape: seq<nat>, sumup: bool): (f: Field)
    requires Shape4(D, |D|, m, k, Product(pixShape))
    ensures Consistent(f)
    ensures f.shape == if sumup then [m, k] + pixShape else [|D|, m, k] + pixShape
  {
    if sumup then ArrangeBlock(SumBlocks(D, m, k, Product(pixShape)), m, k, pixShape)
    else Arrange(D, m, k, pixShape)
  }

  /** The entries of the result, read back with the dispatch's reshape, are
      the rows of the sources, or with `sumup` their sum; squeezing does not
      move them. */
  lemma FinishData(D: seq<Block>, m: nat, k: nat, pixShape: seq<nat>, squeeze: bool)
    requires Shape4(D, |D|, m, k, Product(pixShape))
    ensures var kp := Product(pixShape);
      var f := Finish(D, m, k, pixShape, false, squeeze);
      |f.data| == |D| * (m * (k * kp)) && ReshapeGroup(f.data, |D|, m, k, kp) == D
    ensures var kp := Product(pixShape);
      var f := Finish(D, m, k, pixShape, true, squeeze);
      |f.data| == m * (k * kp) && Reshape3(f.data, m, k, kp) == SumBlocks(D, m, k, kp)
  {
    assert Finish(D, m, k, pixShape, false, squeeze).data == Arrange(D, m, k, pixShape).data;
    var kp := Product(pixShape);
    assert Finish(D, m, k, pixShape, true, squeeze).data
      == ArrangeBlock(SumBlocks(D, m, k, kp), m, k, pixShape).data;
  }
}
