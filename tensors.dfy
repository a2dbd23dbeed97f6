/** Rank-3 tensors of reals, as the scoring pipeline passes them between stages. */
module Tensors {

  /** A rank-3 array with its declared shape (d0, d1, d2); entry (i, j, k) is v[i][j][k].
      The shape is kept explicitly so that it survives empty leading axes. */
  datatype Dense3 = Dense3(d0: nat, d1: nat, d2: nat, v: seq<seq<seq<real>>>) {
    predicate Rectangular() {
      && |v| == d0
      && (forall i | 0 <= i < |v| :: |v[i]| == d1)
      && (forall i, j | 0 <= i < |v| && 0 <= j < |v[i]| :: |v[i][j]| == d2)
    }
  }

  /** A tensor: its data has exactly its declared shape. */
  type Tensor3 = t: Dense3 | t.Rectangular() witness Dense3(0, 0, 0, [])

  predicate SameShape(a: Tensor3, b: Tensor3) {
    a.d0 == b.d0 && a.d1 == b.d1 && a.d2 == b.d2
  }

  function Zeros(n: nat): (z: seq<real>)
    ensures |z| == n && forall i | 0 <= i < n :: z[i] == 0.0
  {
    seq(n, _ => 0.0)
  }
}
