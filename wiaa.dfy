/** The wavelet-attention block: every (batch, channel) row of a (B, C, N) tensor is replaced
    by the approximation coefficients of its one-level Haar decomposition, forced back to
    length N; attention runs on that view, and the original input is added back. */
module WIAA {
  import opened Tensors

  /** Reference definition of the length policy: entry i is coefficient i when there is one,
      and 0 otherwise, for i < n. */
  function FitLength(coeffs: seq<real>, n: nat): (r: seq<real>)
    ensures |r| == n
  {
    seq(n, i requires 0 <= i < n => if i < |coeffs| then coeffs[i] else 0.0)
  }

  /** The transform the block applies: row (b, c) becomes FitLength(approx(row), N), where
      `approx` is the approximation band of the one-level Haar decomposition (any length). */
  function WaveletSpec(x: Tensor3, approx: seq<real> -> seq<real>): (r: Tensor3)
    ensures SameShape(r, x)
  {
    Dense3(x.d0, x.d1, x.d2,
           seq(x.d0, b requires 0 <= b < x.d0 =>
             seq(x.d1, c requires 0 <= c < x.d1 => FitLength(approx(x.v[b][c]), x.d2))))
  }

  /** `wavelet_transform`: nested loops over (b, c) that pad or truncate each row's
      coefficients and write them into a preallocated zero array. */
  method WaveletTransform(x: Tensor3, approx: seq<real> -> seq<real>) returns (r: Tensor3)
    ensures r == WaveletSpec(x, approx)
  {
    var B, C, N := x.d0, x.d1, x.d2;
    var transformed := new seq<real>[B, C]((_, _) => Zeros(N));
    for b := 0 to B
      invariant forall i, j | 0 <= i < b && 0 <= j < C ::
                  transformed[i, j] == FitLength(approx(x.v[i][j]), N)
    {
      FillRow(transformed, b, x, approx);
    }
    r := Collect(transformed, x, approx);
  }

  /** The inner loop over channels: row b of the array receives the fitted coefficients of
      every channel of image b; the other rows are untouched. */
  method FillRow(transformed: array2<seq<real>>, b: nat, x: Tensor3, approx: seq<real> -> seq<real>)
    requires transformed.Length0 == x.d0 && transformed.Length1 == x.d1 && b < x.d0
    modifies transformed
    ensures forall j | 0 <= j < x.d1 :: transformed[b, j] == FitLength(approx(x.v[b][j]), x.d2)
    ensures forall i, j | 0 <= i < x.d0 && i != b && 0 <= j < x.d1 ::
              transformed[i, j] == old(transformed[i, j])
  {
    for c := 0 to x.d1
      invariant forall j | 0 <= j < c :: transformed[b, j] == FitLength(approx(x.v[b][j]), x.d2)
      invariant forall i, j | 0 <= i < x.d0 && i != b && 0 <= j < x.d1 ::
                  transformed[i, j] == old(transformed[i, j])
    {
      var coeffsArray := FitRow(approx(x.v[b][c]), x.d2);
      transformed[b, c] := coeffsArray;
    }
  }

  /** `torch.tensor(transformed)`: the filled array, read back as a (B, C, N) tensor. */
  method Collect(transformed: array2<seq<real>>, x: Tensor3, approx: seq<real> -> seq<real>)
    returns (r: Tensor3)
    requires transformed.Length0 == x.d0 && transformed.Length1 == x.d1
    requires forall i, j | 0 <= i < x.d0 && 0 <= j < x.d1 ::
               transformed[i, j] == FitLength(approx(x.v[i][j]), x.d2)
    ensures r == WaveletSpec(x, approx)
  {
    var B, C := x.d0, x.d1;
    var rows := seq(B, i requires 0 <= i < B reads transformed =>
                  seq(C, j requires 0 <= j < C reads transformed => transformed[i, j]));
    ghost var spec := WaveletSpec(x, approx);
    forall i | 0 <= i < B ensures rows[i] == spec.v[i] {
      assert forall j | 0 <= j < C :: rows[i][j] == spec.v[i][j];
    }
    r := Dense3(B, C, x.d2, rows);
  }

  /** The body of the loop: a short coefficient array is padded with zeros, a long one is
      cut, and one of length N is kept as it is. */
  method FitRow(coeffs: seq<real>, n: nat) returns (row: seq<real>)
    ensures row == FitLength(coeffs, n)
  {
    row := coeffs;
    if |row| < n {
      PaddedPrefix(row, n);
      row := row + Zeros(n - |row|);
    } else if |row| > n {
      TruncatedPrefix(row, n);
      row := row[..n];
    } else {
      TruncatedPrefix(row, n);
      assert row[..n] == row;
    }
  }

  /** A short coefficient array is kept whole and followed by zeros. */
  lemma PaddedPrefix(coeffs: seq<real>, n: nat)
    requires |coeffs| <= n
    ensures FitLength(coeffs, n) == coeffs + Zeros(n - |coeffs|)
  {
  }

  /** A long coefficient array is cut to its first n entries. */
  lemma TruncatedPrefix(coeffs: seq<real>, n: nat)
    requires n <= |coeffs|
    ensures FitLength(coeffs, n) == coeffs[..n]
  {
  }

  /** Every row of the transformed tensor has length exactly N, and each row depends only
      on the input row at the same (b, c) position. */
  lemma WaveletRowwise(x: Tensor3, y: Tensor3, approx: seq<real> -> seq<real>, b: nat, c: nat)
    requires SameShape(x, y) && b < x.d0 && c < x.d1
    requires x.v[b][c] == y.v[b][c]
    ensures |WaveletSpec(x, approx).v[b][c]| == x.d2
    ensures WaveletSpec(x, approx).v[b][c] == WaveletSpec(y, approx).v[b][c]
  {
  }

  /** Element-wise sum of two tensors of one shape. */
  function Add(a: Tensor3, x: Tensor3): (r: Tensor3)
    requires SameShape(a, x)
    ensures SameShape(r, x)
  {
    Dense3(x.d0, x.d1, x.d2,
           seq(x.d0, b requires 0 <= b < x.d0 =>
             seq(x.d1, c requires 0 <= c < x.d1 =>
               seq(x.d2, n requires 0 <= n < x.d2 => a.v[b][c][n] + x.v[b][c][n]))))
  }

  /** `forward`: attention on the wavelet view, plus the untransformed input. `attend` stands
      for the learned part (projections, softmax, value product, reshape, dropout); its
      result has the input's shape because of the reshape to (B, C, N). */
  method Forward(x: Tensor3, approx: seq<real> -> seq<real>, attend: Tensor3 -> Tensor3)
    returns (r: Tensor3)
    requires SameShape(attend(WaveletSpec(x, approx)), x)
    ensures SameShape(r, x)
    ensures r == Add(attend(WaveletSpec(x, approx)), x)
  {
    var w := WaveletTransform(x, approx);
    var a := attend(w);
    r := Add(a, x);
  }

  /** The residual bypasses the wavelet step: the block's output minus its input depends on
      the input only through the wavelet view, so two inputs with the same view get the same
      correction, and the input itself is never replaced by its lossy transform. */
  lemma ResidualBypassesWavelet(x: Tensor3, y: Tensor3, approx: seq<real> -> seq<real>,
                                attend: Tensor3 -> Tensor3)
    requires SameShape(x, y) && WaveletSpec(x, approx) == WaveletSpec(y, approx)
    requires SameShape(attend(WaveletSpec(x, approx)), x)
    ensures var rx := Add(attend(WaveletSpec(x, approx)), x);
            var ry := Add(attend(WaveletSpec(y, approx)), y);
            forall b, c, n | 0 <= b < x.d0 && 0 <= c < x.d1 && 0 <= n < x.d2 ::
              rx.v[b][c][n] - x.v[b][c][n] == ry.v[b][c][n] - y.v[b][c][n]
  {
  }
}
