/** Min-max normalisation of the kept scores: (data - min) / (max - min), computed
    element-wise over exact reals. */
module MinMax {
  import opened Wrappers

  /** np.max of an empty array raises; an all-equal array has range 0, for which numpy
      yields NaN in every entry instead of a number. */
  datatype NormError = EmptyArray | ZeroRange

  function Max(d: seq<real>): (m: real)
    requires |d| > 0
    ensures forall i | 0 <= i < |d| :: d[i] <= m
    ensures exists i | 0 <= i < |d| :: d[i] == m
  {
    if |d| == 1 then d[0]
    else
      var m := Max(d[1..]);
      assert forall i | 1 <= i < |d| :: d[i] == d[1..][i - 1];
      if d[0] >= m then d[0] else m
  }

  function Min(d: seq<real>): (m: real)
    requires |d| > 0
    ensures forall i | 0 <= i < |d| :: m <= d[i]
    ensures exists i | 0 <= i < |d| :: d[i] == m
  {
    if |d| == 1 then d[0]
    else
      var m := Min(d[1..]);
      assert forall i | 1 <= i < |d| :: d[i] == d[1..][i - 1];
      if d[0] <= m then d[0] else m
  }

  /** One score shifted by the minimum and divided by the range. */
  function Scaled(x: real, lo: real, hi: real): real
    requires lo < hi
  {
    (x - lo) / (hi - lo)
  }

  /** `normalization`: every score shifted by the minimum and divided by the range. */
  function Normalization(d: seq<real>): (r: Result<seq<real>, NormError>)
    ensures r == Err(EmptyArray) <==> |d| == 0
    ensures r.Ok? ==> |r.value| == |d|
  {
    if |d| == 0 then Err(EmptyArray)
    else
      var range := Max(d) - Min(d);
      if range == 0.0 then Err(ZeroRange)
      else Ok(seq(|d|, i requires 0 <= i < |d| => Scaled(d[i], Min(d), Max(d))))
  }

  /** Entry i of the result is score i shifted by the minimum and divided by the range. */
  lemma NormalizationEntry(d: seq<real>, i: nat)
    requires Normalization(d).Ok? && i < |d|
    ensures Min(d) < Max(d)
    ensures Normalization(d).value[i] == Scaled(d[i], Min(d), Max(d))
  {
  }

  /** The inverse map: min + n * (max - min). */
  function Denormalize(n: seq<real>, lo: real, hi: real): seq<real> {
    seq(|n|, i requires 0 <= i < |n| => lo + n[i] * (hi - lo))
  }

  predicate AllEqual(d: seq<real>) {
    forall i | 0 <= i < |d| :: d[i] == d[0]
  }

  /** The zero-range error, in both directions: it is raised exactly for a non-empty array
      of equal values. */
  lemma NormalizationFails(d: seq<real>)
    ensures Normalization(d) == Err(ZeroRange) <==> |d| > 0 && AllEqual(d)
  {
    if |d| > 0 && Max(d) == Min(d) {
      assert forall i | 0 <= i < |d| :: d[i] == d[0];
    }
    if |d| > 0 && AllEqual(d) {
      var i :| 0 <= i < |d| && d[i] == Max(d);
      var j :| 0 <= j < |d| && d[j] == Min(d);
    }
  }

  /** Every normalised score lies in [0, 1]; exactly the minima map to 0 and exactly the
      maxima map to 1. */
  lemma NormalizationUnitInterval(d: seq<real>)
    requires Normalization(d).Ok?
    ensures var n := Normalization(d).value;
            && |n| == |d|
            && (forall i | 0 <= i < |d| :: 0.0 <= n[i] <= 1.0)
            && (forall i | 0 <= i < |d| :: n[i] == 0.0 <==> d[i] == Min(d))
            && (forall i | 0 <= i < |d| :: n[i] == 1.0 <==> d[i] == Max(d))
  {
    var n := Normalization(d).value;
    var lo, hi := Min(d), Max(d);
    forall i | 0 <= i < |d|
      ensures 0.0 <= n[i] <= 1.0
      ensures n[i] == 0.0 <==> d[i] == lo
      ensures n[i] == 1.0 <==> d[i] == hi
    {
      NormalizedEntry(d[i], lo, hi);
    }
  }

  /** One entry: lo <= x <= hi with lo < hi maps into [0, 1], onto 0 exactly at lo and onto
      1 exactly at hi. */
  lemma NormalizedEntry(x: real, lo: real, hi: real)
    requires lo <= x <= hi && lo < hi
    ensures 0.0 <= (x - lo) / (hi - lo) <= 1.0
    ensures (x - lo) / (hi - lo) == 0.0 <==> x == lo
    ensures (x - lo) / (hi - lo) == 1.0 <==> x == hi
  {
    DivideByRange(x - lo, hi - lo);
  }

  /** Normalisation keeps the relative order of the scores, in both directions. */
  lemma NormalizationMonotone(d: seq<real>)
    requires Normalization(d).Ok?
    ensures var n := Normalization(d).value;
            forall i, j | 0 <= i < |d| && 0 <= j < |d| :: (d[i] <= d[j] <==> n[i] <= n[j])
  {
    var n := Normalization(d).value;
    var lo, range := Min(d), Max(d) - Min(d);
    forall i, j | 0 <= i < |d| && 0 <= j < |d|
      ensures d[i] <= d[j] <==> n[i] <= n[j]
    {
      DivideMonotone(d[i] - lo, d[j] - lo, range);
    }
  }

  /** Denormalising with the same minimum and maximum recovers the original scores. */
  lemma NormalizationRoundTrip(d: seq<real>)
    requires Normalization(d).Ok?
    ensures Denormalize(Normalization(d).value, Min(d), Max(d)) == d
  {
    var n := Normalization(d).value;
    var lo, hi := Min(d), Max(d);
    var back := Denormalize(n, lo, hi);
    forall i | 0 <= i < |d| ensures back[i] == d[i] {
      DivideThenMultiply(d[i] - lo, hi - lo);
    }
  }

  lemma DivideByRange(a: real, r: real)
    requires r > 0.0
    ensures a / r == 0.0 <==> a == 0.0
    ensures a / r == 1.0 <==> a == r
    ensures 0.0 <= a ==> 0.0 <= a / r
    ensures a <= r ==> a / r <= 1.0
  {
  }

  lemma DivideMonotone(a: real, b: real, r: real)
    requires r > 0.0
    ensures a <= b <==> a / r <= b / r
  {
  }

  lemma DivideThenMultiply(a: real, r: real)
    requires r > 0.0
    ensures (a / r) * r == a
  {
  }
}
