/** Capturing the backbone's intermediate block outputs and assembling the multi-depth
    feature from them. */
module Taps {
  import opened Wrappers
  import opened Tensors

  /** The forward hook registered on every backbone block: each call appends the block's
      output to `outputs`. */
  class SaveOutput {
    var outputs: seq<Tensor3>

    constructor ()
      ensures outputs == []
    {
      outputs := [];
    }

    /** `__call__(module, module_in, module_out)`: only the block's output is recorded. */
    method Call(moduleOut: Tensor3)
      modifies this
      ensures outputs == old(outputs) + [moduleOut]
    {
      outputs := outputs + [moduleOut];
    }

    method Clear()
      modifies this
      ensures outputs == []
    {
      outputs := [];
    }
  }

  /** `outputs[k]` past the end of the list (IndexError), or `torch.cat` of tensors whose
      batch or token counts differ. */
  datatype TapError = IndexOutOfRange(captured: nat) | ConcatShapeMismatch

  /** `x[:, 1:]`: the class token (token 0) is dropped; an empty token axis stays empty. */
  function DropClassToken(x: Tensor3): (r: Tensor3)
    ensures r.d0 == x.d0 && r.d2 == x.d2 && r.d1 == (if x.d1 == 0 then 0 else x.d1 - 1)
    ensures forall b, t | 0 <= b < r.d0 && 0 <= t < r.d1 :: r.v[b][t] == x.v[b][t + 1]
  {
    if x.d1 == 0 then x
    else Dense3(x.d0, x.d1 - 1, x.d2, seq(x.d0, b requires 0 <= b < x.d0 => x.v[b][1..]))
  }

  predicate Concatenable(a: Tensor3, b: Tensor3) {
    a.d0 == b.d0 && a.d1 == b.d1
  }

  /** `torch.cat((a, b), dim=2)`: the batch and token axes are kept, and at every token the
      channels of `a` come first, followed by those of `b`. */
  function CatChannels(a: Tensor3, b: Tensor3): (r: Tensor3)
    requires Concatenable(a, b)
    ensures r.d0 == a.d0 && r.d1 == a.d1 && r.d2 == a.d2 + b.d2
    ensures forall i, t | 0 <= i < r.d0 && 0 <= t < r.d1 ::
              r.v[i][t][..a.d2] == a.v[i][t] && r.v[i][t][a.d2..] == b.v[i][t]
  {
    Dense3(a.d0, a.d1, a.d2 + b.d2,
           seq(a.d0, i requires 0 <= i < a.d0 =>
             seq(a.d1, t requires 0 <= t < a.d1 => a.v[i][t] + b.v[i][t])))
  }

  /** `extract_feature`: blocks 6, 7, 8 and 9, without their class token, concatenated on
      the channel axis in that order. */
  function ExtractFeature(outputs: seq<Tensor3>): (r: Result<Tensor3, TapError>)
    ensures r.Ok? ==>
              && |outputs| >= 10
              && r.value.d0 == outputs[6].d0
              && r.value.d1 == (if outputs[6].d1 == 0 then 0 else outputs[6].d1 - 1)
              && r.value.d2 == outputs[6].d2 + outputs[7].d2 + outputs[8].d2 + outputs[9].d2
  {
    if |outputs| < 10 then Err(IndexOutOfRange(|outputs|))
    else
      var x6, x7 := DropClassToken(outputs[6]), DropClassToken(outputs[7]);
      var x8, x9 := DropClassToken(outputs[8]), DropClassToken(outputs[9]);
      if Concatenable(x6, x7) && Concatenable(x6, x8) && Concatenable(x6, x9)
      then Ok(CatChannels(CatChannels(CatChannels(x6, x7), x8), x9))
      else Err(ConcatShapeMismatch)
  }

  /** Extraction needs at least ten captured outputs; with them, it fails only when the four
      tapped blocks disagree on batch or token count. */
  lemma ExtractFeatureFails(outputs: seq<Tensor3>)
    ensures ExtractFeature(outputs) == Err(IndexOutOfRange(|outputs|)) <==> |outputs| < 10
    ensures ExtractFeature(outputs) == Err(ConcatShapeMismatch) <==>
              && |outputs| >= 10
              && !(forall k | 7 <= k <= 9 :: Concatenable(DropClassToken(outputs[6]), DropClassToken(outputs[k])))
  {
  }

  /** Token t of image b in the extracted feature is token t + 1 of blocks 6, 7, 8 and 9,
      placed side by side in that order. */
  lemma ExtractFeatureLayout(outputs: seq<Tensor3>)
    requires ExtractFeature(outputs).Ok?
    ensures var x := ExtractFeature(outputs).value;
            forall b, t | 0 <= b < x.d0 && 0 <= t < x.d1 ::
                 x.v[b][t] == outputs[6].v[b][t + 1] + outputs[7].v[b][t + 1]
                              + outputs[8].v[b][t + 1] + outputs[9].v[b][t + 1]
  {
    var x6, x7 := DropClassToken(outputs[6]), DropClassToken(outputs[7]);
    var x8, x9 := DropClassToken(outputs[8]), DropClassToken(outputs[9]);
    var x := ExtractFeature(outputs).value;
    forall b, t | 0 <= b < x.d0 && 0 <= t < x.d1
      ensures x.v[b][t] == outputs[6].v[b][t + 1] + outputs[7].v[b][t + 1]
                           + outputs[8].v[b][t + 1] + outputs[9].v[b][t + 1]
    {
      assert x.v[b][t] == x6.v[b][t] + x7.v[b][t] + x8.v[b][t] + x9.v[b][t];
    }
  }

  /** Only entries 6..9 matter: outputs captured after them do not change the feature. */
  lemma ExtractFeatureIgnoresLaterOutputs(outputs: seq<Tensor3>, later: seq<Tensor3>)
    requires |outputs| >= 10
    ensures ExtractFeature(outputs + later) == ExtractFeature(outputs)
  {
    assert forall k | 6 <= k <= 9 :: (outputs + later)[k] == outputs[k];
  }
}
