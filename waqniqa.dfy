/** The quality model's own bookkeeping: what its constructor fixes, and the part of
    `forward` that fills and clears the tap list and pools the per-location predictions. */
module Waqniqa {
  import opened Wrappers
  import opened Tensors
  import opened Taps
  import opened Pooling
  import QCFE

  class WAQNIQA {
    const imgSize: nat
    const patchSize: nat
    /** Side of the patch grid, img_size // patch_size. */
    const inputSize: nat
    /** The `dim` each wavelet-attention block of the two stages is built with. */
    const tabDims1: seq<nat>
    const tabDims2: seq<nat>
    /** The two channel-fusion blocks, as layer lists. */
    const conv1: seq<QCFE.Layer>
    const conv2: seq<QCFE.Layer>
    /** The hook object registered on every backbone block. */
    const saveOutput: SaveOutput

    /** The constructor, with the source's defaults for the arguments it uses here. */
    constructor (embedDim: nat := 72, patchSize: nat := 8, imgSize: nat := 224, numTab: nat := 2)
      requires patchSize > 0
      ensures this.imgSize == imgSize && this.patchSize == patchSize
      ensures inputSize == imgSize / patchSize
      ensures |tabDims1| == numTab && |tabDims2| == numTab
      ensures forall k | 0 <= k < numTab :: tabDims1[k] == inputSize * inputSize
      ensures forall k | 0 <= k < numTab :: tabDims2[k] == inputSize * inputSize
      ensures conv1 == QCFE.Qcfe(embedDim * 4, embedDim, 1, 1, true)
      ensures conv2 == QCFE.Qcfe(embedDim, embedDim / 2, 1, 1, true)
      ensures fresh(saveOutput) && saveOutput.outputs == []
    {
      this.imgSize := imgSize;
      this.patchSize := patchSize;
      var side := imgSize / patchSize;
      inputSize := side;
      tabDims1 := seq(numTab, _ => side * side);
      tabDims2 := seq(numTab, _ => side * side);
      conv1 := QCFE.Qcfe(embedDim * 4, embedDim, 1, 1, true);
      conv2 := QCFE.Qcfe(embedDim, embedDim / 2, 1, 1, true);
      saveOutput := new SaveOutput();
    }

    /** `forward`, around its opaque parts. Running the backbone fires the hook once per block,
        in block order, with that block's output (`blockOutputs`). The feature is extracted
        from everything captured so far; if that fails the error propagates and the list keeps
        its entries. Otherwise the list is emptied, `stages` (the two wavelet-attention,
        fusion and Swin stages with the score and weight heads) gives each image's grid of
        predictions, and each image gets its weighted mean, in batch order. Every stage keeps
        the batch axis, so `stages` returns one grid per image of the feature. */
    method Forward(blockOutputs: seq<Tensor3>, stages: Tensor3 -> seq<Grid>)
      returns (r: Result<seq<real>, TapError>)
      requires forall t: Tensor3 :: |stages(t)| == t.d0
      modifies saveOutput
      ensures var captured := old(saveOutput.outputs) + blockOutputs;
              ExtractFeature(captured).Err? ==>
                && r == Err(ExtractFeature(captured).error)
                && saveOutput.outputs == captured
      ensures var captured := old(saveOutput.outputs) + blockOutputs;
              ExtractFeature(captured).Ok? ==>
                var grids := stages(ExtractFeature(captured).value);
                && r.Ok?
                && saveOutput.outputs == []
                && |r.value| == |grids| == ExtractFeature(captured).value.d0
                && (forall i | 0 <= i < |grids| :: r.value[i] == WeightedMean(grids[i]))
                && (forall i | 0 <= i < |grids| :: MinQuality(grids[i]) <= r.value[i] <= MaxQuality(grids[i]))
    {
      for k := 0 to |blockOutputs|
        invariant saveOutput.outputs == old(saveOutput.outputs) + blockOutputs[..k]
      {
        saveOutput.Call(blockOutputs[k]);
      }
      assert blockOutputs[..|blockOutputs|] == blockOutputs;
      var x := ExtractFeature(saveOutput.outputs);
      if x.Err? {
        return Err(x.error);
      }
      saveOutput.Clear();
      var score := PoolScores(stages(x.value));
      r := Ok(score);
    }
  }

  /** Both fusion blocks of the pipeline receive `True` as their fifth argument, which is
      `bias`, not `relu`: each is a single 1x1 quaternion convolution with bias, padding 0
      and stride 1, and no activation, mapping 4 * embed_dim channels to embed_dim and then
      embed_dim to embed_dim // 2; being 1x1, neither changes the spatial size. */
  lemma PipelineFusionLayers(embedDim: nat, h: nat)
    ensures var conv1 := QCFE.Qcfe(embedDim * 4, embedDim, 1, 1, true);
            var conv2 := QCFE.Qcfe(embedDim, embedDim / 2, 1, 1, true);
            && conv1 == [QCFE.QuaternionConv(embedDim * 4, embedDim, 1, 0, 1, true)]
            && conv2 == [QCFE.QuaternionConv(embedDim, embedDim / 2, 1, 0, 1, true)]
            && QCFE.ConvOutputSize(h, 1, conv1[0].padding, 1) == h
            && QCFE.ConvOutputSize(h, 1, conv2[0].padding, 1) == h
  {
  }
}
