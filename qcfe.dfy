/** The quaternion channel-fusion block: one quaternion convolution (or transposed
    convolution) with a padding chosen from the kernel size, optionally followed by GELU. */
module QCFE {

  /** The layers a block is made of. The quaternion layers themselves are described only by
      their construction arguments. */
  datatype Layer =
    | QuaternionConv(inChannels: nat, outChannels: nat, kernelSize: nat, padding: int, stride: nat, bias: bool)
    | QuaternionTransposeConv(inChannels: nat, outChannels: nat, kernelSize: nat, padding: int, stride: nat, bias: bool)
    | GELU

  /** The layer list built by the block's constructor; the last three arguments default as
      in the source (bias, relu, transpose). The block is one convolution, of the requested
      kind and channel map, with padding floor(k/2), or floor(k/2) - 1 in transpose mode;
      GELU follows exactly when `relu` is set. */
  function Qcfe(inChannel: nat, outChannel: nat, kernelSize: nat, stride: nat,
                bias: bool := true, relu: bool := false, transpose: bool := false): (layers: seq<Layer>)
    ensures |layers| == (if relu then 2 else 1)
    ensures IsConvolution(layers[0]) && layers[0].QuaternionTransposeConv? == transpose
    ensures layers[0].inChannels == inChannel && layers[0].outChannels == outChannel
    ensures layers[0].kernelSize == kernelSize && layers[0].stride == stride && layers[0].bias == bias
    ensures layers[0].padding == (if transpose then kernelSize / 2 - 1 else kernelSize / 2)
    ensures forall k | 1 <= k < |layers| :: layers[k] == GELU
  {
    var padding := if transpose then kernelSize / 2 - 1 else kernelSize / 2;
    var conv := if transpose
                then QuaternionTransposeConv(inChannel, outChannel, kernelSize, padding, stride, bias)
                else QuaternionConv(inChannel, outChannel, kernelSize, padding, stride, bias);
    [conv] + (if relu then [GELU] else [])
  }

  predicate IsConvolution(layer: Layer) {
    layer.QuaternionConv? || layer.QuaternionTransposeConv?
  }

  /** Spatial size after a convolution with the standard output-size rule. */
  function ConvOutputSize(h: nat, kernelSize: nat, padding: int, stride: nat): int
    requires stride > 0
  {
    (h + 2 * padding - kernelSize) / stride + 1
  }

  /** Spatial size after a transposed convolution with the standard output-size rule. */
  function TransposeConvOutputSize(h: nat, kernelSize: nat, padding: int, stride: nat): int {
    (h - 1) * stride - 2 * padding + kernelSize
  }

  /** The padding rule's purpose: with an odd kernel and stride 1 the convolution keeps the
      spatial size, and with an even kernel and stride 2 the transposed one doubles it. */
  lemma QcfeResolution(h: nat, kernelSize: nat)
    requires h > 0
    ensures kernelSize % 2 == 1 ==>
              var conv := Qcfe(1, 1, kernelSize, 1)[0];
              ConvOutputSize(h, kernelSize, conv.padding, 1) == h
    ensures kernelSize % 2 == 0 ==>
              var up := Qcfe(1, 1, kernelSize, 2, transpose := true)[0];
              TransposeConvOutputSize(h, kernelSize, up.padding, 2) == 2 * h
  {
  }
}
