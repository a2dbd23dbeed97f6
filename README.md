# WAQNIQA scaffolding in Dafny

WAQNIQA is a no-reference image-quality model. A pretrained ViT backbone is tapped at four
depths. The tapped features go through wavelet-attention (WIAA) blocks, quaternion
channel-fusion (QCFE) blocks and Swin stages. Two heads then predict, for every location of
the patch grid, a quality `f >= 0` and a weight `0 < w < 1`. An image's score is
`sum(f * w) / sum(w)`. The label datasets read a text file of `name score` lines, keep the
lines whose distortion tag is on an allow-list, and min-max normalise the kept scores.

This project models the deterministic logic around the learned layers. Tensors are nested
sequences of reals with an explicit shape (`Tensors.Tensor3`). Every learned or foreign
computation is an opaque function parameter:

- `approx` stands for the Haar approximation band from pywt;
- `attend` stands for the attention core of a WIAA block;
- `stages` stands for everything from the first rearrange to the two heads;
- `toFloat` stands for Python's `float()`.

Modules:

- `LabelFile`: Python's `str.split()`, `s[:-1]` and clamped slicing; the per-line parse and
  filter (`ParseLine`); the loop over the file (`ReadLabels`, specified by `ParseLabels`);
  and the reference list of kept lines (`KeptLines`).
- `MinMax`: `normalization` over exact reals, with its two failure cases.
- `LabelDataset`: what both dataset constructors build (`Load`: parse, normalise, reshape to
  a column).
- `Kadid10kDataset` and `OurDataset`: the two dataset classes. Their constructors and
  `__len__` are the same code in the source, and both are modelled on the shared modules
  above.
- `WIAA`: the pad/truncate loop of `wavelet_transform` over a preallocated 2-D array, and
  the residual `forward`.
- `QCFE`: the block constructor's padding and layer-list rule.
- `Taps`: the `SaveOutput` hook object and `extract_feature`.
- `Pooling`: the per-image weighted mean and the scoring loop.
- `Waqniqa`: the `WAQNIQA` constructor's bookkeeping, and the part of `forward` that fills,
  reads and clears the tap list and then pools.

Constructors that can raise in Python become static `Open` methods that return a `Result`.
The errors raised by the label-file loop, the normalisation and `extract_feature` are values
of error datatypes. The errors of the opaque parts are not modelled; "## Left out" lists them.

## Model

| member | source | states |
|---|---|---|
| LabelFile.Words | data/kadid10k/kadid10k.py:63 | `line.split()`: a line has no fields at all exactly when it is empty or all whitespace |
| LabelFile.WordsAreWords | data/kadid10k/kadid10k.py:63 | every field of `line.split()` is non-empty and contains none of Python's whitespace characters |
| LabelFile.WordsJoin | data/kadid10k/kadid10k.py:63 | splitting blank-joined whitespace-free words returns exactly those words, so a `name score` line splits into its two fields |
| LabelFile.KeptLines | data/kadid10k/kadid10k.py:62-68 | reference list of the lines the filter keeps, in file order; every element is a two-field line whose tag `name[1:3]` is on the allow-list |
| LabelFile.ReadLabels | data/kadid10k/kadid10k.py:60-68 | the line loop (split, unpack, drop the last character, filter, convert, append) returns exactly `ParseLabels`, including the error of the first bad line |
| LabelFile.ParseLine | data/kadid10k/kadid10k.py:63-68 | one loop iteration succeeds iff the line splits into two fields and, when kept, its score converts; it skips the line without error iff the line is well formed and not kept; an entry it returns belongs to a kept line and holds that line's stored name and converted score |
| LabelFile.ParseLabels | data/kadid10k/kadid10k.py:62-68 | the loop over all lines, stopping at the first failing line; on success it yields equally many names and scores, at most one per line |
| LabelFile.ErrorPersists | data/kadid10k/kadid10k.py:62-68 | once a prefix of the file fails, the whole file fails with that same error, because the loop stops at the first exception |
| LabelFile.ParseLabelsSucceeds | data/kadid10k/kadid10k.py:62-68 | the file is accepted iff every line is accepted; a malformed score on a rejected line is never converted |
| LabelFile.ParseLabelsKeepsOrder | data/kadid10k/kadid10k.py:65-68 | on success the names and scores line up index by index with the kept lines, in file order: name k is the first field of kept line k minus its last character, and score k is its converted second field |
| LabelFile.ParseLabelsFirstError | data/kadid10k/kadid10k.py:62-68 | on failure the error is the one raised by the first failing line, all earlier lines being accepted |
| MinMax.Max | data/kadid10k/kadid10k.py:78 | `np.max`: an upper bound of the array that occurs in it |
| MinMax.Min | data/kadid10k/kadid10k.py:78-79 | `np.min`: a lower bound of the array that occurs in it |
| MinMax.Normalization | data/kadid10k/kadid10k.py:76-79 | `normalization`: `(data - min) / (max - min)`; it fails on an empty array, and only there, with `EmptyArray`; on success the length is kept |
| MinMax.NormalizationFails | data/kadid10k/kadid10k.py:76-79 | normalisation fails with a zero range iff the array is non-empty and all its values are equal |
| MinMax.NormalizationUnitInterval | data/kadid10k/kadid10k.py:76-79 | every normalised value lies in [0, 1]; a value maps to 0 iff it is the minimum and to 1 iff it is the maximum |
| MinMax.NormalizationMonotone | data/kadid10k/kadid10k.py:76-79 | normalisation preserves and reflects the order of any two scores |
| MinMax.NormalizationRoundTrip | data/kadid10k/kadid10k.py:78-79 | `min + n * (max - min)` recovers every original score from its normalised value |
| LabelDataset.Load | data/kadid10k/kadid10k.py:60-74 | what the constructor stores: parse and filter the lines, normalise the kept scores, reshape them to a column; a loaded `data_dict` has as many names as score rows, each row holding one score |
| LabelDataset.LoadKeepsKeptLines | data/kadid10k/kadid10k.py:60-74 | a loaded dataset has one name and one score row per kept line; name k is the stored name of kept line k, and score row k is `[(s_k - min) / (max - min)]`, where s_k is kept line k's converted score and min and max range over all kept scores |
| LabelDataset.LoadScoresNormalized | data/kadid10k/kadid10k.py:71-74 | every row of `score_list` holds one value in [0, 1], and some row holds 0 and some row holds 1 |
| LabelDataset.LoadFails | data/kadid10k/kadid10k.py:60-79 | loading fails iff some line is not accepted, or no line is kept, or all kept scores are equal |
| Kadid10kDataset.Kadid10k.Open | data/kadid10k/kadid10k.py:54-74 | the constructor succeeds iff `Load` does; the new object stores the paths and `Load`'s `data_dict`, so name k and score row k belong to kept line k (`LabelDataset.LoadKeepsKeptLines`), and it has as many names as one-element score rows; on failure the error is `Load`'s |
| Kadid10kDataset.Kadid10k.Len | data/kadid10k/kadid10k.py:81-82 | `__len__` is the number of image names, which equals the number of score rows |
| OurDataset.My.Open | data/Our/Ourdata.py:9-40 | the same as `Kadid10k.Open`, for the repository's own label file |
| OurDataset.My.Len | data/Our/Ourdata.py:47-48 | `__len__` is the number of image names, which equals the number of score rows |
| WIAA.FitLength | models/waqniqa.py:48-56 | reference length policy: entry i is coefficient i when one exists and 0 otherwise, for exactly N entries |
| WIAA.PaddedPrefix | models/waqniqa.py:48-51 | a short coefficient array is kept whole and followed by zeros up to N |
| WIAA.TruncatedPrefix | models/waqniqa.py:52-54 | a long coefficient array is cut to its first N entries |
| WIAA.WaveletSpec | models/waqniqa.py:33-62 | the transformed tensor has the input's (B, C, N) shape |
| WIAA.WaveletTransform | models/waqniqa.py:33-62 | the nested loops over a preallocated zero array produce exactly `WaveletSpec`: row (b, c) is the length-fitted approximation band of input row (b, c) |
| WIAA.FitRow | models/waqniqa.py:48-56 | the pad/truncate branches of the loop body produce exactly `FitLength` of the coefficients |
| WIAA.FillRow | models/waqniqa.py:41-58 | the inner loop over channels fills row b of the array with the fitted rows of image b and leaves every other row untouched |
| WIAA.Collect | models/waqniqa.py:62 | reading the filled array back as a tensor gives exactly `WaveletSpec` |
| WIAA.WaveletRowwise | models/waqniqa.py:40-59 | every transformed row has length N, and row (b, c) depends only on input row (b, c) |
| WIAA.Forward | models/waqniqa.py:64-80 | the output has the input's shape and equals the attention result on the wavelet view plus the original, untransformed input |
| WIAA.ResidualBypassesWavelet | models/waqniqa.py:65-78 | output minus input depends on the input only through its wavelet view, so the residual adds back the original input and not its transform |
| QCFE.Qcfe | models/waqniqa.py:84-100 | one convolution of the requested kind, channel map, kernel size, stride and bias, with padding `k // 2` (or `k // 2 - 1` when transposed); GELU follows iff `relu` is set, so there are 1 or 2 layers |
| QCFE.QcfeResolution | models/waqniqa.py:86-95 | with that padding an odd kernel at stride 1 keeps the spatial size, and an even transposed kernel at stride 2 doubles it |
| Taps.SaveOutput.constructor | models/waqniqa.py:107-108 | a new hook object has an empty list |
| Taps.SaveOutput.Call | models/waqniqa.py:110-111 | the block's output is appended at the end; earlier entries are unchanged |
| Taps.SaveOutput.Clear | models/waqniqa.py:113-114 | the list is empty afterwards |
| Taps.DropClassToken | models/waqniqa.py:187-190 | `x[:, 1:]`: same batch and width, one token fewer (none if there were none), token t is old token t + 1 |
| Taps.CatChannels | models/waqniqa.py:191 | `torch.cat(..., dim=2)`: batch and token axes kept, widths added, and at every token the channels of the first tensor come first, followed by those of the second |
| Taps.ExtractFeature | models/waqniqa.py:186-192 | `extract_feature`: on success at least ten outputs were captured, and the feature has block 6's batch, one token fewer, and the sum of the widths of blocks 6 to 9 |
| Taps.ExtractFeatureFails | models/waqniqa.py:186-192 | extraction fails with an index error iff fewer than 10 outputs were captured, and with a shape error iff there are enough but blocks 7 to 9 disagree with block 6 on batch or token count |
| Taps.ExtractFeatureLayout | models/waqniqa.py:186-192 | token t of image b in the feature is token t + 1 of blocks 6, 7, 8 and 9, side by side in that order |
| Taps.ExtractFeatureIgnoresLaterOutputs | models/waqniqa.py:186-192 | outputs captured after the tenth do not change the feature |
| Pooling.MinQuality | models/waqniqa.py:218 | the smallest quality estimate of a grid: a lower bound that occurs in the grid |
| Pooling.MaxQuality | models/waqniqa.py:218 | the largest quality estimate of a grid: an upper bound that occurs in the grid |
| Pooling.WeightSumPositive | models/waqniqa.py:183 | sigmoid weights make the weight sum of a non-empty grid positive, so the division is defined |
| Pooling.WeightedSumBounds | models/waqniqa.py:220 | if every quality is within [lo, hi], the weighted sum lies between lo and hi times the weight sum |
| Pooling.WeightedMean | models/waqniqa.py:218-220 | an image's score `sum(f * w) / sum(w)` lies between its smallest and largest quality estimates, and is never negative |
| Pooling.WeightedMeanUniform | models/waqniqa.py:220 | with one common weight, the score is the plain mean of the quality estimates |
| Pooling.PoolScores | models/waqniqa.py:216-221 | one score per image, in batch order; score i is image i's weighted mean and lies between its smallest and largest quality estimates |
| Waqniqa.WAQNIQA.constructor | models/waqniqa.py:117-157 | records `img_size`, `patch_size` and `input_size = img_size // patch_size`; builds `num_tab` WIAA blocks of dimension `input_size ** 2` per stage and the two fusion blocks 4e to e and e to e // 2; the tap list starts empty |
| Waqniqa.WAQNIQA.Forward | models/waqniqa.py:194-222 | the hooks append this call's block outputs; if extraction fails its error propagates and the list keeps everything captured; otherwise the list is empty on return, and there is one score per image of the extracted feature, in batch order, each the weighted mean of that image's predictions and within their quality range |
| Waqniqa.PipelineFusionLayers | models/waqniqa.py:141-157 | both pipeline fusion blocks are a single 1x1 quaternion convolution with bias, padding 0 and stride 1, and no GELU, because the fifth positional argument is `bias`; neither changes the spatial size |

## Left out

- The ViT backbone, its pretrained weights and the hook registration loop are not modelled. Running the backbone is the parameter `blockOutputs`: the outputs of the blocks, in the order their hooks fire.
- The attention arithmetic inside a WIAA block (projections, softmax, the transpose and reshape, dropout) is not modelled. It is the opaque `attend`, assumed to return the input's shape, as the final reshape to (B, C, N) guarantees.
- The values of the Haar transform (`pywt.wavedec`) are not modelled. `approx` may return a band of any length, so both the pad branch and the truncate branch are covered.
- The Swin stages, the rearranges between stages, the WIAA and QCFE blocks inside `forward`, and the score and weight MLPs are not modelled individually. Together they are `stages`, which returns each image's grid of (f, w) pairs. The heads' output ranges (ReLU, sigmoid) are kept as the types `Quality` and `Weight`.
- `Pooling.Grid`: a grid is non-empty by type, because the heads see `input_size ** 2` locations. With an image size below the patch size, `input_size` is 0, and the first `rearrange` in `forward` raises before pooling is reached. That error is not modelled.
- The `rearrange` calls in `forward` (models/waqniqa.py:200-215) raise when the feature's token count is not `input_size ** 2`. This error is not modelled: the total function `stages` stands for them.
- Waqniqa.WAQNIQA.Forward: assumes that `stages` returns one grid per image of the extracted feature, because every stage keeps the batch axis. This is a shape assumption on the opaque stages, like the one on `attend`.
- The quaternion layers are described by their construction arguments only. `base/quaternion_layers.py` is not part of this model, and neither is any check it makes of channel counts.
- The `WAQNIQA` constructor's other arguments (depths, window size, heads, MLP size, dropout, scale, output count) only configure foreign layers and are not recorded. A patch size of 0 raises in the source; the constructor requires a positive patch size instead.
- Device and dtype plumbing (`.detach().cpu().numpy()`, `torch.tensor`, `.cuda()`) is not modelled.
- Floating point is not modelled: scores, tensors and weights are exact reals.
- `MinMax.Normalization`: for an array whose values are all equal, numpy divides by zero and yields NaN in every entry without raising. The model reports this as the error `ZeroRange` instead of storing NaNs.
- `float()` is the parameter `toFloat`. Its grammar (signs, exponents, `inf`, `nan`, underscores) is not modelled.
- `str.split()` treats exactly the code points Python counts as whitespace as separators. Python's handling of a non-string line and file decoding are not modelled.
- `list_name` is modelled as a list of tags, tested by list membership. A string `list_name` would test for a substring and is not modelled.
- File opening and reading are not modelled: the label file is given as its sequence of lines. An unreadable file raises in the source.
- `__getitem__` (image loading, colour conversion, scaling, transforms) is file and image I/O, and is not modelled.
- The debug print in `normalization` and the commented-out older class at the top of `data/kadid10k/kadid10k.py` are not modelled.
- An exception raised by the backbone part-way through `forward` leaves the outputs of the blocks that already ran in the tap list. The model only covers complete backbone runs, and an extraction failure (which also leaves the list uncleared).
