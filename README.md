# Hypersphere-centre initialisation for deep-SVDD scoring

This project models the one piece of computation in `test.py` of the
video-anomaly-detection evaluation scripts: `init_center_c`, which
computes the hypersphere centre used by a deep-SVDD-style anomaly score.
It also models the dataset-name dispatch in `main` (test.py:217-226).
The script does not call `main` as it stands: its `__main__` block runs
`test_get_c_init` (test.py:239), which calls `init_center_c` with the
default `eps = 0.1` (test.py:140, test.py:149).

`init_center_c` walks the training videos in order. For each batch of
each video it runs the encoder and views the output as clips of
P x D entries (690 patches by 128 features in the program). It adds the
number of clips to a counter and the sum of the clips to a [P, D]
accumulator that starts at zero. It then divides the accumulator by the
counter to get the mean clip. Last, it applies a dead-zone clamp made of
two masked assignments: entries with `|c| < eps` and `c < 0` become
`-eps`, then entries with `|c| < eps` and `c > 0` become `+eps`. An entry
that is exactly zero matches neither mask and stays zero.

The model is written over Dafny `real`:

- `results.dfy`, module `Results`: the `Result` datatype for the
  operations that raise.
- `center.dfy`, module `CenterC`:
  - P and D are parameters, and `clipSize` is P * D.
  - A tensor is a flat row-major `seq<real>`: entry `e` of a clip is
    patch `e / D`, feature `e % D`.
  - The encoder is an arbitrary total function `net: X -> seq<real>`
    from a batch to its flattened output.
  - The dataset is a `seq<seq<X>>`: the videos in order, each the
    sequence of batches its loader yields.
  - Specification functions give the sum of entry `e` over every clip
    (`VideosSum`), the clip count (`VideosClips`), the mean (`MeanClip`),
    the clamp (`Clamp`, `ClampAll`) and the resulting centre (`Center`).
  - The methods mirror the code. The accumulator is an `array<real>`
    updated in place by nested loops (`Accumulate`, `AddBatch`). The
    division (`DivideAll`) and the two masked assignments
    (`ClampInPlace`, one pass per mask, in the program's order) also
    work in place. `InitCenterC` ties these steps together.
  - `Stream` is an independent reference definition: the concatenation of
    every encoder output in reading order. The sums and counts are proved
    to be those of the stream. So the mean depends only on the sequence
    of clips, not on how the clips are split into batches or videos.
- `entry_point.dfy`, module `EntryPoint`: `main`'s choice of test routine
  from the dataset name. An unknown name gives the `ValueError` message.

Points of the code's behaviour worth noting:

- An exact zero stays zero after the clamp (test.py:187-188). Both masks
  test the value before the clamp, and zero is neither `< 0` nor `> 0`.
- The counter adds `z.shape[0]` after `view(-1, 690, 128)`
  (test.py:179-181), which is the number of whole clips in the encoder
  output (one per batch item for the program's encoder, test.py:176-178).
- With no clips at all, the code does not raise (test.py:184). It computes `0 / 0`
  and returns a tensor of NaN. Reals have no NaN, so `InitCenterC`
  reports this outcome as `Err(NoSamples)`.
- A batch whose output size is not a multiple of P * D makes the
  reshape raise (test.py:179). The model reports `Err(ShapeMismatch)` and stops at
  the first such batch.

## Model

| member | source | states |
|---|---|---|
| `CenterC.Clamp` | test.py:186-188 | both masked assignments on one entry: entries with `\|x\| >= eps` are unchanged; `0 < x < eps` gives exactly `eps` and `-eps < x < 0` gives exactly `-eps`; zero stays zero; the sign is kept; every result is 0 or has `\|r\| >= eps` |
| `CenterC.ClampIdempotent` | test.py:187-188 | clamping an already clamped tensor changes nothing |
| `CenterC.ClampInPlace` | test.py:187-188 | the two in-place masked passes, in order, leave the array equal to the elementwise clamp of its old contents (the second pass never undoes the first) |
| `CenterC.AddBatch` | test.py:179-182 | adding the reshaped batch's sum over clips adds, to each accumulator entry, that entry summed over every clip of the batch |
| `CenterC.DivideAll` | test.py:184 | every accumulator entry is divided by the positive counter |
| `CenterC.Accumulate` | test.py:154-182 | the nested walk over videos and batches succeeds exactly when every encoder output is a whole number of clips; the counter then equals the total number of clips, and each accumulator entry grows by that entry summed over every clip of every batch of every video |
| `CenterC.InitCenterC` | test.py:149-190 | the whole routine: `ShapeMismatch` exactly when some batch cannot be reshaped, `NoSamples` exactly when the shapes are fine and no clip is seen, otherwise the clamped mean clip of size P * D |
| `CenterC.ColumnSumAppend` | test.py:182 | summing a stream of clips split at a clip boundary is summing the two parts |
| `CenterC.BatchStreamSum` | test.py:169-182 | over the batches of one video, the clip count and per-entry sums equal those of the concatenated encoder outputs |
| `CenterC.StreamSum` | test.py:158-182 | over all videos, the counter and per-entry sums equal the clip count and per-entry sums of the concatenated encoder outputs |
| `CenterC.BatchingInvariance` | test.py:154-188 | two datasets whose encoder outputs concatenate to the same stream of clips give the same count, the same mean and the same centre, whatever their split into videos and batches |
| `CenterC.SumOfIdenticalClips` | test.py:181-182 | if the data is `n` copies of one clip `u`, the counter is `n` and every accumulator entry is `n` times `u`'s entry |
| `CenterC.MeanOfIdenticalClips` | test.py:181-184 | if the data is `n > 0` copies of one clip `u`, the mean is exactly `u` |
| `EntryPoint.SelectTest` | test.py:217-226 | a name selects a routine only if it is that routine's dataset name; every other name gives the error `Unknown dataset: <name>` |
| `EntryPoint.SelectByName` | test.py:217-226 | each routine is selected by its own dataset name and by no other string |

## Left out

- Floating point. Sums and means are exact reals, so summation order and
  rounding are not modelled. The NaN that `0 / 0` gives is reported as
  `NoSamples`.
- The encoder forward pass `net(x)` and the model classes it comes from
  (`LSAUCSD_deepSVDD` and the others). The encoder is an arbitrary
  function from a batch to its flattened latent output; the
  reconstruction output is not used.
- The `DataLoader` and its four worker processes. Only the in-order
  sequence of batches it yields is modelled. Its `batch_size` is the
  literal 2, and the `batch_size` argument of `init_center_c` is unused.
  For an encoder whose output for a batch is its items' outputs
  concatenated, and whose output for each item is a whole number of clips
  (one clip per item for the program's encoder, test.py:176-178), the
  batch size does not change the result: every batching is then
  well-shaped and gives the same stream of clips, and `BatchingInvariance`
  shows that well-shaped datasets with equal streams give equal centres.
  Without the whole-clip condition, one batching may be well-shaped while
  another makes the reshape raise. The model's encoder is an arbitrary
  function of the batch and carries no such assumption.
- `dataset.train(video_id)`, which moves the dataset's read cursor. Each
  video is given directly as its sequence of batches.
- Device selection, `.to(device)`, `torch.no_grad()`, and tensor views
  beyond their shape arithmetic.
- Checkpoint loading and saving, `os.path.exists`, `tqdm` and `print` in
  `test_get_c_init` and `init_center_c`. These are I/O.
- `test_mnist`, `test_cifar`, `test_ucsdped1`, `test_ucsdped2`,
  `test_shanghaitech` and `test_vis_graph`. They only build a dataset and
  a model and call result helpers or tensorboardX, none of which is part
  of this model. `main` is modelled only as its choice among the four
  routines it dispatches to.
- `parse_arguments` (argparse) and `set_random_seed`. The dataset name is
  a parameter of `SelectTest`.
- The value of `eps`. It is a parameter of `InitCenterC` and `Clamp`;
  the program only ever uses its default 0.1 (test.py:140, test.py:149).
