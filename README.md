# NeuroTorch trainer: index bookkeeping and training schedule

This project models the core of `neurotorch/core/trainer.py` in Dafny and
proves properties about it. The core is the part of the trainer that is not
tensor work:

- **Partition** (lines 97-104 and 166-173). A random permutation of the
  volume's valid indices is split. The training pool is the prefix of length
  `int(n * 0.8)`. The validation pool is the suffix from `int(n * 0.2)` on.
  The training pool is truncated to a multiple of the group size (16 in
  `Trainer`, 8 in `TrainerDecorator`) and reshaped into rows.
- **Schedule** (lines 106-134 and 175-203). This is the `while`/`for` loop of
  both `run_training` methods, written as the trace of calls it makes:
  `run_epoch`, `evaluate` and `setAugmentation`. Both loops are one loop
  parameterised by a `Policy`:
  - `BasePolicy` uses rows of 16, skips batches whose labels are all zero,
    and validates on `val_idx[:1]`.
  - `DecoratorPolicy` uses rows of 8, skips nothing, validates on
    `val_idx[:16]`, and switches augmentation off around validation.
- **Training**. This is the imperative form of the loop. `Trainer` is a class
  with the counters `numEpoch` and `numIter`, the row array `trainIdx`
  (shuffled in place each epoch), and the validation pool. `Volume` holds the
  augmentation flag. Each method is proved against the Schedule functions.
- **Chain** (lines 137-151). `getTrainer` follows `_trainer` through nested
  decorators. `RunTraining` there says which loop a call to `run_training`
  actually runs.
- **Accuracy** (lines 85-86). This is the intersection-over-union count behind
  `Trainer.evaluate`.

Assumptions and observations:

- `int(n * (1 - 0.2))` is taken to be `n * 4 / 5`, and `int(n * 0.2)` is taken
  to be `n / 5`, in exact integer floor division. For the index counts a volume
  realistically has, the double products round to these values.
- The validation pool `val_idx` is `random_idx[int(0.2 n):]` (line 101), so it
  overlaps the training prefix `random_idx[:int(0.8 n)]` (line 100). An index
  lies in both pools exactly when it sits between the two cuts, and such an
  index exists as soon as `n >= 2` (`Partition.PoolsOverlap`).
- `val_idx` is never truncated to whole groups; only the training pool is
  (lines 103-104 and 172-173).
- `__init__` accepts a `validation_split` argument (line 17) but never stores
  it; `run_training` uses a local `validation_split = 0.2` (lines 97 and 166).
  With 32 indices the split gives 3 groups of 8 or 1 group of 16, and a
  validation pool of 26 (`Partition.ThirtyTwoIndices`).
- A plain `Trainer` has no `getTrainer` method. `Trainer.run_training`
  therefore raises at line 98 whenever it is actually executed. Only the
  decorator's overriding loop ever runs (`Chain.RunTraining`). The base loop is
  still modelled as written, with `BasePolicy`, as if `getTrainer` had resolved
  to the root trainer.
- The `break` at lines 112-113 and 181-182 can never fire. Inside the `for`
  loop, `num_epoch <= max_epochs` always holds. `TrainEpoch` asserts this.
- Validation reads `val_idx[:1]` or `val_idx[:16]`. If `val_idx` were empty,
  the batch would be empty and `val_batch[1]` would raise `IndexError` at line 124 (or 192). The model proves
  that the pool is non-empty whenever there is a training group
  (`Partition.ValidationPoolNonEmpty`), so that failure is unreachable.

## Model

| member | source | states |
|---|---|---|
| Partition.TrainLength | neurotorch/core/trainer.py:100 | The training cut `t` satisfies `5t <= 4n < 5t + 5`. So it is floor(4n/5), the assumed value of `int(n * 0.8)`, and `t <= n`. |
| Partition.ValStart | neurotorch/core/trainer.py:101 | The validation cut `s` satisfies `5s <= n < 5s + 5`, i.e. floor(n/5). It never lies past the training cut. |
| Partition.TrainPool | neurotorch/core/trainer.py:100 | `random_idx[:t]` is a prefix of the permutation, of length `t`. |
| Partition.ValPool | neurotorch/core/trainer.py:101 | `random_idx[s:]` has length `n - s`, and its k-th element is `perm[s + k]`. |
| Partition.Truncated | neurotorch/core/trainer.py:103 | `pool[:len - len % g]` is a prefix of the pool whose length is a multiple of `g` and lies within `g` of the pool's length. |
| Partition.Reshape | neurotorch/core/trainer.py:104 | `reshape((-1, g))` gives rows of exactly `g` elements, and their number times `g` is the input length. |
| Partition.FlattenReshape | neurotorch/core/trainer.py:103-104 | Laying the reshaped rows end to end gives back the truncated pool: no index is lost, added or moved. |
| Partition.ReshapeFlatten | neurotorch/core/trainer.py:104 | Reshaping rows of length `g` after flattening them gives back the same rows. |
| Partition.GroupShape | neurotorch/core/trainer.py:99-104 | The truncated pool has `t - t % g` indices. There are exactly `(t - t % g) / g` groups, each of exactly `g` indices. Flattened, the groups are `perm[:t - t % g]`. This holds for 16 (base) and 8 (decorator, lines 169-173). |
| Partition.NoGroupsIffShortPool | neurotorch/core/trainer.py:103-104 | There are no training groups exactly when the training pool is shorter than one group. |
| Partition.GroupsDrawnWithoutRepetition | neurotorch/core/trainer.py:98-104 | For a permutation of repetition-free valid indices, no group repeats an index, no index sits in two groups, and every grouped index is a valid index. |
| Partition.PermutationDistinct | neurotorch/core/trainer.py:99 | `np.random.permutation` of repetition-free indices is repetition-free. |
| Partition.PoolsOverlap | neurotorch/core/trainer.py:99-101 | An index is in both the training pool and the validation pool if and only if it lies in `perm[n/5 : 4n/5]`. That range is non-empty if and only if `n >= 2`. |
| Partition.ValidationPoolNonEmpty | neurotorch/core/trainer.py:100-104 | Whenever there is at least one training group, the validation pool is non-empty. So `val_idx[:1]` and `val_idx[:16]` are never empty. |
| Partition.ThirtyTwoIndices | neurotorch/core/trainer.py:99-104 | With 32 valid indices there are 3 groups of 8, or 1 group of 16, and a validation pool of 26 indices. |
| Accuracy.IoU | neurotorch/core/trainer.py:85-86 | When defined, the ratio is the intersection count `sum((output > 0) & label)` over the union count `sum((output > 0) \| label)`. It is undefined (0/0) exactly when the union count is 0. Otherwise the union count is positive and the intersection count is at most the union count, so the accuracy is in [0, 1]. |
| Accuracy.IntersectionWithinUnion | neurotorch/core/trainer.py:85-86 | `sum((output > 0) & label) <= sum((output > 0) \| label)` for all equally long boolean sequences. |
| Accuracy.InclusionExclusion | neurotorch/core/trainer.py:85-86 | The intersection count plus the union count equals the count of set predictions plus the count of set labels. |
| Accuracy.EmptyUnion | neurotorch/core/trainer.py:86 | The divisor is 0 exactly when neither the thresholded prediction nor the label has a set position. |
| Accuracy.HitsEqualCovered | neurotorch/core/trainer.py:85-86 | The intersection count equals the union count if and only if the two sequences are equal. |
| Accuracy.PerfectIffEqual | neurotorch/core/trainer.py:85-86 | When defined, the accuracy is exactly 1 if and only if the thresholded prediction equals the label. |
| Chain.Innermost | neurotorch/core/trainer.py:141-151 | Reference definition: peeling off every decorator layer leaves an object that is not a decorator. |
| Chain.Wrap | neurotorch/core/trainer.py:141-145 | Wrapping an object in `k` decorators adds exactly `k` layers. |
| Chain.GetTrainer | neurotorch/core/trainer.py:147-151 | Calling `getTrainer` fails for lack of the method exactly when the object is not a decorator. |
| Chain.GetTrainerFindsInnermost | neurotorch/core/trainer.py:147-151 | On any finite decorator chain, `getTrainer` returns the innermost object if it is a plain `Trainer`, and `None` otherwise. It never returns an intermediate decorator. |
| Chain.WrappedResolvesToRoot | neurotorch/core/trainer.py:147-151 | Any number of decorators around one plain trainer all resolve to that same trainer. |
| Chain.RunTraining | neurotorch/core/trainer.py:90-98 | The decorator loop runs, on the root's volume, exactly when the object is a decorator over a plain trainer. It fails on `None` exactly when the chain ends in a foreign object (line 167). It fails at `getTrainer` (line 98) exactly when the object is a plain `Trainer`. |
| Schedule.ValidationBatch | neurotorch/core/trainer.py:121-122 | The validation batch is a prefix of `val_idx` of length `min(1 or 16, len(val_idx))`. |
| Schedule.ValidationFacts | neurotorch/core/trainer.py:187-199 | A validation makes exactly one `evaluate` call and no `run_epoch` call. It happens at a positive multiple of 10. When augmentation is toggled, it leaves augmentation on. |
| Schedule.BatchCounts | neurotorch/core/trainer.py:111-132 | A skipped batch makes no `run_epoch` call and leaves `num_iter` unchanged. Any other batch makes exactly one call, with the current `num_iter`, and adds 1 to it. Validation follows if and only if the batch is not skipped and `num_iter % 10 == 0`. |
| Schedule.BatchGroups | neurotorch/core/trainer.py:114-118 | One loop pass hands its group to `run_epoch` under the current epoch number if and only if it is not skipped. |
| Schedule.BatchAugmentation | neurotorch/core/trainer.py:187-199 | After one loop pass, augmentation is on if it is toggled and a validation happened, and otherwise unchanged. Every `evaluate` is at a multiple of 10. |
| Schedule.EpochIterKept | neurotorch/core/trainer.py:108-132 | One epoch advances `num_iter` by the number of groups it does not skip. |
| Schedule.EpochCounts | neurotorch/core/trainer.py:108-132 | Within one epoch, the `run_epoch` calls carry consecutive iteration numbers `it, ..., last - 1`. Validation happens once for every multiple of 10 crossed. |
| Schedule.EpochGroups | neurotorch/core/trainer.py:108-118 | One epoch hands to `run_epoch`, in the epoch's row order, exactly the groups that are not skipped. |
| Schedule.EpochAugmentation | neurotorch/core/trainer.py:177-201 | After an epoch, augmentation is on if it is toggled and the epoch validated, and otherwise unchanged. |
| Schedule.RunCounts | neurotorch/core/trainer.py:106-134 | Over a whole run, the `run_epoch` calls carry the numbers `1, 2, ..., num_iter - 1` in order, and there are `(num_iter - 1) / 10` validations. |
| Schedule.RunGroups | neurotorch/core/trainer.py:106-134 | Epoch `e` of a run hands `run_epoch` exactly the unskipped groups of its own row order. Epoch numbers outside `1..epochs` never appear. |
| Schedule.RunAugmentation | neurotorch/core/trainer.py:175-203 | Every `evaluate` of a run is at a positive multiple of 10. Afterwards, augmentation is on if it is toggled and any validation happened, and is as it was before otherwise. |
| Schedule.ValidationWithoutAugmentation | neurotorch/core/trainer.py:187-199 | In the decorator's validation, whatever the flag was before, it is off when `evaluate` is called. |
| Schedule.BatchWithoutAugmentation | neurotorch/core/trainer.py:185-199 | In one pass of the decorator's loop body, every `evaluate` call happens with augmentation off. |
| Schedule.EpochWithoutAugmentation | neurotorch/core/trainer.py:176-201 | In one epoch of the decorator's loop, every `evaluate` call happens with augmentation off. |
| Schedule.RunWithoutAugmentation | neurotorch/core/trainer.py:175-203 | Over a whole run of the decorator's loop, every `evaluate` call happens with augmentation off, whatever the flag was at the start. |
| Schedule.KeptPermutation | neurotorch/core/trainer.py:107 | Reordering the rows, as the shuffle does, does not change the multiset of groups that are not skipped. |
| Schedule.RunIterOfReorderings | neurotorch/core/trainer.py:106-134 | When every epoch visits a reordering of the same groups, `num_iter` ends at `1 + epochs * kept`, where `kept` is the number of groups that are not skipped. |
| Schedule.NothingSkipped | neurotorch/core/trainer.py:177-185 | Without the all-zero skip (the decorator), every group is kept. |
| Schedule.AllNegativeSkipsEverything | neurotorch/core/trainer.py:114-115 | In the base loop, if every group's labels are all zero, no group is kept and `run_epoch` is never called. |
| Schedule.EpochVisitsEveryGroup | neurotorch/core/trainer.py:106-118 | When every epoch visits a reordering of the groups, each epoch hands every unskipped group to `run_epoch` exactly once. Without skipping, that is every group. |
| Schedule.RunSummary | neurotorch/core/trainer.py:106-134 | When every epoch visits a reordering of the same groups: `num_iter` ends at `1 + epochs * kept`; each epoch hands every unskipped group to `run_epoch` once; the steps are numbered `1..num_iter-1`; there are `(num_iter - 1) / 10` validations; and augmentation ends on after any toggled validation, and unchanged otherwise. When augmentation is toggled (the decorator's loop, lines 187-199), every `evaluate` call happens with augmentation off. |
| Training.Volume.SetAugmentation | neurotorch/core/trainer.py:188 | `setAugmentation(on)` sets the flag to `on`. |
| Training.Shuffle | neurotorch/core/trainer.py:107 | `np.random.shuffle(train_idx)` permutes the rows in place. The multiset of rows, and each row's contents, are unchanged. |
| Training.Trainer.Step | neurotorch/core/trainer.py:109-132 | One pass through the `for` body appends exactly that batch's events to the trace, sets `num_iter` to the batch's successor value, and leaves augmentation as the trace says. |
| Training.Trainer.TrainEpoch | neurotorch/core/trainer.py:107-132 | One epoch shuffles the rows (same multiset) and then appends the events of the epoch, in the new row order, to the trace. `num_iter` and augmentation end as the epoch specification says. |
| Training.Trainer.NextEpoch | neurotorch/core/trainer.py:106-134 | One `while` iteration keeps the trace, `num_iter` and augmentation equal to the run specification over the row orders so far. It records the new order and adds 1 to `num_epoch`. |
| Training.Trainer.SplitIndices | neurotorch/core/trainer.py:93-104 | The counters start at 1. `train_idx` holds the training groups, `val_idx` is the validation pool, and the pool is non-empty when there are groups. |
| Training.Trainer.RunEpochs | neurotorch/core/trainer.py:106-134 | The loop ends with `num_epoch == max_epochs + 1` (or 1 when `max_epochs < 1`). It runs one epoch per number, each a reordering of the same rows. The trace, `num_iter` and augmentation equal the run specification. |
| Training.Trainer.RunTraining | neurotorch/core/trainer.py:90-134 | This is the whole method. Every epoch reorders the same groups, and epoch `e` hands each unskipped group to `run_epoch` exactly once. `num_iter == 1 + epochs * kept`. The steps are numbered `1..num_iter-1`, and there are `(num_iter - 1) / 10` validations. With toggling, augmentation is on after any validation; without it, augmentation is unchanged. With toggling (the decorator's loop, lines 187-199), augmentation is off at every `evaluate` call. |
| Training.DecoratorOnThirtyTwoIndices | neurotorch/core/trainer.py:169-203 | The decorator on 32 indices with one epoch makes exactly three `run_epoch` calls, numbered 1, 2, 3. It makes no validation and leaves `num_iter` at 4. |

## Left out

- Tensor and network work in `run_epoch` and `evaluate` (lines 52-88) is left out: `Variable`, `.to(device)`, the forward pass, the loss, `backward`, the optimizer step, `torch.no_grad`, `torch.cat`/`stack`. These are foreign library calls. Each `run_epoch` and `evaluate` call is recorded as an event with its iteration, epoch and indices.
- Accuracy.IoU: it keeps the two counts and does not model the floating-point division, nor `output > 0` on float tensors (the thresholded output is a given boolean sequence).
- Construction (lines 15-50) is left out: device selection, checkpoint loading, and the optimizer and criterion defaults. They are library wiring. `max_epochs` and the volume are constructor parameters of `Training.Trainer`.
- The volume collaborators (`TorchVolume`, `getVolume`, `getValidData`, `volume[idx]`) are not part of this model. The volume is reduced to its valid indices, a per-index "label has no positive voxel" predicate, and an augmentation flag. The base trainer reads `volume.getValidData()` directly and the decorator reads `volume.getVolume().getValidData()`; both are taken to give the same indices.
- Batch assembly (`zip`, `np.stack`, `> 0` on labels, `astype(np.float)`) is left out. A batch is the row of indices it is built from. "All labels zero" is the conjunction of the per-index predicate.
- Training.Shuffle: the random draws of `np.random.shuffle` are left nondeterministic, so the model does not capture uniformity. It proves only that the rows are permuted. The permutation `np.random.permutation(valid_indexes)` is a parameter, required to be a permutation of the valid indices.
- Training.Trainer.RunTraining: `int(n * 0.8)` and `int(n * 0.2)` are taken as `4n/5` and `n/5` in exact arithmetic. Floating-point rounding of the products is not modelled.
- The `print` logging (lines 117, 126-130, 184, 194-198) is left out, because it has no effect on state.
- `neurotorch/main/train.py` is command-line plumbing and is not part of this model.
- Training.Trainer.RunTraining: the base loop is modelled as if `getTrainer` resolved to the root. As written, a plain `Trainer` raises at line 98 (see `Chain.RunTraining`), and `Training` does not model that exception.
- Decorator chains: only finite, acyclic chains are modelled. A cycle such as `d.setTrainer(d)` (line 145) makes `getTrainer` recurse until Python's recursion limit, and cannot be represented by the datatype.
- Python's dynamic dispatch (`isinstance`, `issubclass`) is reduced to the three cases of `Chain.Wrapped`: plain trainer, decorator, other object.
