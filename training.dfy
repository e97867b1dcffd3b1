/** The two `run_training` loops of neurotorch/core/trainer.py
    (`Trainer.run_training`, lines 90-134, and `TrainerDecorator.run_training`,
    lines 159-203) as one imperative method parameterised by the loop policy.
    The calls into torch are recorded in a ghost trace of events; the volume
    keeps its augmentation flag, which the decorator switches off around
    validation. */
module Training {
  import Partition
  import opened Schedule

  /** The root trainer's volume, as far as the loop uses it: its valid
      indices, whether the label at an index has no positive voxel, and the
      augmentation switch of the underlying dataset. */
  class Volume {
    const validData: seq<int>
    const noPositive: int -> bool
    var augmentation: bool

    constructor (validData: seq<int>, noPositive: int -> bool, augmentation: bool)
      ensures this.validData == validData && this.noPositive == noPositive
      ensures this.augmentation == augmentation
    {
      this.validData := validData;
      this.noPositive := noPositive;
      this.augmentation := augmentation;
    }

    /** `getVolume().setAugmentation(on)` */
    method SetAugmentation(on: bool)
      modifies this
      ensures augmentation == on
    {
      augmentation := on;
    }
  }

  /** `np.random.shuffle` on the rows of `train_idx`: a Fisher-Yates pass
      whose random draws are left open. Rows move whole, so the multiset of
      rows, and each row's contents, are unchanged. */
  method Shuffle(a: array<seq<int>>)
    modifies a
    ensures multiset(a[..]) == old(multiset(a[..]))
  {
    var i := a.Length;
    while i > 1
      invariant 0 <= i <= a.Length
      invariant multiset(a[..]) == old(multiset(a[..]))
    {
      i := i - 1;
      var j :| 0 <= j <= i;
      a[i], a[j] := a[j], a[i];
    }
  }

  /** The decorator on 32 valid indices with `max_epochs = 1`: one epoch over
      three groups of 8 makes the three `run_epoch` calls numbered 1, 2, 3,
      no validation, and leaves `num_iter` at 4. */
  lemma DecoratorOnThirtyTwoIndices(perm: seq<int>, noPositive: int -> bool, order: seq<seq<int>>)
    requires |perm| == 32
    requires multiset(order) == multiset(Partition.TrainGroups(perm, 8))
    ensures var st := Setting(DecoratorPolicy, noPositive, Partition.ValPool(perm));
      && RunIter(st, [order]) == 4
      && StepIters(RunEvents(st, [order])) == [1, 2, 3]
      && Validations(RunEvents(st, [order])) == 0
  {
    var st := Setting(DecoratorPolicy, noPositive, Partition.ValPool(perm));
    var groups := Partition.TrainGroups(perm, 8);
    Partition.ThirtyTwoIndices(perm);
    NothingSkipped(st, groups);
    RunIterOfReorderings(st, [order], groups);
    RunCounts(st, [order]);
    assert Range(1, 4) == [1, 2, 3];
  }

  lemma AppendAssoc<T>(a: seq<T>, b: seq<T>, c: seq<T>)
    ensures (a + b) + c == a + (b + c)
  {
  }

  /** The object `run_training` runs on, with the root trainer's
      `max_epochs` and volume already resolved through `getTrainer`, and the
      state of the loop: the counters, the grouped training indices and the
      validation pool. */
  class Trainer {
    const policy: Policy
    const maxEpochs: int
    const volume: Volume
    var numEpoch: nat
    var numIter: nat
    var trainIdx: array<seq<int>>
    var valIdx: seq<int>
    ghost var orders: seq<seq<seq<int>>>  // the row order of `train_idx` in each epoch so far
    ghost var events: seq<Event>           // the calls made so far

    constructor (policy: Policy, maxEpochs: int, volume: Volume)
      ensures this.policy == policy && this.maxEpochs == maxEpochs && this.volume == volume
      ensures numEpoch == 1 && numIter == 1 && valIdx == [] && orders == [] && events == []
      ensures fresh(trainIdx) && trainIdx.Length == 0
    {
      this.policy := policy;
      this.maxEpochs := maxEpochs;
      this.volume := volume;
      numEpoch, numIter := 1, 1;
      trainIdx := new seq<int>[0];
      valIdx, orders, events := [], [], [];
    }

    /** What the schedule reads from this trainer. */
    function LoopSetting(): Setting
      reads this`valIdx
    {
      Setting(policy, volume.noPositive, valIdx)
    }

    /** The rows `train_idx` holds after the split, for the permutation `perm`. */
    function TrainRows(perm: seq<int>): seq<seq<int>>
      requires policy.groupSize > 0
    {
      Partition.TrainGroups(perm, policy.groupSize)
    }

    /** One pass through the body of the `for` loop (lines 109-132 and
        178-201) on the row `group`. */
    method Step(group: seq<int>)
      requires |valIdx| > 0 && numIter >= 1
      modifies this`numIter, this`events, volume
      ensures events == old(events) + BatchEvents(LoopSetting(), group, old(numIter), numEpoch)
      ensures numIter == BatchIter(LoopSetting(), group, old(numIter))
      ensures volume.augmentation
              == AugmentationAfter(BatchEvents(LoopSetting(), group, old(numIter), numEpoch), old(volume.augmentation))
    {
      BatchCounts(LoopSetting(), group, numIter, numEpoch);
      BatchAugmentation(LoopSetting(), group, numIter, numEpoch, volume.augmentation);
      if policy.skipNoPositive && AllNegative(group, volume.noPositive) {
        return;
      }
      var step := RunEpoch(numIter, numEpoch, group);
      events := events + [step];
      if numIter % ValidationPeriod == 0 {
        if policy.toggleAugmentation {
          volume.SetAugmentation(false);
          events := events + [SetAugmentation(false)];
        }
        var batch := valIdx[..Min(policy.valBatch, |valIdx|)];
        events := events + [Evaluate(numIter, numEpoch, batch)];
        if policy.toggleAugmentation {
          volume.SetAugmentation(true);
          events := events + [SetAugmentation(true)];
        }
      }
      numIter := numIter + 1;
    }

    /** One iteration of the `while` loop (lines 107-134 and 176-203):
        shuffle the rows, then step through them in their new order. */
    method TrainEpoch()
      requires trainIdx.Length > 0 ==> |valIdx| > 0
      requires numEpoch <= maxEpochs
      requires numIter >= 1
      modifies this`numIter, this`events, trainIdx, volume
      ensures multiset(trainIdx[..]) == old(multiset(trainIdx[..]))
      ensures events == old(events) + EpochEvents(LoopSetting(), trainIdx[..], old(numIter), numEpoch)
      ensures numIter == EpochIter(LoopSetting(), trainIdx[..], old(numIter))
      ensures volume.augmentation
              == AugmentationAfter(EpochEvents(LoopSetting(), trainIdx[..], old(numIter), numEpoch),
                                   old(volume.augmentation))
    {
      Shuffle(trainIdx);
      ghost var order, st, start, aug := trainIdx[..], LoopSetting(), numIter, volume.augmentation;
      var i := 0;
      while i < trainIdx.Length
        invariant 0 <= i <= trainIdx.Length
        invariant trainIdx[..] == order
        invariant events == old(events) + EpochEvents(st, order[..i], start, numEpoch)
        invariant numIter == EpochIter(st, order[..i], start) >= 1
        invariant volume.augmentation == AugmentationAfter(EpochEvents(st, order[..i], start, numEpoch), aug)
      {
        // the guard `num_epoch > max_epochs` of the `for` body cannot hold
        assert numEpoch <= maxEpochs;
        ghost var it, done := numIter, EpochEvents(st, order[..i], start, numEpoch);
        Step(trainIdx[i]);
        ghost var batch := BatchEvents(st, order[i], it, numEpoch);
        EpochSnoc(st, order, i, start, numEpoch);
        AugmentationAppend(done, batch, aug);
        AppendAssoc(old(events), done, batch);
        i := i + 1;
      }
      assert order[..i] == order;
    }

    /** One iteration of the `while` loop, recorded: the row order it used is
        appended to `orders` and `num_epoch` advances. */
    method NextEpoch(ghost init: bool)
      requires trainIdx.Length > 0 ==> |valIdx| > 0
      requires numEpoch <= maxEpochs && |orders| == numEpoch - 1
      requires events == RunEvents(LoopSetting(), orders) && numIter == RunIter(LoopSetting(), orders)
      requires volume.augmentation == AugmentationAfter(events, init)
      modifies this`numIter, this`events, this`orders, this`numEpoch, trainIdx, volume
      ensures multiset(trainIdx[..]) == old(multiset(trainIdx[..]))
      ensures orders == old(orders) + [trainIdx[..]] && numEpoch == old(numEpoch) + 1
      ensures events == RunEvents(LoopSetting(), orders) && numIter == RunIter(LoopSetting(), orders)
      ensures volume.augmentation == AugmentationAfter(events, init)
    {
      ghost var st, past, before, it := LoopSetting(), orders, events, numIter;
      RunCounts(st, past);
      TrainEpoch();
      ghost var order := trainIdx[..];
      ghost var epoch := EpochEvents(st, order, it, |past| + 1);
      assert events == before + epoch && numIter == EpochIter(st, order, it);
      AugmentationAppend(before, epoch, init);
      RunSnoc(st, past, order);
      orders := past + [order];
      numEpoch := numEpoch + 1;
    }

    /** Lines 94-104 (and 163-173): reset the counters, take the first 4n/5
        indices of the permutation `perm` as training indices, cut them to a
        multiple of the group size and reshape them into rows, and keep
        everything from index n/5 on as the validation pool. */
    method SplitIndices(perm: seq<int>)
      requires policy.groupSize > 0
      modifies this
      ensures fresh(trainIdx) && trainIdx[..] == TrainRows(perm)
      ensures valIdx == Partition.ValPool(perm)
      ensures trainIdx.Length > 0 ==> |valIdx| > 0
      ensures numEpoch == 1 && numIter == 1 && orders == [] && events == []
    {
      numEpoch := 1;
      numIter := 1;
      var groups := TrainRows(perm);
      trainIdx := new seq<int>[|groups|](k requires 0 <= k < |groups| => groups[k]);
      valIdx := Partition.ValPool(perm);
      orders, events := [], [];
      if |groups| > 0 {
        Partition.ValidationPoolNonEmpty(perm, policy.groupSize);
      }
      assert trainIdx[..] == groups;
    }

    /** The `while` loop of lines 106-134 (and 175-203), from its first epoch. */
    method RunEpochs(ghost init: bool)
      requires trainIdx.Length > 0 ==> |valIdx| > 0
      requires numEpoch == 1 && numIter == 1 && orders == [] && events == []
      requires volume.augmentation == init
      modifies this`numIter, this`events, this`orders, this`numEpoch, trainIdx, volume
      ensures numEpoch == if maxEpochs >= 1 then maxEpochs + 1 else 1
      ensures |orders| == numEpoch - 1
      ensures forall e :: 0 <= e < |orders| ==> multiset(orders[e]) == old(multiset(trainIdx[..]))
      ensures multiset(trainIdx[..]) == old(multiset(trainIdx[..]))
      ensures events == RunEvents(LoopSetting(), orders) && numIter == RunIter(LoopSetting(), orders)
      ensures volume.augmentation == AugmentationAfter(events, init)
    {
      ghost var rows := multiset(trainIdx[..]);
      while numEpoch <= maxEpochs
        invariant 1 <= numEpoch && (maxEpochs >= 1 ==> numEpoch <= maxEpochs + 1)
        invariant maxEpochs < 1 ==> numEpoch == 1
        invariant |orders| == numEpoch - 1
        invariant multiset(trainIdx[..]) == rows
        invariant forall e :: 0 <= e < |orders| ==> multiset(orders[e]) == rows
        invariant events == RunEvents(LoopSetting(), orders) && numIter == RunIter(LoopSetting(), orders)
        invariant volume.augmentation == AugmentationAfter(events, init)
      {
        NextEpoch(init);
      }
    }

    /** `run_training`, with `perm` the permutation drawn by
        `np.random.permutation(valid_indexes)`. */
    method RunTraining(perm: seq<int>)
      requires policy.groupSize > 0
      requires multiset(perm) == multiset(volume.validData)
      modifies this, volume
      ensures fresh(trainIdx)
      ensures valIdx == Partition.ValPool(perm)
      ensures numEpoch == if maxEpochs >= 1 then maxEpochs + 1 else 1
      ensures |orders| == numEpoch - 1
      ensures forall e :: 0 <= e < |orders| ==>
                multiset(orders[e]) == multiset(TrainRows(perm))
      ensures multiset(trainIdx[..]) == multiset(TrainRows(perm))
      ensures events == RunEvents(LoopSetting(), orders)
      ensures numIter == RunIter(LoopSetting(), orders)
      ensures numIter == 1 + |orders| * |KeptGroups(LoopSetting(), TrainRows(perm))|
      ensures forall e :: 1 <= e <= |orders| ==>
                multiset(GroupsOfEpoch(events, e))
                == multiset(KeptGroups(LoopSetting(), TrainRows(perm)))
      ensures StepIters(events) == Range(1, numIter)
      ensures Validations(events) == (numIter - 1) / ValidationPeriod
      ensures volume.augmentation == AugmentationAfter(events, old(volume.augmentation))
      ensures policy.toggleAugmentation && Validations(events) > 0 ==> volume.augmentation
      ensures !policy.toggleAugmentation ==> volume.augmentation == old(volume.augmentation)
      ensures policy.toggleAugmentation ==>
                forall k :: 0 <= k < |events| && events[k].Evaluate? ==>
                  !AugmentationAfter(events[..k], old(volume.augmentation))
    {
      SplitIndices(perm);
      RunEpochs(volume.augmentation);
      RunSummary(LoopSetting(), orders, TrainRows(perm), old(volume.augmentation));
    }
  }
}
