/** What the epoch/iteration loop of `run_training` does, as a trace of the
    calls it makes (neurotorch/core/trainer.py, lines 106-134 for `Trainer`,
    175-203 for `TrainerDecorator`). The network work of `run_epoch` and
    `evaluate` and the volume's `setAugmentation` are recorded as events; the
    label content of each index is reduced to "has no positive voxel". */
module Schedule {

  /** Validation runs after every iteration whose number is a multiple of this. */
  const ValidationPeriod: nat := 10

  /** The four points where the two `run_training` loops differ. */
  datatype Policy = Policy(
    groupSize: nat,            // row length of `train_idx`
    skipNoPositive: bool,      // skip a batch whose thresholded labels are all zero
    valBatch: nat,             // length of the validation slice `val_idx[:valBatch]`
    toggleAugmentation: bool)  // switch augmentation off around validation

  /** `Trainer.run_training`: rows of 16, all-zero batches skipped, `val_idx[:1]`. */
  const BasePolicy := Policy(16, true, 1, false)

  /** `TrainerDecorator.run_training`: rows of 8, no skip, `val_idx[:16]`,
      augmentation off during validation. */
  const DecoratorPolicy := Policy(8, false, 16, true)

  datatype Event =
    | RunEpoch(iter: nat, epoch: nat, group: seq<int>)  // one optimisation step on a group
    | Evaluate(iter: nat, epoch: nat, batch: seq<int>)  // one validation on a batch
    | SetAugmentation(on: bool)                         // `volume.getVolume().setAugmentation(on)`

  /** What the loop reads from the root trainer: its policy, whether the label
      at an index has no positive voxel, and the validation pool. */
  datatype Setting = Setting(policy: Policy, noPositive: int -> bool, valPool: seq<int>)

  function Min(a: nat, b: nat): nat {
    if a <= b then a else b
  }

  /** `(sample_batch[1] == 0).all()` once the labels are thresholded with `> 0`. */
  predicate AllNegative(group: seq<int>, noPositive: int -> bool) {
    forall k :: 0 <= k < |group| ==> noPositive(group[k])
  }

  predicate Skipped(st: Setting, group: seq<int>) {
    st.policy.skipNoPositive && AllNegative(group, st.noPositive)
  }

  /** `val_idx[:1]` or `val_idx[:16]`; Python slicing stops at the end. */
  function ValidationBatch(st: Setting): (batch: seq<int>)
    ensures batch <= st.valPool
    ensures |batch| == Min(st.policy.valBatch, |st.valPool|)
  {
    st.valPool[..Min(st.policy.valBatch, |st.valPool|)]
  }

  function ValidationEvents(st: Setting, it: nat, epoch: nat): seq<Event> {
    var check := Evaluate(it, epoch, ValidationBatch(st));
    if st.policy.toggleAugmentation then [SetAugmentation(false), check, SetAugmentation(true)]
    else [check]
  }

  /** The events of one pass through the body of the `for` loop with counter `it`. */
  function BatchEvents(st: Setting, group: seq<int>, it: nat, epoch: nat): seq<Event> {
    if Skipped(st, group) then []
    else [RunEpoch(it, epoch, group)]
         + (if it % ValidationPeriod == 0 then ValidationEvents(st, it, epoch) else [])
  }

  /** `num_iter` after that pass. */
  function BatchIter(st: Setting, group: seq<int>, it: nat): nat {
    if Skipped(st, group) then it else it + 1
  }

  /** `num_iter` after visiting the rows in `order`, starting from `it`. */
  function EpochIter(st: Setting, order: seq<seq<int>>, it: nat): nat {
    if |order| == 0 then it
    else BatchIter(st, order[|order| - 1], EpochIter(st, order[..|order| - 1], it))
  }

  /** The events of one epoch that visits the rows in `order`. */
  function EpochEvents(st: Setting, order: seq<seq<int>>, it: nat, epoch: nat): seq<Event> {
    if |order| == 0 then []
    else EpochEvents(st, order[..|order| - 1], it, epoch)
         + BatchEvents(st, order[|order| - 1], EpochIter(st, order[..|order| - 1], it), epoch)
  }

  /** `num_iter` after the epochs whose row orders are `orders`; it starts at 1. */
  function RunIter(st: Setting, orders: seq<seq<seq<int>>>): nat {
    if |orders| == 0 then 1
    else EpochIter(st, orders[|orders| - 1], RunIter(st, orders[..|orders| - 1]))
  }

  /** The events of those epochs; epochs are numbered from 1. */
  function RunEvents(st: Setting, orders: seq<seq<seq<int>>>): seq<Event> {
    if |orders| == 0 then []
    else RunEvents(st, orders[..|orders| - 1])
         + EpochEvents(st, orders[|orders| - 1], RunIter(st, orders[..|orders| - 1]), |orders|)
  }

  /** The groups of `groups` that the policy does not skip, in order. */
  function KeptGroups(st: Setting, groups: seq<seq<int>>): (kept: seq<seq<int>>)
    ensures |kept| <= |groups|
  {
    if |groups| == 0 then []
    else KeptGroups(st, groups[..|groups| - 1])
         + (if Skipped(st, groups[|groups| - 1]) then [] else [groups[|groups| - 1]])
  }

  /** The `num_iter` of each `run_epoch` call, in order. */
  function StepIters(ev: seq<Event>): seq<nat> {
    if |ev| == 0 then []
    else StepIters(ev[..|ev| - 1]) + (if ev[|ev| - 1].RunEpoch? then [ev[|ev| - 1].iter] else [])
  }

  /** The groups handed to `run_epoch` during epoch `e`, in order. */
  function GroupsOfEpoch(ev: seq<Event>, e: nat): seq<seq<int>> {
    if |ev| == 0 then []
    else GroupsOfEpoch(ev[..|ev| - 1], e)
         + (if ev[|ev| - 1].RunEpoch? && ev[|ev| - 1].epoch == e then [ev[|ev| - 1].group] else [])
  }

  /** Number of `evaluate` calls in a trace. */
  function Validations(ev: seq<Event>): nat {
    if |ev| == 0 then 0 else Validations(ev[..|ev| - 1]) + (if ev[|ev| - 1].Evaluate? then 1 else 0)
  }

  /** Every `evaluate` call happens at an iteration number that is a positive
      multiple of the validation period. */
  ghost predicate EvaluatesAtMultiples(ev: seq<Event>) {
    forall k :: 0 <= k < |ev| && ev[k].Evaluate? ==> ev[k].iter % ValidationPeriod == 0 && ev[k].iter > 0
  }

  /** At every `evaluate` call the augmentation flag, as left by the events
      before it (starting from `init`), is off. */
  ghost predicate EvaluatesWithoutAugmentation(ev: seq<Event>, init: bool) {
    forall k :: 0 <= k < |ev| && ev[k].Evaluate? ==> !AugmentationAfter(ev[..k], init)
  }

  /** The volume's augmentation flag after the trace, starting from `init`. */
  function AugmentationAfter(ev: seq<Event>, init: bool): bool {
    if |ev| == 0 then init
    else if ev[|ev| - 1].SetAugmentation? then ev[|ev| - 1].on
    else AugmentationAfter(ev[..|ev| - 1], init)
  }

  /** The integers `a, a + 1, ..., b - 1`. */
  function Range(a: nat, b: nat): (r: seq<nat>)
    requires a <= b
    ensures |r| == b - a
    ensures forall k :: 0 <= k < |r| ==> r[k] == a + k
  {
    if a == b then [] else Range(a, b - 1) + [b - 1]
  }

  lemma {:induction false} RangeAppend(a: nat, b: nat, c: nat)
    requires a <= b <= c
    ensures Range(a, b) + Range(b, c) == Range(a, c)
  {
  }

  /** The trace summaries distribute over concatenation of traces. */
  lemma {:induction false} StepItersAppend(a: seq<Event>, b: seq<Event>)
    ensures StepIters(a + b) == StepIters(a) + StepIters(b)
  {
    if |b| > 0 {
      StepItersAppend(a, b[..|b| - 1]);
      assert (a + b)[..|a + b| - 1] == a + b[..|b| - 1];
    } else {
      assert a + b == a;
    }
  }

  lemma {:induction false} GroupsAppend(a: seq<Event>, b: seq<Event>, e: nat)
    ensures GroupsOfEpoch(a + b, e) == GroupsOfEpoch(a, e) + GroupsOfEpoch(b, e)
  {
    if |b| > 0 {
      GroupsAppend(a, b[..|b| - 1], e);
      assert (a + b)[..|a + b| - 1] == a + b[..|b| - 1];
    } else {
      assert a + b == a;
    }
  }

  lemma {:induction false} ValidationsAppend(a: seq<Event>, b: seq<Event>)
    ensures Validations(a + b) == Validations(a) + Validations(b)
  {
    if |b| > 0 {
      ValidationsAppend(a, b[..|b| - 1]);
      assert (a + b)[..|a + b| - 1] == a + b[..|b| - 1];
    } else {
      assert a + b == a;
    }
  }

  lemma {:induction false} AugmentationAppend(a: seq<Event>, b: seq<Event>, init: bool)
    ensures AugmentationAfter(a + b, init) == AugmentationAfter(b, AugmentationAfter(a, init))
  {
    if |b| > 0 {
      AugmentationAppend(a, b[..|b| - 1], init);
      assert (a + b)[..|a + b| - 1] == a + b[..|b| - 1];
    } else {
      assert a + b == a;
    }
  }

  lemma MultiplesAppend(a: seq<Event>, b: seq<Event>)
    requires EvaluatesAtMultiples(a) && EvaluatesAtMultiples(b)
    ensures EvaluatesAtMultiples(a + b)
  {
    forall k | 0 <= k < |a + b| && (a + b)[k].Evaluate?
      ensures (a + b)[k].iter % ValidationPeriod == 0 && (a + b)[k].iter > 0
    {
      if k >= |a| {
        assert (a + b)[k] == b[k - |a|];
      }
    }
  }

  /** The summaries of a one-event trace. */
  lemma Single(x: Event, e: nat, init: bool)
    ensures StepIters([x]) == (if x.RunEpoch? then [x.iter] else [])
    ensures GroupsOfEpoch([x], e) == (if x.RunEpoch? && x.epoch == e then [x.group] else [])
    ensures Validations([x]) == (if x.Evaluate? then 1 else 0)
    ensures AugmentationAfter([x], init) == (if x.SetAugmentation? then x.on else init)
  {
    assert [x][..0] == [];
  }

  /** A validation makes exactly one `evaluate` call and no `run_epoch` call,
      and leaves augmentation on when the policy toggles it. */
  lemma ValidationFacts(st: Setting, it: nat, epoch: nat, e: nat, init: bool)
    requires it > 0 && it % ValidationPeriod == 0
    ensures var ev := ValidationEvents(st, it, epoch);
      && StepIters(ev) == [] && GroupsOfEpoch(ev, e) == [] && Validations(ev) == 1
      && EvaluatesAtMultiples(ev)
      && AugmentationAfter(ev, init) == (st.policy.toggleAugmentation || init)
  {
    var check := Evaluate(it, epoch, ValidationBatch(st));
    var ev := ValidationEvents(st, it, epoch);
    Single(check, e, init);
    if st.policy.toggleAugmentation {
      var off, on := SetAugmentation(false), SetAugmentation(true);
      var a := [off] + [check];
      assert ev == a + [on];
      Single(off, e, init);
      Single(on, e, AugmentationAfter(a, init));
      Single(check, e, AugmentationAfter([off], init));
      StepItersAppend([off], [check]);
      StepItersAppend(a, [on]);
      GroupsAppend([off], [check], e);
      GroupsAppend(a, [on], e);
      ValidationsAppend([off], [check]);
      ValidationsAppend(a, [on]);
      AugmentationAppend(a, [on], init);
      assert EvaluatesAtMultiples(ev) by {
        assert forall k :: 0 <= k < 3 ==> (ev[k].Evaluate? <==> k == 1);
      }
    } else {
      assert ev == [check];
    }
  }

  /** One pass through the loop body: a skipped batch makes no `run_epoch`
      call and leaves `num_iter` alone; any other batch makes exactly one
      call, on that group with the current `num_iter`, and advances it by 1;
      validation follows exactly when `num_iter` is a multiple of 10. */
  lemma BatchCounts(st: Setting, group: seq<int>, it: nat, epoch: nat)
    requires it >= 1
    ensures var ev, next := BatchEvents(st, group, it, epoch), BatchIter(st, group, it);
      && next == it + |StepIters(ev)|
      && StepIters(ev) == Range(it, next)
      && (StepIters(ev) == [] <==> Skipped(st, group))
      && (!Skipped(st, group) ==> ev[0] == RunEpoch(it, epoch, group))
      && Validations(ev) == (next - 1) / ValidationPeriod - (it - 1) / ValidationPeriod
      && (Validations(ev) == 1 <==> !Skipped(st, group) && it % ValidationPeriod == 0)
  {
    var ev := BatchEvents(st, group, it, epoch);
    if !Skipped(st, group) {
      var step := RunEpoch(it, epoch, group);
      assert [step][..0] == [];
      if it % ValidationPeriod == 0 {
        ValidationFacts(st, it, epoch, 0, false);
        StepItersAppend([step], ValidationEvents(st, it, epoch));
        ValidationsAppend([step], ValidationEvents(st, it, epoch));
      } else {
        assert ev == [step];
      }
    }
  }

  lemma BatchGroups(st: Setting, group: seq<int>, it: nat, epoch: nat, e: nat)
    requires it >= 1
    ensures GroupsOfEpoch(BatchEvents(st, group, it, epoch), e)
         == if e == epoch && !Skipped(st, group) then [group] else []
  {
    var ev := BatchEvents(st, group, it, epoch);
    if !Skipped(st, group) {
      var step := RunEpoch(it, epoch, group);
      assert [step][..0] == [];
      if it % ValidationPeriod == 0 {
        ValidationFacts(st, it, epoch, e, false);
        GroupsAppend([step], ValidationEvents(st, it, epoch), e);
      } else {
        assert ev == [step];
      }
    }
  }

  lemma BatchAugmentation(st: Setting, group: seq<int>, it: nat, epoch: nat, init: bool)
    requires it >= 1
    ensures var ev := BatchEvents(st, group, it, epoch);
      && EvaluatesAtMultiples(ev)
      && AugmentationAfter(ev, init)
         == (if st.policy.toggleAugmentation && Validations(ev) > 0 then true else init)
  {
    var ev := BatchEvents(st, group, it, epoch);
    if !Skipped(st, group) {
      var step := RunEpoch(it, epoch, group);
      assert [step][..0] == [];
      if it % ValidationPeriod == 0 {
        ValidationFacts(st, it, epoch, 0, init);
        ValidationsAppend([step], ValidationEvents(st, it, epoch));
        AugmentationAppend([step], ValidationEvents(st, it, epoch), init);
        MultiplesAppend([step], ValidationEvents(st, it, epoch));
      } else {
        assert ev == [step];
      }
    }
  }

  /** Visiting one more row of `order` appends that row's batch to the epoch. */
  lemma EpochSnoc(st: Setting, order: seq<seq<int>>, k: nat, it: nat, epoch: nat)
    requires k < |order|
    ensures var mid := EpochIter(st, order[..k], it);
      && EpochEvents(st, order[..k + 1], it, epoch)
         == EpochEvents(st, order[..k], it, epoch) + BatchEvents(st, order[k], mid, epoch)
      && EpochIter(st, order[..k + 1], it) == BatchIter(st, order[k], mid)
  {
    assert order[..k + 1][..k] == order[..k];
  }

  /** One more epoch appends its events to the run. */
  lemma RunSnoc(st: Setting, orders: seq<seq<seq<int>>>, order: seq<seq<int>>)
    ensures var it := RunIter(st, orders);
      && RunEvents(st, orders + [order]) == RunEvents(st, orders) + EpochEvents(st, order, it, |orders| + 1)
      && RunIter(st, orders + [order]) == EpochIter(st, order, it)
  {
    assert (orders + [order])[..|orders|] == orders;
  }

  /** One epoch advances `num_iter` by the number of groups it does not skip. */
  lemma {:induction false} EpochIterKept(st: Setting, order: seq<seq<int>>, it: nat)
    ensures EpochIter(st, order, it) == it + |KeptGroups(st, order)|
  {
    if |order| > 0 {
      EpochIterKept(st, order[..|order| - 1], it);
    }
  }

  /** One epoch: `num_iter` advances by the number of groups not skipped, the
      `run_epoch` calls carry consecutive iteration numbers, and validation
      happens once for every multiple of 10 crossed. */
  lemma {:induction false} EpochCounts(st: Setting, order: seq<seq<int>>, it: nat, epoch: nat)
    requires it >= 1
    ensures var ev, last := EpochEvents(st, order, it, epoch), EpochIter(st, order, it);
      && last == it + |KeptGroups(st, order)|
      && StepIters(ev) == Range(it, last)
      && Validations(ev) == (last - 1) / ValidationPeriod - (it - 1) / ValidationPeriod
  {
    if |order| > 0 {
      var prefix, group := order[..|order| - 1], order[|order| - 1];
      var mid := EpochIter(st, prefix, it);
      var a, b := EpochEvents(st, prefix, it, epoch), BatchEvents(st, group, mid, epoch);
      var last := BatchIter(st, group, mid);
      assert EpochEvents(st, order, it, epoch) == a + b;
      assert EpochIter(st, order, it) == last;
      assert |KeptGroups(st, order)| == |KeptGroups(st, prefix)| + (if Skipped(st, group) then 0 else 1);
      EpochCounts(st, prefix, it, epoch);
      BatchCounts(st, group, mid, epoch);
      assert StepIters(a + b) == Range(it, last) by {
        StepItersAppend(a, b);
        RangeAppend(it, mid, last);
      }
      assert Validations(a + b) == (last - 1) / ValidationPeriod - (it - 1) / ValidationPeriod by {
        ValidationsAppend(a, b);
      }
    }
  }

  /** One epoch hands to `run_epoch`, in the epoch's row order, exactly the
      groups the policy does not skip. */
  lemma {:induction false} EpochGroups(st: Setting, order: seq<seq<int>>, it: nat, epoch: nat, e: nat)
    requires it >= 1
    ensures GroupsOfEpoch(EpochEvents(st, order, it, epoch), e)
         == if e == epoch then KeptGroups(st, order) else []
  {
    if |order| > 0 {
      var prefix, group := order[..|order| - 1], order[|order| - 1];
      var mid := EpochIter(st, prefix, it);
      EpochGroups(st, prefix, it, epoch, e);
      EpochCounts(st, prefix, it, epoch);
      BatchGroups(st, group, mid, epoch, e);
      GroupsAppend(EpochEvents(st, prefix, it, epoch), BatchEvents(st, group, mid, epoch), e);
    }
  }

  lemma {:induction false} EpochAugmentation(st: Setting, order: seq<seq<int>>, it: nat, epoch: nat, init: bool)
    requires it >= 1
    ensures var ev := EpochEvents(st, order, it, epoch);
      && EvaluatesAtMultiples(ev)
      && AugmentationAfter(ev, init)
         == (if st.policy.toggleAugmentation && Validations(ev) > 0 then true else init)
  {
    if |order| > 0 {
      var prefix, group := order[..|order| - 1], order[|order| - 1];
      var mid := EpochIter(st, prefix, it);
      var a, b := EpochEvents(st, prefix, it, epoch), BatchEvents(st, group, mid, epoch);
      EpochAugmentation(st, prefix, it, epoch, init);
      EpochCounts(st, prefix, it, epoch);
      BatchAugmentation(st, group, mid, epoch, AugmentationAfter(a, init));
      ValidationsAppend(a, b);
      AugmentationAppend(a, b, init);
      MultiplesAppend(a, b);
    }
  }

  /** A whole run: the `run_epoch` calls carry the iteration numbers
      1, 2, ..., `num_iter - 1` in order, and there is one validation per
      multiple of 10 among them, `(num_iter - 1) / 10` in all. */
  lemma {:induction false} RunCounts(st: Setting, orders: seq<seq<seq<int>>>)
    ensures var ev, last := RunEvents(st, orders), RunIter(st, orders);
      && last >= 1
      && StepIters(ev) == Range(1, last)
      && Validations(ev) == (last - 1) / ValidationPeriod
  {
    if |orders| > 0 {
      var prefix, order := orders[..|orders| - 1], orders[|orders| - 1];
      var mid := RunIter(st, prefix);
      var a, b := RunEvents(st, prefix), EpochEvents(st, order, mid, |orders|);
      var last := EpochIter(st, order, mid);
      assert orders == prefix + [order];
      RunSnoc(st, prefix, order);
      assert mid >= 1 && StepIters(a) == Range(1, mid)
          && Validations(a) == (mid - 1) / ValidationPeriod by {
        RunCounts(st, prefix);
      }
      assert last >= mid && StepIters(b) == Range(mid, last)
          && Validations(b) == (last - 1) / ValidationPeriod - (mid - 1) / ValidationPeriod by {
        EpochCounts(st, order, mid, |orders|);
      }
      assert StepIters(a + b) == Range(1, last) by {
        StepItersAppend(a, b);
        RangeAppend(1, mid, last);
      }
      assert Validations(a + b) == (last - 1) / ValidationPeriod by {
        ValidationsAppend(a, b);
      }
    }
  }

  /** Epoch `e` of a run hands to `run_epoch` exactly the unskipped groups of
      its own row order, and no other epoch number appears. */
  lemma {:induction false} RunGroups(st: Setting, orders: seq<seq<seq<int>>>, e: nat)
    ensures GroupsOfEpoch(RunEvents(st, orders), e)
         == if 1 <= e <= |orders| then KeptGroups(st, orders[e - 1]) else []
  {
    if |orders| > 0 {
      var prefix, order := orders[..|orders| - 1], orders[|orders| - 1];
      var mid := RunIter(st, prefix);
      var a, b := RunEvents(st, prefix), EpochEvents(st, order, mid, |orders|);
      assert orders == prefix + [order];
      RunSnoc(st, prefix, order);
      RunGroups(st, prefix, e);
      RunCounts(st, prefix);
      EpochGroups(st, order, mid, |orders|, e);
      GroupsAppend(a, b, e);
      if 1 <= e < |orders| {
        assert orders[e - 1] == prefix[e - 1];
      }
    }
  }

  /** Validation only ever happens at multiples of 10, and after the run the
      augmentation flag is on if the policy toggles it and some validation
      happened, and as it was before otherwise. */
  lemma {:induction false} RunAugmentation(st: Setting, orders: seq<seq<seq<int>>>, init: bool)
    ensures var ev := RunEvents(st, orders);
      && EvaluatesAtMultiples(ev)
      && AugmentationAfter(ev, init)
         == (if st.policy.toggleAugmentation && Validations(ev) > 0 then true else init)
  {
    if |orders| > 0 {
      var prefix, order := orders[..|orders| - 1], orders[|orders| - 1];
      var mid := RunIter(st, prefix);
      var a, b := RunEvents(st, prefix), EpochEvents(st, order, mid, |orders|);
      RunAugmentation(st, prefix, init);
      RunCounts(st, prefix);
      EpochAugmentation(st, order, mid, |orders|, AugmentationAfter(a, init));
      ValidationsAppend(a, b);
      AugmentationAppend(a, b, init);
      MultiplesAppend(a, b);
    }
  }

  /** A trace with augmentation off at every `evaluate`, followed by another
      one that has it off from the flag the first leaves, has it off too. */
  lemma WithoutAugmentationAppend(a: seq<Event>, b: seq<Event>, init: bool)
    requires EvaluatesWithoutAugmentation(a, init)
    requires EvaluatesWithoutAugmentation(b, AugmentationAfter(a, init))
    ensures EvaluatesWithoutAugmentation(a + b, init)
  {
    forall k | 0 <= k < |a + b| && (a + b)[k].Evaluate?
      ensures !AugmentationAfter((a + b)[..k], init)
    {
      if k < |a| {
        assert (a + b)[..k] == a[..k];
      } else {
        var j := k - |a|;
        assert (a + b)[k] == b[j];
        assert (a + b)[..k] == a + b[..j];
        AugmentationAppend(a, b[..j], init);
      }
    }
  }

  /** The decorator switches augmentation off before its `evaluate` call,
      whatever the flag was. */
  lemma ValidationWithoutAugmentation(st: Setting, it: nat, epoch: nat, init: bool)
    requires st.policy.toggleAugmentation
    ensures EvaluatesWithoutAugmentation(ValidationEvents(st, it, epoch), init)
  {
    var ev := ValidationEvents(st, it, epoch);
    assert ev[..1] == [SetAugmentation(false)];
    assert ev[..1][..0] == [];
  }

  lemma BatchWithoutAugmentation(st: Setting, group: seq<int>, it: nat, epoch: nat, init: bool)
    requires st.policy.toggleAugmentation
    ensures EvaluatesWithoutAugmentation(BatchEvents(st, group, it, epoch), init)
  {
    if !Skipped(st, group) {
      var step := [RunEpoch(it, epoch, group)];
      if it % ValidationPeriod == 0 {
        ValidationWithoutAugmentation(st, it, epoch, AugmentationAfter(step, init));
        WithoutAugmentationAppend(step, ValidationEvents(st, it, epoch), init);
      } else {
        assert BatchEvents(st, group, it, epoch) == step;
      }
    }
  }

  lemma {:induction false} EpochWithoutAugmentation(st: Setting, order: seq<seq<int>>, it: nat, epoch: nat, init: bool)
    requires st.policy.toggleAugmentation
    ensures EvaluatesWithoutAugmentation(EpochEvents(st, order, it, epoch), init)
  {
    if |order| > 0 {
      var prefix, group := order[..|order| - 1], order[|order| - 1];
      var mid := EpochIter(st, prefix, it);
      var a := EpochEvents(st, prefix, it, epoch);
      EpochWithoutAugmentation(st, prefix, it, epoch, init);
      BatchWithoutAugmentation(st, group, mid, epoch, AugmentationAfter(a, init));
      WithoutAugmentationAppend(a, BatchEvents(st, group, mid, epoch), init);
    }
  }

  /** In the decorator's loop every `evaluate` call of the run happens with
      augmentation off (lines 188 and 199 bracket it). */
  lemma {:induction false} RunWithoutAugmentation(st: Setting, orders: seq<seq<seq<int>>>, init: bool)
    requires st.policy.toggleAugmentation
    ensures EvaluatesWithoutAugmentation(RunEvents(st, orders), init)
  {
    if |orders| > 0 {
      var prefix, order := orders[..|orders| - 1], orders[|orders| - 1];
      var mid := RunIter(st, prefix);
      var a := RunEvents(st, prefix);
      RunWithoutAugmentation(st, prefix, init);
      EpochWithoutAugmentation(st, order, mid, |orders|, AugmentationAfter(a, init));
      WithoutAugmentationAppend(a, EpochEvents(st, order, mid, |orders|), init);
    }
  }

  lemma {:induction false} KeptAppend(st: Setting, a: seq<seq<int>>, b: seq<seq<int>>)
    ensures KeptGroups(st, a + b) == KeptGroups(st, a) + KeptGroups(st, b)
  {
    if |b| > 0 {
      KeptAppend(st, a, b[..|b| - 1]);
      assert (a + b)[..|a + b| - 1] == a + b[..|b| - 1];
      assert (a + b)[|a + b| - 1] == b[|b| - 1];
    } else {
      assert a + b == a;
    }
  }

  /** Taking the row at `j` out of `t`: the multiset loses that row, and the
      kept groups lose it exactly when it is kept. */
  lemma KeptRemove(st: Setting, t: seq<seq<int>>, j: nat)
    requires j < |t|
    ensures multiset(t[..j] + t[j + 1..]) == multiset(t) - multiset{t[j]}
    ensures multiset(KeptGroups(st, t))
         == multiset(KeptGroups(st, t[..j] + t[j + 1..])) + multiset(KeptGroups(st, [t[j]]))
  {
    var x := t[j];
    assert t == t[..j] + [x] + t[j + 1..];
    assert multiset(t) == multiset(t[..j]) + multiset{x} + multiset(t[j + 1..]);
    KeptAppend(st, t[..j] + [x], t[j + 1..]);
    KeptAppend(st, t[..j], [x]);
    KeptAppend(st, t[..j], t[j + 1..]);
  }

  /** Reordering the groups reorders the kept groups the same way: which
      groups are skipped depends only on their contents. */
  lemma {:induction false} KeptPermutation(st: Setting, s: seq<seq<int>>, t: seq<seq<int>>)
    requires multiset(s) == multiset(t)
    ensures multiset(KeptGroups(st, s)) == multiset(KeptGroups(st, t))
    decreases |s|
  {
    if |s| == 0 {
      assert multiset(t) == multiset{};
      assert |t| == |multiset(t)|;
    } else {
      var x, init := s[|s| - 1], s[..|s| - 1];
      assert s == init + [x];
      assert x in multiset(t);
      var j :| 0 <= j < |t| && t[j] == x;
      var rest := t[..j] + t[j + 1..];
      KeptRemove(st, t, j);
      assert multiset(init) == multiset(rest) by {
        assert multiset(s) == multiset(init) + multiset{x};
      }
      KeptPermutation(st, init, rest);
      assert KeptGroups(st, s) == KeptGroups(st, init) + KeptGroups(st, [x]) by {
        KeptAppend(st, init, [x]);
      }
    }
  }

  /** When every epoch visits a reordering of the same groups, each epoch makes
      one `run_epoch` call per unskipped group, so `num_iter` ends at
      `1 + epochs * kept`; the decorator, which skips nothing, steps through
      every group once per epoch. */
  lemma {:induction false} RunIterOfReorderings(st: Setting, orders: seq<seq<seq<int>>>, groups: seq<seq<int>>)
    requires forall e :: 0 <= e < |orders| ==> multiset(orders[e]) == multiset(groups)
    ensures RunIter(st, orders) == 1 + |orders| * |KeptGroups(st, groups)|
  {
    if |orders| > 0 {
      var n, k := |orders|, |KeptGroups(st, groups)|;
      var prefix, order := orders[..n - 1], orders[n - 1];
      var mid := RunIter(st, prefix);
      assert RunIter(st, orders) == EpochIter(st, order, mid);
      assert forall e :: 0 <= e < n - 1 ==> prefix[e] == orders[e];
      RunIterOfReorderings(st, prefix, groups);
      assert |KeptGroups(st, order)| == k by {
        KeptPermutation(st, order, groups);
        assert |multiset(KeptGroups(st, order))| == |multiset(KeptGroups(st, groups))|;
      }
      EpochIterKept(st, order, mid);
      MulSucc(n - 1, k);
    }
  }

  lemma MulSucc(m: nat, k: nat)
    ensures m * k + k == (m + 1) * k
  {
  }

  /** Under the decorator's policy nothing is skipped. */
  lemma {:induction false} NothingSkipped(st: Setting, groups: seq<seq<int>>)
    requires !st.policy.skipNoPositive
    ensures KeptGroups(st, groups) == groups
  {
    if |groups| > 0 {
      NothingSkipped(st, groups[..|groups| - 1]);
    }
  }

  /** If every label in the training groups is all zero, the base loop never
      calls `run_epoch`. */
  lemma {:induction false} AllNegativeSkipsEverything(st: Setting, groups: seq<seq<int>>)
    requires st.policy.skipNoPositive
    requires forall i :: 0 <= i < |groups| ==> AllNegative(groups[i], st.noPositive)
    ensures KeptGroups(st, groups) == []
  {
    if |groups| > 0 {
      AllNegativeSkipsEverything(st, groups[..|groups| - 1]);
    }
  }

  /** When every epoch visits a reordering of `groups`, epoch `e` hands each
      unskipped group to `run_epoch` exactly once; without skipping (the
      decorator) that is every group. */
  lemma EpochVisitsEveryGroup(st: Setting, orders: seq<seq<seq<int>>>, groups: seq<seq<int>>, e: nat)
    requires forall k :: 0 <= k < |orders| ==> multiset(orders[k]) == multiset(groups)
    requires 1 <= e <= |orders|
    ensures multiset(GroupsOfEpoch(RunEvents(st, orders), e)) == multiset(KeptGroups(st, groups))
    ensures !st.policy.skipNoPositive ==> multiset(GroupsOfEpoch(RunEvents(st, orders), e)) == multiset(groups)
  {
    RunGroups(st, orders, e);
    KeptPermutation(st, orders[e - 1], groups);
    if !st.policy.skipNoPositive {
      NothingSkipped(st, groups);
    }
  }

  /** Everything a whole run guarantees when each epoch visits a reordering
      of the same groups: the final `num_iter`, the groups of each epoch, the
      numbering of the steps, the number of validations and the final
      augmentation flag. */
  lemma RunSummary(st: Setting, orders: seq<seq<seq<int>>>, groups: seq<seq<int>>, init: bool)
    requires forall k :: 0 <= k < |orders| ==> multiset(orders[k]) == multiset(groups)
    ensures var ev, last := RunEvents(st, orders), RunIter(st, orders);
      && last == 1 + |orders| * |KeptGroups(st, groups)|
      && (forall e :: 1 <= e <= |orders| ==>
            multiset(GroupsOfEpoch(ev, e)) == multiset(KeptGroups(st, groups)))
      && StepIters(ev) == Range(1, last)
      && Validations(ev) == (last - 1) / ValidationPeriod
      && AugmentationAfter(ev, init)
         == (if st.policy.toggleAugmentation && Validations(ev) > 0 then true else init)
      && (st.policy.toggleAugmentation ==> EvaluatesWithoutAugmentation(ev, init))
  {
    RunIterOfReorderings(st, orders, groups);
    forall e | 1 <= e <= |orders|
      ensures multiset(GroupsOfEpoch(RunEvents(st, orders), e)) == multiset(KeptGroups(st, groups))
    {
      EpochVisitsEveryGroup(st, orders, groups, e);
    }
    RunCounts(st, orders);
    RunAugmentation(st, orders, init);
    if st.policy.toggleAugmentation {
      RunWithoutAugmentation(st, orders, init);
    }
  }
}
