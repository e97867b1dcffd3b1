/** The intersection-over-union accuracy computed by `Trainer.evaluate`
    (neurotorch/core/trainer.py, lines 85-86): the number of positions where
    the thresholded prediction (`output > 0`) and the target are both set,
    divided by the number where either is set. Counts are natural numbers;
    the floating-point division is kept as the pair of counts. */
module Accuracy {

  /** Number of set positions, `torch.sum` over a boolean tensor. */
  function CountSet(s: seq<bool>): (c: nat)
    ensures c <= |s|
  {
    if |s| == 0 then 0 else (if s[0] then 1 else 0) + CountSet(s[1..])
  }

  /** Elementwise `&` of two equally shaped boolean tensors. */
  function And(a: seq<bool>, b: seq<bool>): (r: seq<bool>)
    requires |a| == |b|
    ensures |r| == |a|
    ensures forall k :: 0 <= k < |r| ==> (r[k] <==> a[k] && b[k])
  {
    seq(|a|, k requires 0 <= k < |a| => a[k] && b[k])
  }

  /** Elementwise `|` of two equally shaped boolean tensors. */
  function Or(a: seq<bool>, b: seq<bool>): (r: seq<bool>)
    requires |a| == |b|
    ensures |r| == |a|
    ensures forall k :: 0 <= k < |r| ==> (r[k] <==> a[k] || b[k])
  {
    seq(|a|, k requires 0 <= k < |a| => a[k] || b[k])
  }

  /** The accuracy as the two counts of lines 85-86; `Undefined` stands for
      the `0 / 0` that the source divides into when neither the prediction
      nor the target has a set position. */
  datatype Ratio = Ratio(hits: nat, covered: nat) | Undefined

  function IoU(pred: seq<bool>, target: seq<bool>): (r: Ratio)
    requires |pred| == |target|
    ensures r.Undefined? <==> CountSet(Or(pred, target)) == 0
    ensures r.Ratio? ==> r.hits == CountSet(And(pred, target)) && r.covered == CountSet(Or(pred, target))
    ensures r.Ratio? ==> 0 < r.covered && r.hits <= r.covered
  {
    var hits, covered := CountSet(And(pred, target)), CountSet(Or(pred, target));
    IntersectionWithinUnion(pred, target);
    if covered == 0 then Undefined else Ratio(hits, covered)
  }

  /** The intersection count never exceeds the union count, so the accuracy
      lies in [0, 1] whenever it is defined. */
  lemma {:induction false} IntersectionWithinUnion(a: seq<bool>, b: seq<bool>)
    requires |a| == |b|
    ensures CountSet(And(a, b)) <= CountSet(Or(a, b))
  {
    if |a| > 0 {
      IntersectionWithinUnion(a[1..], b[1..]);
      assert And(a, b)[1..] == And(a[1..], b[1..]);
      assert Or(a, b)[1..] == Or(a[1..], b[1..]);
    }
  }

  /** |p & l| + |p | l| == |p| + |l|. */
  lemma {:induction false} InclusionExclusion(a: seq<bool>, b: seq<bool>)
    requires |a| == |b|
    ensures CountSet(And(a, b)) + CountSet(Or(a, b)) == CountSet(a) + CountSet(b)
  {
    if |a| > 0 {
      InclusionExclusion(a[1..], b[1..]);
      assert And(a, b)[1..] == And(a[1..], b[1..]);
      assert Or(a, b)[1..] == Or(a[1..], b[1..]);
    }
  }

  /** The union is empty exactly when neither sequence has a set position. */
  lemma {:induction false} EmptyUnion(a: seq<bool>, b: seq<bool>)
    requires |a| == |b|
    ensures CountSet(Or(a, b)) == 0 <==> CountSet(a) == 0 && CountSet(b) == 0
  {
    InclusionExclusion(a, b);
    IntersectionWithinUnion(a, b);
  }

  /** Accuracy is exactly 1 (hits == covered) if and only if the thresholded
      prediction equals the target, provided some position is set. */
  lemma {:induction false} PerfectIffEqual(pred: seq<bool>, target: seq<bool>)
    requires |pred| == |target|
    requires IoU(pred, target).Ratio?
    ensures IoU(pred, target).hits == IoU(pred, target).covered <==> pred == target
  {
    HitsEqualCovered(pred, target);
  }

  lemma {:induction false} HitsEqualCovered(a: seq<bool>, b: seq<bool>)
    requires |a| == |b|
    ensures CountSet(And(a, b)) == CountSet(Or(a, b)) <==> a == b
  {
    if |a| > 0 {
      var hits, covered := CountSet(And(a[1..], b[1..])), CountSet(Or(a[1..], b[1..]));
      HitsEqualCovered(a[1..], b[1..]);
      IntersectionWithinUnion(a[1..], b[1..]);
      assert CountSet(And(a, b)) == (if a[0] && b[0] then 1 else 0) + hits by {
        assert And(a, b)[1..] == And(a[1..], b[1..]);
      }
      assert CountSet(Or(a, b)) == (if a[0] || b[0] then 1 else 0) + covered by {
        assert Or(a, b)[1..] == Or(a[1..], b[1..]);
      }
      if a[0] == b[0] {
        assert a == b <==> a[1..] == b[1..] by {
          assert a == [a[0]] + a[1..] && b == [b[0]] + b[1..];
        }
      }
    }
  }
}
