/** Index partitioning and grouping done once at the start of `run_training`
    (neurotorch/core/trainer.py, lines 97-104 and 166-173).

    A random permutation of the volume's valid indices is cut into a training
    pool (the prefix of length `int(n * 0.8)`) and a validation pool (the
    suffix starting at `int(n * 0.2)`); the training pool is truncated to a
    multiple of the group size and reshaped into rows of that size. */
module Partition {

  /** Every element of `s` occurs once. */
  ghost predicate Distinct(s: seq<int>) {
    forall i, j :: 0 <= i < j < |s| ==> s[i] != s[j]
  }

  /** Length of the training pool, `int(n * (1 - 0.2))`, as the floor of 4n/5. */
  function TrainLength(n: nat): (t: nat)
    ensures 5 * t <= 4 * n < 5 * t + 5
    ensures t <= n
  {
    n * 4 / 5
  }

  /** Start of the validation pool, `int(n * 0.2)`, as the floor of n/5. */
  function ValStart(n: nat): (s: nat)
    ensures 5 * s <= n < 5 * s + 5
    ensures s <= TrainLength(n)
  {
    n / 5
  }

  /** `random_idx[:int(n * 0.8)]` */
  function TrainPool(perm: seq<int>): (pool: seq<int>)
    ensures |pool| == TrainLength(|perm|)
    ensures pool <= perm
  {
    perm[..TrainLength(|perm|)]
  }

  /** `random_idx[int(n * 0.2):]` */
  function ValPool(perm: seq<int>): (pool: seq<int>)
    ensures |pool| == |perm| - ValStart(|perm|)
    ensures forall k :: 0 <= k < |pool| ==> pool[k] == perm[ValStart(|perm|) + k]
  {
    perm[ValStart(|perm|)..]
  }

  /** `pool[:len(pool) - len(pool) % g]`: the longest prefix whose length is a
      multiple of `g`. */
  function Truncated(pool: seq<int>, g: nat): (r: seq<int>)
    requires g > 0
    ensures |r| % g == 0
    ensures |pool| - g < |r| <= |pool|
    ensures r <= pool
  {
    var n := |pool|;
    DivMod(n - n % g, g, n / g, 0);
    pool[..n - n % g]
  }

  /** Euclidean division is determined by its defining equation. */
  lemma DivMod(x: int, g: int, q: int, r: int)
    requires g > 0 && 0 <= r < g && x == q * g + r
    ensures x / g == q && x % g == r
  {
    var d := q - x / g;
    assert d * g == x % g - r;
    if d >= 1 {
      MulAtLeast(d, g);
    } else if d <= -1 {
      MulAtLeast(-d, g);
    }
  }

  lemma {:induction false} MulAtLeast(d: int, g: int)
    requires d >= 1 && g > 0
    ensures d * g >= g
  {
    if d > 1 {
      MulAtLeast(d - 1, g);
      assert d * g == (d - 1) * g + g;
    }
  }

  /** `s.reshape((-1, g))`: consecutive rows of `g` elements. */
  function Reshape(s: seq<int>, g: nat): (rows: seq<seq<int>>)
    requires g > 0 && |s| % g == 0
    ensures |rows| * g == |s|
    ensures forall i :: 0 <= i < |rows| ==> |rows[i]| == g
  {
    DivMod(|s|, g, |s| / g, 0);
    Rows(s, g, |s| / g)
  }

  /** The `k` consecutive rows of `g` elements that make up `s`. */
  function Rows(s: seq<int>, g: nat, k: nat): (rows: seq<seq<int>>)
    requires g > 0 && |s| == k * g
    ensures |rows| == k
    ensures forall i :: 0 <= i < |rows| ==> |rows[i]| == g
  {
    if k == 0 then []
    else
      assert |s| == (k - 1) * g + g;
      [s[..g]] + Rows(s[g..], g, k - 1)
  }

  /** The rows laid end to end again. */
  function Flatten(rows: seq<seq<int>>): (s: seq<int>)
  {
    if |rows| == 0 then [] else rows[0] + Flatten(rows[1..])
  }

  /** The training groups `train_idx` as they stand before the first epoch. */
  function TrainGroups(perm: seq<int>, g: nat): (groups: seq<seq<int>>)
    requires g > 0
  {
    Reshape(Truncated(TrainPool(perm), g), g)
  }

  /** Reshaping and flattening undo each other: no index is lost, added or moved. */
  lemma {:induction false} FlattenReshape(s: seq<int>, g: nat)
    requires g > 0 && |s| % g == 0
    ensures Flatten(Reshape(s, g)) == s
  {
    DivMod(|s|, g, |s| / g, 0);
    FlattenRows(s, g, |s| / g);
  }

  lemma {:induction false} FlattenRows(s: seq<int>, g: nat, k: nat)
    requires g > 0 && |s| == k * g
    ensures Flatten(Rows(s, g, k)) == s
  {
    if k > 0 {
      assert |s| == (k - 1) * g + g;
      FlattenRows(s[g..], g, k - 1);
      assert Rows(s, g, k)[1..] == Rows(s[g..], g, k - 1);
      assert s == s[..g] + s[g..];
    }
  }

  lemma {:induction false} ReshapeFlatten(rows: seq<seq<int>>, g: nat)
    requires g > 0
    requires forall i :: 0 <= i < |rows| ==> |rows[i]| == g
    ensures |Flatten(rows)| == |rows| * g && |Flatten(rows)| % g == 0
    ensures Reshape(Flatten(rows), g) == rows
  {
    var f := Flatten(rows);
    RowsFlatten(rows, g);
    DivMod(|f|, g, |rows|, 0);
    assert |f| / g == |rows|;
  }

  lemma {:induction false} RowsFlatten(rows: seq<seq<int>>, g: nat)
    requires g > 0
    requires forall i :: 0 <= i < |rows| ==> |rows[i]| == g
    ensures |Flatten(rows)| == |rows| * g
    ensures Rows(Flatten(rows), g, |rows|) == rows
  {
    if |rows| > 0 {
      RowsFlatten(rows[1..], g);
      var f := Flatten(rows);
      assert f == rows[0] + Flatten(rows[1..]);
      assert |f| == |rows| * g by {
        assert |rows| * g == (|rows| - 1) * g + g;
      }
      assert f[..g] == rows[0];
      assert f[g..] == Flatten(rows[1..]);
      assert rows == [rows[0]] + rows[1..];
    }
  }

  /** The training pool keeps `t - t % g` indices, cut into exactly
      `(t - t % g) / g` groups of exactly `g`, where `t = int(0.8 * n)`. */
  lemma GroupShape(perm: seq<int>, g: nat)
    requires g > 0
    ensures var t := TrainLength(|perm|);
      |Truncated(TrainPool(perm), g)| == t - t % g &&
      |TrainGroups(perm, g)| == (t - t % g) / g &&
      |TrainGroups(perm, g)| * g == t - t % g
    ensures forall i :: 0 <= i < |TrainGroups(perm, g)| ==> |TrainGroups(perm, g)[i]| == g
    ensures Flatten(TrainGroups(perm, g)) == perm[..TrainLength(|perm|) - TrainLength(|perm|) % g]
  {
    var pool := Truncated(TrainPool(perm), g);
    FlattenReshape(pool, g);
    ReshapeFlatten(TrainGroups(perm, g), g);
  }

  /** Training stops making progress exactly when the pool is shorter than one group. */
  lemma NoGroupsIffShortPool(perm: seq<int>, g: nat)
    requires g > 0
    ensures |TrainGroups(perm, g)| == 0 <==> TrainLength(|perm|) < g
  {
    GroupShape(perm, g);
  }

  lemma {:induction false} DistinctConcat(a: seq<int>, b: seq<int>)
    requires Distinct(a + b)
    ensures Distinct(a) && Distinct(b)
    ensures forall x :: x in a ==> x !in b
  {
    forall i, j | 0 <= i < j < |a| ensures a[i] != a[j] {
      assert a[i] == (a + b)[i] && a[j] == (a + b)[j];
    }
    forall i, j | 0 <= i < j < |b| ensures b[i] != b[j] {
      assert b[i] == (a + b)[|a| + i] && b[j] == (a + b)[|a| + j];
    }
    forall i, j | 0 <= i < |a| && 0 <= j < |b| ensures a[i] != b[j] {
      assert a[i] == (a + b)[i] && b[j] == (a + b)[|a| + j];
    }
  }

  /** If the flattened rows repeat no index, neither does any row, and no index
      sits in two rows. */
  lemma {:induction false} DistinctRows(rows: seq<seq<int>>)
    requires Distinct(Flatten(rows))
    ensures forall i :: 0 <= i < |rows| ==> Distinct(rows[i])
    ensures forall i, j, x :: 0 <= i < j < |rows| && x in rows[i] ==> x !in rows[j]
  {
    if |rows| > 0 {
      DistinctConcat(rows[0], Flatten(rows[1..]));
      DistinctRows(rows[1..]);
      forall j, x | 0 < j < |rows| && x in rows[j] ensures x !in rows[0] {
        assert rows[1..][j - 1] == rows[j];
        InFlatten(rows[1..], j - 1, x);
      }
      forall i, j, x | 0 < i < j < |rows| && x in rows[i] ensures x !in rows[j] {
        assert rows[i] == rows[1..][i - 1] && rows[j] == rows[1..][j - 1];
      }
    }
  }

  /** Every element of a row is in the flattened rows. */
  lemma {:induction false} InFlatten(rows: seq<seq<int>>, i: nat, x: int)
    requires i < |rows| && x in rows[i]
    ensures x in Flatten(rows)
  {
    if i > 0 {
      InFlatten(rows[1..], i - 1, x);
    }
  }

  /** The training groups are drawn without repetition from the valid indices:
      no index appears twice in one group or in two groups. */
  lemma GroupsDrawnWithoutRepetition(valid: seq<int>, perm: seq<int>, g: nat)
    requires g > 0
    requires Distinct(valid) && multiset(perm) == multiset(valid)
    ensures var groups := TrainGroups(perm, g);
      (forall i :: 0 <= i < |groups| ==> Distinct(groups[i])) &&
      (forall i, j, x :: 0 <= i < j < |groups| && x in groups[i] ==> x !in groups[j]) &&
      (forall i, x :: 0 <= i < |groups| && x in groups[i] ==> x in valid)
  {
    var groups := TrainGroups(perm, g);
    PermutationDistinct(valid, perm);
    GroupShape(perm, g);
    var flat := Flatten(groups);
    assert flat <= perm;
    assert Distinct(flat) by {
      forall i, j | 0 <= i < j < |flat| ensures flat[i] != flat[j] {
        assert flat[i] == perm[i] && flat[j] == perm[j];
      }
    }
    DistinctRows(groups);
    forall i, x | 0 <= i < |groups| && x in groups[i] ensures x in valid {
      InFlatten(groups, i, x);
      assert x in multiset(perm);
    }
  }

  /** A permutation of a repetition-free sequence is repetition-free. */
  lemma PermutationDistinct(valid: seq<int>, perm: seq<int>)
    requires Distinct(valid) && multiset(perm) == multiset(valid)
    ensures Distinct(perm)
  {
    forall i, j | 0 <= i < j < |perm| ensures perm[i] != perm[j] {
      if perm[i] == perm[j] {
        var x := perm[i];
        MultiplicityAtLeastTwo(perm, i, j);
        MultiplicityAtMostOne(valid, x);
        assert false;
      }
    }
  }

  lemma {:induction false} MultiplicityAtLeastTwo(s: seq<int>, i: nat, j: nat)
    requires i < j < |s| && s[i] == s[j]
    ensures multiset(s)[s[i]] >= 2
  {
    assert s == s[..i] + [s[i]] + s[i + 1..j] + [s[j]] + s[j + 1..];
    assert multiset(s) == multiset(s[..i]) + multiset{s[i]} + multiset(s[i + 1..j])
      + multiset{s[j]} + multiset(s[j + 1..]);
  }

  lemma {:induction false} MultiplicityAtMostOne(s: seq<int>, x: int)
    requires Distinct(s)
    ensures multiset(s)[x] <= 1
  {
    if |s| > 0 {
      var t := s[1..];
      assert Distinct(t) by {
        forall i, j | 0 <= i < j < |t| ensures t[i] != t[j] {
          assert t[i] == s[i + 1] && t[j] == s[j + 1];
        }
      }
      MultiplicityAtMostOne(t, x);
      assert s == [s[0]] + t;
      assert multiset(s) == multiset{s[0]} + multiset(t);
      if x == s[0] {
        assert x !in t by {
          forall k | 0 <= k < |t| ensures t[k] != x {
            assert t[k] == s[k + 1];
          }
        }
      }
    }
  }

  /** The validation pool is `random_idx[int(0.2 n):]`, not `random_idx[int(0.8 n):]`:
      an index is in both pools exactly when it lies between the two cuts, and
      such an index exists as soon as there are two valid indices. */
  lemma PoolsOverlap(perm: seq<int>)
    requires Distinct(perm)
    ensures forall x :: (x in TrainPool(perm) && x in ValPool(perm))
                    <==> x in perm[ValStart(|perm|)..TrainLength(|perm|)]
    ensures |perm| >= 2 <==> ValStart(|perm|) < TrainLength(|perm|)
  {
    SplitPointsOrdered(|perm|);
    forall x ensures x in TrainPool(perm) && x in ValPool(perm) <==> x in perm[ValStart(|perm|)..TrainLength(|perm|)] {
      InBothPools(perm, x);
    }
  }

  lemma InBothPools(perm: seq<int>, x: int)
    requires Distinct(perm)
    ensures x in TrainPool(perm) && x in ValPool(perm) <==> x in perm[ValStart(|perm|)..TrainLength(|perm|)]
  {
    var n := |perm|;
    var s, t := ValStart(n), TrainLength(n);
    var train, val, mid := perm[..t], perm[s..], perm[s..t];
    if x in train && x in val {
      assert x in mid by {
        var i :| 0 <= i < t && train[i] == x;
        var k :| 0 <= k < n - s && val[k] == x;
        assert i == s + k;
        assert mid[k] == x;
      }
    }
    if x in mid {
      assert x in train && x in val by {
        var k :| 0 <= k < t - s && mid[k] == x;
        assert train[s + k] == x;
        assert val[k] == x;
      }
    }
  }

  /** The validation pool starts strictly before the training pool ends
      exactly when there are at least two indices. */
  lemma SplitPointsOrdered(n: nat)
    ensures n >= 2 <==> ValStart(n) < TrainLength(n)
  {
  }

  /** Whenever there is at least one training group, the validation pool is
      non-empty, so the validation batch `val_idx[:1]` / `val_idx[:16]` always
      holds at least one index. */
  lemma ValidationPoolNonEmpty(perm: seq<int>, g: nat)
    requires g > 0 && |TrainGroups(perm, g)| > 0
    ensures |ValPool(perm)| > 0
  {
    GroupShape(perm, g);
  }

  /** With 32 valid indices the training pool keeps 25 indices, giving three
      groups of 8 (decorator) or one group of 16 (base trainer). */
  lemma ThirtyTwoIndices(perm: seq<int>)
    requires |perm| == 32
    ensures |TrainGroups(perm, 8)| == 3 && |TrainGroups(perm, 16)| == 1
    ensures |ValPool(perm)| == 26
  {
    GroupShape(perm, 8);
    GroupShape(perm, 16);
  }
}
