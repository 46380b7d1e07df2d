/**
 * The sequence logic of the epoch-end hooks (src/models/msoc_all.py:25-26, 351-375, 412-424):
 * the unweighted `Average` of the batch losses, the flattening of per-batch lists in batch
 * order, and the boolean-mask split of the epoch's scores by target that feeds
 * `compute_eer`.
 */
module Aggregation {

  import opened Wrappers
  import opened Labels

  /** How an epoch-end hook fails before it reports anything. */
  datatype EpochError =
    | NoBatches       // `Average` of an empty list: `sum([]) / 0` raises ZeroDivisionError
    | NothingToStack  // `torch.stack` of an empty list raises

  /** `sum(lst)`: the list's elements added up left to right from 0. */
  function Sum(xs: seq<real>): real
  {
    if xs == [] then 0.0 else Sum(xs[..|xs| - 1]) + xs[|xs| - 1]
  }

  /** `Average(lst)`: the sum divided by the length, an error on an empty list. */
  function Average(xs: seq<real>): (r: Result<real, EpochError>)
    ensures r.Failure? <==> xs == []
    ensures r.Failure? ==> r.error == NoBatches
    ensures r.Success? ==> r.value * (|xs| as real) == Sum(xs)
  {
    if xs == [] then Failure(NoBatches) else Success(Sum(xs) / (|xs| as real))
  }

  /** A sum of values in `[lo, hi]` lies between `lo` and `hi` times the count. */
  lemma {:induction false} SumBounds(xs: seq<real>, lo: real, hi: real)
    requires forall i :: 0 <= i < |xs| ==> lo <= xs[i] <= hi
    ensures lo * (|xs| as real) <= Sum(xs) <= hi * (|xs| as real)
  {
    if xs != [] {
      SumBounds(xs[..|xs| - 1], lo, hi);
    }
  }

  /** The average of values in `[lo, hi]` lies in `[lo, hi]`; in particular the average of a constant list is that constant. */
  lemma AverageWithinBounds(xs: seq<real>, lo: real, hi: real)
    requires xs != []
    requires forall i :: 0 <= i < |xs| ==> lo <= xs[i] <= hi
    ensures Average(xs).Success? && lo <= Average(xs).value <= hi
  {
    SumBounds(xs, lo, hi);
    var n := |xs| as real;
    var m := Average(xs).value;
    assert m * n == Sum(xs);
  }

  /** The number of elements across all batches. */
  function TotalLength<T>(bs: seq<seq<T>>): nat
  {
    if bs == [] then 0 else TotalLength(bs[..|bs| - 1]) + |bs[|bs| - 1]|
  }

  /** `[item for list in outputs for item in list[key]]`: the batches concatenated in batch order. */
  function Flatten<T>(bs: seq<seq<T>>): (r: seq<T>)
    ensures |r| == TotalLength(bs)
  {
    if bs == [] then [] else Flatten(bs[..|bs| - 1]) + bs[|bs| - 1]
  }

  /** Flattening distributes over concatenation of batch lists. */
  lemma {:induction false} FlattenAppend<T>(a: seq<seq<T>>, b: seq<seq<T>>)
    ensures Flatten(a + b) == Flatten(a) + Flatten(b)
  {
    if b == [] {
      assert a + b == a;
    } else {
      assert (a + b)[..|a + b| - 1] == a + b[..|b| - 1];
      FlattenAppend(a, b[..|b| - 1]);
    }
  }

  /** Element `j` of batch `k` sits at the position after all elements of the batches before it. */
  lemma FlattenBatchOrder<T>(bs: seq<seq<T>>, k: nat, j: nat)
    requires k < |bs| && j < |bs[k]|
    ensures TotalLength(bs[..k]) + j < |Flatten(bs)|
    ensures Flatten(bs)[TotalLength(bs[..k]) + j] == bs[k][j]
  {
    assert bs == bs[..k] + ([bs[k]] + bs[k + 1..]);
    FlattenAppend(bs[..k], [bs[k]] + bs[k + 1..]);
    FlattenAppend([bs[k]], bs[k + 1..]);
    assert [bs[k]][..0] == [];
  }

  /** Two batch lists of the same shape flatten to sequences of the same length. */
  lemma {:induction false} SameShapeSameLength<T, U>(a: seq<seq<T>>, b: seq<seq<U>>)
    requires |a| == |b| && forall i :: 0 <= i < |a| ==> |a[i]| == |b[i]|
    ensures |Flatten(a)| == |Flatten(b)|
  {
    if a != [] {
      SameShapeSameLength(a[..|a| - 1], b[..|b| - 1]);
    }
  }

  /** The number of targets equal to `t`. */
  function Count(targets: seq<int>, t: int): nat
  {
    if targets == [] then 0
    else Count(targets[..|targets| - 1], t) + (if targets[|targets| - 1] == t then 1 else 0)
  }

  /**
   * `scores[targets == t]`: the scores whose target is `t`, in their original order.
   * The mask must be as long as the array it indexes.
   */
  function Select(scores: seq<real>, targets: seq<int>, t: int): (r: seq<real>)
    requires |scores| == |targets|
    ensures |r| == Count(targets, t)
    ensures forall k :: 0 <= k < |r| ==> r[k] in scores
  {
    if scores == [] then []
    else
      var n := |scores| - 1;
      Select(scores[..n], targets[..n], t) + (if targets[n] == t then [scores[n]] else [])
  }

  /** Selecting from a concatenation selects from each part. */
  lemma {:induction false} SelectAppend(s1: seq<real>, t1: seq<int>, s2: seq<real>, t2: seq<int>, t: int)
    requires |s1| == |t1| && |s2| == |t2|
    ensures Select(s1 + s2, t1 + t2, t) == Select(s1, t1, t) + Select(s2, t2, t)
  {
    if s2 == [] {
      assert s1 + s2 == s1 && t1 + t2 == t1;
    } else {
      var n := |s2| - 1;
      var s, ts := s1 + s2, t1 + t2;
      assert s[..|s| - 1] == s1 + s2[..n];
      assert ts[..|ts| - 1] == t1 + t2[..n];
      assert s[|s| - 1] == s2[n] && ts[|ts| - 1] == t2[n];
      SelectAppend(s1, t1, s2[..n], t2[..n], t);
      assert Select(s, ts, t) == Select(s1 + s2[..n], t1 + t2[..n], t) + (if t2[n] == t then [s2[n]] else []);
    }
  }

  /**
   * Order is preserved: a sample with target `t` at position `i` lands at the position
   * given by the number of earlier samples with target `t`.
   */
  lemma SelectKeepsOrder(scores: seq<real>, targets: seq<int>, t: int, i: nat)
    requires |scores| == |targets| && i < |scores| && targets[i] == t
    ensures Count(targets[..i], t) < |Select(scores, targets, t)|
    ensures Select(scores, targets, t)[Count(targets[..i], t)] == scores[i]
  {
    assert scores == scores[..i] + ([scores[i]] + scores[i + 1..]);
    assert targets == targets[..i] + ([targets[i]] + targets[i + 1..]);
    SelectAppend(scores[..i], targets[..i], [scores[i]] + scores[i + 1..], [targets[i]] + targets[i + 1..], t);
    SelectAppend([scores[i]], [targets[i]], scores[i + 1..], targets[i + 1..], t);
    assert [scores[i]][..0] == [] && [targets[i]][..0] == [];
  }

  /** Every selected score comes from a sample whose target is `t`. */
  lemma {:induction false} SelectOnlyTarget(scores: seq<real>, targets: seq<int>, t: int, x: real)
    requires |scores| == |targets| && x in Select(scores, targets, t)
    ensures exists i :: 0 <= i < |scores| && scores[i] == x && targets[i] == t
  {
    var n := |scores| - 1;
    if x in Select(scores[..n], targets[..n], t) {
      SelectOnlyTarget(scores[..n], targets[..n], t, x);
      var i :| 0 <= i < n && scores[..n][i] == x && targets[..n][i] == t;
      assert scores[i] == x && targets[i] == t;
    } else {
      assert scores[n] == x && targets[n] == t;
    }
  }

  /** A prefix of a 0/1 vector is a 0/1 vector. */
  lemma BinaryPrefix(targets: seq<int>, n: nat)
    requires IsBinary(targets) && n <= |targets|
    ensures IsBinary(targets[..n])
  {
    forall i | 0 <= i < n ensures targets[..n][i] == 0 || targets[..n][i] == 1 {
      assert targets[..n][i] == targets[i];
    }
  }

  /** For 0/1 targets the two counts add up to the number of samples. */
  lemma {:induction false} CountsPartition(targets: seq<int>)
    requires IsBinary(targets)
    ensures Count(targets, 1) + Count(targets, 0) == |targets|
  {
    if targets != [] {
      var n := |targets| - 1;
      BinaryPrefix(targets, n);
      CountsPartition(targets[..n]);
      assert targets[n] == 0 || targets[n] == 1;
    }
  }

  /** Selecting from a non-empty list: the selection of all but the last sample, plus the last sample if its target is `t`. */
  lemma SelectLast(scores: seq<real>, targets: seq<int>, t: int)
    requires |scores| == |targets| > 0
    ensures var n := |scores| - 1;
      multiset(Select(scores, targets, t)) ==
        multiset(Select(scores[..n], targets[..n], t)) + (if targets[n] == t then multiset{scores[n]} else multiset{})
  {
  }

  /** The multiset of a non-empty list: that of all but its last element, plus the last. */
  lemma MultisetLast(xs: seq<real>)
    requires xs != []
    ensures multiset(xs) == multiset(xs[..|xs| - 1]) + multiset{xs[|xs| - 1]}
  {
    assert xs == xs[..|xs| - 1] + [xs[|xs| - 1]];
  }

  /** For 0/1 targets the two selections together hold every score exactly once. */
  lemma {:induction false} SelectPartition(scores: seq<real>, targets: seq<int>)
    requires |scores| == |targets| && IsBinary(targets)
    ensures multiset(Select(scores, targets, 1)) + multiset(Select(scores, targets, 0)) == multiset(scores)
  {
    if scores != [] {
      var n := |scores| - 1;
      BinaryPrefix(targets, n);
      SelectPartition(scores[..n], targets[..n]);
      SelectLast(scores, targets, 1);
      SelectLast(scores, targets, 0);
      MultisetLast(scores);
      if targets[n] != 1 {
        assert targets[n] == 0;
      }
    }
  }

  /** The per-batch selections, batch by batch. */
  function SelectEach(sb: seq<seq<real>>, tb: seq<seq<int>>, t: int): (r: seq<seq<real>>)
    requires |sb| == |tb| && forall i :: 0 <= i < |sb| ==> |sb[i]| == |tb[i]|
    ensures |r| == |sb|
    ensures forall i :: 0 <= i < |sb| ==> r[i] == Select(sb[i], tb[i], t)
  {
    seq(|sb|, i requires 0 <= i < |sb| && |sb[i]| == |tb[i]| => Select(sb[i], tb[i], t))
  }

  /**
   * Masking the flattened epoch equals flattening the per-batch masks: the split is a
   * per-sample decision, so it is the same whether taken batch by batch or on the whole epoch.
   */
  lemma {:induction false} SelectFlatten(sb: seq<seq<real>>, tb: seq<seq<int>>, t: int)
    requires |sb| == |tb| && forall i :: 0 <= i < |sb| ==> |sb[i]| == |tb[i]|
    ensures |Flatten(sb)| == |Flatten(tb)|
    ensures Select(Flatten(sb), Flatten(tb), t) == Flatten(SelectEach(sb, tb, t))
  {
    SameShapeSameLength(sb, tb);
    if sb != [] {
      var n := |sb| - 1;
      SelectFlatten(sb[..n], tb[..n], t);
      SameShapeSameLength(sb[..n], tb[..n]);
      SelectAppend(Flatten(sb[..n]), Flatten(tb[..n]), sb[n], tb[n], t);
      assert SelectEach(sb, tb, t)[..n] == SelectEach(sb[..n], tb[..n], t);
    }
  }

  /** The two arguments of `compute_eer`: scores of target 1 first, of target 0 second. */
  datatype EerInputs = EerInputs(positives: seq<real>, negatives: seq<real>)

  /** The split `compute_eer(scores[targets == 1], scores[targets == 0])` receives. */
  function EerSplit(scores: seq<real>, targets: seq<int>): (r: EerInputs)
    requires |scores| == |targets|
    ensures |r.positives| == Count(targets, 1) && |r.negatives| == Count(targets, 0)
    ensures multiset(r.positives) + multiset(r.negatives) <= multiset(scores)
  {
    SelectPartitionBound(scores, targets);
    EerInputs(Select(scores, targets, 1), Select(scores, targets, 0))
  }

  /** No score is passed to both arguments: the two selections together fit inside the scores. */
  lemma {:induction false} SelectPartitionBound(scores: seq<real>, targets: seq<int>)
    requires |scores| == |targets|
    ensures multiset(Select(scores, targets, 1)) + multiset(Select(scores, targets, 0)) <= multiset(scores)
  {
    if scores != [] {
      var n := |scores| - 1;
      SelectPartitionBound(scores[..n], targets[..n]);
      SelectLast(scores, targets, 1);
      SelectLast(scores, targets, 0);
      MultisetLast(scores);
    }
  }

  /** For 0/1 targets the split sizes add up to the number of samples and lose no score. */
  lemma EerSplitComplete(scores: seq<real>, targets: seq<int>)
    requires |scores| == |targets| && IsBinary(targets)
    ensures |EerSplit(scores, targets).positives| + |EerSplit(scores, targets).negatives| == |scores|
    ensures multiset(EerSplit(scores, targets).positives) + multiset(EerSplit(scores, targets).negatives) == multiset(scores)
  {
    CountsPartition(targets);
    SelectPartition(scores, targets);
  }
}
