/**
 * The step results and epoch-end hooks of `MSOC` (src/models/msoc_all.py:240-244, 287-294,
 * 325-332, 351-455): what each step hands to the epoch end, how the epoch end flattens
 * and reduces those results, and the `best_*` fields that `validation_epoch_end` overwrites.
 *
 * The torchmetrics objects (accuracy, AUROC, F1, recall, precision) are outside this model;
 * each is a given function of `(preds, targets)`, so the model states which inputs each
 * metric receives but not the value it computes.
 */
module Epoch {

  import opened Wrappers
  import opened Labels
  import opened Fusion
  import opened Aggregation

  /** A metric of `(preds, targets)`. */
  type Metric = (seq<int>, seq<int>) -> real

  /** The five metric objects the module owns (src/models/msoc_all.py:111-115). */
  datatype Metrics = Metrics(acc: Metric, auroc: Metric, f1: Metric, recall: Metric, precision: Metric)

  /** The dictionary a step returns: training steps return no scores. */
  datatype StepOutput =
    | TrainOutput(loss: real, preds: seq<int>, targets: seq<int>)
    | EvalOutput(loss: real, preds: seq<int>, targets: seq<int>, scores: seq<real>)

  /** `training_step`'s result: the total loss, the predictions and the multimodal labels. */
  function TrainingStep(r: LossOutput, mLabels: seq<int>): (o: StepOutput)
    requires |r.preds| == |mLabels|
    ensures o.TrainOutput? && |o.preds| == |o.targets|
    ensures o.loss == r.loss && o.preds == r.preds && o.targets == mLabels
  {
    TrainOutput(r.loss, r.preds, mLabels)
  }

  /**
   * `validation_step` and `test_step`, which return the same dictionary: the training
   * result plus the per-sample fusion scores.
   */
  function EvalStep(r: LossOutput, mLabels: seq<int>): (o: StepOutput)
    requires |r.preds| == |r.scores| == |mLabels|
    ensures WellFormed(o) && o.EvalOutput?
    ensures o.loss == r.loss && o.preds == r.preds && o.targets == mLabels && o.scores == r.scores
  {
    EvalOutput(r.loss, r.preds, mLabels, r.scores)
  }

  /**
   * A validation or test step in threshold mode hands on a batch-aligned result whose
   * predictions are 0/1, and whose targets are 0/1 when the multimodal labels are.
   */
  lemma ThresholdEvalStep(cfg: Config, video: Head, audio: Head, av: seq<real>, mLabels: seq<int>,
                          syncLoss: real, bce: (seq<real>, seq<int>) -> real)
    requires |video.scores| == |audio.scores| == |av| == |mLabels|
    ensures var o := EvalStep(LossFn(cfg, video, audio, av, mLabels, syncLoss, bce), mLabels);
      && o.EvalOutput? && WellFormed(o) && |o.preds| == |av|
      && IsBinary(o.preds)
      && (IsBinary(mLabels) ==> IsBinary(o.targets))
  {
  }

  /** A step result whose per-sample lists are batch-aligned. */
  predicate WellFormed(o: StepOutput)
  {
    |o.preds| == |o.targets| && (o.EvalOutput? ==> |o.scores| == |o.preds|)
  }

  /** All results come from evaluation steps and are batch-aligned. */
  predicate AllEval(outs: seq<StepOutput>)
  {
    forall i :: 0 <= i < |outs| ==> outs[i].EvalOutput? && WellFormed(outs[i])
  }

  /** `[i["loss"] for i in outputs]`. */
  function Losses(outs: seq<StepOutput>): (ls: seq<real>)
    ensures |ls| == |outs| && forall i :: 0 <= i < |outs| ==> ls[i] == outs[i].loss
  {
    seq(|outs|, i requires 0 <= i < |outs| => outs[i].loss)
  }

  /** Each batch's predictions, in batch order. */
  function PredBatches(outs: seq<StepOutput>): (b: seq<seq<int>>)
    ensures |b| == |outs| && forall i :: 0 <= i < |outs| ==> b[i] == outs[i].preds
  {
    seq(|outs|, i requires 0 <= i < |outs| => outs[i].preds)
  }

  /** Each batch's targets, in batch order. */
  function TargetBatches(outs: seq<StepOutput>): (b: seq<seq<int>>)
    ensures |b| == |outs| && forall i :: 0 <= i < |outs| ==> b[i] == outs[i].targets
  {
    seq(|outs|, i requires 0 <= i < |outs| => outs[i].targets)
  }

  /** Each batch's scores, in batch order. */
  function ScoreBatches(outs: seq<StepOutput>): (b: seq<seq<real>>)
    requires AllEval(outs)
    ensures |b| == |outs| && forall i :: 0 <= i < |outs| ==> b[i] == outs[i].scores
  {
    seq(|outs|, i requires 0 <= i < |outs| && outs[i].EvalOutput? => outs[i].scores)
  }

  /** What `training_epoch_end` computes: the mean loss, then accuracy and AUROC of the whole epoch. */
  datatype TrainReport = TrainReport(loss: real, acc: real, auroc: real)

  /**
   * `training_epoch_end`: the unweighted mean of the batch losses, then accuracy and AUROC
   * over the predictions and targets of every batch, flattened in batch order.
   */
  function TrainingEpochEnd(outs: seq<StepOutput>, m: Metrics): (r: Result<TrainReport, EpochError>)
    ensures outs == [] ==> r == Failure(NoBatches)
    ensures r.Failure? <==> outs == [] || Flatten(PredBatches(outs)) == [] || Flatten(TargetBatches(outs)) == []
    ensures r.Success? ==>
      && Average(Losses(outs)) == Success(r.value.loss)
      && r.value.acc == m.acc(Flatten(PredBatches(outs)), Flatten(TargetBatches(outs)))
      && r.value.auroc == m.auroc(Flatten(PredBatches(outs)), Flatten(TargetBatches(outs)))
  {
    match Average(Losses(outs))
    case Failure(e) => Failure(e)
    case Success(loss) =>
      var preds := Flatten(PredBatches(outs));
      var targets := Flatten(TargetBatches(outs));
      if preds == [] || targets == [] then Failure(NothingToStack)
      else Success(TrainReport(loss, m.acc(preds, targets), m.auroc(preds, targets)))
  }

  /** The flattened epoch shared by `validation_epoch_end` and `test_epoch_end`. */
  datatype EvalEpoch = EvalEpoch(loss: real, preds: seq<int>, targets: seq<int>, scores: seq<real>, eer: EerInputs)

  /**
   * The common part of `validation_epoch_end` and `test_epoch_end`: average the losses,
   * flatten predictions, targets and scores in batch order (failing on an empty stack),
   * and split the scores by target for `compute_eer`.
   */
  function EvalEpochEnd(outs: seq<StepOutput>): (r: Result<EvalEpoch, EpochError>)
    requires AllEval(outs)
    ensures outs == [] ==> r == Failure(NoBatches)
    ensures r.Failure? <==> outs == [] || TotalLength(PredBatches(outs)) == 0
    ensures r.Success? ==>
      && Average(Losses(outs)) == Success(r.value.loss)
      && r.value.preds == Flatten(PredBatches(outs))
      && r.value.targets == Flatten(TargetBatches(outs))
      && r.value.scores == Flatten(ScoreBatches(outs))
      && |r.value.preds| == |r.value.targets| == |r.value.scores| > 0
      && r.value.eer == EerSplit(r.value.scores, r.value.targets)
  {
    SameShapeSameLength(PredBatches(outs), TargetBatches(outs));
    SameShapeSameLength(PredBatches(outs), ScoreBatches(outs));
    match Average(Losses(outs))
    case Failure(e) => Failure(e)
    case Success(loss) =>
      var preds := Flatten(PredBatches(outs));
      var targets := Flatten(TargetBatches(outs));
      var scores := Flatten(ScoreBatches(outs));
      if preds == [] || targets == [] || scores == [] then Failure(NothingToStack)
      else Success(EvalEpoch(loss, preds, targets, scores, EerSplit(scores, targets)))
  }

  /**
   * The EER split of the whole epoch is the concatenation of each batch's own split, and
   * for 0/1 targets it holds every score of the epoch exactly once.
   */
  lemma EvalEpochSplit(outs: seq<StepOutput>)
    requires AllEval(outs) && EvalEpochEnd(outs).Success?
    ensures var e := EvalEpochEnd(outs).value;
      && e.eer.positives == Flatten(SelectEach(ScoreBatches(outs), TargetBatches(outs), 1))
      && e.eer.negatives == Flatten(SelectEach(ScoreBatches(outs), TargetBatches(outs), 0))
      && (IsBinary(e.targets) ==>
            && |e.eer.positives| + |e.eer.negatives| == |e.scores|
            && multiset(e.eer.positives) + multiset(e.eer.negatives) == multiset(e.scores))
  {
    var e := EvalEpochEnd(outs).value;
    SelectFlatten(ScoreBatches(outs), TargetBatches(outs), 1);
    SelectFlatten(ScoreBatches(outs), TargetBatches(outs), 0);
    if IsBinary(e.targets) {
      EerSplitComplete(e.scores, e.targets);
    }
  }

  /** Predictions of threshold-fusion batches stay 0/1 once flattened. */
  lemma {:induction false} FlattenKeepsBinary(bs: seq<seq<int>>)
    requires forall i :: 0 <= i < |bs| ==> IsBinary(bs[i])
    ensures IsBinary(Flatten(bs))
  {
    if bs != [] {
      var n := |bs| - 1;
      FlattenKeepsBinary(bs[..n]);
      assert Flatten(bs) == Flatten(bs[..n]) + bs[n];
      forall i | 0 <= i < |Flatten(bs)| ensures Flatten(bs)[i] == 0 || Flatten(bs)[i] == 1 {
        if i >= |Flatten(bs[..n])| {
          assert Flatten(bs)[i] == bs[n][i - |Flatten(bs[..n])|];
        }
      }
    }
  }

  /**
   * When every batch's predictions and targets are 0/1, as threshold fusion and the
   * multimodal labels give them (`ThresholdEvalStep`), the epoch's "fake-class" metrics receive exactly the
   * complements of the epoch's predictions and targets.
   */
  lemma EpochFakePolarity(outs: seq<StepOutput>)
    requires AllEval(outs) && EvalEpochEnd(outs).Success?
    requires forall i :: 0 <= i < |outs| ==> IsBinary(outs[i].preds) && IsBinary(outs[i].targets)
    ensures var e := EvalEpochEnd(outs).value;
      && |Opposed(e.preds)| == |e.preds| && |Opposed(e.targets)| == |e.targets|
      && (forall i :: 0 <= i < |e.preds| ==> Opposed(e.preds)[i] == 1 - e.preds[i])
      && (forall i :: 0 <= i < |e.targets| ==> Opposed(e.targets)[i] == 1 - e.targets[i])
  {
    FlattenKeepsBinary(PredBatches(outs));
    FlattenKeepsBinary(TargetBatches(outs));
    var e := EvalEpochEnd(outs).value;
    OppositeSwapsBinary(e.preds);
    OppositeSwapsBinary(e.targets);
  }

  /** What `test_epoch_end` returns, with the EER inputs it logs. */
  datatype TestReport = TestReport(
    loss: real, acc: real, auroc: real,
    realF1: real, realRecall: real, realPrecision: real,
    fakeF1: real, fakeRecall: real, fakePrecision: real,
    eer: EerInputs)

  /**
   * `test_epoch_end`: the "real-class" metrics on the flattened predictions and targets,
   * the "fake-class" ones on both passed through `Opposite`.
   */
  function TestEpochEnd(outs: seq<StepOutput>, m: Metrics): (r: Result<TestReport, EpochError>)
    requires AllEval(outs)
    ensures r.Failure? <==> EvalEpochEnd(outs).Failure?
    ensures r.Success? ==>
      var e := EvalEpochEnd(outs).value;
      && r.value.loss == e.loss && r.value.eer == e.eer
      && r.value.acc == m.acc(e.preds, e.targets) && r.value.auroc == m.auroc(e.preds, e.targets)
      && r.value.realF1 == m.f1(e.preds, e.targets)
      && r.value.realRecall == m.recall(e.preds, e.targets)
      && r.value.realPrecision == m.precision(e.preds, e.targets)
      && r.value.fakeF1 == m.f1(Opposed(e.preds), Opposed(e.targets))
      && r.value.fakeRecall == m.recall(Opposed(e.preds), Opposed(e.targets))
      && r.value.fakePrecision == m.precision(Opposed(e.preds), Opposed(e.targets))
  {
    match EvalEpochEnd(outs)
    case Failure(err) => Failure(err)
    case Success(e) =>
      var fp, ft := Opposed(e.preds), Opposed(e.targets);
      Success(TestReport(
        e.loss, m.acc(e.preds, e.targets), m.auroc(e.preds, e.targets),
        m.f1(e.preds, e.targets), m.recall(e.preds, e.targets), m.precision(e.preds, e.targets),
        m.f1(fp, ft), m.recall(fp, ft), m.precision(fp, ft),
        e.eer))
  }

  /** The LightningModule's own state that the epoch end changes: the `best_*` fields. */
  class Msoc {
    const config: Config
    var bestLoss: real
    var bestAcc: real
    var bestAuroc: real
    var bestRealF1: real
    var bestRealRecall: real
    var bestRealPrecision: real
    var bestFakeF1: real
    var bestFakeRecall: real
    var bestFakePrecision: real

    /** `__init__`: `best_loss` starts at 1e9, every other `best_*` field at 0. */
    constructor (config: Config)
      ensures this.config == config
      ensures bestLoss == 1000000000.0
      ensures bestAcc == bestAuroc == 0.0
      ensures bestRealF1 == bestRealRecall == bestRealPrecision == 0.0
      ensures bestFakeF1 == bestFakeRecall == bestFakePrecision == 0.0
    {
      this.config := config;
      bestLoss := 1000000000.0;
      bestAcc, bestAuroc := 0.0, 0.0;
      bestRealF1, bestRealRecall, bestRealPrecision := 0.0, 0.0, 0.0;
      bestFakeF1, bestFakeRecall, bestFakePrecision := 0.0, 0.0, 0.0;
    }

    /**
     * `validation_epoch_end`: every `best_*` field is overwritten with this epoch's value,
     * whether or not it improves on the previous one, and the EER inputs are returned.
     * When the epoch fails before the metrics, no field changes.
     */
    method ValidationEpochEnd(outs: seq<StepOutput>, m: Metrics) returns (r: Result<EerInputs, EpochError>)
      requires AllEval(outs)
      modifies this
      ensures r.Failure? <==> EvalEpochEnd(outs).Failure?
      ensures r.Failure? ==> r.error == EvalEpochEnd(outs).error && unchanged(this)
      ensures r.Success? ==>
        var e := EvalEpochEnd(outs).value;
        && r.value == e.eer
        && bestLoss == e.loss
        && bestAcc == m.acc(e.preds, e.targets) && bestAuroc == m.auroc(e.preds, e.targets)
        && bestRealF1 == m.f1(e.preds, e.targets)
        && bestRealRecall == m.recall(e.preds, e.targets)
        && bestRealPrecision == m.precision(e.preds, e.targets)
        && bestFakeF1 == m.f1(Opposed(e.preds), Opposed(e.targets))
        && bestFakeRecall == m.recall(Opposed(e.preds), Opposed(e.targets))
        && bestFakePrecision == m.precision(Opposed(e.preds), Opposed(e.targets))
    {
      var epoch := EvalEpochEnd(outs);
      if epoch.Failure? {
        return Failure(epoch.error);
      }
      var e := epoch.value;
      bestAcc := m.acc(e.preds, e.targets);
      bestAuroc := m.auroc(e.preds, e.targets);
      bestRealF1 := m.f1(e.preds, e.targets);
      bestRealRecall := m.recall(e.preds, e.targets);
      bestRealPrecision := m.precision(e.preds, e.targets);
      var fakePreds := Opposite(e.preds);
      var fakeTargets := Opposite(e.targets);
      bestFakeF1 := m.f1(fakePreds, fakeTargets);
      bestFakeRecall := m.recall(fakePreds, fakeTargets);
      bestFakePrecision := m.precision(fakePreds, fakeTargets);
      bestLoss := e.loss;
      r := Success(e.eer);
    }
  }
}
