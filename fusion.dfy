/**
 * The threshold-mode branch of `MSOC.loss_fn` (src/models/msoc_all.py:172-185) and the
 * composition of the total loss (src/models/msoc_all.py:187-191).
 *
 * The unimodal one-class heads, the av classifier and the loss criteria are outside this
 * model: their outputs (`v_loss`, `v_score`, `a_loss`, `a_score`, the positive-class column
 * of `av_logits`, the synchrony cross-entropy) are taken as given reals, and the
 * binary-cross-entropy criterion as a given function of its two arguments.
 */
module Fusion {

  import opened Labels

  /** The constructor arguments that `loss_fn` reads (src/models/msoc_all.py:42-46). */
  datatype Config = Config(sync: bool, audioThreshold: real, videoThreshold: real, finalThreshold: real)

  /** The constructor's defaults: no synchrony loss, every threshold 0.5. */
  const Defaults := Config(false, 0.5, 0.5, 0.5)

  /** A hard vote: `(score > threshold).float()`, 1 exactly when the score is strictly above. */
  function Vote(score: real, threshold: real): (v: int)
    ensures v == 0 || v == 1
    ensures v == 1 <==> score > threshold
  {
    if score > threshold then 1 else 0
  }

  /** The per-sample values threshold fusion produces. */
  datatype Fused = Fused(trainValue: real, score: real, pred: int)

  /**
   * Threshold fusion of one sample from its video score `v`, audio score `a` and
   * positive-class av logit `av`.
   *   - `trainValue` is the mean of the remapped scores `(s + 1) / 2` and the raw logit;
   *     it feeds the binary-cross-entropy loss.
   *   - `score` is the mean of the two hard votes, each taken on the RAW score, and the
   *     unbinarised logit; it is what the epoch end uses for the equal error rate.
   *   - `pred` is 1 exactly when `score` is strictly above the final threshold.
   */
  function FuseSample(cfg: Config, v: real, a: real, av: real): (f: Fused)
    ensures f.pred == 0 || f.pred == 1
    ensures f.pred == 1 <==> f.score > cfg.finalThreshold
  {
    var trainValue := ((v + 1.0) / 2.0 + (a + 1.0) / 2.0 + av) / 3.0;
    var score := ((Vote(v, cfg.videoThreshold) + Vote(a, cfg.audioThreshold)) as real + av) / 3.0;
    Fused(trainValue, score, if score > cfg.finalThreshold then 1 else 0)
  }

  /**
   * The reported score is the mean of the two votes and the logit, the very value the
   * prediction compares; a mean exactly equal to the final threshold predicts 0.
   */
  lemma ScoreIsVoteMean(cfg: Config, v: real, a: real, av: real)
    ensures var f := FuseSample(cfg, v, a, av);
      && 3.0 * f.score == (Vote(v, cfg.videoThreshold) + Vote(a, cfg.audioThreshold)) as real + av
      && (f.score == cfg.finalThreshold ==> f.pred == 0)
  {
  }

  /**
   * Raising either unimodal score or the av logit, all else fixed, never turns a
   * prediction of 1 into 0.
   */
  lemma PredictionMonotone(cfg: Config, v: real, a: real, av: real, v': real, a': real, av': real)
    requires v <= v' && a <= a' && av <= av'
    ensures FuseSample(cfg, v, a, av).pred == 1 ==> FuseSample(cfg, v', a', av').pred == 1
    ensures FuseSample(cfg, v, a, av).score <= FuseSample(cfg, v', a', av').score
  {
  }

  /**
   * The training value uses neither the thresholds nor the votes, and grows strictly
   * with each of its three inputs.
   */
  lemma TrainValueIgnoresThresholds(cfg: Config, cfg': Config, v: real, a: real, av: real, d: real)
    requires d > 0.0
    ensures FuseSample(cfg, v, a, av).trainValue == FuseSample(cfg', v, a, av).trainValue
    ensures FuseSample(cfg, v, a, av).trainValue < FuseSample(cfg, v + d, a, av).trainValue
    ensures FuseSample(cfg, v, a, av).trainValue < FuseSample(cfg, v, a + d, av).trainValue
    ensures FuseSample(cfg, v, a, av).trainValue < FuseSample(cfg, v, a, av + d).trainValue
  {
  }

  /**
   * With the default thresholds, audio score 0.9, video score 0.1 and av logit 0.5 give
   * votes 0 and 1, a mean of exactly 0.5, and so the prediction 0; the training
   * value is 2/3.
   */
  lemma BoundaryScenario()
    ensures FuseSample(Defaults, 0.1, 0.9, 0.5) == Fused(2.0 / 3.0, 0.5, 0)
  {
  }

  /**
   * When both unimodal votes say 1, the prediction is 1 exactly when the logit exceeds
   * `3 * final_threshold - 2`. So a logit of 1 with a final threshold of 1 predicts 0.
   */
  lemma UnanimousVotes(cfg: Config, v: real, a: real, av: real)
    requires v > cfg.videoThreshold && a > cfg.audioThreshold
    ensures FuseSample(cfg, v, a, av).pred == 1 <==> av > 3.0 * cfg.finalThreshold - 2.0
    ensures cfg.finalThreshold == 1.0 && av == 1.0 ==> FuseSample(cfg, v, a, av).pred == 0
  {
  }

  /**
   * The total loss: the two unimodal losses and the fusion loss, plus the synchrony
   * loss only when `sync` is set.
   */
  function TotalLoss(sync: bool, vLoss: real, aLoss: real, mmLoss: real, avLoss: real): (t: real)
    ensures t - (vLoss + aLoss + mmLoss) == if sync then avLoss else 0.0
  {
    if sync then vLoss + aLoss + mmLoss + avLoss else vLoss + aLoss + mmLoss
  }

  /** Without `sync` the synchrony loss has no influence at all on the total. */
  lemma SyncLossOmitted(vLoss: real, aLoss: real, mmLoss: real, avLoss: real, avLoss': real)
    ensures TotalLoss(false, vLoss, aLoss, mmLoss, avLoss) == TotalLoss(false, vLoss, aLoss, mmLoss, avLoss')
    ensures TotalLoss(true, vLoss, aLoss, mmLoss, avLoss) == TotalLoss(false, vLoss, aLoss, mmLoss, avLoss) + avLoss
  {
  }

  /** What one OCSoftmax head returns for a batch: its loss and one score per sample. */
  datatype Head = Head(loss: real, scores: seq<real>)

  /** What `loss_fn` returns: the total loss, the fusion loss, and per-sample scores and predictions. */
  datatype LossOutput = LossOutput(loss: real, mmLoss: real, scores: seq<real>, preds: seq<int>)

  /** The per-sample training values of a batch, in sample order. */
  function TrainValues(cfg: Config, video: Head, audio: Head, av: seq<real>): (t: seq<real>)
    requires |video.scores| == |audio.scores| == |av|
    ensures |t| == |av|
    ensures forall i :: 0 <= i < |av| ==> t[i] == FuseSample(cfg, video.scores[i], audio.scores[i], av[i]).trainValue
  {
    seq(|av|, i requires 0 <= i < |av| => FuseSample(cfg, video.scores[i], audio.scores[i], av[i]).trainValue)
  }

  /**
   * `loss_fn` in threshold mode for a batch: `av` is the positive-class column of the av
   * logits, `mLabels` the multimodal labels, `syncLoss` the cross-entropy of the av
   * logits against the synchrony labels, and `bce` the binary-cross-entropy criterion.
   */
  function LossFn(cfg: Config, video: Head, audio: Head, av: seq<real>, mLabels: seq<int>,
                  syncLoss: real, bce: (seq<real>, seq<int>) -> real): (r: LossOutput)
    requires |video.scores| == |audio.scores| == |av| == |mLabels|
    ensures |r.scores| == |r.preds| == |av|
    ensures IsBinary(r.preds)
    ensures forall i :: 0 <= i < |av| ==> (r.preds[i] == 1 <==> r.scores[i] > cfg.finalThreshold)
    ensures forall i :: 0 <= i < |av| ==>
      3.0 * r.scores[i] == (Vote(video.scores[i], cfg.videoThreshold) + Vote(audio.scores[i], cfg.audioThreshold)) as real + av[i]
    ensures r.mmLoss == bce(TrainValues(cfg, video, audio, av), mLabels)
    ensures r.loss - (video.loss + audio.loss + r.mmLoss) == if cfg.sync then syncLoss else 0.0
  {
    var fused := seq(|av|, i requires 0 <= i < |av| => FuseSample(cfg, video.scores[i], audio.scores[i], av[i]));
    var mmLoss := bce(TrainValues(cfg, video, audio, av), mLabels);
    LossOutput(
      TotalLoss(cfg.sync, video.loss, audio.loss, mmLoss, syncLoss),
      mmLoss,
      seq(|av|, i requires 0 <= i < |av| => fused[i].score),
      seq(|av|, i requires 0 <= i < |av| => fused[i].pred))
  }
}
