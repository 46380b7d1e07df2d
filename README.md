# MSOC fusion decision and epoch aggregation, modelled in Dafny

`MSOC` is a PyTorch Lightning module that detects audio-visual deepfakes. It has two
one-class (OCSoftmax) heads, one for video and one for audio, and an av classifier on the
fused embedding. This project models the module's discrete decision and aggregation logic:

- `Opposite`, the label transform used for the "fake-class" metrics (`Labels`);
- the threshold-mode fusion branch of `loss_fn` and its total-loss sum (`Fusion`);
- `Average`, the flattening of per-batch step results and the split of scores by target
  that feeds `compute_eer` (`Aggregation`);
- the step results, the three epoch-end hooks and the `best_*` fields that
  `validation_epoch_end` overwrites (`Epoch`, class `Msoc`).

The values in the model are exact: losses, scores and logits are `real`, and labels and
predictions are `int`. The head outputs (`v_loss`, `v_score`, `a_loss`, `a_score`), the
positive-class column of `av_logits` and the synchrony cross-entropy are inputs. The
binary-cross-entropy criterion and the five torchmetrics objects are function parameters.
So the model states which values reach each of them, but not what they compute. A Python
exception raised before any result is produced (`sum([]) / 0`, `torch.stack([])`) becomes
a `Failure` of `Wrappers.Result`.

Behaviour of the code that the model makes explicit:

- The video and audio votes compare the RAW score with the threshold (`v_score > video_threshold`). Only the training value uses the remapped `(s + 1) / 2` (`Fusion.FuseSample`).
- The "fake-class" metrics use `Opposite`, which adds one and zeroes anything above 1.5. On each element it equals `1 - x` exactly when the element is 0 or 1 (`Labels.OppositeIsNegationIffBinary`, `Labels.OppositeSwapsBinary`).
- With both votes 1, `final_threshold = 1` and a logit of 1 predict 0, because the comparison is strict (`Fusion.UnanimousVotes`).
- The epoch loss is the unweighted mean of the batch losses (`Aggregation.Average`).
- `best_loss` and the other `best_*` fields are overwritten on every validation epoch, because the guard `valid_loss <= self.best_loss` is commented out (`Epoch.Msoc.ValidationEpochEnd`).

## Model

| member | source | states |
|---|---|---|
| Labels.OppositeElem | src/models/msoc_all.py:29-32 | On an integer, `Opposite` gives 0 for every value of at least 1 and `x + 1` for every value of at most 0; the result never exceeds 1 |
| Labels.Opposed | src/models/msoc_all.py:29-32 | `Opposite` acts element-wise and keeps the length |
| Labels.Opposite | src/models/msoc_all.py:29-32 | Building `a + 1` in a new array and then zeroing each element above 1.5 in place yields exactly `Opposed(a)` |
| Labels.OppositeSwapsBinary | src/models/msoc_all.py:29-32 | On a 0/1 vector, `Opposite` maps each element to `1 - x` and returns a 0/1 vector of the same length |
| Labels.OppositeIsNegationIffBinary | src/models/msoc_all.py:29-32 | Element-wise, `Opposite` gives `1 - x` if and only if `x` is 0 or 1 |
| Labels.OppositeInvolutiveIffBinary | src/models/msoc_all.py:29-32 | `Opposite(Opposite(s)) == s` holds if and only if `s` is a 0/1 vector |
| Labels.OppositeElemInvolutiveIffBinary | src/models/msoc_all.py:29-32 | Element-wise, applying `Opposite` twice is the identity exactly on 0 and 1 |
| Labels.OppositeOffBinary | src/models/msoc_all.py:29-32 | Off {0,1}, `Opposite` is not a complement: 2 and -1 become 0, -2 becomes -1, and 2 comes back as 1 |
| Fusion.Vote | src/models/msoc_all.py:176-177 | A vote is 0 or 1, and it is 1 if and only if the raw score is strictly above its threshold |
| Fusion.FuseSample | src/models/msoc_all.py:173-185 | The threshold-mode prediction is 0 or 1, and it is 1 if and only if the reported score is strictly above `final_threshold` |
| Fusion.ScoreIsVoteMean | src/models/msoc_all.py:176-185 | The reported score is the mean of the video vote, the audio vote and the unbinarised av logit. A mean equal to the final threshold predicts 0 |
| Fusion.PredictionMonotone | src/models/msoc_all.py:176-184 | Raising any of the two scores or the logit, all else fixed, never lowers the score and never turns a prediction of 1 into 0 |
| Fusion.TrainValueIgnoresThresholds | src/models/msoc_all.py:173-180 | The training value does not depend on any threshold, and it grows strictly with each score and with the logit |
| Fusion.BoundaryScenario | src/models/msoc_all.py:173-185 | With default thresholds, video 0.1, audio 0.9 and logit 0.5 give a score of exactly 0.5 and a prediction of 0. The training value is 2/3 |
| Fusion.UnanimousVotes | src/models/msoc_all.py:176-184 | When both votes are 1, the prediction is 1 if and only if the logit exceeds `3 * final_threshold - 2`. With a threshold of 1 and a logit of 1 it is 0 |
| Fusion.TotalLoss | src/models/msoc_all.py:187-191 | The total exceeds `v_loss + a_loss + mm_loss` by `av_loss` when `sync` is on, and by nothing when it is off |
| Fusion.SyncLossOmitted | src/models/msoc_all.py:187-191 | With `sync` off the synchrony loss has no influence on the total. With `sync` on the total is the `sync`-off total plus `av_loss` |
| Fusion.TrainValues | src/models/msoc_all.py:173-180 | The batch of training values has one entry per sample: the fused training value of that sample |
| Fusion.LossFn | src/models/msoc_all.py:156-191 | For a batch, `loss_fn` returns one 0/1 prediction and one score per sample. Each prediction is 1 if and only if its score is above `final_threshold`, and three times each score is the vote sum plus the logit. `mm_loss` is the criterion applied to the training values and the multimodal labels. The total is the sum composed by `sync` |
| Aggregation.Average | src/models/msoc_all.py:25-26 | `Average` fails on an empty list (division by zero). Otherwise the result times the length equals the sum |
| Aggregation.SumBounds | src/models/msoc_all.py:25-26 | A sum of values in `[lo, hi]` lies between `lo` and `hi` times the count |
| Aggregation.AverageWithinBounds | src/models/msoc_all.py:25-26 | The average of a non-empty list whose values lie in `[lo, hi]` also lies in `[lo, hi]` |
| Aggregation.Flatten | src/models/msoc_all.py:353-354 | The flattened list is as long as all the batches together |
| Aggregation.FlattenAppend | src/models/msoc_all.py:365-367 | Flattening distributes over concatenation of batch lists |
| Aggregation.FlattenBatchOrder | src/models/msoc_all.py:414-416 | Element `j` of batch `k` sits at the total length of batches `0..k-1` plus `j`, so batch order is kept |
| Aggregation.SameShapeSameLength | src/models/msoc_all.py:365-367 | Batch lists of the same shape flatten to equally long lists |
| Aggregation.Select | src/models/msoc_all.py:375 | `scores[targets == t]` has one element per target equal to `t`, and each element is one of the scores |
| Aggregation.SelectAppend | src/models/msoc_all.py:375 | Masking a concatenation gives the concatenation of the masked parts |
| Aggregation.SelectKeepsOrder | src/models/msoc_all.py:375 | A sample with target `t` at position `i` lands at the position given by the number of earlier samples with target `t` |
| Aggregation.SelectOnlyTarget | src/models/msoc_all.py:424 | Every selected score comes from a sample whose target is `t` |
| Aggregation.CountsPartition | src/models/msoc_all.py:424 | For 0/1 targets, the counts of ones and zeros add up to the number of samples |
| Aggregation.SelectPartition | src/models/msoc_all.py:424 | For 0/1 targets, the target-1 and target-0 selections together hold every score exactly once |
| Aggregation.SelectEach | src/models/msoc_all.py:375 | The per-batch masks are taken batch by batch, one per batch |
| Aggregation.SelectFlatten | src/models/msoc_all.py:365-375 | Masking the flattened epoch equals flattening the per-batch masks |
| Aggregation.EerSplit | src/models/msoc_all.py:375 | The first `compute_eer` argument has one score per target 1 and the second one per target 0. No score is passed to both |
| Aggregation.SelectPartitionBound | src/models/msoc_all.py:424 | The two selections together fit inside the scores, for any targets |
| Aggregation.EerSplitComplete | src/models/msoc_all.py:424 | For 0/1 targets, the two `compute_eer` arguments have sizes summing to N and together hold every score exactly once |
| Epoch.TrainingStep | src/models/msoc_all.py:240-244 | The training step hands on the total loss, the predictions and the multimodal labels as targets, with no scores |
| Epoch.EvalStep | src/models/msoc_all.py:287-294 | Validation and test steps hand on the same batch-aligned result: the training result plus the per-sample scores |
| Epoch.ThresholdEvalStep | src/models/msoc_all.py:173-185 | A threshold-mode validation or test step hands on a batch-aligned result with one 0/1 prediction per sample. Its targets are 0/1 when the multimodal labels are |
| Epoch.TrainingEpochEnd | src/models/msoc_all.py:351-361 | The hook fails exactly when there are no batches or nothing to stack. Otherwise it reports the unweighted mean loss, and accuracy and AUROC of the flattened predictions against the flattened targets |
| Epoch.EvalEpochEnd | src/models/msoc_all.py:363-375 | The hook fails exactly when there are no batches or no samples. Otherwise it gives the mean loss, the batch-order flattening of predictions, targets and scores (all equally long), and the target split of the scores |
| Epoch.EvalEpochSplit | src/models/msoc_all.py:365-375 | The epoch's EER split is the concatenation of the per-batch splits. For 0/1 targets its parts sum to N and hold every score once |
| Epoch.FlattenKeepsBinary | src/models/msoc_all.py:414-415 | Flattening batches of 0/1 labels gives a 0/1 list |
| Epoch.EpochFakePolarity | src/models/msoc_all.py:412-434 | If every batch has 0/1 predictions and targets, the epoch's `Opposite` inputs to the fake-class metrics are the exact complements |
| Epoch.TestEpochEnd | src/models/msoc_all.py:412-455 | `test_epoch_end` fails exactly when the shared epoch does. Otherwise the real-class metrics receive (preds, targets), the fake-class ones receive their `Opposite`s, and the loss and EER inputs are those of the epoch |
| Epoch.Msoc.constructor | src/models/msoc_all.py:117-120 | `best_loss` starts at 1e9 and every other `best_*` field at 0 |
| Epoch.Msoc.ValidationEpochEnd | src/models/msoc_all.py:363-390 | Every `best_*` field is overwritten with this epoch's value, improving or not, and the fake-class fields use the `Opposite` method. A failing epoch changes nothing |

## Left out

- `forward`, the AVHubert encoder and the projections (src/models/msoc_all.py:49-89, 124-150): a neural feature extractor behind foreign libraries. Their outputs are inputs here.
- `OCSoftmax` and the loss-function module are not part of this model. The head losses and scores are given reals.
- `compute_eer` (from `eval_metrics`) is not part of this model. Only the split of the scores that it receives is modelled, not the EER value and not its behaviour on an empty part.
- The learned-fusion branch (src/models/msoc_all.py:161-171): a linear layer, softmax, argmax and cross-entropy over floating-point torch modules. Only threshold mode is modelled, and `Msoc.config` has no threshold flag.
- The values of `BCEWithLogitsLoss` and `CrossEntropyLoss`. The fusion criterion is a function parameter, and the synchrony loss is a given real that counts only when `sync` is on.
- The torchmetrics objects: their values, and the state they accumulate from call to call. They are modelled as pure functions of `(preds, targets)`. The per-step `training_step_end`/`validation_step_end` metric logging is left out with them.
- Logging, `print`, `wandb`, `sync_dist` and `configure_optimizers`: I/O and orchestration.
- Floating point: every score, loss and threshold is an exact real, so rounding in the float32 mean `(v + a + av) / 3` is not modelled.
- Epoch.EvalEpochEnd and Epoch.TestEpochEnd require well-formed step results. Predictions, targets and scores of each batch are equally long, which every threshold-mode step guarantees (`Epoch.ThresholdEvalStep`). A shape-mismatch exception is therefore not modelled.
