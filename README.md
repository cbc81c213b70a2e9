# Fine-tuning driver: configuration and bookkeeping model

This project models the self-contained logic inside `main` of the ViT
fine-tuning driver `mains_fine/main_finetune_class_iter.py` (3D medical-image
classification, fine-tuned from a masked-autoencoder backbone). Everything the
driver delegates to PyTorch, timm or MONAI is opaque. What is modelled, in
`finetune.dfy` (module `FinetuneClassIter`):

- **Mixup activation.** Mixup is active when `mixup > 0`, `cutmix > 0` or a
  `cutmix_minmax` is given. The mixup transform exists exactly then, and it
  carries the run's alphas, probabilities, mode, label smoothing and class count.
- **Loss criterion.** A classification choice is made first:
  soft-target cross-entropy under mixup, else label-smoothing cross-entropy when
  `smoothing > 0`, else plain cross-entropy. Then the binary flag overrides it
  with BCE-with-logits, whose positive weight is used only when the weight is
  truthy. Failing that, the regression flag overrides it with MSE. The contract
  of `SelectCriterion` gives this as a flat decision table. A lemma shows that
  the sequential overrides equal a table keyed by task mode.
- **Pretrained weight transfer.** The weights come from the checkpoint's `model`
  entry, or else from `model_state`. The positional embedding is interpolated
  when present. Only the entries whose name the live model has with the same
  shape are kept. They are then loaded non-strictly.
- **Batch size and learning rate.** `eff = batch_size * accum_iter * world_size`.
  When no absolute rate is given, `lr = blr * eff / 256`. The driver reports the
  base rate `lr * 256 / eff`.
- **Epoch loop.** Evaluation mode reports `acc1` and exits before any epoch.
  Otherwise the best metrics start at (+inf, 0, 0) and the counter at 0. The
  epochs `start_epoch .. epochs-1` each call the opaque trainer, add the number
  of training batches to the counter, and build a log record. A line is written
  only with an output directory, on the main process. In a distributed run
  the loop fails before its first epoch: `set_epoch` is called on the training
  loader's sampler, but that loader is built with `shuffle=True` and no
  `sampler` argument (lines 236-246), so its sampler is PyTorch's random
  sampler, which has no `set_epoch` (only the distributed sampler has one). The
  model records this as the `SamplerWithoutSetEpoch` outcome.

Python truthiness is explicit. The integer flags `binary_class` and
`regression` are set when non-zero. `binary_class_weights` is an optional
integer, and `None` and `0` both give unweighted BCE. Tensors are a shape
(`seq<nat>`) paired with an opaque value. Metric values are a type parameter.
Learning rates and smoothing are `real`.

Parameters stand in for the I/O and the foreign code:
- the checkpoint contents (`torch.load`);
- the positional-embedding interpolation (`interpolatePosEmbed`);
- the world size;
- the per-epoch trainer `train_one_epoch_iter` (a `Trainer` function of epoch,
  iteration counter and best metrics);
- `evaluate`;
- the number of training batches;
- the trainable-parameter count;
- whether this is the main process;
- `args.distributed`, which the distributed initialisation sets (line 165) and
  which is a field of `Args`.

## Model

| member | source | states |
|---|---|---|
| FinetuneClassIter.MixupActive | mains_fine/main_finetune_class_iter.py:258 | defines mixup as active when the mixup alpha or the CutMix alpha is positive, or a CutMix ratio range is given |
| FinetuneClassIter.BuildMixup | mains_fine/main_finetune_class_iter.py:257-264 | a mixup transform exists iff `mixup > 0`, `cutmix > 0` or `cutmix_minmax` is present, and it carries the run's mixup/cutmix alphas, min/max, probabilities, mode, smoothing and class count |
| FinetuneClassIter.SelectCriterion | mains_fine/main_finetune_class_iter.py:334-349 | BCE iff `binary_class` is truthy, whatever mixup or smoothing say, weighted iff `binary_class_weights` is truthy (None and 0 give unweighted) and then with that weight; MSE iff binary is off and regression on; otherwise soft-target CE iff the mixup transform exists, label-smoothing CE carrying `smoothing` iff no mixup and `smoothing > 0`, plain CE iff neither |
| FinetuneClassIter.SelectCriterionIsModeTable | mains_fine/main_finetune_class_iter.py:334-349 | the sequential overrides agree with a decision table keyed by the task mode (binary, regression, classification) |
| FinetuneClassIter.MixupWithBinaryCriterion | mains_fine/main_finetune_class_iter.py:257-347 | whenever the binary flag is set and mixup is active (by either alpha or a CutMix range), a mixup transform is built although the loss is BCE, a combination the driver does not guard |
| FinetuneClassIter.DefaultCriterion | mains_fine/main_finetune_class_iter.py:89-145 | with the parser defaults mixup is off and the criterion is unweighted BCE |
| FinetuneClassIter.EffectiveBatchSize | mains_fine/main_finetune_class_iter.py:309 | the effective batch size is zero exactly when the batch size, the accumulation count or the world size is zero, and positive when all three are |
| FinetuneClassIter.ResolveLr | mains_fine/main_finetune_class_iter.py:311-312 | a given `lr` is kept unchanged; an absent one becomes the rate `r` with `r * 256 == blr * eff` |
| FinetuneClassIter.ReportedBaseLr | mains_fine/main_finetune_class_iter.py:314 | the reported base rate `b` satisfies `b * eff == lr * 256`; a zero effective batch size raises instead |
| FinetuneClassIter.DerivedLrReportsBlr | mains_fine/main_finetune_class_iter.py:309-314 | when the rate is derived from `blr` (and `eff != 0`) the reported base rate is exactly `blr` |
| FinetuneClassIter.DerivedLrLinearInWorldSize | mains_fine/main_finetune_class_iter.py:309-312 | the effective batch size is `batch_size * accum_iter * world_size`, so the derived rate scales linearly with the world size |
| FinetuneClassIter.DefaultLr | mains_fine/main_finetune_class_iter.py:54-79 | with the defaults the effective batch size on one process is 12 and the absolute rate 0.0001 is kept |
| FinetuneClassIter.SelectStateDict | mains_fine/main_finetune_class_iter.py:277 | the weights are the `model` entry if the checkpoint has one, else `model_state`; with neither, a KeyError on `model_state` |
| FinetuneClassIter.FilterByShape | mains_fine/main_finetune_class_iter.py:283-284 | the kept names are exactly the source names the live model has with an equal shape, each with its source value |
| FinetuneClassIter.FilterIsSubMap | mains_fine/main_finetune_class_iter.py:284 | the filtered mapping is a sub-map of the source |
| FinetuneClassIter.FilterIdempotent | mains_fine/main_finetune_class_iter.py:284 | filtering an already-filtered mapping changes nothing |
| FinetuneClassIter.FilterDropsExactlyMismatched | mains_fine/main_finetune_class_iter.py:284 | the dropped names are exactly those absent from the model or of another shape |
| FinetuneClassIter.FilterLossless | mains_fine/main_finetune_class_iter.py:284 | when every source entry matches the model in name and shape, nothing is dropped |
| FinetuneClassIter.LoadNonStrict | mains_fine/main_finetune_class_iter.py:287 | a non-strict load fails iff some shared name has another shape; otherwise shared names take the loaded value, the rest keep theirs, and missing/unexpected names are reported |
| FinetuneClassIter.FilteredLoadSucceeds | mains_fine/main_finetune_class_iter.py:283-287 | loading the filtered weights never fails, reports no unexpected names, keeps every live name and shape, and transfers every kept entry |
| FinetuneClassIter.TransferWeights | mains_fine/main_finetune_class_iter.py:277-284 | a checkpoint-selection error is passed on; otherwise the result is the shape filter of the selected weights, interpolated first when a `pos_embed` entry is present |
| FinetuneClassIter.WarmStart | mains_fine/main_finetune_class_iter.py:274-287 | without `finetune`, or in evaluation mode, the live weights are untouched; otherwise a selection error is passed on, or the model keeps its names and shapes and takes the checkpoint value exactly where name and shape match |
| FinetuneClassIter.PrefixKeys | mains_fine/main_finetune_class_iter.py:396-397 | every name gets the prefix, and every prefixed name starts with the prefix and gives back one of the names when it is stripped |
| FinetuneClassIter.Prefixed | mains_fine/main_finetune_class_iter.py:396-397 | the keys are the metric names with the prefix in front, each holding that metric |
| FinetuneClassIter.LogKeysDistinct | mains_fine/main_finetune_class_iter.py:396-399 | `train_` keys, `test_` keys, `epoch` and `n_parameters` never collide, so no entry overrides another |
| FinetuneClassIter.EpochLogRecord | mains_fine/main_finetune_class_iter.py:395-400 | the record's keys are exactly `train_`+k for each train meter, `test_`+k for each test statistic, `epoch` and `n_parameters`, each holding its own value |
| FinetuneClassIter.LogLine.Record | mains_fine/main_finetune_class_iter.py:395-400 | the record written on a log line is the `log_stats` record of that line's train averages, test statistics, epoch and parameter count |
| FinetuneClassIter.InitialBestMetrics | mains_fine/main_finetune_class_iter.py:365-369 | defines the best metrics before training as validation loss +inf, AUC 0 and accuracy 0 |
| FinetuneClassIter.WritesLog | mains_fine/main_finetune_class_iter.py:402 | defines when a log line is appended: an output directory is set and this is the main process |
| FinetuneClassIter.LoopConfigOf | mains_fine/main_finetune_class_iter.py:371-402 | defines what the loop reads from the arguments (`eval`, `start_epoch`, `epochs`, `output_dir`, `distributed`) and from the run context (main process, parameter count, batch count) |
| FinetuneClassIter.Epochs | mains_fine/main_finetune_class_iter.py:371-406 | defines the specification of the loop for a run that does not fail: each epoch calls the trainer with the epoch, the counter and the best metrics, adds the batch count to the counter, takes the returned best metrics, and appends a log line when logging |
| FinetuneClassIter.EpochsIterations | mains_fine/main_finetune_class_iter.py:373-392 | after the epochs `epoch .. epochs-1` the counter has grown by their number times the batch count |
| FinetuneClassIter.EpochsLog | mains_fine/main_finetune_class_iter.py:373-406 | one log line per epoch when logging is on, none otherwise; the i-th line is for epoch `epoch + i` and carries the parameter count |
| FinetuneClassIter.TrainingLoop | mains_fine/main_finetune_class_iter.py:364-406 | in a distributed run with at least one epoch the loop fails at `set_epoch`, and only then; otherwise it computes the specification `Epochs` from best metrics (+inf, 0, 0) and counter 0; the counter ends at (number of epochs in `start_epoch..epochs-1`) × batches; the log length and epochs match; with `start_epoch >= epochs` nothing runs and the counter stays 0 |
| FinetuneClassIter.Run | mains_fine/main_finetune_class_iter.py:356-406 | evaluation mode runs no epoch and reports `acc1` (a missing `acc1` is the KeyError outcome); otherwise a distributed run with at least one epoch fails at `set_epoch`, and any other run's outcome is the trained loop state of `Epochs` on the arguments |

## Left out

- Model construction by name, head weight initialisation and the interpolation itself (lines 268-272, 279-280, 290-299): tensor numerics in modules that are not part of this model. The interpolation is a function parameter.
- `train_one_epoch_iter` and `evaluate`: these live in `engine_finetune`, which is not part of this model. They are uninterpreted function parameters. The best-metrics updates and their monotonicity happen inside them, so the model asserts nothing about them beyond threading them through the loop.
- Data loaders, samplers, `init_distributed_mode`, DDP wrapping and rank checks (lines 165, 204-254, 320-322): distributed and concurrency plumbing. The batch count, world size and main-process flag are parameters, and `distributed` is an argument field. The failure of `set_epoch` (lines 374-375) is modelled; which sampler classes have `set_epoch` is PyTorch behaviour, outside this model.
- MONAI augmentation, timm `Mixup` internals, AdamW, `NativeScaler`, `param_groups_lrd` and `misc.load_model` (lines 184-200, 324-331, 354): foreign library calls. The mixup transform is modelled as the record of its parameters.
- Argument parsing, seeding, printing, timing, SummaryWriter, file writes, `json.dumps` and `torch.save` (lines 52-161, 167-177, 228-232, 402-415): I/O. The log lines a run would append are modelled, but not the file. The final unconditional save after the loop is not modelled.
- `n_parameters` (line 304) is a parameter; counting tensor elements is not modelled.
- Floating point: rates and smoothing are exact reals, and metric values are opaque.
- The `lr` argument defaults to 0.0001 and argparse cannot produce `None`. The derived-rate branch is reachable only when `lr` is set to `None` by other means; it is modelled as written.
- LoadNonStrict: states PyTorch's non-strict `load_state_dict` as a map update that fails on a shape mismatch. It does not model parameter objects or the error message text.
- TrainingLoop: the log holds, per epoch, the values the record is built from (`LogLine`). `LogLine.Record` builds the record with `EpochLogRecord`, not inside the loop body.
