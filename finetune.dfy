/**
 * A model of the configuration and bookkeeping logic of the fine-tuning
 * driver `main` in mains_fine/main_finetune_class_iter.py: the mixup
 * activation predicate, the loss-criterion decision table, the
 * shape-filtered transfer of pretrained weights, the effective batch size
 * and learning-rate derivation, and the epoch loop's iteration counter and
 * per-epoch log records.
 *
 * Tensors, losses and metrics are opaque: a tensor is its shape plus a value
 * of a type parameter, an epoch of training is a function parameter.
 */
module FinetuneClassIter {

  datatype Option<T> = None | Some(value: T)

  datatype Result<T, E> = Success(value: T) | Failure(error: E)

  /* ---------------------------------------------------------------------
   * Run arguments (only those the modelled logic reads)
   * ------------------------------------------------------------------- */

  /** The parsed command line. Integer task flags keep Python's truthiness:
      a flag is set exactly when it is non-zero. */
  datatype Args = Args(
    batchSize: int,
    epochs: int,
    accumIter: int,
    lr: Option<real>,                 // absolute learning rate; None means "derive from blr"
    blr: real,
    smoothing: real,
    nbClasses: int,
    regression: int,
    binaryClass: int,
    binaryClassWeights: Option<int>,
    outputDir: string,
    startEpoch: int,
    eval: bool,
    finetune: string,
    mixup: real,
    cutmix: real,
    cutmixMinmax: Option<seq<real>>,
    mixupProb: real,
    mixupSwitchProb: real,
    mixupMode: string,
    distributed: bool                 // set on the arguments by the distributed initialisation
  )

  /** The defaults of the argument parser. */
  function DefaultArgs(): Args {
    Args(
      batchSize := 3, epochs := 200, accumIter := 4,
      lr := Some(0.0001), blr := 0.001, smoothing := 0.1,
      nbClasses := 1, regression := 0, binaryClass := 1, binaryClassWeights := None,
      outputDir := "required", startEpoch := 0, eval := false, finetune := "",
      mixup := 0.0, cutmix := 0.0, cutmixMinmax := None,
      mixupProb := 1.0, mixupSwitchProb := 0.5, mixupMode := "batch",
      distributed := false)
  }

  /* ---------------------------------------------------------------------
   * Mixup / CutMix activation
   * ------------------------------------------------------------------- */

  /** The parameters the mixup transform is built with. */
  datatype Mixup = Mixup(
    mixupAlpha: real,
    cutmixAlpha: real,
    cutmixMinmax: Option<seq<real>>,
    prob: real,
    switchProb: real,
    mode: string,
    labelSmoothing: real,
    numClasses: int
  )

  /** Mixup is active when either alpha is positive or a CutMix ratio range is given. */
  predicate MixupActive(a: Args) {
    a.mixup > 0.0 || a.cutmix > 0.0 || a.cutmixMinmax.Some?
  }

  /** The mixup transform, present exactly when mixup is active. */
  function BuildMixup(a: Args): (m: Option<Mixup>)
    ensures m.Some? <==> (a.mixup > 0.0 || a.cutmix > 0.0 || a.cutmixMinmax.Some?)
    ensures m.Some? ==>
      && m.value.mixupAlpha == a.mixup && m.value.cutmixAlpha == a.cutmix
      && m.value.cutmixMinmax == a.cutmixMinmax
      && m.value.prob == a.mixupProb && m.value.switchProb == a.mixupSwitchProb
      && m.value.mode == a.mixupMode
      && m.value.labelSmoothing == a.smoothing && m.value.numClasses == a.nbClasses
  {
    if MixupActive(a) then
      Some(Mixup(a.mixup, a.cutmix, a.cutmixMinmax, a.mixupProb, a.mixupSwitchProb,
                 a.mixupMode, a.smoothing, a.nbClasses))
    else
      None
  }

  /* ---------------------------------------------------------------------
   * Loss criterion
   * ------------------------------------------------------------------- */

  datatype Criterion =
    | SoftTargetCrossEntropy
    | LabelSmoothingCrossEntropy(smoothing: real)
    | CrossEntropy
    | BceWithLogits(posWeight: Option<int>)
    | Mse

  /** Python truthiness of the optional class weight. */
  predicate WeightsGiven(w: Option<int>) {
    w.Some? && w.value != 0
  }

  /** The criterion chosen from the classification settings alone, before
      the task-mode flags are consulted. */
  function ClassificationCriterion(mixupFn: Option<Mixup>, smoothing: real): Criterion {
    if mixupFn.Some? then SoftTargetCrossEntropy
    else if smoothing > 0.0 then LabelSmoothingCrossEntropy(smoothing)
    else CrossEntropy
  }

  /** The criterion, as the driver selects it: a classification choice that
      the binary flag and then the regression flag override. The contract is
      the flattened decision table. */
  function SelectCriterion(a: Args): (c: Criterion)
    // binary wins regardless of mixup or smoothing; weighted iff the weight is truthy
    ensures c.BceWithLogits? <==> a.binaryClass != 0
    ensures c.BceWithLogits? ==>
      (c.posWeight.Some? <==> WeightsGiven(a.binaryClassWeights)) &&
      (c.posWeight.Some? ==> c.posWeight == a.binaryClassWeights)
    // regression only when binary is off
    ensures c.Mse? <==> a.binaryClass == 0 && a.regression != 0
    // otherwise mixup, then smoothing, then plain cross-entropy
    ensures c.SoftTargetCrossEntropy? <==>
      a.binaryClass == 0 && a.regression == 0 && BuildMixup(a).Some?
    ensures c.LabelSmoothingCrossEntropy? <==>
      a.binaryClass == 0 && a.regression == 0 && BuildMixup(a).None? && a.smoothing > 0.0
    ensures c.LabelSmoothingCrossEntropy? ==> c.smoothing == a.smoothing && c.smoothing > 0.0
    ensures c.CrossEntropy? <==>
      a.binaryClass == 0 && a.regression == 0 && BuildMixup(a).None? && a.smoothing <= 0.0
  {
    var c := ClassificationCriterion(BuildMixup(a), a.smoothing);
    if a.binaryClass != 0 then
      (if WeightsGiven(a.binaryClassWeights) then BceWithLogits(a.binaryClassWeights)
       else BceWithLogits(None))
    else if a.regression != 0 then Mse
    else c
  }

  /** The same decision written directly as a table keyed by the task mode,
      with no overrides. */
  datatype TaskMode = Binary | Regression | Classification

  function TaskModeOf(a: Args): TaskMode {
    if a.binaryClass != 0 then Binary
    else if a.regression != 0 then Regression
    else Classification
  }

  function CriterionForMode(mode: TaskMode, a: Args): Criterion {
    match mode
    case Binary => BceWithLogits(if WeightsGiven(a.binaryClassWeights) then a.binaryClassWeights else None)
    case Regression => Mse
    case Classification =>
      if MixupActive(a) then SoftTargetCrossEntropy
      else if a.smoothing > 0.0 then LabelSmoothingCrossEntropy(a.smoothing)
      else CrossEntropy
  }

  /** The sequential overrides agree with the task-mode table. */
  lemma SelectCriterionIsModeTable(a: Args)
    ensures SelectCriterion(a) == CriterionForMode(TaskModeOf(a), a)
  {
  }

  /** The combination the driver does not guard against: a mixup transform
      (which produces soft labels) together with a binary cross-entropy loss. */
  lemma MixupWithBinaryCriterion(a: Args)
    requires a.binaryClass != 0 && MixupActive(a)
    ensures BuildMixup(a).Some? && SelectCriterion(a).BceWithLogits?
  {
  }

  /** With the parser defaults (binary task, no class weight, no mixup) the
      loss is unweighted binary cross-entropy, although smoothing is 0.1. */
  lemma DefaultCriterion()
    ensures BuildMixup(DefaultArgs()).None?
    ensures SelectCriterion(DefaultArgs()) == BceWithLogits(None)
  {
  }

  /* ---------------------------------------------------------------------
   * Effective batch size and learning rate
   * ------------------------------------------------------------------- */

  /** Samples per optimizer step across all processes. */
  function EffectiveBatchSize(a: Args, worldSize: int): (eff: int)
    ensures eff == 0 <==> a.batchSize == 0 || a.accumIter == 0 || worldSize == 0
    ensures a.batchSize > 0 && a.accumIter > 0 && worldSize > 0 ==> eff > 0
  {
    a.batchSize * a.accumIter * worldSize
  }

  /** The learning rate after derivation: an absolute rate is kept, otherwise
      it is the base rate scaled by the effective batch size over 256. */
  function ResolveLr(lr: Option<real>, blr: real, eff: int): (r: real)
    ensures lr.Some? ==> r == lr.value
    ensures lr.None? ==> r * 256.0 == blr * (eff as real)
  {
    if lr.None? then blr * (eff as real) / 256.0 else lr.value
  }

  /** The base rate the driver reports, `lr * 256 / eff`; None when the
      effective batch size is zero (the division raises). */
  function ReportedBaseLr(lr: real, eff: int): (r: Option<real>)
    ensures r.None? <==> eff == 0
    ensures r.Some? ==> r.value * (eff as real) == lr * 256.0
  {
    if eff == 0 then None else Some(lr * 256.0 / (eff as real))
  }

  /** Multiplying by a positive real keeps a strict order. */
  lemma MulStrictMono(x: real, y: real, e: real)
    requires x < y && e > 0.0
    ensures x * e < y * e
  {
  }

  /** When the rate is derived, the reported base rate is the given one. */
  lemma DerivedLrReportsBlr(blr: real, eff: int)
    requires eff != 0
    ensures ReportedBaseLr(ResolveLr(None, blr, eff), eff) == Some(blr)
  {
    var lr := ResolveLr(None, blr, eff);
    var e := eff as real;
    var b := ReportedBaseLr(lr, eff).value;
    assert b * e == blr * e;
    if b < blr {
      if e > 0.0 { MulStrictMono(b, blr, e); } else { MulStrictMono(blr, b, -e); }
    } else if b > blr {
      if e > 0.0 { MulStrictMono(blr, b, e); } else { MulStrictMono(b, blr, -e); }
    }
  }

  /** The derived rate grows linearly with the world size. */
  lemma DerivedLrLinearInWorldSize(a: Args, worldSize: int, k: int)
    ensures ResolveLr(None, a.blr, EffectiveBatchSize(a, k * worldSize))
         == (k as real) * ResolveLr(None, a.blr, EffectiveBatchSize(a, worldSize))
  {
  }

  /** With the parser defaults the absolute rate is kept and the effective
      batch size on one process is 12. */
  lemma DefaultLr()
    ensures EffectiveBatchSize(DefaultArgs(), 1) == 12
    ensures ResolveLr(DefaultArgs().lr, DefaultArgs().blr, 12) == 0.0001
  {
  }

  /* ---------------------------------------------------------------------
   * Pretrained checkpoint transfer
   * ------------------------------------------------------------------- */

  type Shape = seq<nat>

  /** Parameter name to (shape, tensor value). */
  type StateDict<V> = map<string, (Shape, V)>

  /** A saved checkpoint entry: a weight mapping, or other saved state
      (optimizer, scaler, epoch) the transfer does not read. */
  datatype CheckpointItem<V> = Weights(dict: StateDict<V>) | OtherState

  type Checkpoint<V> = map<string, CheckpointItem<V>>

  datatype LoadError =
    | MissingKey(key: string)          // KeyError on the checkpoint
    | NotAStateDict(key: string)       // the selected entry holds no weights
    | SizeMismatch(keys: set<string>)  // a tensor of the wrong shape was loaded

  /** The weight mapping of the checkpoint: `model` if present, else `model_state`. */
  function SelectStateDict<V>(ckpt: Checkpoint<V>): (r: Result<StateDict<V>, LoadError>)
    ensures "model" in ckpt ==>
      if ckpt["model"].Weights? then r == Success(ckpt["model"].dict)
      else r == Failure(NotAStateDict("model"))
    ensures "model" !in ckpt && "model_state" in ckpt ==>
      if ckpt["model_state"].Weights? then r == Success(ckpt["model_state"].dict)
      else r == Failure(NotAStateDict("model_state"))
    ensures "model" !in ckpt && "model_state" !in ckpt ==> r == Failure(MissingKey("model_state"))
  {
    var key := if "model" in ckpt.Keys then "model" else "model_state";
    if key !in ckpt then Failure(MissingKey(key))
    else match ckpt[key]
      case Weights(d) => Success(d)
      case OtherState => Failure(NotAStateDict(key))
  }

  /** The source entries a shape filter keeps: a live name with the same shape. */
  predicate Transferable<V>(src: StateDict<V>, live: StateDict<V>, k: string)
    requires k in src
  {
    k in live && live[k].0 == src[k].0
  }

  /** Keep exactly the entries whose name the live model has with an equal shape. */
  function FilterByShape<V>(src: StateDict<V>, live: StateDict<V>): (r: StateDict<V>)
    ensures forall k :: k in r <==> k in src && Transferable(src, live, k)
    ensures forall k :: k in r ==> r[k] == src[k]
  {
    map k | k in src && k in live && live[k].0 == src[k].0 :: src[k]
  }

  /** The filtered mapping is a sub-map of the source. */
  lemma FilterIsSubMap<V>(src: StateDict<V>, live: StateDict<V>)
    ensures FilterByShape(src, live).Keys <= src.Keys
    ensures forall k :: k in FilterByShape(src, live) ==> FilterByShape(src, live)[k] == src[k]
  {
  }

  /** Filtering an already-filtered mapping changes nothing. */
  lemma FilterIdempotent<V>(src: StateDict<V>, live: StateDict<V>)
    ensures FilterByShape(FilterByShape(src, live), live) == FilterByShape(src, live)
  {
  }

  /** The dropped names are exactly the absent or shape-mismatched ones. */
  lemma FilterDropsExactlyMismatched<V>(src: StateDict<V>, live: StateDict<V>)
    ensures src.Keys - FilterByShape(src, live).Keys
         == set k | k in src && (k !in live || live[k].0 != src[k].0)
  {
  }

  /** When every source entry matches the live model, nothing is dropped. */
  lemma FilterLossless<V>(src: StateDict<V>, live: StateDict<V>)
    requires forall k :: k in src ==> k in live && live[k].0 == src[k].0
    ensures FilterByShape(src, live) == src
  {
  }

  /** What a non-strict load reports besides the new state. */
  datatype LoadReport<V> = LoadReport(state: StateDict<V>, missing: set<string>, unexpected: set<string>)

  /** Non-strict loading of `sd` into `live`: entries with a live name are
      copied, other live entries keep their value; names of the wrong shape
      make the load fail. */
  function LoadNonStrict<V>(live: StateDict<V>, sd: StateDict<V>): (r: Result<LoadReport<V>, LoadError>)
    ensures r.Failure? <==> exists k :: k in sd && k in live && live[k].0 != sd[k].0
    ensures r.Success? ==>
      && r.value.state.Keys == live.Keys
      && (forall k :: k in live && k in sd ==> r.value.state[k] == sd[k])
      && (forall k :: k in live && k !in sd ==> r.value.state[k] == live[k])
      && r.value.missing == live.Keys - sd.Keys
      && r.value.unexpected == sd.Keys - live.Keys
  {
    var mismatched := set k | k in sd && k in live && live[k].0 != sd[k].0;
    if mismatched != {} then
      assert exists k :: k in mismatched;
      Failure(SizeMismatch(mismatched))
    else
      assert forall k :: k in sd && k in live ==> live[k].0 == sd[k].0 by {
        forall k | k in sd && k in live ensures live[k].0 == sd[k].0 {
          assert k !in mismatched;
        }
      }
      var state := map k | k in live :: if k in sd then sd[k] else live[k];
      Success(LoadReport(state, live.Keys - sd.Keys, sd.Keys - live.Keys))
  }

  /** The driver's transfer: select the weights, interpolate the positional
      embedding when the checkpoint has one, filter by shape. */
  function TransferWeights<V>(ckpt: Checkpoint<V>, live: StateDict<V>,
                              interpolatePosEmbed: StateDict<V> -> StateDict<V>): (r: Result<StateDict<V>, LoadError>)
    ensures SelectStateDict(ckpt).Failure? ==> r == Failure(SelectStateDict(ckpt).error)
    ensures SelectStateDict(ckpt).Success? ==>
      var sd := SelectStateDict(ckpt).value;
      var src := if "pos_embed" in sd then interpolatePosEmbed(sd) else sd;
      && r.Success?
      && (forall k :: k in r.value <==> k in src && k in live && live[k].0 == src[k].0)
      && (forall k :: k in r.value ==> r.value[k] == src[k])
  {
    match SelectStateDict(ckpt)
    case Failure(e) => Failure(e)
    case Success(sd) =>
      var src := if "pos_embed" in sd then interpolatePosEmbed(sd) else sd;
      Success(FilterByShape(src, live))
  }

  /** Loading the filtered weights never fails, keeps the model's names and
      shapes, transfers every kept entry and reports the rest as missing. */
  lemma FilteredLoadSucceeds<V>(src: StateDict<V>, live: StateDict<V>)
    ensures var f := FilterByShape(src, live);
      var r := LoadNonStrict(live, f);
      && r.Success?
      && r.value.unexpected == {}
      && r.value.missing == live.Keys - f.Keys
      && (forall k :: k in live ==> k in r.value.state && r.value.state[k].0 == live[k].0)
      && (forall k :: k in f ==> r.value.state[k] == src[k])
  {
  }

  /** The warm start of the model: when a checkpoint is given and the run
      trains, the live state after loading the shape-filtered weights
      non-strictly; otherwise the live state as it is. */
  function WarmStart<V>(a: Args, ckpt: Checkpoint<V>, live: StateDict<V>,
                        interpolatePosEmbed: StateDict<V> -> StateDict<V>): (r: Result<StateDict<V>, LoadError>)
    ensures (a.finetune == [] || a.eval) ==> r == Success(live)
    ensures a.finetune != [] && !a.eval && SelectStateDict(ckpt).Failure? ==>
      r == Failure(SelectStateDict(ckpt).error)
    ensures a.finetune != [] && !a.eval && SelectStateDict(ckpt).Success? ==>
      var sd := SelectStateDict(ckpt).value;
      var src := if "pos_embed" in sd then interpolatePosEmbed(sd) else sd;
      && r.Success?
      && r.value.Keys == live.Keys
      && (forall k :: k in live ==> r.value[k].0 == live[k].0)
      && (forall k :: k in live ==>
            r.value[k] == if k in src && src[k].0 == live[k].0 then src[k] else live[k])
  {
    if a.finetune == [] || a.eval then Success(live)
    else match TransferWeights(ckpt, live, interpolatePosEmbed)
      case Failure(e) => Failure(e)
      case Success(filtered) =>
        var sd := SelectStateDict(ckpt).value;
        var src := if "pos_embed" in sd then interpolatePosEmbed(sd) else sd;
        assert filtered == FilterByShape(src, live);
        FilteredLoadSucceeds(src, live);
        Success(LoadNonStrict(live, filtered).value.state)
  }

  /* ---------------------------------------------------------------------
   * Per-epoch log records
   * ------------------------------------------------------------------- */

  datatype LogValue<M> = Metric(m: M) | Count(n: int)

  type LogRecord<M> = map<string, LogValue<M>>

  /** Putting the same prefix in front of two names keeps them apart. */
  lemma PrefixInjective(p: string, a: string, b: string)
    requires p + a == p + b
    ensures a == b
  {
    assert a == (p + a)[|p|..];
    assert b == (p + b)[|p|..];
  }

  /** The names `keys`, each with `prefix` in front. */
  function PrefixKeys(prefix: string, keys: set<string>): (r: set<string>)
    ensures forall k :: k in keys ==> prefix + k in r
    ensures forall n :: n in r ==> prefix <= n && n[|prefix|..] in keys
  {
    assert forall k :: (prefix + k)[|prefix|..] == k;
    set k | k in keys :: prefix + k
  }

  /** Every key of `m` renamed with `prefix`, each holding its metric. */
  function Prefixed<M>(prefix: string, m: map<string, M>): (r: LogRecord<M>)
    ensures r.Keys == PrefixKeys(prefix, m.Keys)
    ensures forall k :: k in m ==> r[prefix + k] == Metric(m[k])
  {
    assert forall a, b :: a in m && b in m && prefix + a == prefix + b ==> a == b by {
      forall a, b | a in m && b in m && prefix + a == prefix + b ensures a == b {
        PrefixInjective(prefix, a, b);
      }
    }
    map k | k in m :: prefix + k := Metric(m[k])
  }

  /** The four groups of log keys cannot collide. */
  lemma LogKeysDistinct(a: string, b: string)
    ensures "train_" + a != "test_" + b
    ensures "train_" + a != "epoch" && "train_" + a != "n_parameters"
    ensures "test_" + b != "epoch" && "test_" + b != "n_parameters"
  {
    assert ("train_" + a)[1] == 'r' && ("test_" + b)[1] == 'e';
    assert ("train_" + a)[0] == 't' && ("test_" + b)[0] == 't';
  }

  lemma TrainKeyNotTestKey(a: string, testKeys: set<string>)
    ensures "train_" + a !in PrefixKeys("test_", testKeys)
  {
    forall b | b in testKeys ensures "train_" + a != "test_" + b {
      LogKeysDistinct(a, b);
    }
  }

  /** The fixed entries of a log record. */
  function EpochEntries<M>(epoch: int, nParameters: int): (r: LogRecord<M>)
    ensures r.Keys == {"epoch", "n_parameters"}
  {
    map["epoch" := Count(epoch), "n_parameters" := Count(nParameters)]
  }

  /** A train entry survives the merge with the test and fixed entries. */
  lemma TrainEntryKept<M>(trainAvgs: map<string, M>, testStats: map<string, M>,
                          epoch: int, nParameters: int, k: string)
    requires k in trainAvgs
    ensures var r := Prefixed("train_", trainAvgs) + Prefixed("test_", testStats) + EpochEntries(epoch, nParameters);
      "train_" + k in r && r["train_" + k] == Metric(trainAvgs[k])
  {
    TrainKeyNotTestKey(k, testStats.Keys);
    LogKeysDistinct(k, "");
  }

  /** A test entry survives the merge with the fixed entries. */
  lemma TestEntryKept<M>(trainAvgs: map<string, M>, testStats: map<string, M>,
                         epoch: int, nParameters: int, k: string)
    requires k in testStats
    ensures var r := Prefixed("train_", trainAvgs) + Prefixed("test_", testStats) + EpochEntries(epoch, nParameters);
      "test_" + k in r && r["test_" + k] == Metric(testStats[k])
  {
    LogKeysDistinct("", k);
  }

  /** The record of one epoch: `train_` + each train meter's average,
      `test_` + each test statistic, the epoch and the parameter count. */
  function EpochLogRecord<M>(trainAvgs: map<string, M>, testStats: map<string, M>,
                             epoch: int, nParameters: int): (r: LogRecord<M>)
    ensures r.Keys == PrefixKeys("train_", trainAvgs.Keys) + PrefixKeys("test_", testStats.Keys)
                    + {"epoch", "n_parameters"}
    ensures forall k :: k in trainAvgs ==> "train_" + k in r && r["train_" + k] == Metric(trainAvgs[k])
    ensures forall k :: k in testStats ==> "test_" + k in r && r["test_" + k] == Metric(testStats[k])
    ensures "epoch" in r && "n_parameters" in r
    ensures r["epoch"] == Count(epoch) && r["n_parameters"] == Count(nParameters)
  {
    var r := Prefixed("train_", trainAvgs) + Prefixed("test_", testStats) + EpochEntries(epoch, nParameters);
    forall k | k in trainAvgs ensures "train_" + k in r && r["train_" + k] == Metric(trainAvgs[k]) {
      TrainEntryKept(trainAvgs, testStats, epoch, nParameters, k);
    }
    forall k | k in testStats ensures "test_" + k in r && r["test_" + k] == Metric(testStats[k]) {
      TestEntryKept(trainAvgs, testStats, epoch, nParameters, k);
    }
    r
  }

  /* ---------------------------------------------------------------------
   * Epoch loop
   * ------------------------------------------------------------------- */

  /** A validation loss bound: a finite value or +infinity. */
  datatype ExtReal = PosInf | Finite(x: real)

  datatype BestMetrics = BestMetrics(bestValLoss: ExtReal, bestAuc: real, bestAccuracy: real)

  /** The record before any validation has run. */
  function InitialBestMetrics(): BestMetrics {
    BestMetrics(PosInf, 0.0, 0.0)
  }

  /** What one call of the per-epoch trainer hands back: the global averages
      of its train meters, the updated best metrics and the last test statistics. */
  datatype EpochOutput<M> = EpochOutput(trainAvgs: map<string, M>, best: BestMetrics, testStats: map<string, M>)

  /** The per-epoch trainer, opaque: epoch, iteration counter, best metrics in. */
  type Trainer<M> = (int, nat, BestMetrics) -> EpochOutput<M>

  /** What the loop reads besides the arguments: facts about the process
      and the model that come from code outside this model. */
  datatype RunContext = RunContext(
    isMainProcess: bool,
    nParameters: int,
    batchesPerEpoch: nat           // number of batches of the training loader
  )

  datatype LoopConfig = LoopConfig(
    eval: bool,
    startEpoch: int,
    epochs: int,
    outputDir: string,
    distributed: bool,
    isMainProcess: bool,
    nParameters: int,
    batchesPerEpoch: nat
  )

  /** The loop's view of the arguments and the run context. */
  function LoopConfigOf(a: Args, ctx: RunContext): LoopConfig {
    LoopConfig(a.eval, a.startEpoch, a.epochs, a.outputDir, a.distributed,
               ctx.isMainProcess, ctx.nParameters, ctx.batchesPerEpoch)
  }

  /** A log line is appended only with an output directory, on the main process. */
  predicate WritesLog(cfg: LoopConfig) {
    |cfg.outputDir| > 0 && cfg.isMainProcess
  }

  /** The number of epochs in `from .. to - 1`. */
  function EpochCount(from: int, to: int): nat {
    if from < to then to - from else 0
  }

  /** A line of the log file: what the driver builds the epoch's record from. */
  datatype LogLine<M> = LogLine(trainAvgs: map<string, M>, testStats: map<string, M>,
                                epoch: int, nParameters: int)
  {
    /** The record serialised on this line. */
    function Record(): LogRecord<M> {
      EpochLogRecord(trainAvgs, testStats, epoch, nParameters)
    }
  }

  /** The state of the loop after its last epoch. */
  datatype LoopState<M> = LoopState(iterations: nat, best: BestMetrics, log: seq<LogLine<M>>)

  /** The epochs `epoch .. cfg.epochs - 1`, from the given counter and best
      metrics: the specification of the loop. */
  function Epochs<M>(cfg: LoopConfig, train: Trainer<M>, epoch: int, counter: nat,
                     best: BestMetrics): LoopState<M>
    decreases cfg.epochs - epoch
  {
    if epoch >= cfg.epochs then LoopState(counter, best, [])
    else
      var out := train(epoch, counter, best);
      var rec := LogLine(out.trainAvgs, out.testStats, epoch, cfg.nParameters);
      var rest := Epochs(cfg, train, epoch + 1, counter + cfg.batchesPerEpoch, out.best);
      LoopState(rest.iterations, rest.best, (if WritesLog(cfg) then [rec] else []) + rest.log)
  }

  /** The counter grows by the batch count once per epoch. */
  lemma {:induction false} EpochsIterations<M>(cfg: LoopConfig, train: Trainer<M>, epoch: int,
                                               counter: nat, best: BestMetrics)
    ensures Epochs(cfg, train, epoch, counter, best).iterations
         == counter + EpochCount(epoch, cfg.epochs) * cfg.batchesPerEpoch
    decreases cfg.epochs - epoch
  {
    if epoch < cfg.epochs {
      var out := train(epoch, counter, best);
      EpochsIterations(cfg, train, epoch + 1, counter + cfg.batchesPerEpoch, out.best);
      var n := EpochCount(epoch + 1, cfg.epochs);
      assert EpochCount(epoch, cfg.epochs) == n + 1;
      assert (n + 1) * cfg.batchesPerEpoch == n * cfg.batchesPerEpoch + cfg.batchesPerEpoch;
    }
  }

  /** One log line per epoch when logging, none otherwise; the i-th is for
      epoch `epoch + i` and carries the parameter count. */
  lemma {:induction false} EpochsLog<M>(cfg: LoopConfig, train: Trainer<M>, epoch: int,
                                        counter: nat, best: BestMetrics)
    ensures var log := Epochs(cfg, train, epoch, counter, best).log;
      && |log| == (if WritesLog(cfg) then EpochCount(epoch, cfg.epochs) else 0)
      && (forall i :: 0 <= i < |log| ==> log[i].epoch == epoch + i && log[i].nParameters == cfg.nParameters)
    decreases cfg.epochs - epoch
  {
    if epoch < cfg.epochs {
      var out := train(epoch, counter, best);
      EpochsLog(cfg, train, epoch + 1, counter + cfg.batchesPerEpoch, out.best);
      var log := Epochs(cfg, train, epoch, counter, best).log;
      var rest := Epochs(cfg, train, epoch + 1, counter + cfg.batchesPerEpoch, out.best).log;
      if WritesLog(cfg) {
        assert log == [LogLine(out.trainAvgs, out.testStats, epoch, cfg.nParameters)] + rest;
        forall i | 0 <= i < |log|
          ensures log[i].epoch == epoch + i && log[i].nParameters == cfg.nParameters
        {
          if i > 0 { assert log[i] == rest[i - 1]; }
        }
      } else {
        assert log == rest;
      }
    }
  }

  /** One epoch of the specification, unfolded. */
  lemma EpochsStep<M>(cfg: LoopConfig, train: Trainer<M>, epoch: int, counter: nat, best: BestMetrics)
    requires epoch < cfg.epochs
    ensures var out := train(epoch, counter, best);
      var rec := LogLine(out.trainAvgs, out.testStats, epoch, cfg.nParameters);
      var rest := Epochs(cfg, train, epoch + 1, counter + cfg.batchesPerEpoch, out.best);
      Epochs(cfg, train, epoch, counter, best)
        == LoopState(rest.iterations, rest.best, (if WritesLog(cfg) then [rec] else []) + rest.log)
  {
  }

  /** The loop so far produced `log`, and the remaining epochs `rest`
      complete it to the whole run. */
  ghost predicate Resumes<M>(whole: LoopState<M>, log: seq<LogLine<M>>, rest: LoopState<M>) {
    whole == LoopState(rest.iterations, rest.best, log + rest.log)
  }

  /** Running one more epoch keeps the loop on course for the whole run. */
  lemma ResumesAfterEpoch<M>(cfg: LoopConfig, train: Trainer<M>, whole: LoopState<M>,
                             log: seq<LogLine<M>>, epoch: int, counter: nat, best: BestMetrics)
    requires epoch < cfg.epochs
    requires Resumes(whole, log, Epochs(cfg, train, epoch, counter, best))
    ensures var out := train(epoch, counter, best);
      var rec := LogLine(out.trainAvgs, out.testStats, epoch, cfg.nParameters);
      Resumes(whole, if WritesLog(cfg) then log + [rec] else log,
              Epochs(cfg, train, epoch + 1, counter + cfg.batchesPerEpoch, out.best))
  {
    var out := train(epoch, counter, best);
    var rec := LogLine(out.trainAvgs, out.testStats, epoch, cfg.nParameters);
    var rest := Epochs(cfg, train, epoch + 1, counter + cfg.batchesPerEpoch, out.best);
    EpochsStep(cfg, train, epoch, counter, best);
    if WritesLog(cfg) {
      assert log + ([rec] + rest.log) == (log + [rec]) + rest.log;
    }
  }

  /** The training loader is built with `shuffle=True` and no sampler
      argument, so its sampler is a random sampler, which has no
      `set_epoch`: in a distributed run the first epoch raises. */
  datatype LoopError = SamplerWithoutSetEpoch

  datatype RunOutcome<M> =
    | EvaluatedOnly(accuracy: M)          // evaluation mode: report the accuracy and exit
    | EvalMissingAccuracy                 // evaluation mode, statistics without `acc1`
    | LoopFailed(error: LoopError)
    | Trained(final: LoopState<M>)

  /** The epoch loop: epochs `start_epoch .. epochs - 1`, threading the
      iteration counter and the best metrics through the per-epoch trainer. */
  method TrainingLoop<M>(cfg: LoopConfig, train: Trainer<M>) returns (r: Result<LoopState<M>, LoopError>)
    ensures r.Failure? <==> cfg.distributed && cfg.startEpoch < cfg.epochs
    ensures r.Failure? ==> r.error == SamplerWithoutSetEpoch
    ensures r.Success? ==> r.value == Epochs(cfg, train, cfg.startEpoch, 0, InitialBestMetrics())
    ensures r.Success? ==> r.value.iterations == EpochCount(cfg.startEpoch, cfg.epochs) * cfg.batchesPerEpoch
    ensures r.Success? ==> |r.value.log| == (if WritesLog(cfg) then EpochCount(cfg.startEpoch, cfg.epochs) else 0)
    ensures r.Success? ==> forall i :: 0 <= i < |r.value.log| ==> r.value.log[i].epoch == cfg.startEpoch + i
    ensures cfg.startEpoch >= cfg.epochs ==> r == Success(LoopState(0, InitialBestMetrics(), []))
  {
    var bestMetrics := InitialBestMetrics();
    var iterationCounter: nat := 0;
    var log: seq<LogLine<M>> := [];
    ghost var whole := Epochs(cfg, train, cfg.startEpoch, 0, InitialBestMetrics());
    var epoch := cfg.startEpoch;
    while epoch < cfg.epochs
      invariant cfg.distributed ==> epoch == cfg.startEpoch
      invariant Resumes(whole, log, Epochs(cfg, train, epoch, iterationCounter, bestMetrics))
      decreases cfg.epochs - epoch
    {
      if cfg.distributed {
        return Failure(SamplerWithoutSetEpoch);
      }
      ResumesAfterEpoch(cfg, train, whole, log, epoch, iterationCounter, bestMetrics);
      var out := train(epoch, iterationCounter, bestMetrics);
      bestMetrics := out.best;
      var line := LogLine(out.trainAvgs, out.testStats, epoch, cfg.nParameters);
      iterationCounter := iterationCounter + cfg.batchesPerEpoch;
      if WritesLog(cfg) {
        log := log + [line];
      }
      epoch := epoch + 1;
    }
    assert log == log + [];
    r := Success(LoopState(iterationCounter, bestMetrics, log));
    EpochsIterations(cfg, train, cfg.startEpoch, 0, InitialBestMetrics());
    EpochsLog(cfg, train, cfg.startEpoch, 0, InitialBestMetrics());
  }

  /** The driver from the evaluation switch to the end of the epoch loop. */
  method Run<M>(a: Args, ctx: RunContext, train: Trainer<M>, evaluate: () -> map<string, M>)
    returns (outcome: RunOutcome<M>)
    ensures a.eval ==>
      if "acc1" in evaluate() then outcome == EvaluatedOnly(evaluate()["acc1"])
      else outcome == EvalMissingAccuracy
    ensures !a.eval && a.distributed && a.startEpoch < a.epochs ==>
      outcome == LoopFailed(SamplerWithoutSetEpoch)
    ensures !a.eval && !(a.distributed && a.startEpoch < a.epochs) ==>
      outcome == Trained(Epochs(LoopConfigOf(a, ctx), train, a.startEpoch, 0, InitialBestMetrics()))
  {
    if a.eval {
      var testStats := evaluate();
      if "acc1" in testStats {
        return EvaluatedOnly(testStats["acc1"]);
      }
      return EvalMissingAccuracy;
    }
    var r := TrainingLoop(LoopConfigOf(a, ctx), train);
    match r
    case Failure(e) => outcome := LoopFailed(e);
    case Success(final) => outcome := Trained(final);
  }
}
