/** The bookkeeping of `maml_exp`: the per-task sampler choice, the inner
    task loop and its running sums, the per-iteration result log, the
    running-best tracking, the two test passes, and the method label and
    output path of the result file.

    The learner, the episode samplers, the loss and the outer optimiser are
    opaque: they are the function fields of an `Env`. A learner value stands
    for a set of meta-parameters; `maml.clone()` is that value itself. Each
    `sample()` call is told which call it is (a `Draw`), since the random
    state that decides the episode is not modelled. The script's sums and
    means are exact real arithmetic here. */
module Training {
  import opened Wrappers
  import opened Episode
  import Accuracy
  import Partition
  import Naming

  /** `test_iteration`, the number of repetitions of each test pass. */
  const TEST_ITERATION: nat := 100

  /** The seven keys the script writes into the `result` dictionary. */
  datatype Key = IterationKey | TrainLossKey | ValidLossKey | TrainAccKey | ValidAccKey
               | TestMeanKey | TestBestKey

  /** The string each key is stored under. */
  function KeyName(key: Key): (name: string)
    ensures |name| > 0
  {
    match key
    case IterationKey => "iteration"
    case TrainLossKey => "train_loss"
    case ValidLossKey => "valid_loss"
    case TrainAccKey => "train_acc"
    case ValidAccKey => "valid_acc"
    case TestMeanKey => "test(mean)"
    case TestBestKey => "test(best)"
  }

  /** The arguments of `maml_exp` the bookkeeping depends on. The learning
      rates, the device and the seed only reach the opaque `Env`. */
  datatype Config = Config(ways: nat, shots: nat, metaBatchSize: nat, adaptationSteps: nat,
                           numIterations: nat, isDisjoint: bool, fileName: string, logDir: string)

  /** The samplers `get_tasksets` returns: the three task sets and, in the
      disjoint setting, one per client, restricted to that client's labels. */
  datatype TaskSource = TrainTasks | ValidationTasks | TestTasks | ClientTasks(client: nat, labels: seq<int>)

  /** Which `sample()` call of the run an episode comes from. */
  datatype Draw =
    | TrainDraw(iteration: nat, task: nat)
    | ValidDraw(iteration: nat, task: nat)
    | TestDraw(pass: nat, rep: nat, task: nat)

  /** The external collaborators: the initial MAML learner, the samplers,
      the learner's forward pass, the loss, one `adapt` step on a loss over
      the given examples, and the outer `opt.step()` of an iteration. */
  datatype Env<!L, !X> = Env(
    init: L,
    sample: (TaskSource, Draw) -> Batch<X>,
    forward: (L, seq<X>) -> seq<seq<real>>,
    loss: (seq<seq<real>>, seq<int>) -> real,
    adapt: (L, seq<X>, seq<int>) -> L,
    step: (L, nat) -> L)

  /** `disjoint_setting`: None, or one label list per client. */
  datatype Setting = Shared | Disjoint(clients: seq<seq<int>>)

  datatype Evaluation = Evaluation(error: real, accuracy: real)

  // ---------------------------------------------------------------------
  // fast_adapt

  /** The learner after `steps` adaptation steps on the adaptation half. */
  function Adapted<L, X>(env: Env<L, X>, learner: L, data: seq<X>, labels: seq<int>, steps: nat): (l: L)
    ensures steps == 0 ==> l == learner
  {
    if steps == 0 then learner
    else env.adapt(Adapted(env, learner, data, labels, steps - 1), data, labels)
  }

  /** `fast_adapt`: split the batch, adapt on one half, evaluate on the other. */
  function FastAdaptOf<L, X>(env: Env<L, X>, batch: Batch<X>, learner: L,
                             adaptationSteps: nat, shots: nat, ways: nat): (r: Result<Evaluation>)
    ensures SplitOf(batch, shots, ways).Err? ==> r == SplitOf(batch, shots, ways).PropagateFailure()
    ensures r.Ok? ==> 0.0 <= r.value.accuracy <= 1.0
  {
    var h :- SplitOf(batch, shots, ways);
    var adapted := Adapted(env, learner, h.adaptationData, h.adaptationLabels, adaptationSteps);
    var predictions := env.forward(adapted, h.evaluationData);
    var acc :- Accuracy.Accuracy(predictions, h.evaluationLabels);
    Ok(Evaluation(env.loss(predictions, h.evaluationLabels), acc))
  }

  /** test_refact.py lines 50-74. */
  method FastAdapt<L, X>(env: Env<L, X>, batch: Batch<X>, learner: L,
                         adaptationSteps: nat, shots: nat, ways: nat) returns (r: Result<Evaluation>)
    ensures r == FastAdaptOf(env, batch, learner, adaptationSteps, shots, ways)
  {
    var mask :- AdaptationMask(|batch.data|, shots, ways);
    var h :- SplitWith(batch, mask);
    var l := learner;
    for step := 0 to adaptationSteps
      invariant l == Adapted(env, learner, h.adaptationData, h.adaptationLabels, step)
    {
      l := env.adapt(l, h.adaptationData, h.adaptationLabels);
    }
    var predictions := env.forward(l, h.evaluationData);
    var validError := env.loss(predictions, h.evaluationLabels);
    var validAccuracy :- Accuracy.Accuracy(predictions, h.evaluationLabels);
    return Ok(Evaluation(validError, validAccuracy));
  }

  // ---------------------------------------------------------------------
  // The inner task loop of a meta-iteration

  /** In the disjoint setting there is one label list per task slot. */
  predicate ValidSetting(setting: Setting, metaBatchSize: nat) {
    setting.Disjoint? ==> |setting.clients| == metaBatchSize
  }

  /** test_refact.py lines 160-163: the shared training sampler, or client `task`'s own. */
  function TrainSampler(setting: Setting, task: nat): (source: TaskSource)
    requires setting.Disjoint? ==> task < |setting.clients|
    ensures setting.Shared? <==> source == TrainTasks
    ensures setting.Disjoint? ==> source.ClientTasks? && source.client == task &&
                                  source.labels == setting.clients[task]
  {
    if setting.Shared? then TrainTasks else ClientTasks(task, setting.clients[task])
  }

  datatype Sums = Sums(trainError: real, trainAccuracy: real, validError: real, validAccuracy: real)

  /** test_refact.py lines 185-196: the validation half of a task slot, after its
      training half has evaluated to `train`. */
  function ValidStep<L, X>(env: Env<L, X>, cfg: Config, params: L, iteration: nat, task: nat,
                           acc: Sums, train: Evaluation): (r: Result<Sums>)
    ensures r.Ok? ==> r.value.trainAccuracy == acc.trainAccuracy + train.accuracy
    ensures r.Ok? ==> acc.validAccuracy <= r.value.validAccuracy <= acc.validAccuracy + 1.0
  {
    var validBatch := env.sample(ValidationTasks, ValidDraw(iteration, task));
    var valid :- FastAdaptOf(env, validBatch, params, cfg.adaptationSteps, cfg.shots, cfg.ways);
    Ok(Sums(acc.trainError + train.error, acc.trainAccuracy + train.accuracy,
            acc.validError + valid.error, acc.validAccuracy + valid.accuracy))
  }

  /** test_refact.py lines 159-196: one task slot adds its training and validation
      evaluation to the four running sums. */
  function TaskStep<L, X>(env: Env<L, X>, cfg: Config, setting: Setting, params: L,
                          iteration: nat, task: nat, acc: Sums): (r: Result<Sums>)
    requires setting.Disjoint? ==> task < |setting.clients|
    ensures r.Ok? ==> acc.trainAccuracy <= r.value.trainAccuracy <= acc.trainAccuracy + 1.0
    ensures r.Ok? ==> acc.validAccuracy <= r.value.validAccuracy <= acc.validAccuracy + 1.0
  {
    var trainBatch := env.sample(TrainSampler(setting, task), TrainDraw(iteration, task));
    var train :- FastAdaptOf(env, trainBatch, params, cfg.adaptationSteps, cfg.shots, cfg.ways);
    ValidStep(env, cfg, params, iteration, task, acc, train)
  }

  /** The four running sums of test_refact.py lines 150-196, from task slot `task` on,
      starting from `acc`; the first failing `fast_adapt` stops the run. */
  function TaskSumsFrom<L, X>(env: Env<L, X>, cfg: Config, setting: Setting, params: L,
                              iteration: nat, task: nat, acc: Sums): (r: Result<Sums>)
    requires ValidSetting(setting, cfg.metaBatchSize) && task <= cfg.metaBatchSize
    ensures r.Ok? ==> acc.trainAccuracy <= r.value.trainAccuracy <=
                      acc.trainAccuracy + (cfg.metaBatchSize - task) as real
    ensures r.Ok? ==> acc.validAccuracy <= r.value.validAccuracy <=
                      acc.validAccuracy + (cfg.metaBatchSize - task) as real
    decreases cfg.metaBatchSize - task
  {
    if task == cfg.metaBatchSize then Ok(acc)
    else
      var next :- TaskStep(env, cfg, setting, params, iteration, task, acc);
      TaskSumsFrom(env, cfg, setting, params, iteration, task + 1, next)
  }

  const ZERO_SUMS := Sums(0.0, 0.0, 0.0, 0.0)

  /** test_refact.py lines 185-196: `fast_adapt` on a fresh clone for a validation episode. */
  method ValidTask<L, X>(env: Env<L, X>, cfg: Config, params: L, iteration: nat, task: nat,
                         acc: Sums, train: Evaluation) returns (r: Result<Sums>)
    ensures r == ValidStep(env, cfg, params, iteration, task, acc, train)
  {
    var learner := params;
    var batch := env.sample(ValidationTasks, ValidDraw(iteration, task));
    var valid :- FastAdapt(env, batch, learner, cfg.adaptationSteps, cfg.shots, cfg.ways);
    return Ok(Sums(acc.trainError + train.error, acc.trainAccuracy + train.accuracy,
                   acc.validError + valid.error, acc.validAccuracy + valid.accuracy));
  }

  /** test_refact.py lines 159-196: `fast_adapt` on a fresh clone for the task slot's
      training episode, then on another for a validation episode. */
  method Task<L, X>(env: Env<L, X>, cfg: Config, setting: Setting, params: L,
                    iteration: nat, task: nat, acc: Sums) returns (r: Result<Sums>)
    requires setting.Disjoint? ==> task < |setting.clients|
    ensures r == TaskStep(env, cfg, setting, params, iteration, task, acc)
  {
    var learner := params;
    var batch := env.sample(TrainSampler(setting, task), TrainDraw(iteration, task));
    var train :- FastAdapt(env, batch, learner, cfg.adaptationSteps, cfg.shots, cfg.ways);
    r := ValidTask(env, cfg, params, iteration, task, acc, train);
  }

  /** test_refact.py lines 149-196: one meta-batch, a training and a validation task per slot. */
  method MetaBatch<L, X>(env: Env<L, X>, cfg: Config, setting: Setting, params: L, iteration: nat)
    returns (r: Result<Sums>)
    requires ValidSetting(setting, cfg.metaBatchSize)
    ensures r == TaskSumsFrom(env, cfg, setting, params, iteration, 0, ZERO_SUMS)
  {
    var sums := ZERO_SUMS;
    for task := 0 to cfg.metaBatchSize
      invariant TaskSumsFrom(env, cfg, setting, params, iteration, task, sums)
                == TaskSumsFrom(env, cfg, setting, params, iteration, 0, ZERO_SUMS)
    {
      sums :- Task(env, cfg, setting, params, iteration, task, sums);
    }
    return Ok(sums);
  }

  // ---------------------------------------------------------------------
  // The result log

  /** A value stored under a key of `result`: a per-iteration scalar or a
      test summary record. */
  datatype Entry = Num(x: real) | Record(summary: Summary)

  /** The test summary records; `best` holds the two extra fields of
      "test(best)". The `std` field is not modelled. */
  datatype Summary = Summary(mean: real, iteration: nat, client: nat, methodName: string,
                             best: Option<BestRecord>)

  datatype BestRecord = BestRecord(bestIteration: nat, bestAccuracy: real)

  /** `result = defaultdict(list)` */
  type Log = map<Key, seq<Entry>>

  /** `result[key]` of a defaultdict: the empty list for a missing key. */
  function Column(log: Log, key: Key): seq<Entry> {
    if key in log then log[key] else []
  }

  /** `result[key].append(e)` */
  function Append(log: Log, key: Key, e: Entry): (r: Log)
    ensures r.Keys == log.Keys + {key}
    ensures Column(r, key) == Column(log, key) + [e]
    ensures forall k :: k != key ==> Column(r, k) == Column(log, k)
  {
    log[key := Column(log, key) + [e]]
  }

  /** The scalars of a column. */
  function Values(es: seq<Entry>): (xs: seq<real>)
    ensures |xs| == |es|
  {
    seq(|es|, i requires 0 <= i < |es| => if es[i].Num? then es[i].x else 0.0)
  }

  // ---------------------------------------------------------------------
  // The meta-iterations

  /** What the outer loop carries from one iteration to the next. */
  datatype State<L> = State(maml: L, result: Log, bestAccuracy: real,
                            bestLearner: Option<L>, bestIteration: Option<nat>)

  /** test_refact.py lines 146 and 42: before the first iteration. */
  function Initial<L, X>(env: Env<L, X>): State<L> {
    State(env.init, map[], 0.0, None, None)
  }

  /** test_refact.py lines 209-213: one entry under each of the five per-iteration keys. */
  function LogIteration(log: Log, iteration: nat, errorTrain: real, errorValid: real,
                        accuracyTrain: real, accuracyValid: real): Log
  {
    Append(Append(Append(Append(Append(log,
      IterationKey, Num(iteration as real)),
      TrainLossKey, Num(errorTrain)),
      ValidLossKey, Num(errorValid)),
      TrainAccKey, Num(accuracyTrain)),
      ValidAccKey, Num(accuracyValid))
  }

  /** test_refact.py lines 209-230: log an iteration's averages, keep the learner of
      the first strictly better validation accuracy (the learner as it was
      before this iteration's meta-step), and move on to `maml`. */
  function Advance<L>(st: State<L>, iteration: nat, maml: L, errorTrain: real, errorValid: real,
                      accuracyTrain: real, accuracyValid: real): (next: State<L>)
    ensures next.maml == maml
    ensures next.bestAccuracy >= st.bestAccuracy && next.bestAccuracy >= accuracyValid
    ensures next.bestAccuracy == st.bestAccuracy || next.bestAccuracy == accuracyValid
    ensures accuracyValid > st.bestAccuracy ==>
              next.bestIteration == Some(iteration) && next.bestLearner == Some(st.maml)
    ensures accuracyValid <= st.bestAccuracy ==>
              next.bestIteration == st.bestIteration && next.bestLearner == st.bestLearner
  {
    var result := LogIteration(st.result, iteration, errorTrain, errorValid, accuracyTrain, accuracyValid);
    if accuracyValid > st.bestAccuracy then
      State(maml, result, accuracyValid, Some(st.maml), Some(iteration))
    else
      State(maml, result, st.bestAccuracy, st.bestLearner, st.bestIteration)
  }

  /** test_refact.py lines 149-230: one meta-iteration. */
  function IterationOf<L, X>(env: Env<L, X>, cfg: Config, setting: Setting,
                             st: State<L>, iteration: nat): (r: Result<State<L>>)
    requires ValidSetting(setting, cfg.metaBatchSize)
    ensures cfg.metaBatchSize == 0 ==> r == Err(DivisionByZero)
    ensures r.Ok? ==> r.value.maml == env.step(st.maml, iteration)
    ensures r.Ok? ==> r.value.bestAccuracy >= st.bestAccuracy
  {
    var sums :- TaskSumsFrom(env, cfg, setting, st.maml, iteration, 0, ZERO_SUMS);
    if cfg.metaBatchSize == 0 then Err(DivisionByZero)
    else
      var n := cfg.metaBatchSize as real;
      Ok(Advance(st, iteration, env.step(st.maml, iteration), sums.trainError / n, sums.validError / n,
                 sums.trainAccuracy / n, sums.validAccuracy / n))
  }

  /** test_refact.py lines 148-230, from iteration `iteration` on. */
  function RunFrom<L, X>(env: Env<L, X>, cfg: Config, setting: Setting,
                         iteration: nat, st: State<L>): (r: Result<State<L>>)
    requires ValidSetting(setting, cfg.metaBatchSize) && iteration <= cfg.numIterations
    ensures cfg.metaBatchSize == 0 && iteration < cfg.numIterations ==> r == Err(DivisionByZero)
    ensures r.Ok? ==> r.value.bestAccuracy >= st.bestAccuracy
    decreases cfg.numIterations - iteration
  {
    if iteration == cfg.numIterations then Ok(st)
    else
      var next :- IterationOf(env, cfg, setting, st, iteration);
      RunFrom(env, cfg, setting, iteration + 1, next)
  }

  // ---------------------------------------------------------------------
  // The test passes

  /** `learner = best_learner.clone()`: fails while no iteration has set it. */
  function Clone<L>(learner: Option<L>): Result<L> {
    if learner.Some? then Ok(learner.value) else Err(UnboundLocal("best_learner"))
  }

  /** test_refact.py lines 242-253: one test task slot adds its evaluation to the two sums. */
  function TestStep<L, X>(env: Env<L, X>, cfg: Config, learner: Option<L>, pass: nat, rep: nat,
                          task: nat, sums: (real, real)): (r: Result<(real, real)>)
    ensures r.Ok? ==> sums.1 <= r.value.1 <= sums.1 + 1.0
  {
    var l :- Clone(learner);
    var batch := env.sample(TestTasks, TestDraw(pass, rep, task));
    var e :- FastAdaptOf(env, batch, l, cfg.adaptationSteps, cfg.shots, cfg.ways);
    Ok((sums.0 + e.error, sums.1 + e.accuracy))
  }

  /** One repetition's error and accuracy sums, from task slot `task` on. */
  function TestSumsFrom<L, X>(env: Env<L, X>, cfg: Config, learner: Option<L>, pass: nat, rep: nat,
                              task: nat, sums: (real, real)): (r: Result<(real, real)>)
    requires task <= cfg.metaBatchSize
    ensures r.Ok? ==> sums.1 <= r.value.1 <= sums.1 + (cfg.metaBatchSize - task) as real
    decreases cfg.metaBatchSize - task
  {
    if task == cfg.metaBatchSize then Ok(sums)
    else
      var next :- TestStep(env, cfg, learner, pass, rep, task, sums);
      TestSumsFrom(env, cfg, learner, pass, rep, task + 1, next)
  }

  /** test_refact.py lines 242-253: `fast_adapt` on a fresh clone of `learner` for one test episode. */
  method TestTask<L, X>(env: Env<L, X>, cfg: Config, learner: Option<L>, pass: nat, rep: nat,
                        task: nat, sums: (real, real)) returns (r: Result<(real, real)>)
    ensures r == TestStep(env, cfg, learner, pass, rep, task, sums)
  {
    var l :- Clone(learner);
    var batch := env.sample(TestTasks, TestDraw(pass, rep, task));
    var e :- FastAdapt(env, batch, l, cfg.adaptationSteps, cfg.shots, cfg.ways);
    return Ok((sums.0 + e.error, sums.1 + e.accuracy));
  }

  /** test_refact.py lines 237-253 (and 279-295): the sums of one test repetition. */
  method TestBatch<L, X>(env: Env<L, X>, cfg: Config, learner: Option<L>, pass: nat, rep: nat)
    returns (r: Result<(real, real)>)
    ensures r == TestSumsFrom(env, cfg, learner, pass, rep, 0, (0.0, 0.0))
  {
    var sums := (0.0, 0.0);
    for task := 0 to cfg.metaBatchSize
      invariant TestSumsFrom(env, cfg, learner, pass, rep, task, sums)
                == TestSumsFrom(env, cfg, learner, pass, rep, 0, (0.0, 0.0))
    {
      sums :- TestTask(env, cfg, learner, pass, rep, task, sums);
    }
    return Ok(sums);
  }

  /** The `test_error` and `test_accuracy` lists. */
  datatype TestLists = TestLists(errors: seq<real>, accuracies: seq<real>)

  /** A sum of values in [0, 1] lies between 0 and the number of values. */
  function Sum(xs: seq<real>): (s: real)
    ensures (forall i :: 0 <= i < |xs| ==> 0.0 <= xs[i] <= 1.0) ==> 0.0 <= s <= |xs| as real
  {
    if |xs| == 0 then 0.0 else Sum(xs[..|xs| - 1]) + xs[|xs| - 1]
  }

  /** `np.mean`, exactly: the mean of values in [0, 1] lies in [0, 1]. */
  function Mean(xs: seq<real>): (m: real)
    requires |xs| > 0
    ensures (forall i :: 0 <= i < |xs| ==> 0.0 <= xs[i] <= 1.0) ==> 0.0 <= m <= 1.0
  {
    UnitFraction(Sum(xs), |xs| as real);
    Sum(xs) / |xs| as real
  }

  /** test_refact.py lines 237-255: one test repetition appends the mean error and the mean
      accuracy of its meta batch; the mean accuracy lies in [0, 1]. */
  function RepetitionOf<L, X>(env: Env<L, X>, cfg: Config, learner: Option<L>, pass: nat,
                              rep: nat, lists: TestLists): (r: Result<TestLists>)
    ensures r.Ok? ==> |r.value.errors| == |lists.errors| + 1 && lists.errors <= r.value.errors
    ensures r.Ok? ==> |r.value.accuracies| == |lists.accuracies| + 1 && lists.accuracies <= r.value.accuracies
    ensures r.Ok? ==> 0.0 <= r.value.accuracies[|lists.accuracies|] <= 1.0
    ensures cfg.metaBatchSize == 0 ==> r == Err(DivisionByZero)
  {
    var s :- TestSumsFrom(env, cfg, learner, pass, rep, 0, (0.0, 0.0));
    if cfg.metaBatchSize == 0 then Err(DivisionByZero)
    else
      var n := cfg.metaBatchSize as real;
      UnitFraction(s.1, n);
      Ok(TestLists(lists.errors + [s.0 / n], lists.accuracies + [s.1 / n]))
  }

  /** A helper for the averages: a sum of at most n values in [0, 1], divided by n. */
  lemma UnitFraction(x: real, n: real)
    requires n > 0.0
    ensures 0.0 <= x <= n ==> 0.0 <= x / n <= 1.0
  {
  }

  /** A test pass from repetition `rep` on: the lists it is given are kept as
      a prefix, one error and one accuracy are appended per remaining
      repetition, and every appended accuracy lies in [0, 1]. */
  function TestPassFrom<L, X>(env: Env<L, X>, cfg: Config, learner: Option<L>, pass: nat,
                              rep: nat, lists: TestLists): (r: Result<TestLists>)
    requires rep <= TEST_ITERATION
    ensures r.Ok? ==> |r.value.errors| == |lists.errors| + (TEST_ITERATION - rep)
    ensures r.Ok? ==> |r.value.accuracies| == |lists.accuracies| + (TEST_ITERATION - rep)
    ensures r.Ok? ==> lists.errors <= r.value.errors && lists.accuracies <= r.value.accuracies
    ensures r.Ok? ==> forall i :: |lists.accuracies| <= i < |r.value.accuracies| ==>
                        0.0 <= r.value.accuracies[i] <= 1.0
    ensures cfg.metaBatchSize == 0 && rep < TEST_ITERATION ==> r == Err(DivisionByZero)
    decreases TEST_ITERATION - rep
  {
    if rep == TEST_ITERATION then Ok(lists)
    else
      var next :- RepetitionOf(env, cfg, learner, pass, rep, lists);
      TestPassFrom(env, cfg, learner, pass, rep + 1, next)
  }

  /** test_refact.py lines 237-255: one test repetition. */
  method Repetition<L, X>(env: Env<L, X>, cfg: Config, learner: Option<L>, pass: nat,
                          rep: nat, lists: TestLists) returns (r: Result<TestLists>)
    ensures r == RepetitionOf(env, cfg, learner, pass, rep, lists)
  {
    var sums :- TestBatch(env, cfg, learner, pass, rep);
    if cfg.metaBatchSize == 0 {
      return Err(DivisionByZero);
    }
    var n := cfg.metaBatchSize as real;
    return Ok(TestLists(lists.errors + [sums.0 / n], lists.accuracies + [sums.1 / n]));
  }

  /** test_refact.py lines 235-257 (`learner` Some(maml)) and 277-299 (`learner` best_learner). */
  method TestPass<L, X>(env: Env<L, X>, cfg: Config, learner: Option<L>, pass: nat, lists: TestLists)
    returns (r: Result<TestLists>)
    ensures r == TestPassFrom(env, cfg, learner, pass, 0, lists)
  {
    var current := lists;
    for rep := 0 to TEST_ITERATION
      invariant TestPassFrom(env, cfg, learner, pass, rep, current)
                == TestPassFrom(env, cfg, learner, pass, 0, lists)
    {
      current :- Repetition(env, cfg, learner, pass, rep, current);
    }
    return Ok(current);
  }

  // ---------------------------------------------------------------------
  // The whole experiment

  /** test_refact.py lines 92-101: the disjoint setting, or None. */
  function SettingOf(cfg: Config): (r: Result<Setting>)
    ensures r.Ok? ==> ValidSetting(r.value, cfg.metaBatchSize)
  {
    if cfg.isDisjoint then
      var clients :- Partition.PartitionOf(cfg.metaBatchSize);
      Ok(Disjoint(clients))
    else Ok(Shared)
  }

  /** test_refact.py lines 264-268: the method label. */
  function MethodName(setting: Setting): (name: string)
    ensures setting.Shared? <==> name == "Base"
    ensures setting.Disjoint? <==> name == "Disjoint"
  {
    if setting.Shared? then "Base" else "Disjoint"
  }

  /** `len(disjoint_setting)` after None was replaced by [] (test_refact.py lines 263-269).
      A helper of the summaries: `TrainingFacts.SettingFacts` states that it is
      `meta_batch_size` in a disjoint run and 0 otherwise. */
  function ClientCount(setting: Setting): (n: nat)
    ensures setting.Shared? ==> n == 0
    ensures setting.Disjoint? ==> n == |setting.clients|
  {
    if setting.Shared? then 0 else |setting.clients|
  }

  /** What survives the run: the pickled `result` dictionary, the two test
      lists, and the path of the result file. */
  datatype Report = Report(result: Log, testError: seq<real>, testAccuracy: seq<real>, path: string)

  /** test_refact.py lines 258-317: after the test pass of the final learner, `first`, log
      its summary, run the test pass of the best learner onto the same
      lists, log that summary too, and name the result file. */
  function SummarizeOf<L, X>(env: Env<L, X>, cfg: Config, setting: Setting, st: State<L>,
                             first: TestLists): (r: Result<Report>)
    requires |first.errors| == |first.accuracies| == TEST_ITERATION
    ensures cfg.numIterations == 0 ==> r == Err(UnboundLocal("iteration"))
    ensures r.Ok? ==> st.bestIteration.Some? && cfg.metaBatchSize > 0
    ensures r.Ok? ==> |r.value.testAccuracy| == |r.value.testError| == 2 * TEST_ITERATION
  {
    var methodName := MethodName(setting);
    var client := ClientCount(setting);
    if cfg.numIterations == 0 then Err(UnboundLocal("iteration"))
    else
      var last := cfg.numIterations - 1;
      var result := Append(st.result, TestMeanKey,
                           Record(Summary(Mean(first.accuracies), last, client, methodName, None)));
      var both :- TestPassFrom(env, cfg, st.bestLearner, 1, 0, first);
      if st.bestIteration.None? then Err(UnboundLocal("best_iteration"))
      else
        var record := BestRecord(st.bestIteration.value, st.bestAccuracy);
        var result' := Append(result, TestBestKey,
                              Record(Summary(Mean(both.accuracies), last, client, methodName, Some(record))));
        Ok(Report(result', both.errors, both.accuracies,
                  Naming.OutputPath(cfg.logDir, cfg.fileName, methodName, cfg.metaBatchSize)))
  }

  /** test_refact.py lines 92-317 of `maml_exp`, without the I/O. */
  function ExperimentOf<L, X>(env: Env<L, X>, cfg: Config): (r: Result<Report>)
    ensures cfg.metaBatchSize == 0 ==> r == Err(DivisionByZero)
    ensures cfg.numIterations == 0 ==> r.Err?
  {
    var setting :- SettingOf(cfg);
    var st :- RunFrom(env, cfg, setting, 0, Initial(env));
    var first :- TestPassFrom(env, cfg, Some(st.maml), 0, 0, TestLists([], []));
    SummarizeOf(env, cfg, setting, st, first)
  }

  /** test_refact.py lines 209-230: the appends, the best update and the meta-step. */
  method LogAndTrack<L>(st: State<L>, iteration: nat, maml: L, errorTrain: real, errorValid: real,
                        accuracyTrain: real, accuracyValid: real) returns (next: State<L>)
    ensures next == Advance(st, iteration, maml, errorTrain, errorValid, accuracyTrain, accuracyValid)
  {
    var result := st.result;
    result := Append(result, IterationKey, Num(iteration as real));
    result := Append(result, TrainLossKey, Num(errorTrain));
    result := Append(result, ValidLossKey, Num(errorValid));
    result := Append(result, TrainAccKey, Num(accuracyTrain));
    result := Append(result, ValidAccKey, Num(accuracyValid));
    var bestAccuracy, bestLearner, bestIteration := st.bestAccuracy, st.bestLearner, st.bestIteration;
    if accuracyValid > bestAccuracy {
      bestAccuracy := accuracyValid;
      bestLearner := Some(st.maml);
      bestIteration := Some(iteration);
    }
    next := State(maml, result, bestAccuracy, bestLearner, bestIteration);
  }

  /** test_refact.py lines 149-230: one meta-iteration on the loop-carried state. */
  method Iterate<L, X>(env: Env<L, X>, cfg: Config, setting: Setting, st: State<L>, iteration: nat)
    returns (r: Result<State<L>>)
    requires ValidSetting(setting, cfg.metaBatchSize)
    ensures r == IterationOf(env, cfg, setting, st, iteration)
  {
    var sums :- MetaBatch(env, cfg, setting, st.maml, iteration);
    if cfg.metaBatchSize == 0 {
      return Err(DivisionByZero);
    }
    var n := cfg.metaBatchSize as real;
    var errorTrain, accuracyTrain := sums.trainError / n, sums.trainAccuracy / n;
    var errorValid, accuracyValid := sums.validError / n, sums.validAccuracy / n;
    var next := LogAndTrack(st, iteration, env.step(st.maml, iteration),
                            errorTrain, errorValid, accuracyTrain, accuracyValid);
    return Ok(next);
  }

  /** test_refact.py lines 146-230: the meta-training loop. */
  method Train<L, X>(env: Env<L, X>, cfg: Config, setting: Setting) returns (r: Result<State<L>>)
    requires ValidSetting(setting, cfg.metaBatchSize)
    ensures r == RunFrom(env, cfg, setting, 0, Initial(env))
  {
    var st := Initial(env);
    for iteration := 0 to cfg.numIterations
      invariant RunFrom(env, cfg, setting, iteration, st) == RunFrom(env, cfg, setting, 0, Initial(env))
    {
      st :- Iterate(env, cfg, setting, st, iteration);
    }
    return Ok(st);
  }

  /** test_refact.py lines 258-317. */
  method Summarize<L, X>(env: Env<L, X>, cfg: Config, setting: Setting, st: State<L>,
                         first: TestLists) returns (r: Result<Report>)
    requires |first.errors| == |first.accuracies| == TEST_ITERATION
    ensures r == SummarizeOf(env, cfg, setting, st, first)
  {
    var methodName := MethodName(setting);
    var client := ClientCount(setting);
    if cfg.numIterations == 0 {
      return Err(UnboundLocal("iteration"));
    }
    var last := cfg.numIterations - 1;
    var result := Append(st.result, TestMeanKey,
                         Record(Summary(Mean(first.accuracies), last, client, methodName, None)));
    var both :- TestPass(env, cfg, st.bestLearner, 1, first);
    if st.bestIteration.None? {
      return Err(UnboundLocal("best_iteration"));
    }
    var record := BestRecord(st.bestIteration.value, st.bestAccuracy);
    result := Append(result, TestBestKey,
                     Record(Summary(Mean(both.accuracies), last, client, methodName, Some(record))));
    var path := Naming.OutputPath(cfg.logDir, cfg.fileName, methodName, cfg.metaBatchSize);
    return Ok(Report(result, both.errors, both.accuracies, path));
  }

  /** `maml_exp`, without the I/O. */
  method MamlExp<L, X>(env: Env<L, X>, cfg: Config) returns (r: Result<Report>)
    ensures r == ExperimentOf(env, cfg)
  {
    var setting := Shared;
    if cfg.isDisjoint {
      var clients :- Partition.DisjointSetting(cfg.metaBatchSize);
      setting := Disjoint(clients);
    }
    var st :- Train(env, cfg, setting);
    var first :- TestPass(env, cfg, Some(st.maml), 0, TestLists([], []));
    r := Summarize(env, cfg, setting, st, first);
  }
}
