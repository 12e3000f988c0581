/** What the bookkeeping of `maml_exp` guarantees: the sampler each task slot
    uses, the shape of the result log after every meta-iteration, the
    running best as a fold over the logged validation accuracies, and the
    contents of the final report. */
module TrainingFacts {
  import opened Wrappers
  import opened Training
  import Partition
  import Naming

  // ---------------------------------------------------------------------
  // The setting, the sampler choice and the labels

  /** Setting up succeeds unless the disjoint partition divides by zero
      clients; the method label and the client count follow the setting. */
  lemma SettingFacts(cfg: Config)
    ensures SettingOf(cfg).Ok? <==> !cfg.isDisjoint || cfg.metaBatchSize > 0
    ensures SettingOf(cfg).Err? ==> SettingOf(cfg).error == DivisionByZero
    ensures SettingOf(cfg).Ok? ==>
              && (cfg.isDisjoint ==> MethodName(SettingOf(cfg).value) == "Disjoint" &&
                                     ClientCount(SettingOf(cfg).value) == cfg.metaBatchSize)
              && (!cfg.isDisjoint ==> MethodName(SettingOf(cfg).value) == "Base" &&
                                      ClientCount(SettingOf(cfg).value) == 0)
  {
  }

  /** Every task slot of a meta batch has a sampler: the shared one, or in
      the disjoint setting the slot's own client with labels
      `[unit*task, unit*(task+1))`. */
  lemma SamplerChoice(cfg: Config, task: nat)
    requires SettingOf(cfg).Ok? && task < cfg.metaBatchSize
    ensures var setting := SettingOf(cfg).value;
      && (setting.Disjoint? ==> task < |setting.clients|)
      && (!cfg.isDisjoint ==> TrainSampler(setting, task) == TrainTasks)
      && (cfg.isDisjoint ==>
            TrainSampler(setting, task) ==
            ClientTasks(task, Partition.ClientLabels(Partition.Unit(cfg.metaBatchSize), task)))
  {
  }

  /** Two different task slots of the disjoint setting draw from clients
      that share no label. */
  lemma SamplersDisjoint(cfg: Config, t1: nat, t2: nat, x: int)
    requires cfg.isDisjoint && SettingOf(cfg).Ok?
    requires t1 < cfg.metaBatchSize && t2 < cfg.metaBatchSize && t1 != t2
    ensures var setting := SettingOf(cfg).value;
      !(x in TrainSampler(setting, t1).labels && x in TrainSampler(setting, t2).labels)
  {
    Partition.ClientsDisjoint(Partition.Unit(cfg.metaBatchSize), t1, t2, x);
  }

  // ---------------------------------------------------------------------
  // The running best

  /** The reference for test_refact.py lines 146 and 222-225: a left fold over the
      validation accuracies that starts at 0 with no iteration and moves
      only on a strictly greater value. */
  function BestOf(accuracies: seq<real>): (r: (real, Option<nat>))
    ensures r.0 >= 0.0
    ensures r.1.Some? ==> r.1.value < |accuracies| && accuracies[r.1.value] == r.0
  {
    if |accuracies| == 0 then (0.0, None)
    else
      var prev := BestOf(accuracies[..|accuracies| - 1]);
      var x := accuracies[|accuracies| - 1];
      if x > prev.0 then (x, Some(|accuracies| - 1)) else prev
  }

  /** The best accuracy is max(0, every accuracy); the best iteration is
      absent exactly when no accuracy is positive, and otherwise it is the
      FIRST iteration that attains the maximum. */
  lemma {:induction false} BestOfIsFirstMax(accuracies: seq<real>)
    ensures var (best, at) := BestOf(accuracies);
      && best >= 0.0
      && (forall j :: 0 <= j < |accuracies| ==> accuracies[j] <= best)
      && (at.None? <==> forall j :: 0 <= j < |accuracies| ==> accuracies[j] <= 0.0)
      && (at.None? ==> best == 0.0)
      && (at.Some? ==> && best > 0.0 && at.value < |accuracies| && accuracies[at.value] == best
                       && forall j :: 0 <= j < at.value ==> accuracies[j] < best)
  {
    if |accuracies| > 0 {
      var n := |accuracies| - 1;
      BestOfIsFirstMax(accuracies[..n]);
      assert forall j :: 0 <= j < n ==> accuracies[..n][j] == accuracies[j];
    }
  }

  /** A tie with the best so far does not move it: for the validation
      accuracies 0.2, 0.5, 0.4, 0.6, 0.6 the best is 0.6 at iteration 3. */
  lemma TieKeepsFirst()
    ensures BestOf([0.2, 0.5, 0.4, 0.6, 0.6]) == (0.6, Some(3))
  {
    var a := [0.2, 0.5, 0.4, 0.6, 0.6];
    assert a[..1] == [0.2] && [0.2][..0] == [];
    assert BestOf([0.2]) == (0.2, Some(0));
    assert a[..2] == [0.2, 0.5] && [0.2, 0.5][..1] == [0.2];
    assert BestOf([0.2, 0.5]) == (0.5, Some(1));
    assert a[..3] == [0.2, 0.5, 0.4] && [0.2, 0.5, 0.4][..2] == [0.2, 0.5];
    assert BestOf([0.2, 0.5, 0.4]) == (0.5, Some(1));
    assert a[..4] == [0.2, 0.5, 0.4, 0.6] && [0.2, 0.5, 0.4, 0.6][..3] == [0.2, 0.5, 0.4];
    assert BestOf([0.2, 0.5, 0.4, 0.6]) == (0.6, Some(3));
  }

  // ---------------------------------------------------------------------
  // The result log across meta-iterations

  /** The five keys of test_refact.py lines 209-213. */
  function LoopKeys(): set<Key> {
    {IterationKey, TrainLossKey, ValidLossKey, TrainAccKey, ValidAccKey}
  }

  /** After k iterations: the five keys (none before the first), k entries
      under each, and the iteration column 0, 1, ..., k-1. */
  predicate LogShape(log: Log, k: nat) {
    && log.Keys == (if k == 0 then {} else LoopKeys())
    && Column(log, IterationKey) == seq(k, i => Num(i as real))
    && |Column(log, TrainLossKey)| == k && |Column(log, ValidLossKey)| == k
    && |Column(log, TrainAccKey)| == k && |Column(log, ValidAccKey)| == k
  }

  /** Every entry is a number in [0, 1]. */
  predicate InUnit(es: seq<Entry>) {
    forall i :: 0 <= i < |es| ==> es[i].Num? && 0.0 <= es[i].x <= 1.0
  }

  /** What the meta-training loop keeps after k iterations: the log shape,
      accuracies in [0, 1], and the running best equal to the fold over the
      logged validation accuracies, with a best learner exactly when there
      is a best iteration. */
  predicate Tracked<L>(st: State<L>, k: nat) {
    && LogShape(st.result, k)
    && InUnit(Column(st.result, TrainAccKey)) && InUnit(Column(st.result, ValidAccKey))
    && (st.bestAccuracy, st.bestIteration) == BestOf(Values(Column(st.result, ValidAccKey)))
    && (st.bestLearner.Some? <==> st.bestIteration.Some?)
  }

  lemma InUnitSnoc(es: seq<Entry>, x: real)
    requires InUnit(es) && 0.0 <= x <= 1.0
    ensures InUnit(es + [Num(x)])
  {
    assert forall i :: 0 <= i < |es| ==> (es + [Num(x)])[i] == es[i];
  }

  lemma ValuesSnoc(es: seq<Entry>, x: real)
    ensures Values(es + [Num(x)]) == Values(es) + [x]
  {
  }

  lemma BestOfSnoc(accuracies: seq<real>, x: real)
    ensures BestOf(accuracies + [x]) ==
            (var prev := BestOf(accuracies);
             if x > prev.0 then (x, Some(|accuracies|)) else prev)
  {
    assert (accuracies + [x])[..|accuracies|] == accuracies;
  }

  /** The seven keys are stored under seven different strings, so the
      dictionary the script builds has one column per key of the model. */
  lemma KeyNamesDistinct(k1: Key, k2: Key)
    requires k1 != k2
    ensures KeyName(k1) != KeyName(k2)
  {
    var n1, n2 := KeyName(k1), KeyName(k2);
    if |n1| == |n2| {
      assert n1[0] != n2[0] || n1[1] != n2[1] || n1[5] != n2[5];
    }
  }

  /** One append adds one entry under its key and leaves every other column alone. */
  lemma AppendColumns(log: Log, key: Key, e: Entry)
    ensures Column(Append(log, key, e), key) == Column(log, key) + [e]
    ensures forall k :: k != key ==> Column(Append(log, key, e), k) == Column(log, k)
  {
  }

  lemma CountingSnoc(k: nat)
    ensures seq(k, i => Num(i as real)) + [Num(k as real)] == seq(k + 1, i => Num(i as real))
  {
  }

  /** The five appends of one iteration add exactly the five keys. */
  lemma LogIterationKeys(log: Log, k: nat, a: real, b: real, c: real, d: real)
    ensures LogIteration(log, k, a, b, c, d).Keys == log.Keys + LoopKeys()
  {
  }

  /** The iteration and the two losses go under their own keys. */
  lemma LogIterationLosses(log: Log, k: nat, a: real, b: real, c: real, d: real)
    ensures var r := LogIteration(log, k, a, b, c, d);
      && Column(r, IterationKey) == Column(log, IterationKey) + [Num(k as real)]
      && Column(r, TrainLossKey) == Column(log, TrainLossKey) + [Num(a)]
      && Column(r, ValidLossKey) == Column(log, ValidLossKey) + [Num(b)]
  {
    var r1 := Append(log, IterationKey, Num(k as real));
    var r2 := Append(r1, TrainLossKey, Num(a));
    var r4 := Append(Append(r2, ValidLossKey, Num(b)), TrainAccKey, Num(c));
    assert Column(r4, IterationKey) == Column(r1, IterationKey);
    assert Column(r4, TrainLossKey) == Column(r2, TrainLossKey);
  }

  /** The two accuracies go under their own keys. */
  lemma LogIterationAccuracies(log: Log, k: nat, a: real, b: real, c: real, d: real)
    ensures var r := LogIteration(log, k, a, b, c, d);
      && Column(r, TrainAccKey) == Column(log, TrainAccKey) + [Num(c)]
      && Column(r, ValidAccKey) == Column(log, ValidAccKey) + [Num(d)]
  {
  }

  /** A log that gained one entry under each of the five keys keeps its shape. */
  lemma ShapeStep(log: Log, r: Log, k: nat, a: real, b: real, c: real, d: real)
    requires LogShape(log, k) && r.Keys == log.Keys + LoopKeys()
    requires Column(r, IterationKey) == Column(log, IterationKey) + [Num(k as real)]
    requires Column(r, TrainLossKey) == Column(log, TrainLossKey) + [Num(a)]
    requires Column(r, ValidLossKey) == Column(log, ValidLossKey) + [Num(b)]
    requires Column(r, TrainAccKey) == Column(log, TrainAccKey) + [Num(c)]
    requires Column(r, ValidAccKey) == Column(log, ValidAccKey) + [Num(d)]
    ensures LogShape(r, k + 1)
  {
    CountingSnoc(k);
  }

  /** One iteration's appends keep the log shape, for one more iteration. */
  lemma LogIterationShape(log: Log, k: nat, a: real, b: real, c: real, d: real)
    requires LogShape(log, k)
    ensures var r := LogIteration(log, k, a, b, c, d);
      && LogShape(r, k + 1)
      && Column(r, TrainAccKey) == Column(log, TrainAccKey) + [Num(c)]
      && Column(r, ValidAccKey) == Column(log, ValidAccKey) + [Num(d)]
  {
    LogIterationKeys(log, k, a, b, c, d);
    LogIterationLosses(log, k, a, b, c, d);
    LogIterationAccuracies(log, k, a, b, c, d);
    ShapeStep(log, LogIteration(log, k, a, b, c, d), k, a, b, c, d);
  }

  /** Logging an iteration whose accuracies lie in [0, 1] keeps the tracked facts. */
  lemma AdvanceKeepsTracked<L>(st: State<L>, k: nat, maml: L, a: real, b: real, c: real, d: real)
    requires Tracked(st, k) && 0.0 <= c <= 1.0 && 0.0 <= d <= 1.0
    ensures Tracked(Advance(st, k, maml, a, b, c, d), k + 1)
  {
    LogIterationShape(st.result, k, a, b, c, d);
    InUnitSnoc(Column(st.result, TrainAccKey), c);
    InUnitSnoc(Column(st.result, ValidAccKey), d);
    ValuesSnoc(Column(st.result, ValidAccKey), d);
    BestOfSnoc(Values(Column(st.result, ValidAccKey)), d);
  }

  lemma IterationIsAdvance<L, X>(env: Env<L, X>, cfg: Config, setting: Setting, st: State<L>, k: nat)
    returns (sums: Sums)
    requires ValidSetting(setting, cfg.metaBatchSize) && IterationOf(env, cfg, setting, st, k).Ok?
    ensures cfg.metaBatchSize > 0
    ensures 0.0 <= sums.trainAccuracy <= cfg.metaBatchSize as real
    ensures 0.0 <= sums.validAccuracy <= cfg.metaBatchSize as real
    ensures var n := cfg.metaBatchSize as real;
      IterationOf(env, cfg, setting, st, k).value ==
      Advance(st, k, env.step(st.maml, k), sums.trainError / n, sums.validError / n,
              sums.trainAccuracy / n, sums.validAccuracy / n)
  {
    sums := TaskSumsFrom(env, cfg, setting, st.maml, k, 0, ZERO_SUMS).value;
  }

  /** One meta-iteration keeps what the loop tracks, for one more iteration. */
  lemma IterationKeepsTracked<L, X>(env: Env<L, X>, cfg: Config, setting: Setting, st: State<L>, k: nat)
    requires ValidSetting(setting, cfg.metaBatchSize)
    requires Tracked(st, k) && IterationOf(env, cfg, setting, st, k).Ok?
    ensures Tracked(IterationOf(env, cfg, setting, st, k).value, k + 1)
  {
    var sums := IterationIsAdvance(env, cfg, setting, st, k);
    var n := cfg.metaBatchSize as real;
    UnitFraction(sums.trainAccuracy, n);
    UnitFraction(sums.validAccuracy, n);
    AdvanceKeepsTracked(st, k, env.step(st.maml, k), sums.trainError / n, sums.validError / n,
                        sums.trainAccuracy / n, sums.validAccuracy / n);
  }

  /** The loop from iteration k on keeps what it tracks up to the last iteration. */
  lemma {:induction false} RunKeepsTracked<L, X>(env: Env<L, X>, cfg: Config, setting: Setting,
                                                 k: nat, st: State<L>)
    requires ValidSetting(setting, cfg.metaBatchSize) && k <= cfg.numIterations
    requires Tracked(st, k) && RunFrom(env, cfg, setting, k, st).Ok?
    ensures Tracked(RunFrom(env, cfg, setting, k, st).value, cfg.numIterations)
    decreases cfg.numIterations - k
  {
    if k < cfg.numIterations {
      IterationKeepsTracked(env, cfg, setting, st, k);
      RunKeepsTracked(env, cfg, setting, k + 1, IterationOf(env, cfg, setting, st, k).value);
    }
  }

  /** Before the first iteration nothing is logged and nothing is tracked. */
  lemma InitialTracked<L, X>(env: Env<L, X>)
    ensures Tracked(Initial(env), 0)
  {
    assert Values(Column(map[], ValidAccKey)) == [];
  }

  /** After the whole meta-training loop: num_iterations entries under each
      of the five keys, the iteration column counting from 0, accuracies
      in [0, 1], and `best_accuracy`/`best_iteration` the first maximum of
      the logged validation accuracies above 0. */
  lemma TrainingLog<L, X>(env: Env<L, X>, cfg: Config, setting: Setting)
    requires ValidSetting(setting, cfg.metaBatchSize)
    requires RunFrom(env, cfg, setting, 0, Initial(env)).Ok?
    ensures Tracked(RunFrom(env, cfg, setting, 0, Initial(env)).value, cfg.numIterations)
  {
    InitialTracked(env);
    RunKeepsTracked(env, cfg, setting, 0, Initial(env));
  }

  // ---------------------------------------------------------------------
  // The whole experiment

  /** The first test pass can only succeed with at least one task per repetition. */
  lemma TestPassNeedsTasks<L, X>(env: Env<L, X>, cfg: Config, learner: Option<L>, pass: nat, lists: TestLists)
    requires TestPassFrom(env, cfg, learner, pass, 0, lists).Ok?
    ensures cfg.metaBatchSize > 0
  {
    assert RepetitionOf(env, cfg, learner, pass, 0, lists).Ok?;
  }

  /** The two test appends after training: exactly the two test keys are
      added, one record under each, and the five training columns stay. */
  lemma TestRecordColumns(log: Log, k: nat, mean: Entry, best: Entry)
    requires LogShape(log, k) && k > 0
    ensures var r := Append(Append(log, TestMeanKey, mean), TestBestKey, best);
      && r.Keys == LoopKeys() + {TestMeanKey, TestBestKey}
      && Column(r, TestMeanKey) == [mean] && Column(r, TestBestKey) == [best]
      && forall key :: key in LoopKeys() ==> Column(r, key) == Column(log, key)
  {
  }

  /** A successful experiment, taken apart: the setting, the state after
      training, the two test passes appending onto the same lists, the two
      test summaries, and the report built from them. */
  lemma ExperimentParts<L, X>(env: Env<L, X>, cfg: Config)
    returns (setting: Setting, st: State<L>, first: TestLists, both: TestLists, mean: Summary, best: Summary)
    requires ExperimentOf(env, cfg).Ok?
    ensures SettingOf(cfg) == Ok(setting) && ValidSetting(setting, cfg.metaBatchSize)
    ensures RunFrom(env, cfg, setting, 0, Initial(env)) == Ok(st)
    ensures TestPassFrom(env, cfg, Some(st.maml), 0, 0, TestLists([], [])) == Ok(first)
    ensures |first.errors| == |first.accuracies| == TEST_ITERATION
    ensures TestPassFrom(env, cfg, st.bestLearner, 1, 0, first) == Ok(both)
    ensures cfg.numIterations > 0 && cfg.metaBatchSize > 0 && st.bestIteration.Some?
    ensures mean == Summary(Mean(first.accuracies), cfg.numIterations - 1,
                            ClientCount(setting), MethodName(setting), None)
    ensures best == Summary(Mean(both.accuracies), cfg.numIterations - 1,
                            ClientCount(setting), MethodName(setting),
                            Some(BestRecord(st.bestIteration.value, st.bestAccuracy)))
    ensures ExperimentOf(env, cfg).value ==
            Report(Append(Append(st.result, TestMeanKey, Record(mean)), TestBestKey, Record(best)),
                   both.errors, both.accuracies,
                   Naming.OutputPath(cfg.logDir, cfg.fileName, MethodName(setting), cfg.metaBatchSize))
  {
    setting := SettingOf(cfg).value;
    st := RunFrom(env, cfg, setting, 0, Initial(env)).value;
    first := TestPassFrom(env, cfg, Some(st.maml), 0, 0, TestLists([], [])).value;
    both := TestPassFrom(env, cfg, st.bestLearner, 1, 0, first).value;
    both := SummarizeParts(env, cfg, setting, st, first);
    SummarizeReport(env, cfg, setting, st, first, both);
    mean := Summary(Mean(first.accuracies), cfg.numIterations - 1, ClientCount(setting), MethodName(setting), None);
    best := Summary(Mean(both.accuracies), cfg.numIterations - 1, ClientCount(setting), MethodName(setting),
                    Some(BestRecord(st.bestIteration.value, st.bestAccuracy)));
  }

  /** A successful summary step ran the second test pass onto `first`, after
      at least one iteration and with a best iteration recorded. */
  lemma SummarizeParts<L, X>(env: Env<L, X>, cfg: Config, setting: Setting, st: State<L>, first: TestLists)
    returns (both: TestLists)
    requires |first.errors| == |first.accuracies| == TEST_ITERATION
    requires SummarizeOf(env, cfg, setting, st, first).Ok?
    ensures TestPassFrom(env, cfg, st.bestLearner, 1, 0, first) == Ok(both)
    ensures cfg.numIterations > 0 && cfg.metaBatchSize > 0 && st.bestIteration.Some?
  {
    assert cfg.numIterations > 0 && TestPassFrom(env, cfg, st.bestLearner, 1, 0, first).Ok?;
    both := TestPassFrom(env, cfg, st.bestLearner, 1, 0, first).value;
    assert st.bestIteration.Some?;
  }

  /** The report of a successful summary step: the two records appended to
      the training log, the lists of both passes, and the result path. */
  lemma SummarizeReport<L, X>(env: Env<L, X>, cfg: Config, setting: Setting, st: State<L>,
                              first: TestLists, both: TestLists)
    requires |first.errors| == |first.accuracies| == TEST_ITERATION
    requires SummarizeOf(env, cfg, setting, st, first).Ok?
    requires TestPassFrom(env, cfg, st.bestLearner, 1, 0, first) == Ok(both)
    requires cfg.numIterations > 0 && st.bestIteration.Some?
    ensures var last, client, name := cfg.numIterations - 1, ClientCount(setting), MethodName(setting);
      var mean := Summary(Mean(first.accuracies), last, client, name, None);
      var best := Summary(Mean(both.accuracies), last, client, name,
                          Some(BestRecord(st.bestIteration.value, st.bestAccuracy)));
      SummarizeOf(env, cfg, setting, st, first).value ==
      Report(Append(Append(st.result, TestMeanKey, Record(mean)), TestBestKey, Record(best)),
             both.errors, both.accuracies, Naming.OutputPath(cfg.logDir, cfg.fileName, name, cfg.metaBatchSize))
  {
  }

  /** Both test passes append into the same lists: the report holds
      2 * test_iteration errors and accuracies, the first hundred from the
      final learner, every accuracy in [0, 1]. */
  lemma ExperimentTestLists<L, X>(env: Env<L, X>, cfg: Config)
    requires ExperimentOf(env, cfg).Ok?
    ensures var report := ExperimentOf(env, cfg).value;
      && |report.testError| == |report.testAccuracy| == 2 * TEST_ITERATION
      && (forall i :: 0 <= i < |report.testAccuracy| ==> 0.0 <= report.testAccuracy[i] <= 1.0)
  {
    var setting, st, first, both, mean, best := ExperimentParts(env, cfg);
  }

  /** The two test records: one each under "test(mean)" and "test(best)";
      the first averages the final learner's hundred accuracies, the
      second averages all two hundred, because the lists were not reset;
      both carry the last iteration, the client count and the method. */
  lemma ExperimentRecords<L, X>(env: Env<L, X>, cfg: Config)
    requires ExperimentOf(env, cfg).Ok?
    ensures var report := ExperimentOf(env, cfg).value;
      var setting := SettingOf(cfg).value;
      && |report.testAccuracy| == 2 * TEST_ITERATION
      && |Column(report.result, TestMeanKey)| == 1 && |Column(report.result, TestBestKey)| == 1
      && Column(report.result, TestMeanKey)[0] ==
         Record(Summary(Mean(report.testAccuracy[..TEST_ITERATION]), cfg.numIterations - 1,
                        ClientCount(setting), MethodName(setting), None))
      && Column(report.result, TestBestKey)[0].Record?
      && Column(report.result, TestBestKey)[0].summary.mean == Mean(report.testAccuracy)
      && Column(report.result, TestBestKey)[0].summary.iteration == cfg.numIterations - 1
      && Column(report.result, TestBestKey)[0].summary.client == ClientCount(setting)
      && Column(report.result, TestBestKey)[0].summary.methodName == MethodName(setting)
  {
    var setting, st, first, both, mean, best := ExperimentParts(env, cfg);
    TrainingLog(env, cfg, setting);
    ReportRecords(ExperimentOf(env, cfg).value, st.result, cfg.numIterations, first, both, mean, best);
  }

  /** The two records of a report built from a log of `k` iterations, the
      first test pass `first` and both passes `both`. */
  lemma ReportRecords(report: Report, log: Log, k: nat, first: TestLists, both: TestLists,
                      mean: Summary, best: Summary)
    requires LogShape(log, k) && k > 0
    requires |first.accuracies| == TEST_ITERATION && |both.accuracies| == 2 * TEST_ITERATION
    requires first.accuracies <= both.accuracies
    requires mean.mean == Mean(first.accuracies) && best.mean == Mean(both.accuracies)
    requires report.result == Append(Append(log, TestMeanKey, Record(mean)), TestBestKey, Record(best))
    requires report.testAccuracy == both.accuracies
    ensures |report.testAccuracy| == 2 * TEST_ITERATION
    ensures Column(report.result, TestMeanKey) == [Record(mean)]
    ensures Column(report.result, TestBestKey) == [Record(best)]
    ensures mean.mean == Mean(report.testAccuracy[..TEST_ITERATION]) && best.mean == Mean(report.testAccuracy)
  {
    TestRecordColumns(log, k, Record(mean), Record(best));
    assert both.accuracies[..TEST_ITERATION] == first.accuracies;
  }

  /** The best record holds the first iteration with the highest validation
      accuracy and that accuracy, which is positive. */
  lemma ExperimentBest<L, X>(env: Env<L, X>, cfg: Config)
    requires ExperimentOf(env, cfg).Ok?
    ensures var report := ExperimentOf(env, cfg).value;
      var accuracies := Values(Column(report.result, ValidAccKey));
      var record := Column(report.result, TestBestKey);
      && |accuracies| == cfg.numIterations
      && |record| == 1 && record[0].Record? && record[0].summary.best.Some?
      && var best := record[0].summary.best.value;
         && BestOf(accuracies) == (best.bestAccuracy, Some(best.bestIteration))
         && best.bestIteration < cfg.numIterations && best.bestAccuracy > 0.0
         && accuracies[best.bestIteration] == best.bestAccuracy
         && (forall j :: 0 <= j < |accuracies| ==> accuracies[j] <= best.bestAccuracy)
         && (forall j :: 0 <= j < best.bestIteration ==> accuracies[j] < best.bestAccuracy)
  {
    var setting, st, first, both, mean, best := ExperimentParts(env, cfg);
    TrainingLog(env, cfg, setting);
    TestRecordColumns(st.result, cfg.numIterations, Record(mean), Record(best));
    BestOfIsFirstMax(Values(Column(st.result, ValidAccKey)));
  }

  /** A test pass with no learner to clone fails in its first task slot
      with an unbound `best_learner`. */
  lemma NoLearnerFails<L, X>(env: Env<L, X>, cfg: Config, pass: nat, lists: TestLists)
    requires cfg.metaBatchSize > 0
    ensures TestPassFrom(env, cfg, None, pass, 0, lists) == Err(UnboundLocal("best_learner"))
  {
    assert TestStep(env, cfg, None, pass, 0, 0, (0.0, 0.0)) == Err(UnboundLocal("best_learner"));
    assert TestSumsFrom(env, cfg, None, pass, 0, 0, (0.0, 0.0)) == Err(UnboundLocal("best_learner"));
    assert RepetitionOf(env, cfg, None, pass, 0, lists) == Err(UnboundLocal("best_learner"));
  }

  /** When training and the final learner's test pass succeed but no
      validation accuracy was above 0, `best_learner` was never assigned:
      the second test pass fails with an unbound `best_learner`, so the
      experiment never reports. */
  lemma ExperimentNoBest<L, X>(env: Env<L, X>, cfg: Config, setting: Setting, st: State<L>, first: TestLists)
    requires SettingOf(cfg) == Ok(setting)
    requires RunFrom(env, cfg, setting, 0, Initial(env)) == Ok(st)
    requires TestPassFrom(env, cfg, Some(st.maml), 0, 0, TestLists([], [])) == Ok(first)
    requires cfg.numIterations > 0
    requires forall j :: 0 <= j < |Column(st.result, ValidAccKey)| ==>
               Values(Column(st.result, ValidAccKey))[j] <= 0.0
    ensures ExperimentOf(env, cfg) == Err(UnboundLocal("best_learner"))
  {
    TestPassNeedsTasks(env, cfg, Some(st.maml), 0, TestLists([], []));
    TrainingLog(env, cfg, setting);
    BestOfIsFirstMax(Values(Column(st.result, ValidAccKey)));
    assert st.bestLearner == None;
    NoLearnerFails(env, cfg, 1, first);
    assert SummarizeOf(env, cfg, setting, st, first) == Err(UnboundLocal("best_learner"));
  }

  /** The report's log keeps the five per-iteration columns as training
      left them, adds exactly the two test keys, and names the result file
      after the method and the meta batch size. */
  lemma ExperimentLogAndPath<L, X>(env: Env<L, X>, cfg: Config)
    requires ExperimentOf(env, cfg).Ok?
    ensures var report := ExperimentOf(env, cfg).value;
      var setting := SettingOf(cfg).value;
      && report.result.Keys == LoopKeys() + {TestMeanKey, TestBestKey}
      && Column(report.result, IterationKey) == seq(cfg.numIterations, i => Num(i as real))
      && |Column(report.result, TrainLossKey)| == |Column(report.result, ValidLossKey)| == cfg.numIterations
      && |Column(report.result, TrainAccKey)| == |Column(report.result, ValidAccKey)| == cfg.numIterations
      && InUnit(Column(report.result, TrainAccKey)) && InUnit(Column(report.result, ValidAccKey))
      && report.path == Naming.OutputPath(cfg.logDir, cfg.fileName, MethodName(setting), cfg.metaBatchSize)
  {
    var setting, st, first, both, mean, best := ExperimentParts(env, cfg);
    TrainingLog(env, cfg, setting);
    TestRecordColumns(st.result, cfg.numIterations, Record(mean), Record(best));
  }
}
