# MAML experiment bookkeeping and the mini-ImageNet task sets

This project models two parts of a learn2learn-based few-shot learning
experiment.

- `maml_exp` in `test_refact.py` runs a MAML meta-training experiment. The
  model covers:
  - the accuracy helper;
  - the adaptation/evaluation split that `fast_adapt` applies to every
    sampled episode;
  - the disjoint partition of the 1100 training classes among
    `meta_batch_size` clients, and the per-task sampler choice;
  - the four running sums of a meta batch;
  - the per-iteration result log and the strict-`>` running best;
  - the two test passes, which append onto the same lists;
  - the two test summary records, the method label and the file name of
    the pickled log.
- `mini_imagenet_tasksets` in the vision benchmarks chooses the image
  transforms from a `data_augmentation` name. It builds the three
  mini-ImageNet datasets and their three task-transform pipelines, and
  shifts the test labels past the training and validation labels.

The modules are:

- `Wrappers` (wrappers.dfy): `Option`, `Result` and the exceptions the
  script can raise.
- `Accuracy` (accuracy.dfy): arg-max, hit count and accuracy.
- `Episode` (episode.dfy): the numpy mask, written in place into an array,
  and boolean-mask selection.
- `Partition` (partition.dfy): the disjoint setting.
- `Naming` (naming.dfy): the output path and Python's decimal rendering of
  an integer.
- `Training` (training.dfy): `fast_adapt` and the loops of `maml_exp`.
  Each loop is a method proved against a specification function.
- `TrainingFacts` (training_facts.dfy): what the whole run guarantees.
- `MiniImagenet` (mini_imagenet.dfy): the task-set factory.

The learner, the samplers, the loss, `adapt` and the outer optimiser step
are function fields of an `Env` value. A sampled episode is
`env.sample(source, draw)`, where `draw` says which `sample()` call of the
run it is. Sums and means are exact real arithmetic. Every way the
modelled bookkeeping can stop is an `Err` of `Result`, with a distinct
exception for each cause:

- numpy's out-of-range index in the mask;
- torch's mask shape mismatch;
- arg-max over an empty row;
- a mismatched `view`;
- division by zero;
- an unbound local (`iteration`, `best_learner`). The model keeps the
  `best_iteration` branch of test_refact.py line 304, but it cannot be
  reached: `TrainingFacts.Tracked`, which `TrainingFacts.TrainingLog`
  proves for every finished run, sets the best learner exactly when it
  sets the best iteration, and `best_learner` is cloned first, at line 284;
- `raise` applied to a string.

The model follows the code where it behaves unexpectedly:

- The best learner of test_refact.py line 224 is cloned BEFORE `opt.step()` at line 230.
  So the kept learner is the one whose validation accuracy was measured,
  which is the meta-parameters as they were before that iteration's step.
- `raise('Invalid data_augmentation argument.')` raises a string, which
  Python rejects with a TypeError rather than reporting the message.
- `int(1100 / client_number)` is the floor of the exact quotient for every
  positive client count.
- The second test pass does not reset `test_error` and `test_accuracy`.
  So "test(best)" holds the mean of all 200 repetitions, not of the best
  learner's 100.
- The result dictionary's seven keys are an enumeration `Training.Key`.
  `Training.KeyName` gives the exact string of each key, and
  `TrainingFacts.KeyNamesDistinct` proves the seven strings differ.

## Model

| member | source | states |
|---|---|---|
| Accuracy.ArgMax | test_refact.py:46 | the index returned is in range, holds a largest score, and every earlier score is strictly smaller (the first maximum) |
| Accuracy.Predicted | test_refact.py:46 | one predicted class per row, each the row's first arg-max |
| Accuracy.Hits | test_refact.py:47 | the hit count is at most the number of targets, and equals it only when the predictions are the targets |
| Accuracy.Accuracy | test_refact.py:45-47 | succeeds exactly when no score row is empty, rows and targets agree in number and there is at least one target; an empty row fails in argmax first; the value is hits / targets and lies in [0, 1] |
| Accuracy.HitsAll | test_refact.py:47 | the hit count is the full length exactly when every position agrees |
| Accuracy.HitsNone | test_refact.py:47 | the hit count is zero exactly when no position agrees |
| Accuracy.Fraction | test_refact.py:47 | a helper of AccuracyIsOne and AccuracyIsZero: the division of line 47 is 1 exactly at a full count and 0 exactly at a zero count |
| Accuracy.AccuracyIsOne | test_refact.py:45-47 | the accuracy is 1 exactly when every predicted class equals its target |
| Accuracy.AccuracyIsZero | test_refact.py:45-47 | the accuracy is 0 exactly when no predicted class equals its target |
| Episode.MaskOf | test_refact.py:55-56 | the mask fails with an out-of-range index exactly when n + 1 < 2 * shots * ways |
| Episode.EvenBelow | test_refact.py:55-56 | the zeroed mask of `np.zeros(n)` keeps its n entries after the strided store; EvenBelowPositions states where it is true |
| Episode.AdaptationMask | test_refact.py:55-56 | the zeroed array written at 0, 2, ..., 2*(m-1) in place equals the mask function, including the IndexError at the first store past the end |
| Episode.Complement | test_refact.py:57 | the complement has the mask's length and negates it pointwise |
| Episode.Masked | test_refact.py:62-63 | boolean-mask indexing selects at most as many elements as there are; MaskedAt, MaskedCover and PositionsFacts state which ones |
| Episode.PositionsFacts | test_refact.py:62-63 | the selected positions are in range, increasing, hold true entries, and include every true entry |
| Episode.MaskedAt | test_refact.py:62-63 | boolean-mask indexing returns the elements at the true positions, in order |
| Episode.MaskedCover | test_refact.py:62-63 | the mask and its complement together select every element: the multisets add up to the input and the lengths to its length |
| Episode.PositionsPartition | test_refact.py:57-63 | the positions of a mask and of its complement are disjoint and together cover every index |
| Episode.EvenBelowPositions | test_refact.py:56 | the mask is true exactly at 0, 2, ..., 2*(m-1) inside the array |
| Episode.OddBelowPositions | test_refact.py:57 | when n <= 2m, the complement is true exactly at the odd indices |
| Episode.SplitFails | test_refact.py:55-63 | the split fails exactly when the batch is too short for the mask (IndexError, checked first) or the labels are not as many as the examples (mask shape error) |
| Episode.SplitOf | test_refact.py:55-63 | a successful split had one label per example and a batch of at least 2*shots*ways - 1 examples; a failing one raised the IndexError or the mask shape error and nothing else |
| Episode.SplitHalves | test_refact.py:55-63 | a successful split selects data and labels by the mask and by its complement |
| Episode.AdaptationHalf | test_refact.py:56-62 | the mask selects m elements, the k-th at index 2k |
| Episode.EvaluationHalf | test_refact.py:57-63 | the complement selects the elements at its positions, in order |
| Episode.EvaluationIndices | test_refact.py:57-63 | the complement has n - m increasing positions, each odd or at least 2m |
| Episode.SplitAdaptation | test_refact.py:55-62 | the adaptation half is the shots*ways examples and labels at the even indices 0..2(m-1), each example with its own label |
| Episode.SplitEvaluation | test_refact.py:57-63 | the evaluation half is the other n - m examples of a batch of n, in batch order, at indices odd or past 2m, each example with its own label |
| Episode.SplitPermutation | test_refact.py:55-63 | the two halves of the data, and of the labels, are together a permutation of the batch |
| Episode.OddHalf | test_refact.py:57-63 | on 2m elements the complement selects m elements, the k-th at index 2k+1 |
| Episode.EpisodeSplit | test_refact.py:55-63 | on an episode of 2*shots*ways labelled examples the split succeeds, the mask is the even indices, and the halves are the even- and the odd-indexed examples with their labels |
| Partition.ClientLabels | test_refact.py:98 | a client owns `unit` labels |
| Partition.Unit | test_refact.py:96 | `int(1100 / c)` is at most 1100 and at least 1 when there are no more clients than classes |
| Partition.PartitionOf | test_refact.py:92-99 | the partition fails exactly for zero clients, with ZeroDivisionError, and otherwise holds one label list per client |
| Partition.DisjointSetting | test_refact.py:93-99 | the append loop builds the partition function, and fails with ZeroDivisionError for zero clients |
| Partition.Membership | test_refact.py:98 | a label belongs to client i exactly when it lies in [unit*i, unit*(i+1)) |
| Partition.ClientsDisjoint | test_refact.py:97-99 | two different clients share no label |
| Partition.ClientBelow | test_refact.py:97-99 | every label of a client below the client count lies in [0, clients*unit) |
| Partition.ClientOf | test_refact.py:96-98 | every label below clients*unit belongs to the client label / unit |
| Partition.UnitBound | test_refact.py:92-96 | clients*unit <= 1100 and fewer than `clients` classes are left over |
| Partition.PartitionShape | test_refact.py:92-99 | `clients` label lists of `unit` labels each that fit into the 1100 classes |
| Partition.PartitionDisjoint | test_refact.py:92-99 | the clients are pairwise disjoint |
| Partition.PartitionBounds | test_refact.py:92-99 | every label lies below clients*unit <= 1100, and the classes from clients*unit to 1099 belong to no client |
| Partition.PartitionCovers | test_refact.py:92-99 | every class below clients*unit belongs to client class / unit |
| Partition.TwentyClients | test_refact.py:92-99 | with the default 20 clients every client owns 55 consecutive labels and together they cover all 1100 classes |
| Partition.SevenClients | test_refact.py:92-99 | with 7 clients each owns 157 labels and class 1099 belongs to none |
| Naming.Decimal | test_refact.py:317 | the decimal rendering is non-empty, all digits, with no leading zero |
| Naming.Digit | test_refact.py:317 | the character `str` writes for one decimal digit is a digit |
| Naming.DigitValue | test_refact.py:317 | a digit character denotes a value below 10 that Digit renders back as that character |
| Naming.DecimalRoundTrip | test_refact.py:317 | reading the rendering back gives the number |
| Naming.DecimalInjective | test_refact.py:317 | different numbers render differently |
| Naming.OutputPath | test_refact.py:317 | the path starts with `log_dir + "/"` and ends with ".pickle" |
| Naming.OutputPathIdentifiesRun | test_refact.py:264-317 | for the two method labels, in one directory and under one file name, equal paths mean the same method and the same meta batch size |
| Training.FastAdaptOf | test_refact.py:50-74 | a failing split propagates unchanged, and a successful evaluation has its accuracy in [0, 1] |
| Training.FastAdapt | test_refact.py:50-74 | the imperative split, adaptation loop and evaluation equal the function |
| Training.Adapted | test_refact.py:66-68 | with zero `adaptation_steps` the clone is evaluated unadapted; FastAdapt's loop is proved to reach this learner after each step |
| Training.ValidStep | test_refact.py:185-196 | the training sum grows by the training accuracy, the validation sum by at most 1 |
| Training.TrainSampler | test_refact.py:160-163 | the shared training sampler exactly when there is no disjoint setting, and otherwise the sampler of client `task` with that client's labels |
| Training.TaskStep | test_refact.py:159-196 | one task slot raises each accuracy sum by an amount in [0, 1] |
| Training.TaskSumsFrom | test_refact.py:150-196 | the remaining task slots raise each accuracy sum by at most their number |
| Training.ValidTask | test_refact.py:185-196 | the method equals the specification step |
| Training.Task | test_refact.py:159-196 | the method, one `fast_adapt` per episode, equals the specification step |
| Training.MetaBatch | test_refact.py:149-196 | the task loop's sums equal the specification fold, with the first failure stopping it |
| Training.Append | test_refact.py:209-213 | `append` on a defaultdict: the key is added, its column gains the entry, and every other column is unchanged |
| Training.Values | test_refact.py:213 | the scalar view of a column has its length |
| Training.KeyName | test_refact.py:209-309 | every key of the result dictionary is stored under a non-empty string; KeyNamesDistinct proves the seven strings differ |
| Training.Advance | test_refact.py:209-230 | the state moves on to the stepped learner; the best accuracy becomes the larger of the old best and the new validation accuracy, and the best iteration and learner move to this iteration and the pre-step learner exactly on a strict improvement |
| Training.IterationOf | test_refact.py:149-230 | a zero meta batch size fails with ZeroDivisionError at line 199; a successful iteration steps the learner and never lowers the best accuracy |
| Training.RunFrom | test_refact.py:146-230 | a zero meta batch size fails with ZeroDivisionError before the first remaining iteration ends; the run never lowers the best accuracy |
| Training.TestStep | test_refact.py:242-253 | a test slot raises the accuracy sum by an amount in [0, 1] |
| Training.TestSumsFrom | test_refact.py:240-253 | the remaining test slots raise the accuracy sum by at most their number |
| Training.TestTask | test_refact.py:242-253 | the method equals the specification step |
| Training.TestBatch | test_refact.py:237-253 | the test task loop equals the specification fold |
| Training.RepetitionOf | test_refact.py:237-255 | one repetition appends one error and one accuracy, keeps the old lists as a prefix, and the new accuracy lies in [0, 1] |
| Training.Sum | test_refact.py:258-259 | the sum of values in [0, 1] lies between 0 and their number |
| Training.Mean | test_refact.py:258-259 | the mean of values in [0, 1] lies in [0, 1] |
| Training.UnitFraction | test_refact.py:199-202 | a helper of the averages of lines 199-202 and 254-255: a sum in [0, n] divided by n lies in [0, 1] |
| Training.TestPassFrom | test_refact.py:235-257 | a pass appends one entry per remaining repetition onto the lists it was given, keeps them as a prefix, and every new accuracy lies in [0, 1] |
| Training.Repetition | test_refact.py:237-255 | the method equals the specification step |
| Training.TestPass | test_refact.py:235-257 | the 100-repetition loop equals the specification function |
| Training.SettingOf | test_refact.py:92-101 | a setting that is built has one label list per task slot |
| Training.MethodName | test_refact.py:264-268 | "Base" exactly without a disjoint setting and "Disjoint" exactly with one |
| Training.SummarizeOf | test_refact.py:258-317 | without any iteration it fails on the unbound `iteration` of line 269; a success had a positive meta batch size and a best iteration, and reports 200 test errors and accuracies |
| Training.ExperimentOf | test_refact.py:92-317 | a zero meta batch size always ends in ZeroDivisionError, and zero iterations never produce a report; the Experiment* lemmas characterise a success |
| Training.LogAndTrack | test_refact.py:209-225 | the five appends and the strict-`>` best update equal the specification state |
| Training.Iterate | test_refact.py:149-230 | one meta-iteration equals the specification function |
| Training.Train | test_refact.py:146-230 | the meta-training loop equals the specification run |
| Training.Summarize | test_refact.py:258-317 | the summaries, the second test pass and the path equal the specification function |
| Training.MamlExp | test_refact.py:92-317 | the whole experiment equals the specification function |
| TrainingFacts.SettingFacts | test_refact.py:92-270 | setting up fails only with ZeroDivisionError for a disjoint run without clients; the method is "Disjoint" and `len(disjoint_setting)` (ClientCount) is `meta_batch_size`, or the method is "Base" and it is 0 |
| TrainingFacts.SamplerChoice | test_refact.py:154-163 | every task slot has a sampler: the shared training one, or client `task`'s with labels [unit*task, unit*(task+1)) |
| TrainingFacts.SamplersDisjoint | test_refact.py:97-163 | different task slots of a disjoint run draw from clients that share no label |
| TrainingFacts.BestOf | test_refact.py:146-225 | the reference fold: the best accuracy is at least 0 and a best iteration is an index holding that accuracy |
| TrainingFacts.BestOfIsFirstMax | test_refact.py:146-225 | the fold's best is max(0, every accuracy); there is no best iteration exactly when no accuracy is positive, and otherwise it is the first iteration with the maximum |
| TrainingFacts.TieKeepsFirst | test_refact.py:222 | a tie does not move the best: 0.2, 0.5, 0.4, 0.6, 0.6 keeps iteration 3 |
| TrainingFacts.KeyNamesDistinct | test_refact.py:209-308 | the seven key strings are pairwise different |
| TrainingFacts.AppendColumns | test_refact.py:209 | one append changes only its own column |
| TrainingFacts.LogIterationKeys | test_refact.py:209-213 | one iteration adds exactly the five per-iteration keys |
| TrainingFacts.LogIterationLosses | test_refact.py:209-211 | the iteration number and the two losses go under their own keys |
| TrainingFacts.LogIterationAccuracies | test_refact.py:212-213 | the two accuracies go under their own keys |
| TrainingFacts.LogIterationShape | test_refact.py:209-213 | one iteration's appends keep the log shape for one more iteration |
| TrainingFacts.AdvanceKeepsTracked | test_refact.py:209-225 | logging accuracies in [0, 1] and the strict-`>` update keep the log shape, the unit range and best == fold of the logged validation accuracies |
| TrainingFacts.IterationIsAdvance | test_refact.py:149-230 | a successful iteration is the log-and-track step on the averaged sums, and `meta_batch_size` was positive |
| TrainingFacts.IterationKeepsTracked | test_refact.py:148-230 | one meta-iteration keeps the tracked facts |
| TrainingFacts.RunKeepsTracked | test_refact.py:148-230 | the loop from any iteration keeps the tracked facts to the end |
| TrainingFacts.InitialTracked | test_refact.py:42-146 | before the first iteration the log is empty and nothing is tracked |
| TrainingFacts.TrainingLog | test_refact.py:146-230 | after training: num_iterations entries per key, iterations 0..n-1, accuracies in [0, 1], best == first maximum of the logged validation accuracies |
| TrainingFacts.TestPassNeedsTasks | test_refact.py:235-255 | a test pass succeeds only with a positive meta batch size |
| TrainingFacts.TestRecordColumns | test_refact.py:269-308 | the two test appends add exactly the two test keys, one record each, and leave the training columns |
| TrainingFacts.ExperimentParts | test_refact.py:92-317 | a successful run is setting, training, first pass, second pass onto the same lists, two summaries and the report, with at least one iteration, one task and a best iteration |
| TrainingFacts.SummarizeParts | test_refact.py:258-309 | a successful summary ran the second test pass onto the first pass's lists, after at least one iteration, with tasks and a best iteration |
| TrainingFacts.SummarizeReport | test_refact.py:258-317 | the report of a successful summary is the log with the two records appended, the lists of both passes and the result path |
| TrainingFacts.ExperimentTestLists | test_refact.py:232-309 | the report holds 200 test errors and accuracies, every accuracy in [0, 1] |
| TrainingFacts.ExperimentRecords | test_refact.py:258-309 | one "test(mean)" record with the mean of the first 100 accuracies and one "test(best)" record with the mean of all 200, both with the last iteration, client count and method |
| TrainingFacts.ExperimentBest | test_refact.py:146-309 | the best record is the first iteration with the highest validation accuracy, that accuracy is positive, and no logged accuracy exceeds it |
| TrainingFacts.NoLearnerFails | test_refact.py:277-284 | a test pass with no best learner fails in its first task slot with an unbound `best_learner` |
| TrainingFacts.ExperimentNoBest | test_refact.py:146-284 | when training and the first test pass succeed but no logged validation accuracy is above 0, the experiment ends with an unbound `best_learner` |
| TrainingFacts.ExperimentLogAndPath | test_refact.py:209-317 | the final log has exactly seven keys, the training columns as training left them, and the path names the method and the meta batch size |
| MiniImagenet.DataTransformsOf | learn2learn/vision/benchmarks/mini_imagenet_benchmark.py:20-45 | fails exactly for a name other than 'normalize' and 'lee2019'; no augmentation gives no transforms; the test pipeline draws no random numbers |
| MiniImagenet.SwapLastTwo | learn2learn/vision/benchmarks/mini_imagenet_benchmark.py:79-85 | the last two steps exchanged, the rest kept |
| MiniImagenet.StandardTransforms | learn2learn/vision/benchmarks/mini_imagenet_benchmark.py:72-92 | five task transforms, each bound to the given dataset |
| MiniImagenet.ValidationTransforms | learn2learn/vision/benchmarks/mini_imagenet_benchmark.py:79-85 | five task transforms on the given dataset: the standard pipeline with its last two steps exchanged |
| MiniImagenet.ShiftLabels | learn2learn/vision/benchmarks/mini_imagenet_benchmark.py:70 | same length, every label moved up by the offset |
| MiniImagenet.MiniImagenetTasksets | learn2learn/vision/benchmarks/mini_imagenet_benchmark.py:10-96 | fails exactly when the augmentation dispatch fails, with the same error |
| MiniImagenet.NoAugmentation | learn2learn/vision/benchmarks/mini_imagenet_benchmark.py:20-22 | no augmentation gives no image transform to either split |
| MiniImagenet.NormalizeAugmentation | learn2learn/vision/benchmarks/mini_imagenet_benchmark.py:23-27 | 'normalize' gives both splits the one division by 255 |
| MiniImagenet.Lee2019Augmentation | learn2learn/vision/benchmarks/mini_imagenet_benchmark.py:28-43 | 'lee2019' trains through six steps, random only at steps 1-3, ending in the normalize step that is the whole test pipeline |
| MiniImagenet.TestIsTrainSuffix | learn2learn/vision/benchmarks/mini_imagenet_benchmark.py:20-45 | the test pipeline is always a suffix of the training pipeline |
| MiniImagenet.InvalidAugmentationFailsFirst | learn2learn/vision/benchmarks/mini_imagenet_benchmark.py:44-45 | an unknown name fails whatever the sizes, root and dataset contents |
| MiniImagenet.DatasetsOf | learn2learn/vision/benchmarks/mini_imagenet_benchmark.py:47-66 | three datasets of the three splits on one root, validation and test sharing the test transform; train_classes are the training labels |
| MiniImagenet.PipelineOrder | learn2learn/vision/benchmarks/mini_imagenet_benchmark.py:72-95 | training and test pipelines are NWays, KShots, LoadData, RemapLabels, ConsecutiveLabels; validation swaps the last two; training uses the training sizes, the others the test sizes; each step uses its own dataset |
| MiniImagenet.ShiftRoundTrip | learn2learn/vision/benchmarks/mini_imagenet_benchmark.py:70 | shifting back by the same offset restores the labels |
| MiniImagenet.ShiftPreservesOrder | learn2learn/vision/benchmarks/mini_imagenet_benchmark.py:70 | the shift keeps the order and the distinctness of labels |
| MiniImagenet.TestLabelsOffset | learn2learn/vision/benchmarks/mini_imagenet_benchmark.py:69-96 | the returned test labels are the test dataset's labels in order, each moved past the training plus validation label counts |

## Left out

- MAML itself: autodiff, `learner.adapt`, `backward`, the scaling of the accumulated gradients (test_refact.py lines 228-229) and `opt.step()`. They are the opaque `env.adapt` and `env.step`; what they compute is not modelled.
- The cross-entropy loss and the network's forward pass are the opaque `env.loss` and `env.forward`; only the bookkeeping of their results is modelled.
- The functions of `Env` (`sample`, `forward`, `loss`, `adapt`, `step`) and `get_tasksets` never raise. So an exception inside them is not modelled, and when the predictions and the evaluation labels differ in number, the model reports the `view` mismatch of `accuracy` (`ViewShapeMismatch`) where torch would raise first inside `cross_entropy` at test_refact.py line 72.
- Floating point: sums, means and accuracies are exact reals. Rounding of float32, `.item()` and `np.mean` is not modelled. Accuracy with no targets is a `NaN` in torch; the model stops with an error there instead of carrying a `NaN` on.
- `np.std` and the `std` fields of both test records are not modelled.
- Randomness: the seeds, `random`, `np.random` and the episode samplers' random state. Each `sample()` call is an argument of `env.sample`.
- I/O: printing, timing, the CUDA device, creating the log directory, and the gzip/pickle write. The model returns the dictionary and the path instead.
- `get_tasksets('omniglot', ...)` and the samplers it builds are not part of this model. Their results are the `TaskSource` values handed to `env.sample`; the client samplers are described only by their label lists.
- The dataset download and the contents of the mini-ImageNet splits: `labelsOf` stands for the labels each split holds.
- The internals of the task and image transforms (NWays, KShots, RandomCrop, ColorJitter, ...). Each is a value that records its arguments.
- The Normalize constants are exact rationals (the literal divided by 255), not floats.
- Object identity: with 'normalize' the two splits share one `Compose` object; here they get equal values.
- MiniImagenet.MiniImagenetTasksets: its own contract states only the error cases. The successful result is described by DatasetsOf, PipelineOrder and TestLabelsOffset.
- TrainingFacts.ExperimentBest: states the best iteration and accuracy. Of the best learner it states only that one exists; which meta-parameters it holds depends on the opaque `env.step`.
- The meta-parameters are values: `maml.clone()` and `best_learner.clone()` are the value itself, so aliasing between the learner and its clones is not modelled.
