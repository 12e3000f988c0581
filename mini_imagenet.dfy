/** `mini_imagenet_tasksets` of the vision benchmarks: it chooses the image
    transforms from a `data_augmentation` name, builds the three
    mini-ImageNet datasets, the three task-transform pipelines that sample
    episodes from them, and the test labels shifted past the training and
    validation labels. Datasets are their split, root, image transform and
    label list; the images themselves are not modelled. */
module MiniImagenet {
  import opened Wrappers

  /** The `mode` argument of the dataset. */
  datatype Mode = Train | Validation | Test

  /** One image transform of a `Compose` pipeline. `Scale255` is the
      `lambda x: x / 255.0` of the 'normalize' augmentation. */
  datatype ImageOp =
    | Scale255
    | ToPILImage
    | RandomCrop(size: nat, padding: nat)
    | ColorJitter(brightness: real, contrast: real, saturation: real)
    | RandomHorizontalFlip
    | ToTensor
    | Normalize(mean: seq<real>, std: seq<real>)

  /** `Compose([...])`: the transforms in the order they are applied. */
  type Pipeline = seq<ImageOp>

  /** The per-channel mean and standard deviation of the 'lee2019' augmentation. */
  const LEE2019_MEAN: seq<real> := [120.39586422 / 255.0, 115.59361427 / 255.0, 104.54012653 / 255.0]
  const LEE2019_STD: seq<real> := [70.68188272 / 255.0, 68.27635443 / 255.0, 72.54505529 / 255.0]

  /** The `normalize` step shared by both 'lee2019' pipelines. */
  const LEE2019_NORMALIZE: ImageOp := Normalize(LEE2019_MEAN, LEE2019_STD)

  /** A transform that draws random numbers when it is applied. */
  predicate IsRandom(op: ImageOp) {
    op.RandomCrop? || op.ColorJitter? || op.RandomHorizontalFlip?
  }

  /** A pipeline that maps every image to one fixed result. */
  predicate Deterministic(p: Pipeline) {
    forall i :: 0 <= i < |p| ==> !IsRandom(p[i])
  }

  /** `train_data_transforms` and `test_data_transforms`; None is no transform. */
  datatype DataTransforms = DataTransforms(train: Option<Pipeline>, test: Option<Pipeline>)

  /** mini_imagenet_benchmark.py lines 20-45: the `data_augmentation` dispatch. Any name other than
      'normalize' and 'lee2019' reaches `raise` with a string, which Python
      rejects with a TypeError. */
  function DataTransformsOf(augmentation: Option<string>): (r: Result<DataTransforms>)
    ensures r.Err? <==> augmentation.Some? && augmentation.value != "normalize" && augmentation.value != "lee2019"
    ensures r.Err? ==> r.error == RaiseNonException
    ensures r.Ok? ==> (r.value.train.None? <==> augmentation.None?)
    ensures r.Ok? ==> (r.value.test.None? <==> augmentation.None?)
    ensures r.Ok? && r.value.test.Some? ==> Deterministic(r.value.test.value)
  {
    if augmentation.None? then
      Ok(DataTransforms(None, None))
    else if augmentation.value == "normalize" then
      var train := [Scale255];
      Ok(DataTransforms(Some(train), Some(train)))
    else if augmentation.value == "lee2019" then
      Ok(DataTransforms(
        Some([ToPILImage, RandomCrop(84, 8), ColorJitter(0.4, 0.4, 0.4), RandomHorizontalFlip,
              ToTensor, LEE2019_NORMALIZE]),
        Some([LEE2019_NORMALIZE])))
    else
      Err(RaiseNonException)
  }

  /** `MetaDataset(MiniImagenet(root=root, mode=mode, transform=transform))`,
      known by its split, root, image transform and the labels it holds. */
  datatype Dataset = Dataset(mode: Mode, root: string, transform: Option<Pipeline>, labels: seq<int>)

  /** The task transforms of learn2learn, each bound to the dataset it draws from. */
  datatype TaskTransform =
    | NWays(dataset: Dataset, n: nat)
    | KShots(dataset: Dataset, k: nat)
    | LoadData(dataset: Dataset)
    | RemapLabels(dataset: Dataset)
    | ConsecutiveLabels(dataset: Dataset)

  /** mini_imagenet_benchmark.py lines 72-78 and 86-92: the order of the training and test pipelines. */
  function StandardTransforms(d: Dataset, ways: nat, samples: nat): (p: seq<TaskTransform>)
    ensures |p| == 5 && forall i :: 0 <= i < 5 ==> p[i].dataset == d
  {
    [NWays(d, ways), KShots(d, samples), LoadData(d), RemapLabels(d), ConsecutiveLabels(d)]
  }

  /** mini_imagenet_benchmark.py lines 79-85: the validation pipeline. */
  function ValidationTransforms(d: Dataset, ways: nat, samples: nat): (p: seq<TaskTransform>)
    ensures |p| == 5 && forall i :: 0 <= i < 5 ==> p[i].dataset == d
    ensures p == SwapLastTwo(StandardTransforms(d, ways, samples))
  {
    [NWays(d, ways), KShots(d, samples), LoadData(d), ConsecutiveLabels(d), RemapLabels(d)]
  }

  /** The last two steps of a pipeline exchanged. */
  function SwapLastTwo<T>(p: seq<T>): (q: seq<T>)
    requires |p| >= 2
    ensures |q| == |p| && q[..|p| - 2] == p[..|p| - 2]
    ensures q[|p| - 2] == p[|p| - 1] && q[|p| - 1] == p[|p| - 2]
  {
    p[..|p| - 2] + [p[|p| - 1], p[|p| - 2]]
  }

  /** mini_imagenet_benchmark.py line 70: every test label moved up by `offset`. */
  function ShiftLabels(labels: seq<int>, offset: int): (shifted: seq<int>)
    ensures |shifted| == |labels|
    ensures forall i :: 0 <= i < |labels| ==> shifted[i] == labels[i] + offset
  {
    seq(|labels|, i requires 0 <= i < |labels| => labels[i] + offset)
  }

  /** The four values returned at mini_imagenet_benchmark.py line 96. */
  datatype Tasksets = Tasksets(
    datasets: (Dataset, Dataset, Dataset),
    transforms: (seq<TaskTransform>, seq<TaskTransform>, seq<TaskTransform>),
    trainClasses: seq<int>,
    testLabels: seq<int>)

  /** mini_imagenet_benchmark.py lines 10-96. `labelsOf` stands for the labels the downloaded split holds. */
  function MiniImagenetTasksets(trainWays: nat, trainSamples: nat, testWays: nat, testSamples: nat,
                                root: string, augmentation: Option<string>,
                                labelsOf: Mode -> seq<int>): (r: Result<Tasksets>)
    ensures r.Err? <==> DataTransformsOf(augmentation).Err?
    ensures r.Err? ==> r.error == RaiseNonException
  {
    var transforms :- DataTransformsOf(augmentation);
    var train := Dataset(Train, root, transforms.train, labelsOf(Train));
    var valid := Dataset(Validation, root, transforms.test, labelsOf(Validation));
    var test := Dataset(Test, root, transforms.test, labelsOf(Test));
    var testLabels := ShiftLabels(test.labels, |train.labels| + |valid.labels|);
    Ok(Tasksets((train, valid, test),
                (StandardTransforms(train, trainWays, trainSamples),
                 ValidationTransforms(valid, testWays, testSamples),
                 StandardTransforms(test, testWays, testSamples)),
                train.labels,
                testLabels))
  }

  // ---------------------------------------------------------------------
  // The augmentation dispatch

  /** Without augmentation neither dataset gets an image transform. */
  lemma NoAugmentation()
    ensures DataTransformsOf(None) == Ok(DataTransforms(None, None))
  {
  }

  /** 'normalize' gives both datasets the one scaling pipeline. */
  lemma NormalizeAugmentation()
    ensures DataTransformsOf(Some("normalize")).Ok?
    ensures var t := DataTransformsOf(Some("normalize")).value;
      t.train == t.test == Some([Scale255])
  {
  }

  /** 'lee2019' trains on random crops, jitter and flips; the test pipeline is
      the normalize step alone, which is also the last training step, so
      training and test images are normalized alike. */
  lemma Lee2019Augmentation()
    ensures DataTransformsOf(Some("lee2019")).Ok?
    ensures var t := DataTransformsOf(Some("lee2019")).value;
      && t.train.Some? && t.test.Some? && t.train != t.test
      && t.test.value == [LEE2019_NORMALIZE]
      && |t.train.value| == 6 && t.train.value[5] == LEE2019_NORMALIZE
      && !Deterministic(t.train.value)
      && (forall i :: 0 <= i < |t.train.value| && IsRandom(t.train.value[i]) ==> 1 <= i <= 3)
  {
    var p := DataTransformsOf(Some("lee2019")).value.train.value;
    assert IsRandom(p[1]);
  }

  /** The test pipeline, whenever there is one, is a suffix of the training
      pipeline: evaluation images see the final training steps only. */
  lemma TestIsTrainSuffix(augmentation: Option<string>)
    requires DataTransformsOf(augmentation).Ok?
    ensures var t := DataTransformsOf(augmentation).value;
      t.test.Some? ==> t.train.Some? && |t.test.value| <= |t.train.value| &&
                       t.train.value[|t.train.value| - |t.test.value|..] == t.test.value
  {
  }

  /** A name other than the two known ones fails, and it fails the same way
      whatever the sizes, the root and the dataset contents: no dataset
      is consulted before the error. */
  lemma InvalidAugmentationFailsFirst(augmentation: string,
                                      trainWays: nat, trainSamples: nat, testWays: nat, testSamples: nat,
                                      root: string, labelsOf: Mode -> seq<int>)
    requires augmentation != "normalize" && augmentation != "lee2019"
    ensures MiniImagenetTasksets(trainWays, trainSamples, testWays, testSamples, root,
                                 Some(augmentation), labelsOf) == Err(RaiseNonException)
  {
  }

  // ---------------------------------------------------------------------
  // The datasets and pipelines

  /** The three datasets have their splits, share the root, and the
      validation and test sets share the test image transform. */
  lemma DatasetsOf(trainWays: nat, trainSamples: nat, testWays: nat, testSamples: nat,
                   root: string, augmentation: Option<string>, labelsOf: Mode -> seq<int>)
    requires MiniImagenetTasksets(trainWays, trainSamples, testWays, testSamples, root, augmentation, labelsOf).Ok?
    ensures var r := MiniImagenetTasksets(trainWays, trainSamples, testWays, testSamples, root, augmentation, labelsOf).value;
      var t := DataTransformsOf(augmentation).value;
      && r.datasets.0 == Dataset(Train, root, t.train, labelsOf(Train))
      && r.datasets.1 == Dataset(Validation, root, t.test, labelsOf(Validation))
      && r.datasets.2 == Dataset(Test, root, t.test, labelsOf(Test))
      && r.trainClasses == labelsOf(Train)
  {
  }

  /** Training and test episodes are drawn by NWays, KShots, LoadData,
      RemapLabels, ConsecutiveLabels; validation episodes by the same steps
      with the last two exchanged; training uses the training sizes, the
      other two the test sizes; and every step of a pipeline draws from that
      pipeline's own dataset. */
  lemma PipelineOrder(trainWays: nat, trainSamples: nat, testWays: nat, testSamples: nat,
                      root: string, augmentation: Option<string>, labelsOf: Mode -> seq<int>)
    requires MiniImagenetTasksets(trainWays, trainSamples, testWays, testSamples, root, augmentation, labelsOf).Ok?
    ensures var r := MiniImagenetTasksets(trainWays, trainSamples, testWays, testSamples, root, augmentation, labelsOf).value;
      var (train, valid, test) := r.datasets;
      && r.transforms.0 == [NWays(train, trainWays), KShots(train, trainSamples), LoadData(train),
                            RemapLabels(train), ConsecutiveLabels(train)]
      && r.transforms.2 == [NWays(test, testWays), KShots(test, testSamples), LoadData(test),
                            RemapLabels(test), ConsecutiveLabels(test)]
      && r.transforms.1 == SwapLastTwo(StandardTransforms(valid, testWays, testSamples))
      && (forall i :: 0 <= i < |r.transforms.0| ==> r.transforms.0[i].dataset == train)
      && (forall i :: 0 <= i < |r.transforms.1| ==> r.transforms.1[i].dataset == valid)
      && (forall i :: 0 <= i < |r.transforms.2| ==> r.transforms.2[i].dataset == test)
  {
    var r := MiniImagenetTasksets(trainWays, trainSamples, testWays, testSamples, root, augmentation, labelsOf).value;
    var valid := r.datasets.1;
    assert r.transforms.1 == ValidationTransforms(valid, testWays, testSamples);
  }

  // ---------------------------------------------------------------------
  // The test-label offset

  /** Shifting back by the same offset restores the labels. */
  lemma ShiftRoundTrip(labels: seq<int>, offset: int)
    ensures ShiftLabels(ShiftLabels(labels, offset), -offset) == labels
  {
  }

  /** The shift keeps the order of the labels and their distinctness. */
  lemma ShiftPreservesOrder(labels: seq<int>, offset: int)
    ensures forall i, j :: 0 <= i < |labels| && 0 <= j < |labels| ==>
              (labels[i] < labels[j] <==> ShiftLabels(labels, offset)[i] < ShiftLabels(labels, offset)[j]) &&
              (labels[i] == labels[j] <==> ShiftLabels(labels, offset)[i] == ShiftLabels(labels, offset)[j])
  {
  }

  /** The test labels of the result are the test dataset's labels, in their
      order, each moved past the training and validation label counts; when
      the test labels are non-negative they are at least that count, so
      they clash with no label below it. */
  lemma TestLabelsOffset(trainWays: nat, trainSamples: nat, testWays: nat, testSamples: nat,
                         root: string, augmentation: Option<string>, labelsOf: Mode -> seq<int>)
    requires MiniImagenetTasksets(trainWays, trainSamples, testWays, testSamples, root, augmentation, labelsOf).Ok?
    ensures var r := MiniImagenetTasksets(trainWays, trainSamples, testWays, testSamples, root, augmentation, labelsOf).value;
      var offset := |labelsOf(Train)| + |labelsOf(Validation)|;
      && |r.testLabels| == |labelsOf(Test)|
      && (forall i :: 0 <= i < |r.testLabels| ==> r.testLabels[i] == labelsOf(Test)[i] + offset)
      && (forall i :: 0 <= i < |r.testLabels| && labelsOf(Test)[i] >= 0 ==> r.testLabels[i] >= offset)
      && r.testLabels == ShiftLabels(labelsOf(Test), offset)
  {
  }
}
