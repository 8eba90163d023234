/** What `assert_valid_inputs` promises, stated without its guard chain: an
    independent description of the accepted inputs, and which error each
    kind of bad input raises. */
module ValidationProperties {
  import opened Outcomes
  import opened NumPy
  import opened Validation

  /** One-dimensional labels whose classes, unless missing ones are allowed,
      are {0, ..., K-1} for some K >= 2. */
  ghost predicate ProperLabels(a: Array<int>, allowMissing: bool)
  {
    && Ndim(a) == 1
    && (allowMissing || ZeroIndexedClasses(Elements(a.data)))
  }

  /** The labels pass the container gate and, outside multi-label mode,
      normalise to proper labels. */
  ghost predicate LabelsAcceptable(y: Labels, multiLabel: bool, allowMissing: bool)
  {
    && AcceptedContainer(y)
    && (!multiLabel ==> LabelsToArray(y).Ok? && ProperLabels(LabelsToArray(y).value, allowMissing))
  }

  /** The labels as the later checks see them: normalised unless multi-label. */
  ghost function Normalised(y: Labels, multiLabel: bool): Labels
    requires !multiLabel ==> LabelsToArray(y).Ok?
  {
    if multiLabel then y else ArrayLabels(LabelsToArray(y).value)
  }

  /** `X` exists, reports `n` examples (by `len`, else by `shape[0]`) and can
      be indexed at its first and last position. */
  ghost predicate FeaturesUsable(x: Features, n: nat)
  {
    && x.Features?
    && (x.length == Some(n) || (x.length.None? && x.shape0 == Some(n)))
    && Indexable(x, [0, n - 1])
  }

  /** A nonempty `n`-row matrix of probabilities with `classes` columns when
      that count is given. */
  ghost predicate ProbsFit(a: Array<real>, n: nat, classes: Option<nat>)
  {
    && |a.shape| == 2
    && a.shape[0] == n
    && |a.data| > 0
    && (forall v | v in a.data :: 0.0 <= v <= 1.0)
    && (classes.Some? ==> a.shape[1] == classes.value)
  }

  /** The class count the `pred_probs` column check expects, if it applies. */
  ghost function ExpectedClasses(y: Labels, multiLabel: bool, allowMissing: bool): Option<nat>
    requires !multiLabel ==> LabelsToArray(y).Ok?
  {
    if multiLabel || allowMissing then None else Some(|Elements(LabelsToArray(y).value.data)|)
  }

  /** The inputs `assert_valid_inputs` accepts. */
  ghost predicate Acceptable(x: Features, y: Labels, probs: PredProbs,
                             multiLabel: bool, allowMissing: bool)
  {
    && LabelsAcceptable(y, multiLabel, allowMissing)
    && var n := LabelCount(Normalised(y, multiLabel));
    && (probs.NoProbs? && !IsBatchedStream(x) ==> n.Ok? && FeaturesUsable(x, n.value))
    && (!probs.NoProbs? ==>
          && probs.ProbsArray?
          && n.Ok?
          && ProbsFit(probs.a, n.value, ExpectedClasses(y, multiLabel, allowMissing)))
  }

  /** The label phase passes exactly when the labels are acceptable. */
  lemma LabelPhase(a: Array<int>, allowMissing: bool)
    ensures CheckClassLabels(a, allowMissing) == Pass <==> ProperLabels(a, allowMissing)
    ensures |Unique(a.data)| == |Elements(a.data)|
  {
    UniqueCount(a.data);
    if !allowMissing {
      ClassLabelsPassIff(a);
    }
  }

  /** The checks on `X` pass exactly when they are skipped or `X` is usable. */
  lemma FeaturePhase(x: Features, labelCount: Result<nat>, probsGiven: bool)
    ensures CheckFeatures(x, labelCount, probsGiven) == Pass <==>
      probsGiven || IsBatchedStream(x) || (labelCount.Ok? && FeaturesUsable(x, labelCount.value))
  {
  }

  /** The checks on `pred_probs` pass exactly when it is absent or fits. */
  lemma ProbsPhase(probs: PredProbs, labelCount: Result<nat>, classes: Option<nat>)
    ensures CheckPredProbs(probs, labelCount, classes) == Pass <==>
      probs.NoProbs? || (probs.ProbsArray? && labelCount.Ok? && ProbsFit(probs.a, labelCount.value, classes))
  {
  }

  /** `assert_valid_inputs` succeeds exactly on the acceptable inputs. */
  lemma CheckValidInputsPassIff(x: Features, y: Labels, probs: PredProbs,
                                multiLabel: bool, allowMissing: bool)
    ensures CheckValidInputs(x, y, probs, multiLabel, allowMissing) == Pass <==>
      Acceptable(x, y, probs, multiLabel, allowMissing)
  {
    if LabelsAcceptable(y, multiLabel, allowMissing) {
      var n := LabelCount(Normalised(y, multiLabel));
      AfterLabels(x, y, probs, multiLabel, allowMissing);
      FeaturePhase(x, n, !probs.NoProbs?);
      ProbsPhase(probs, n, ExpectedClasses(y, multiLabel, allowMissing));
    } else {
      LabelErrorsComeFirst(x, y, probs, multiLabel, allowMissing);
      if AcceptedContainer(y) && !multiLabel && LabelsToArray(y).Ok? {
        LabelPhase(LabelsToArray(y).value, allowMissing);
      }
    }
  }

  /** The label checks run first: a label failure is the verdict whatever
      `X` and `pred_probs` are. */
  lemma LabelErrorsComeFirst(x: Features, y: Labels, probs: PredProbs,
                             multiLabel: bool, allowMissing: bool)
    ensures !AcceptedContainer(y) ==>
      CheckValidInputs(x, y, probs, multiLabel, allowMissing) == Fail(TypeError)
    ensures AcceptedContainer(y) && !multiLabel && LabelsToArray(y).Err? ==>
      CheckValidInputs(x, y, probs, multiLabel, allowMissing) == Fail(ValueError)
    ensures AcceptedContainer(y) && !multiLabel && LabelsToArray(y).Ok? &&
            !ProperLabels(LabelsToArray(y).value, allowMissing) ==>
      CheckValidInputs(x, y, probs, multiLabel, allowMissing) ==
        CheckClassLabels(LabelsToArray(y).value, allowMissing)
  {
    if AcceptedContainer(y) && !multiLabel && LabelsToArray(y).Ok? {
      LabelPhase(LabelsToArray(y).value, allowMissing);
    }
  }

  /** Given `pred_probs`, nothing about `X` is checked. */
  lemma FeaturesIgnoredWithProbs(x1: Features, x2: Features, y: Labels, probs: PredProbs,
                                 multiLabel: bool, allowMissing: bool)
    requires !probs.NoProbs?
    ensures CheckValidInputs(x1, y, probs, multiLabel, allowMissing) ==
            CheckValidInputs(x2, y, probs, multiLabel, allowMissing)
  {
  }

  /** A tensorflow Dataset is never checked for emptiness, length or
      indexing: without `pred_probs` only the labels decide. */
  lemma BatchedStreamUnchecked(x: Features, y: Labels, multiLabel: bool, allowMissing: bool)
    requires IsBatchedStream(x)
    ensures CheckValidInputs(x, y, NoProbs, multiLabel, allowMissing) == Pass <==>
      LabelsAcceptable(y, multiLabel, allowMissing)
  {
    CheckValidInputsPassIff(x, y, NoProbs, multiLabel, allowMissing);
  }

  /** Once the labels are acceptable, the verdict is that of the checks on
      `X` and then on `pred_probs`, against the normalised labels. */
  lemma AfterLabels(x: Features, y: Labels, probs: PredProbs, multiLabel: bool, allowMissing: bool)
    requires LabelsAcceptable(y, multiLabel, allowMissing)
    ensures CheckValidInputs(x, y, probs, multiLabel, allowMissing) ==
      CheckAgainstLabels(x, Normalised(y, multiLabel), probs, ExpectedClasses(y, multiLabel, allowMissing))
  {
    if !multiLabel {
      LabelPhase(LabelsToArray(y).value, allowMissing);
    }
  }

  /** Without `pred_probs`, the verdict on acceptable labels is that of the
      checks on `X`, in the order `CheckFeatures` states. */
  lemma FeatureErrors(x: Features, y: Labels, multiLabel: bool, allowMissing: bool)
    requires LabelsAcceptable(y, multiLabel, allowMissing)
    requires !IsBatchedStream(x)
    ensures x.NoFeatures? ==>
      CheckValidInputs(x, y, NoProbs, multiLabel, allowMissing) == Fail(ValueError)
    ensures x.Features? && x.length.None? && x.shape0.None? ==>
      CheckValidInputs(x, y, NoProbs, multiLabel, allowMissing) == Fail(TypeError)
    ensures ExampleCount(x).Ok? && LabelCount(Normalised(y, multiLabel)).Ok? &&
            ExampleCount(x).value != LabelCount(Normalised(y, multiLabel)).value ==>
      CheckValidInputs(x, y, NoProbs, multiLabel, allowMissing) == Fail(ValueError)
    ensures ExampleCount(x).Ok? && LabelCount(Normalised(y, multiLabel)) == Ok(ExampleCount(x).value) ==>
      (CheckValidInputs(x, y, NoProbs, multiLabel, allowMissing) == Pass <==>
         Indexable(x, [0, ExampleCount(x).value - 1]))
    ensures ExampleCount(x).Ok? && LabelCount(Normalised(y, multiLabel)) == Ok(ExampleCount(x).value) &&
            !Indexable(x, [0, ExampleCount(x).value - 1]) ==>
      CheckValidInputs(x, y, NoProbs, multiLabel, allowMissing) == Fail(TypeError)
  {
    var n := LabelCount(Normalised(y, multiLabel));
    AfterLabels(x, y, NoProbs, multiLabel, allowMissing);
    assert CheckValidInputs(x, y, NoProbs, multiLabel, allowMissing) == CheckFeatures(x, n, false);
  }

  /** The checks on `pred_probs` in order: a NumPy array (TypeError), a
      length (TypeError for a scalar), one row per label (ValueError),
      two-dimensional (ValueError), entries in [0, 1] with the empty array
      rejected by `np.min` (ValueError), and, unless multi-label or missing
      classes are allowed, one column per distinct label (ValueError). */
  lemma ProbsErrors(x: Features, y: Labels, a: Array<real>, multiLabel: bool, allowMissing: bool)
    requires LabelsAcceptable(y, multiLabel, allowMissing)
    ensures CheckValidInputs(x, y, ProbsNotArray, multiLabel, allowMissing) == Fail(TypeError)
    ensures Ndim(a) == 0 || LabelCount(Normalised(y, multiLabel)).Err? ==>
      CheckValidInputs(x, y, ProbsArray(a), multiLabel, allowMissing) == Fail(TypeError)
    ensures Ndim(a) >= 1 && LabelCount(Normalised(y, multiLabel)).Ok? &&
            a.shape[0] != LabelCount(Normalised(y, multiLabel)).value ==>
      CheckValidInputs(x, y, ProbsArray(a), multiLabel, allowMissing) == Fail(ValueError)
    ensures Ndim(a) >= 1 && LabelCount(Normalised(y, multiLabel)) == Ok(a.shape[0]) && Ndim(a) != 2 ==>
      CheckValidInputs(x, y, ProbsArray(a), multiLabel, allowMissing) == Fail(ValueError)
    ensures Ndim(a) == 2 && LabelCount(Normalised(y, multiLabel)) == Ok(a.shape[0]) &&
            (|a.data| == 0 || exists v | v in a.data :: v < 0.0 || 1.0 < v) ==>
      CheckValidInputs(x, y, ProbsArray(a), multiLabel, allowMissing) == Fail(ValueError)
    ensures Ndim(a) == 2 && LabelCount(Normalised(y, multiLabel)) == Ok(a.shape[0]) &&
            |a.data| > 0 && (forall v | v in a.data :: 0.0 <= v <= 1.0) ==>
      (CheckValidInputs(x, y, ProbsArray(a), multiLabel, allowMissing) == Pass <==>
         multiLabel || allowMissing || |Elements(LabelsToArray(y).value.data)| == a.shape[1])
    ensures Ndim(a) == 2 && LabelCount(Normalised(y, multiLabel)) == Ok(a.shape[0]) &&
            |a.data| > 0 && (forall v | v in a.data :: 0.0 <= v <= 1.0) &&
            !multiLabel && !allowMissing && |Elements(LabelsToArray(y).value.data)| != a.shape[1] ==>
      CheckValidInputs(x, y, ProbsArray(a), multiLabel, allowMissing) == Fail(ValueError)
  {
    AfterLabels(x, y, ProbsNotArray, multiLabel, allowMissing);
    AfterLabels(x, y, ProbsArray(a), multiLabel, allowMissing);
    ProbsPhase(ProbsArray(a), LabelCount(Normalised(y, multiLabel)),
               ExpectedClasses(y, multiLabel, allowMissing));
  }

  /** Accepted single-label inputs with `pred_probs` have labels whose classes
      are exactly the column indices 0, ..., K-1 of `pred_probs`, one row per
      label, and probabilities in [0, 1]. */
  lemma PassedClassesMatchColumns(x: Features, y: Labels, a: Array<real>)
    requires CheckValidInputs(x, y, ProbsArray(a), false, false) == Pass
    ensures LabelsToArray(y).Ok?
    ensures Ndim(a) == 2 && a.shape[0] == |LabelsToArray(y).value.data|
    ensures Elements(LabelsToArray(y).value.data) == ClassSet(a.shape[1])
    ensures forall v | v in a.data :: 0.0 <= v <= 1.0
  {
    CheckValidInputsPassIff(x, y, ProbsArray(a), false, false);
    var arr := LabelsToArray(y).value;
    assert ProperLabels(arr, false);
    assert ProbsFit(a, |arr.data|, Some(|Elements(arr.data)|));
    var k: nat :| 2 <= k && Elements(arr.data) == ClassSet(k);
    ClassSetSize(k);
  }

  /** In multi-label mode the labels are neither normalised nor checked for
      classes, so allowing missing classes changes nothing. */
  lemma MultiLabelIgnoresMissingClasses(x: Features, y: Labels, probs: PredProbs)
    ensures CheckValidInputs(x, y, probs, true, true) == CheckValidInputs(x, y, probs, true, false)
  {
  }
}
