/** The input checks of cleanlab's `cleanlab/internal/validation.py`: each
    check passes or fails with the exception kind the Python code raises, and
    the guards run in the order the code runs them. */
module Validation {
  import opened Outcomes
  import opened NumPy

  // ---------------------------------------------------------------------------
  // Inputs
  // ---------------------------------------------------------------------------

  /** A pandas DataFrame of labels: its column count and its rows. */
  datatype Table = Table(width: nat, rows: seq<seq<int>>)

  /** A DataFrame is rectangular: every row has one cell per column. */
  type Frame = t: Table | forall i | 0 <= i < |t.rows| :: |t.rows[i]| == t.width
    witness Table(0, [])

  /** All rows have the length of the first. */
  predicate SameLengths(rows: seq<seq<int>>)
  {
    forall i | 0 <= i < |rows| :: |rows[i]| == |rows[0]|
  }

  /** The labels argument `y`, by the container it comes in. */
  datatype Labels =
      /** A flat list, a `np.ndarray` or a NumPy scalar; `a` is `np.asarray(y)`. */
    | ArrayLabels(a: Array<int>)
      /** A list of label lists (the multi-label format). */
    | NestedLabels(rows: seq<seq<int>>)
      /** A pandas Series. */
    | SeriesLabels(values: seq<int>)
      /** A pandas DataFrame. */
    | FrameLabels(frame: Frame)
      /** Any other sequence, a tuple say; `a` is `np.asarray(y)`. */
    | OtherLabels(a: Array<int>)

  /** The features argument `X`, described by what the checks can ask of it. */
  datatype Features =
      /** `X is None`. */
    | NoFeatures
    | Features(
        /** `len(X)`, if `X` supports it. */
        length: Option<nat>,
        /** `X.shape[0]`, if `X` has a shape. */
        shape0: Option<nat>,
        /** `X` is a pandas DataFrame or Series. */
        isPandas: bool,
        /** `X` is a `torch.utils.data.Dataset`. */
        isTorchDataset: bool,
        /** `X` is a `tensorflow.data.Dataset`, a batched stream. */
        isTfDataset: bool,
        /** Whether `X.iloc[idx]` succeeds. */
        ilocAccepts: seq<int> -> bool,
        /** Whether `torch.utils.data.Subset(X, idx)` succeeds. */
        subsetAccepts: seq<int> -> bool,
        /** Whether `X[idx]` succeeds. */
        subscriptAccepts: seq<int> -> bool)

  /** The `pred_probs` argument. */
  datatype PredProbs =
      /** `pred_probs is None`. */
    | NoProbs
      /** Something other than a NumPy array or scalar, a list say. */
    | ProbsNotArray
    | ProbsArray(a: Array<real>)

  /** A tensorflow Dataset: its length may not match because of batching. */
  predicate IsBatchedStream(x: Features)
  {
    x.Features? && x.isTfDataset
  }

  /** The label container types `assert_valid_inputs` accepts. */
  predicate AcceptedContainer(y: Labels)
  {
    !y.OtherLabels?
  }

  // ---------------------------------------------------------------------------
  // labels_to_array
  // ---------------------------------------------------------------------------

  /** Turns a label container into a NumPy array. */
  function LabelsToArray(y: Labels): (r: Result<Array<int>>)
    ensures r.Err? ==> r.kind == ValueError
    ensures y.SeriesLabels? ==> r.Ok? && r.value.shape == [|y.values|] && r.value.data == y.values
    ensures y.FrameLabels? ==> (r.Ok? <==> y.frame.width == 1)
    ensures y.FrameLabels? && r.Ok? ==>
      && r.value.shape == [|y.frame.rows|]
      && |r.value.data| == |y.frame.rows|
      && forall i | 0 <= i < |y.frame.rows| :: r.value.data[i] == y.frame.rows[i][0]
    ensures y.NestedLabels? ==> (r.Ok? <==> SameLengths(y.rows))
    ensures y.NestedLabels? && r.Ok? && y.rows != [] ==>
      r.value.shape == [|y.rows|, |y.rows[0]|] && r.value.data == Flatten(y.rows)
    ensures y.NestedLabels? && y.rows == [] ==> r == Ok(Vector([]))
    ensures y.ArrayLabels? || y.OtherLabels? ==> r == Ok(y.a)
  {
    match y
    case SeriesLabels(values) => Ok(Vector(values))
    case FrameLabels(frame) =>
      if frame.width != 1 then Err(ValueError)
      else
        FlattenColumn(frame.rows);
        Ok(Vector(Flatten(frame.rows)))
    case NestedLabels(rows) =>
      if !SameLengths(rows) then Err(ValueError)
      else if rows == [] then Ok(Vector([]))
      else
        FlattenLength(rows, |rows[0]|);
        Ok(Matrix(|rows|, |rows[0]|, Flatten(rows)))
    case ArrayLabels(a) => Ok(a)
    case OtherLabels(a) => Ok(a)
  }

  /** `len(y)`: the number of top-level entries; a NumPy scalar has none. */
  function LabelCount(y: Labels): (r: Result<nat>)
    ensures r.Err? ==> r.kind == TypeError
    ensures r.Err? <==> (y.ArrayLabels? || y.OtherLabels?) && Ndim(y.a) == 0
    ensures (y.ArrayLabels? || y.OtherLabels?) && r.Ok? ==> r.value == y.a.shape[0]
    ensures y.ArrayLabels? && Ndim(y.a) == 1 ==> r == Ok(|y.a.data|)
    ensures y.SeriesLabels? ==> r == Ok(|y.values|)
    ensures y.FrameLabels? ==> r == Ok(|y.frame.rows|)
    ensures y.NestedLabels? ==> r == Ok(|y.rows|)
  {
    match y
    case ArrayLabels(a) => Len(a)
    case OtherLabels(a) => Len(a)
    case NestedLabels(rows) => Ok(|rows|)
    case SeriesLabels(values) => Ok(|values|)
    case FrameLabels(frame) => Ok(|frame.rows|)
  }

  // ---------------------------------------------------------------------------
  // assert_valid_class_labels
  // ---------------------------------------------------------------------------

  /** The zero-indexed class set {0, 1, ..., k-1}. */
  function ClassSet(k: nat): (s: set<int>)
    ensures forall x :: x in s <==> 0 <= x < k
  {
    if k == 0 then {} else ClassSet(k - 1) + {k - 1}
  }

  /** The classes are {0, 1, ..., K-1} for some K >= 2. */
  ghost predicate ZeroIndexedClasses(classes: set<int>)
  {
    exists k: nat :: 2 <= k && classes == ClassSet(k)
  }

  lemma {:induction false} ClassSetSize(k: nat)
    ensures |ClassSet(k)| == k
  {
    if k > 0 {
      var below := ClassSet(k - 1);
      ClassSetSize(k - 1);
      assert ClassSet(k) == below + {k - 1};
      assert k - 1 !in below;
      assert |below + {k - 1}| == |below| + 1;
    }
  }

  /** Checks that labels are one-dimensional and, unless missing classes are
      allowed, that at least two classes occur and that they are exactly
      0, 1, ..., K-1. */
  function CheckClassLabels(y: Array<int>, allowMissing: bool): (r: Outcome)
    ensures allowMissing ==> (r == Pass <==> Ndim(y) == 1)
    ensures r.Fail? && (allowMissing || Ndim(y) != 1) ==> r.kind == ValueError
  {
    if Ndim(y) != 1 then Fail(ValueError)
    else if allowMissing then Pass
    else
      var classes := Unique(y.data);
      if |classes| < 2 then Fail(ValueError)
      else if classes != Arange(|classes|) then Fail(TypeError)
      else Pass
  }

  /** An increasing sequence equals `np.arange` of its length exactly when its
      values are the class set of that size. */
  lemma ArangeIffClassSet(u: seq<int>)
    requires StrictlyIncreasing(u)
    ensures u == Arange(|u|) <==> Elements(u) == ClassSet(|u|)
  {
    var n := |u|;
    if u == Arange(n) {
      forall x ensures x in Elements(u) <==> x in ClassSet(n) {
        if 0 <= x < n {
          assert u[x] == x;
        }
      }
    }
    if Elements(u) == ClassSet(n) && n > 0 {
      assert u[0] in Elements(u) && u[n - 1] in Elements(u);
      forall i | 0 <= i < n ensures u[i] == Arange(n)[i] {
        IncreasingGap(u, 0, i);
        IncreasingGap(u, i, n - 1);
      }
    }
  }

  /** With missing classes disallowed, labels pass exactly when they are
      one-dimensional and their distinct values are {0, ..., K-1} for some
      K >= 2. */
  lemma ClassLabelsPassIff(y: Array<int>)
    ensures CheckClassLabels(y, false) == Pass <==>
      Ndim(y) == 1 && ZeroIndexedClasses(Elements(y.data))
  {
    var u := Unique(y.data);
    UniqueCount(y.data);
    ArangeIffClassSet(u);
    if CheckClassLabels(y, false) == Pass {
      assert Elements(y.data) == ClassSet(|u|);
    }
    if Ndim(y) == 1 && ZeroIndexedClasses(Elements(y.data)) {
      var k: nat :| 2 <= k && Elements(y.data) == ClassSet(k);
      ClassSetSize(k);
    }
  }

  /** Which error a label failure raises: too few classes (or the wrong
      dimension) is a ValueError and is checked first; classes that are not
      {0, ..., K-1} give a TypeError. */
  lemma ClassLabelsFailureKind(y: Array<int>)
    ensures CheckClassLabels(y, false) == Fail(ValueError) <==>
      Ndim(y) != 1 || |Elements(y.data)| < 2
    ensures CheckClassLabels(y, false) == Fail(TypeError) <==>
      && Ndim(y) == 1
      && |Elements(y.data)| >= 2
      && Elements(y.data) != ClassSet(|Elements(y.data)|)
  {
    var u := Unique(y.data);
    UniqueCount(y.data);
    ArangeIffClassSet(u);
  }

  // ---------------------------------------------------------------------------
  // assert_nonempty_input and assert_indexing_works
  // ---------------------------------------------------------------------------

  /** `X` must not be None. */
  function CheckNonempty(x: Features): (r: Outcome)
    ensures r == Pass <==> x.Features?
    ensures r.Fail? ==> r.kind == ValueError
  {
    if x.NoFeatures? then Fail(ValueError) else Pass
  }

  /** The index list probed: the one given, else the first and the last
      position, with the length taken as 2 when it is not known. */
  function DefaultIndex(idx: Option<seq<int>>, lengthX: Option<int>): (r: seq<int>)
    ensures idx.Some? ==> r == idx.value
    ensures idx.None? ==> |r| == 2 && r[0] == 0
    ensures idx.None? && lengthX.Some? ==> r[1] == lengthX.value - 1
    ensures idx.None? && lengthX.None? ==> r == [0, 1]
  {
    match idx
    case Some(given) => given
    case None =>
      var n := match lengthX case Some(k) => k case None => 2;
      [0, n - 1]
  }

  /** Whether some indexing protocol of `X` accepts the index list. */
  predicate Indexable(x: Features, idx: seq<int>)
  {
    && x.Features?
    && ((x.isPandas && x.ilocAccepts(idx))
        || (x.isTorchDataset && x.subsetAccepts(idx))
        || x.isTfDataset
        || x.subscriptAccepts(idx))
  }

  /** Tries, in order, `.iloc` on a pandas object, `Subset` on a torch Dataset,
      accepts a tensorflow Dataset unchecked, and finally `X[idx]`. */
  function CheckIndexing(x: Features, idx: Option<seq<int>>, lengthX: Option<int>): (r: Outcome)
    ensures r == Pass <==> Indexable(x, DefaultIndex(idx, lengthX))
    ensures r.Fail? ==> r.kind == TypeError
  {
    var i := DefaultIndex(idx, lengthX);
    match x
    case NoFeatures => Fail(TypeError)
    case Features(_, _, isPandas, isTorchDataset, isTfDataset, ilocAccepts, subsetAccepts, subscriptAccepts) =>
      if isPandas && ilocAccepts(i) then Pass
      else if isTorchDataset && subsetAccepts(i) then Pass
      else if isTfDataset then Pass
      else if subscriptAccepts(i) then Pass
      else Fail(TypeError)
  }

  // ---------------------------------------------------------------------------
  // assert_valid_inputs
  // ---------------------------------------------------------------------------

  /** The number of examples in `X`: `len(X)`, else `X.shape[0]`. */
  function ExampleCount(x: Features): (r: Result<nat>)
    ensures r.Err? ==> r.kind == TypeError
    ensures r.Ok? <==> x.Features? && (x.length.Some? || x.shape0.Some?)
    ensures r.Ok? && x.length.Some? ==> r.value == x.length.value
    ensures r.Ok? && x.length.None? ==> r.value == x.shape0.value
  {
    match x
    case NoFeatures => Err(TypeError)
    case Features(length, shape0, _, _, _, _, _, _) =>
      if length.Some? then Ok(length.value)
      else if shape0.Some? then Ok(shape0.value)
      else Err(TypeError)
  }

  /** The checks on `X`, made only when `pred_probs` is absent and `X` is
      not a batched stream. */
  function CheckFeatures(x: Features, labelCount: Result<nat>, probsGiven: bool): (r: Outcome)
    ensures probsGiven || IsBatchedStream(x) ==> r == Pass
    ensures !probsGiven && !IsBatchedStream(x) ==>
      && (x.NoFeatures? ==> r == Fail(ValueError))
      && (x.Features? && x.length.None? && x.shape0.None? ==> r == Fail(TypeError))
      && (x.Features? && ExampleCount(x).Ok? && labelCount.Err? ==> r == Fail(labelCount.kind))
      && (ExampleCount(x).Ok? && labelCount.Ok? && ExampleCount(x).value != labelCount.value ==>
            r == Fail(ValueError))
      && (ExampleCount(x).Ok? && labelCount == Ok(ExampleCount(x).value) ==>
            (r == Pass <==> Indexable(x, [0, ExampleCount(x).value - 1])))
      && ((ExampleCount(x).Ok? && labelCount == Ok(ExampleCount(x).value) &&
           !Indexable(x, [0, ExampleCount(x).value - 1])) ==> r == Fail(TypeError))
  {
    var allowEmpty := probsGiven || IsBatchedStream(x);
    if allowEmpty then Pass
    else if CheckNonempty(x).Fail? then CheckNonempty(x)
    else match ExampleCount(x)
      case Err(k) => Fail(k)
      case Ok(n) =>
        match labelCount
        case Err(k) => Fail(k)
        case Ok(m) =>
          if n != m then Fail(ValueError)
          else CheckIndexing(x, None, Some(n))
  }

  /** The checks on `pred_probs`: an array, one row per label, two-dimensional,
      entries in [0, 1] and, when `classes` is given, that many columns. */
  function CheckPredProbs(probs: PredProbs, labelCount: Result<nat>, classes: Option<nat>): (r: Outcome)
    ensures probs.NoProbs? ==> r == Pass
    ensures probs.ProbsNotArray? ==> r == Fail(TypeError)
    ensures probs.ProbsArray? && Ndim(probs.a) == 0 ==> r == Fail(TypeError)
    ensures probs.ProbsArray? && Ndim(probs.a) >= 1 && labelCount.Err? ==> r == Fail(labelCount.kind)
    ensures probs.ProbsArray? && Ndim(probs.a) >= 1 && labelCount.Ok? ==>
      var a, n := probs.a, labelCount.value;
      && (a.shape[0] != n ==> r == Fail(ValueError))
      && (a.shape[0] == n && Ndim(a) != 2 ==> r == Fail(ValueError))
      && ((a.shape[0] == n && Ndim(a) == 2 &&
           (|a.data| == 0 || exists v | v in a.data :: v < 0.0 || 1.0 < v)) ==> r == Fail(ValueError))
      && (a.shape[0] == n && Ndim(a) == 2 && |a.data| > 0 && (forall v | v in a.data :: 0.0 <= v <= 1.0) ==>
            (r == Pass <==> classes.None? || classes.value == a.shape[1]))
      && ((a.shape[0] == n && Ndim(a) == 2 && |a.data| > 0 && (forall v | v in a.data :: 0.0 <= v <= 1.0) &&
           classes.Some? && classes.value != a.shape[1]) ==> r == Fail(ValueError))
  {
    match probs
    case NoProbs => Pass
    case ProbsNotArray => Fail(TypeError)
    case ProbsArray(a) =>
      match Len(a)
      case Err(k) => Fail(k)
      case Ok(rows) =>
        match labelCount
        case Err(k) => Fail(k)
        case Ok(n) =>
          if rows != n then Fail(ValueError)
          else if Ndim(a) != 2 then Fail(ValueError)
          else match Min(a.data)
            case Err(k) => Fail(k)
            case Ok(lo) =>
              if lo < 0.0 then Fail(ValueError)
              else match Max(a.data)
                case Err(k) => Fail(k)
                case Ok(hi) =>
                  if hi > 1.0 then Fail(ValueError)
                  else if classes.Some? && classes.value != a.shape[1] then Fail(ValueError)
                  else Pass
  }

  /** The checks that follow the label checks, against the (normalised) labels. */
  function CheckAgainstLabels(x: Features, y: Labels, probs: PredProbs, classes: Option<nat>): (r: Outcome)
    ensures CheckFeatures(x, LabelCount(y), !probs.NoProbs?).Fail? ==>
      r == CheckFeatures(x, LabelCount(y), !probs.NoProbs?)
    ensures CheckFeatures(x, LabelCount(y), !probs.NoProbs?) == Pass ==>
      r == CheckPredProbs(probs, LabelCount(y), classes)
    ensures r == Pass <==>
      CheckFeatures(x, LabelCount(y), !probs.NoProbs?) == Pass && CheckPredProbs(probs, LabelCount(y), classes) == Pass
  {
    var features := CheckFeatures(x, LabelCount(y), !probs.NoProbs?);
    if features.Fail? then features
    else CheckPredProbs(probs, LabelCount(y), classes)
  }

  /** `assert_valid_inputs(X, y, pred_probs, multi_label, allow_missing_classes)`. */
  function CheckValidInputs(x: Features, y: Labels, probs: PredProbs,
                            multiLabel: bool, allowMissing: bool): (r: Outcome)
    ensures !AcceptedContainer(y) ==> r == Fail(TypeError)
    ensures AcceptedContainer(y) && multiLabel ==> r == CheckAgainstLabels(x, y, probs, None)
    ensures AcceptedContainer(y) && !multiLabel && LabelsToArray(y).Err? ==> r == Fail(ValueError)
    ensures AcceptedContainer(y) && !multiLabel && LabelsToArray(y).Ok? ==>
      var arr := LabelsToArray(y).value;
      && (CheckClassLabels(arr, allowMissing).Fail? ==> r == CheckClassLabels(arr, allowMissing))
      && (CheckClassLabels(arr, allowMissing) == Pass ==>
            r == CheckAgainstLabels(x, ArrayLabels(arr), probs,
                                    if allowMissing then None else Some(|Elements(arr.data)|)))
  {
    if !AcceptedContainer(y) then Fail(TypeError)
    else if multiLabel then CheckAgainstLabels(x, y, probs, None)
    else match LabelsToArray(y)
      case Err(k) => Fail(k)
      case Ok(arr) =>
        var labels := CheckClassLabels(arr, allowMissing);
        if labels.Fail? then labels
        else
          var classes := if allowMissing then None else Some(|Unique(arr.data)|);
          UniqueCount(arr.data);
          CheckAgainstLabels(x, ArrayLabels(arr), probs, classes)
  }
}
