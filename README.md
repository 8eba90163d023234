# cleanlab input validation, modelled in Dafny

This project models `cleanlab/internal/validation.py`, the input checks cleanlab
runs before it analyses label quality. Every check is a chain of guard clauses:
it passes, or it raises a `TypeError` or a `ValueError`. Each check is modelled
as a total function that returns `Pass` or `Fail(kind)`. `labels_to_array`
returns `Ok(array)` or `Err(kind)`. The guards run in the source's order, so
the first failing guard decides the error kind.

- `outcomes.dfy` (module `Outcomes`): the error kinds, `Outcome`, `Result` and `Option`.
- `numpy.dfy` (module `NumPy`): the NumPy behaviour the checks rely on. An array
  is a shape plus its elements in row-major order (`Array<T>`). The module gives
  `len` (a 0-d array has none), `np.unique` (sorted distinct values), `np.min`
  and `np.max` (both raise `ValueError` on an empty array), `flatten` and
  `np.arange`.
- `validation.dfy` (module `Validation`): the checks. Labels come in one of
  these containers: a list, `np.ndarray` or NumPy scalar (given by its
  `np.asarray`); a list of lists; a pandas Series; a pandas DataFrame; or
  another sequence. The features `X` are either `None` or an abstract object.
  That object reports an optional `len(X)` and an optional `X.shape[0]`. It has
  flags for "is a pandas object", "is a torch Dataset" and "is a tensorflow
  Dataset", and one oracle per indexing protocol (`.iloc`, torch `Subset`,
  `X[idx]`). `pred_probs` is absent, a non-array, or an `Array<real>`.
- `properties.dfy` (module `ValidationProperties`): a declarative description
  of the accepted inputs (`Acceptable`), proved equivalent to
  `CheckValidInputs`. Further lemmas fix which error each kind of bad input
  raises, and in which order.
- `examples.dfy` (module `ValidationExamples`): concrete calls and their verdicts.

The main results:
- With missing classes disallowed, class labels pass exactly when they are
  one-dimensional and their distinct values are {0, …, K-1} for some K ≥ 2.
- Fewer than two classes is a `ValueError`, and it is checked before the
  zero-indexing `TypeError`.
- `X` is checked only when `pred_probs` is absent and `X` is not a tensorflow
  Dataset. It must not be `None`, must have a length or a shape, and must match
  the label count.
- The `pred_probs` guards run in a fixed order.
- The `pred_probs` column count is compared with the number of distinct labels
  exactly when neither `multi_label` nor `allow_missing_classes` is set
  (lines 90-97).
- When single-label inputs with `pred_probs` are accepted with missing classes
  disallowed, the label classes are exactly the column indices of `pred_probs`.

## Model

| member | source | states |
|---|---|---|
| `NumPy.Unique` | cleanlab/internal/validation.py:113 | `np.unique`: the result is strictly increasing and holds exactly the values of the input |
| `NumPy.UniqueCount` | cleanlab/internal/validation.py:91 | `len(np.unique(y))` equals the number of distinct label values |
| `NumPy.FlattenColumn` | cleanlab/internal/validation.py:199 | flattening a one-column table keeps its length and lists the column in row order |
| `NumPy.FlattenLength` | cleanlab/internal/validation.py:199 | flattening a table of `w` columns yields `w` elements per row |
| `NumPy.Arange` | cleanlab/internal/validation.py:117 | `np.arange(n)` is `0, 1, …, n-1` |
| `NumPy.Min` | cleanlab/internal/validation.py:85 | `np.min` fails with ValueError exactly on an empty array; otherwise it returns an element that is at most every element |
| `NumPy.Max` | cleanlab/internal/validation.py:85 | `np.max` fails with ValueError exactly on an empty array; otherwise it returns an element that is at least every element |
| `Validation.LabelsToArray` | cleanlab/internal/validation.py:179-206 | a Series becomes its values. A one-column DataFrame becomes its column, in row order and with its length. A DataFrame with another width raises ValueError. A nonempty list of lists becomes a 2-D array if its rows are equally long, and raises ValueError otherwise; an empty list becomes the empty 1-D array. Arrays and other sequences pass through. Every error is a ValueError |
| `Validation.CheckClassLabels` | cleanlab/internal/validation.py:108-112 | with missing classes allowed, the only check is that the labels are 1-D, which fails with ValueError; a wrong dimension is always a ValueError |
| `Validation.ArangeIffClassSet` | cleanlab/internal/validation.py:117 | a sorted distinct class list equals `np.arange` of its length exactly when its values are {0, …, n-1} |
| `Validation.ClassLabelsPassIff` | cleanlab/internal/validation.py:108-121 | with missing classes disallowed, labels pass exactly when they are 1-D and their distinct values are {0, …, K-1} for some K ≥ 2 |
| `Validation.ClassLabelsFailureKind` | cleanlab/internal/validation.py:108-121 | ValueError exactly when the labels are not 1-D or have fewer than 2 classes; TypeError exactly when they are 1-D with at least 2 classes that are not {0, …, K-1} |
| `Validation.ClassSetSize` | cleanlab/internal/validation.py:114-117 | the class set {0, …, k-1} has k members |
| `Validation.ClassSet` | cleanlab/internal/validation.py:117 | the class set of size k holds exactly the integers 0 ≤ x < k |
| `Validation.CheckNonempty` | cleanlab/internal/validation.py:124-126 | passes exactly when `X` is not None; otherwise ValueError |
| `Validation.DefaultIndex` | cleanlab/internal/validation.py:137-141 | the given index list is used. Otherwise the list is the first and last position, `[0, length_X - 1]`, and an unknown length counts as 2, giving `[0, 1]` |
| `Validation.CheckIndexing` | cleanlab/internal/validation.py:143-176 | passes exactly when `X` is a pandas object whose `.iloc` accepts the index, or a torch Dataset whose `Subset` accepts it, or a tensorflow Dataset, or `X[idx]` works; every failure is a TypeError |
| `Validation.ExampleCount` | cleanlab/internal/validation.py:56-68 | the example count is `len(X)` when defined, else `X.shape[0]`; when neither exists (or `X` is None) it is a TypeError |
| `NumPy.Len` | cleanlab/internal/validation.py:80 | `len` of an array is its first dimension. A 0-d array (a NumPy scalar) gives TypeError. A 1-D array's length is its number of elements |
| `NumPy.Flatten` | cleanlab/internal/validation.py:199 | the flattened table holds exactly the values found in its rows |
| `Validation.LabelCount` | cleanlab/internal/validation.py:70-80 | `len(y)` counts the top-level entries: the elements of 1-D labels, the rows of a DataFrame or of a list of lists, the values of a Series. Only 0-d labels (a NumPy scalar) have no length, which is a TypeError |
| `Validation.CheckFeatures` | cleanlab/internal/validation.py:43-75 | skipped (passes) when `pred_probs` is given or `X` is a tensorflow Dataset. Otherwise, in order: None gives ValueError; no length and no shape gives TypeError; an error from `len(y)` propagates; a count mismatch gives ValueError; a matching count passes exactly when `X` is indexable at `[0, n-1]`, and otherwise gives TypeError |
| `Validation.CheckPredProbs` | cleanlab/internal/validation.py:77-97 | absent passes; a non-array gives TypeError; a 0-d array gives TypeError; an error from `len(y)` propagates; a row count other than the label count gives ValueError; not 2-D gives ValueError; empty or out of [0, 1] gives ValueError; after that it passes exactly when no class count is required or the column count equals it, and a column count other than the required one gives ValueError |
| `Validation.CheckAgainstLabels` | cleanlab/internal/validation.py:43-97 | the `X` checks run first and their failure is the verdict; once they pass, the verdict is that of the `pred_probs` checks. The call passes exactly when both pass |
| `Validation.CheckValidInputs` | cleanlab/internal/validation.py:29-97 | an unsupported label container gives TypeError. In multi-label mode the raw labels go straight to the later checks, with no class count. Otherwise a normalisation error (ValueError) or a class-label failure is the verdict; else the later checks run on the normalised labels, and the class count is required exactly when missing classes are disallowed |
| `ValidationProperties.LabelPhase` | cleanlab/internal/validation.py:39-41 | normalised labels pass the class-label check exactly when they are proper labels, and `len(np.unique)` counts the distinct labels |
| `ValidationProperties.FeaturePhase` | cleanlab/internal/validation.py:43-75 | the checks on `X` pass exactly when `pred_probs` is given, or `X` is a tensorflow Dataset, or `X` is not None, has the label count as its example count and is indexable at `[0, n-1]` |
| `ValidationProperties.ProbsPhase` | cleanlab/internal/validation.py:77-97 | the `pred_probs` checks pass exactly when it is absent, or when it is a nonempty 2-D array with one row per label, entries in [0, 1] and, if required, one column per class |
| `ValidationProperties.CheckValidInputsPassIff` | cleanlab/internal/validation.py:29-97 | `assert_valid_inputs` succeeds exactly on the inputs the declarative predicate `Acceptable` describes |
| `ValidationProperties.AfterLabels` | cleanlab/internal/validation.py:39-54 | once the labels are acceptable, the verdict is that of the `X` checks and then the `pred_probs` checks, run against the normalised labels |
| `ValidationProperties.LabelErrorsComeFirst` | cleanlab/internal/validation.py:37-41 | an unsupported container is a TypeError, a failed normalisation a ValueError, and a failed class-label check its own error, whatever `X` and `pred_probs` are |
| `ValidationProperties.FeaturesIgnoredWithProbs` | cleanlab/internal/validation.py:43-54 | when `pred_probs` is given, the verdict does not depend on `X` at all |
| `ValidationProperties.BatchedStreamUnchecked` | cleanlab/internal/validation.py:46-54 | when `X` is a tensorflow Dataset and there is no `pred_probs`, the call succeeds exactly when the labels are acceptable |
| `ValidationProperties.FeatureErrors` | cleanlab/internal/validation.py:54-75 | the same order of `X` errors for a whole `assert_valid_inputs` call with acceptable labels and no `pred_probs`, ending with TypeError when indexing fails |
| `ValidationProperties.ProbsErrors` | cleanlab/internal/validation.py:77-97 | the `pred_probs` checks in order: a non-array or scalar gives TypeError; a row count other than the label count gives ValueError; not 2-D gives ValueError; empty or out of [0, 1] gives ValueError. After that the call passes exactly when multi-label mode or missing classes are set, or the column count equals the number of distinct labels; with both flags unset, a column count other than the number of distinct labels gives ValueError |
| `ValidationProperties.PassedClassesMatchColumns` | cleanlab/internal/validation.py:80-97 | an accepted single-label call with `pred_probs` and missing classes disallowed has one row per label, probabilities in [0, 1], and label classes exactly {0, …, C-1}, where C is the column count |
| `ValidationProperties.MultiLabelIgnoresMissingClasses` | cleanlab/internal/validation.py:39-41 | in multi-label mode the missing-classes flag changes nothing |
| `ValidationExamples.ContiguousLabelsPass` | cleanlab/internal/validation.py:113-121 | labels `[0, 0, 1, 2]` pass |
| `ValidationExamples.GappedLabelsFail` | cleanlab/internal/validation.py:113-121 | labels `[1, 2, 3]` give TypeError, and pass when missing classes are allowed |
| `ValidationExamples.SingleClassFails` | cleanlab/internal/validation.py:113-115 | labels `[0]` and `[1]` give ValueError, so the class-count check comes before the zero-indexing check |
| `ValidationExamples.ColumnLabelsFail` | cleanlab/internal/validation.py:108-109 | a 2×1 label column is not 1-D, a ValueError even with missing classes allowed |
| `ValidationExamples.LabelsToArrayExamples` | cleanlab/internal/validation.py:195-206 | a one-column DataFrame flattens to its column; a two-column one, and a ragged list of lists, give ValueError |
| `ValidationExamples.AlignedInputsPass` | cleanlab/internal/validation.py:29-97 | two feature rows, labels `[0, 1]` and a valid 2×2 `pred_probs` pass |
| `ValidationExamples.LengthMismatchFails` | cleanlab/internal/validation.py:70-73 | one feature row against two labels without `pred_probs` gives ValueError |
| `ValidationExamples.NoFeaturesWithProbsPass` | cleanlab/internal/validation.py:43-54 | `X = None` with valid labels and valid `pred_probs` passes |
| `ValidationExamples.MultiLabelPass` | cleanlab/internal/validation.py:39-41 | ragged multi-label lists with a matching `pred_probs` pass without class checks |
| `ValidationExamples.IndexingExamples` | cleanlab/internal/validation.py:167-176 | an object that supports only `X[[0, 1]]` passes the indexing check; a plain list and `None` give TypeError |

## Left out

- Exception messages: only the exception class is modelled.
- `warnings.warn` when both `X` and `pred_probs` are given (line 88): a side effect that does not change the verdict.
- The indexing probes (lines 143-176) call into pandas, torch and tensorflow and swallow their exceptions. Each probe is an oracle on the features value. Whether `X` is a pandas object, a torch Dataset or a tensorflow Dataset is a flag. The lazy imports are not modelled: a missing library means its flag is false.
- `len(X)` and `X.shape[0]` are optional fields of the features value. Any exception they raise, which the source catches with a bare `except`, reads as "not supported".
- `np.asarray` on arbitrary objects (lines 200-206) is not modelled. Arrays, scalars and other sequences are given by the array that `np.asarray` makes of them. A list of lists becomes a 2-D array when its rows are equally long. Otherwise it is a ValueError, which is what NumPy 1.24 and later do. The object arrays that older NumPy versions built are not modelled.
- Floating point: labels are integers and probabilities are exact reals. NaN is not modelled. In NumPy a NaN entry makes `np.min` and `np.max` return NaN, so it would pass the range check on line 85. Float labels that `np.unique` merges with integers are not modelled either.
- The container-type gate on `y` (lines 37-38) is a constructor tag: `OtherLabels` stands for every type outside the accepted five.
- The `pred_probs` type check (line 78) distinguishes NumPy arrays and scalars from everything else; a NumPy scalar is a 0-d array, and `len` of it is a TypeError.
