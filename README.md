# crosscorrelizer in Dafny

A verified model of the core of crosscorrelizer, a localiser for sound sources in two-channel recordings. It has three parts.

- **The correlation engine** (`crosscorrelizer.py`), in module `Localization`.
  - `CrossCorrelizer.cross_correlize` scores the left channel against the right channel at every tested time shift.
  - The tested shifts are `shift_steps, 2*shift_steps, …` below `shift_max`, in both directions, plus no shift.
  - The scores go into one odd-length vector: right-leads first, then no shift, then left-leads.
  - `cross_correlizer` derives the shift range from the sample rate, the largest interaural time difference and the highest frequency.
  - `Localizer` turns a learned angle-by-index table into one decision per vector index. `localize` answers with the angle chosen at the index of the largest correlation.
- **Learning** (`learn.py`), in modules `Windowing` and `Learning`.
  - Every labelled recording is cut into windows of `W = sample_length * sample_rate` frames.
  - Per angle, a Counter records which vector index held the largest correlation in each window.
  - The counters are laid out as a sorted-angle by index matrix.
  - Each angle's row is normalised into the distribution P(index | angle).
- **Evaluation** (`correlation.py`), in module `Evaluation`. The same windows yield two parallel lists: the file's angle and the window's argmax.

Module `Builtins` states the Python and numpy built-ins the scripts rely on, over exact values:
- `range`, slicing with negative and clamped bounds, `[::-1]`;
- `argmax` and its first-maximum rule;
- `sum`, `sorted`, `np.ceil` and `int()`;
- the exceptions these raise, as a `Result`.

The style of each module follows the source:
- `crosscorrelizer.py` only computes, so it is modelled by functions and lemmas.
- The two scripts update counters, lists and a matrix in loops, so they are modelled by methods with loop invariants.
  - Each method is proved against a specification function: `Observe`/`Accumulate`/`Table` for learn.py, `Labels`/`AllMaxima` for correlation.py.
  - Separate lemmas establish what those functions mean.
- The learned matrix is an `array2<real>`, filled and then divided in place.

The score `__ccr__` (a Pearson coefficient) is a parameter `ccr: Score`, defined on every pair of equally long vectors.
- Because of that domain, every slice pair `cross_correlize` hands to it is proved to be of equal length.
- `Symmetric(ccr)` is the optional assumption that the score is symmetric in its arguments.

`hists.sum(axis=0)` is taken after the transpose at learn.py:80, so it sums over the shift indices. Dividing by it normalises each angle's row into P(index | angle), not each shift-index column.

## Model

| member | source | states |
|---|---|---|
| Builtins.Range | crosscorrelizer.py:56-58 | `range(start, stop, step)`: with a positive step every value is in `[start, stop)`, with a negative step in `(stop, start]`; a zero step is excluded by the caller |
| Builtins.RangeAscending | crosscorrelizer.py:58 | with a positive step, entry `i` is `start + i*step`, and the range stops at the first value not below `stop` |
| Builtins.Take | crosscorrelizer.py:56 | `x[:k]` is a prefix of `x` of length min(k, N) for k >= 0, and of length max(N+k, 0) for k < 0 |
| Builtins.Drop | crosscorrelizer.py:56 | `x[k:]` is a suffix of `x` of length max(N-k, 0) for k >= 0, and of length min(-k, N) for k < 0 |
| Builtins.SliceIndex | crosscorrelizer.py:56 | a slice bound lands in `[0, n]` (negative bounds count from the end, then clamp) |
| Builtins.Reverse | crosscorrelizer.py:66 | `s[::-1]` keeps the length |
| Builtins.ArgMax | crosscorrelizer.py:111 | `argmax` of a non-empty vector is a valid index |
| Builtins.ArgMaxIsFirstMax | crosscorrelizer.py:111 | `argmax` is the first index of the maximum: no entry is larger, and every earlier entry is strictly smaller |
| Builtins.FirstMaxUnique | crosscorrelizer.py:111 | any index that is the first maximum equals `argmax` |
| Builtins.SumScaled | learn.py:82 | dividing every entry by `t` divides the sum by `t` |
| Builtins.SumBoundsEntries | learn.py:82 | a vector of non-negative entries has a non-negative sum that bounds every entry |
| Builtins.Insert | learn.py:71 | inserting into a strictly ascending list keeps it strictly ascending and adds exactly the one element |
| Builtins.Sorted | learn.py:71 | `sorted` of distinct keys is strictly ascending, of the same length and a permutation of the keys |
| Builtins.SortedMembers | learn.py:71 | the sorted keys contain exactly the keys |
| Builtins.Ceil | crosscorrelizer.py:81 | `int(np.ceil(x))` is the least integer not below `x` |
| Builtins.Trunc | crosscorrelizer.py:82 | `int(x)` truncates toward zero, for both signs |
| Localization.Left | crosscorrelizer.py:53 | `infile[:,0]` has one entry per frame, the left value |
| Localization.Right | crosscorrelizer.py:54 | `infile[:,1]` has one entry per frame, the right value |
| Localization.Swap | crosscorrelizer.py:53-54 | exchanging the channels exchanges `infile[:,0]` and `infile[:,1]` |
| Localization.ShiftsAreMultiples | crosscorrelizer.py:56-58 | with a positive step there are K = (shift_max-1)/shift_steps tested shifts (0 when shift_max <= 0), and shift j is j*shift_steps, below shift_max |
| Localization.VectorLengthIsOdd | crosscorrelizer.py:56-67 | the vector length is 2K+1, so odd, and depends on the configuration only |
| Localization.ShiftScores | crosscorrelizer.py:56-58 | one score per tested shift |
| Localization.Shifts | crosscorrelizer.py:57-58 | every shift tested lies in [shift_steps, shift_max) for a positive step, and in (shift_max, shift_steps] for a negative one |
| Localization.CrossCorrelize | crosscorrelizer.py:41-69 | fails with ValueError exactly when shift_steps is 0 (range refuses it); otherwise the vector has the configured length, which is odd, so the assertion at line 67 never fails |
| Localization.CenterIsUnshifted | crosscorrelizer.py:60-66 | entry K is the score of the full left against the full right channel |
| Localization.ShiftedWindows | crosscorrelizer.py:56 | `x[:-s]` and `y[s:]` have equal length N-s (empty once s >= N), and are the head and tail of the channels |
| Localization.ShiftedEntries | crosscorrelizer.py:56-66 | entry K+j scores `left[:-j*step]` against `right[j*step:]`, entry K-j the channels the other way round; for recordings longer than shift_max these are `left[..N-s]` and `right[s..]` with N-s > 0 |
| Localization.WindowsNonEmpty | crosscorrelizer.py:56-64 | when N > shift_max, every shifted score (all entries but the centre) compares two non-empty windows of equal length |
| Localization.ReverseAroundCentre | crosscorrelizer.py:66 | reversing `a[::-1] + [x] + b` gives `b[::-1] + [x] + a` |
| Localization.SwapReverses | crosscorrelizer.py:39-66 | for a symmetric score, swapping the channels yields exactly the reversed vector |
| Localization.CrossCorrelizerFor | crosscorrelizer.py:72-83 | ZeroDivisionError exactly when max_frequency is 0; otherwise shift_max is the least integer >= max_itd*sample_rate and, for positive inputs, shift_steps the greatest integer <= sample_rate/(2*max_frequency) |
| Localization.DerivedConfiguration | crosscorrelizer.py:81-82 | positive inputs give shift_max >= 1, and a positive step exactly when 2*max_frequency <= sample_rate |
| Localization.ExampleConfiguration | crosscorrelizer.py:81-83 | 16 kHz, 1 ms and 4 kHz give shift_max 16, step 2 and a 15-entry vector |
| Localization.Column | crosscorrelizer.py:99 | column m holds entry m of every row |
| Localization.Decisions | crosscorrelizer.py:99 | `hists.argmax(axis=0)`: decision m is the smallest row index whose entry in column m is >= every row's and > every earlier row's |
| Localization.NewLocalizer | crosscorrelizer.py:89-100 | ValueError exactly for an empty table (numpy argmax of an empty axis); otherwise one first-max decision per column, with the angles and correlizer kept |
| Localization.Localize | crosscorrelizer.py:102-113 | ValueError for a zero step, IndexError only when an index is out of range; always answers for a well-formed localizer; the answer is `angles[decisions[b]]` for the first index b of the largest correlation, so it is one of the angles |
| Windowing.NumSamples | learn.py:54 | there is at least one window exactly when the recording has at least W frames |
| Windowing.WindowCount | learn.py:54 | `num_samples` windows cover the recording up to a remainder shorter than W |
| Windowing.WindowInside | learn.py:57-60 | window k, `[k*W, k*W+W)`, lies inside the recording |
| Windowing.WindowsTile | learn.py:57-60 | windows are consecutive and disjoint: window j ends no later than window k > j begins |
| Windowing.Window | learn.py:58-60 | `infile[start:end]` has exactly W frames |
| Windowing.WindowMaximum | learn.py:61-62 | the argmax of a window is an index of the correlation vector |
| Windowing.WindowMaximumIsFirstMax | learn.py:61-62 | it is the first index of that window's largest correlation |
| Windowing.MaximaUpTo | learn.py:57-62 | the first n windows give n maxima, each below the vector length |
| Windowing.MaximaUpToStep | learn.py:57-62 | the maximum of window n follows the first n maxima |
| Windowing.Maxima | learn.py:57-62 | one maximum per whole window (some exactly when the file holds a window), each a vector index |
| Windowing.CorrelateWindow | learn.py:58-67 | one pass of the window loop: the argmax is the first maximum of window k's correlations, and `len(hist)` is the configured vector length |
| Learning.CounterDict.Update | learn.py:69 | `histograms[angle].update(ccr_maxs)` adds exactly the file's counts to that angle, appends a new angle to the keys, and leaves every other counter unchanged |
| Learning.Observe | learn.py:46-62 | one observation per file |
| Learning.ObservedFiles | learn.py:46-62 | observation i is file i's angle and window maxima, all maxima are vector indices, and when every label has a file holding a window every label has an observed window |
| Learning.ObserveStep | learn.py:46-62 | one more file appends its observation |
| Learning.Accumulate | learn.py:42-69 | the accumulated histograms have distinct keys, exactly those in the map |
| Learning.AccumulateStep | learn.py:69 | one more observation is one more `update` |
| Learning.CounterKeys | learn.py:69 | the keys are exactly the labels of the files |
| Learning.CountersAreLabelMaxima | learn.py:56-69 | the counter of angle a holds exactly the window maxima of the files labelled a, so files sharing a label accumulate |
| Learning.LabelMaximaBounds | learn.py:56-69 | angle a's maxima include, with multiplicity, those of each file labelled a, and are all vector indices |
| Learning.LabelMaximaBelow | learn.py:56-69 | every maximum collected for an angle is below the vector length |
| Learning.CountRow | learn.py:75-78 | `hists[i, m] = h[m]`: entry m of a row is the count of m (0 if never seen) |
| Learning.CountRowSum | learn.py:75-78 | a row of counts of in-range indices sums to the number of windows counted |
| Learning.NormalizeRow | learn.py:80-82 | dividing a row by its total keeps its length |
| Learning.NormalizedRow | learn.py:80-82 | a normalised row of non-negative counts sums to 1 and has entries in [0, 1] |
| Learning.RowTotals | learn.py:69-82 | each angle's row of counts sums to its number of windows, which is positive when every label was seen |
| Learning.SortedRowNonZero | learn.py:71-82 | the row of every sorted angle has a positive total, so the division is defined |
| Learning.Row | learn.py:78 | row i of the matrix has one entry per column, entry m being `hists[i, m]` |
| Learning.Table | learn.py:71-82 | one row per angle, each as wide as the vector |
| Learning.TableRows | learn.py:71-82 | row i is the normalised counter of the i-th sorted angle, and its total is not zero |
| Learning.LearnedAngles | learn.py:71 | the saved angles are strictly ascending and are exactly the labels of the files |
| Learning.LearnedTableRows | learn.py:71-82 | row i is P(index given angles[i]): entry m is that angle's number of windows peaking at m over its number of windows; entries in [0, 1], row sum 1 |
| Learning.LearnedTable | learn.py:84 | the saved `hists` has one row per learned angle, each as wide as the vector |
| Learning.LearnedLocalizerAnswers | crosscorrelizer.py:89-113 | a Localizer built from what learn.py saves is well formed, so `localize` always answers, with one of the learned angles |
| Learning.CountWindows | learn.py:54-67 | one file's Counter holds exactly its window maxima, as many as `num_samples`; `hist_len` is set to the vector length once a window is seen, and the `hist_len` assertion never fails |
| Learning.FillCounts | learn.py:72-78 | after the nested loop, row i of the matrix is the counter of `angles[i]` |
| Learning.Normalize | learn.py:80-82 | every row is divided in place by its own old total |
| Learning.AnyWindowStep | learn.py:64-67 | some file up to i+1 holds a window exactly when file i or an earlier one does |
| Learning.WindowSomewhere | learn.py:64-67 | one file holding a window makes `hist_len` set |
| Learning.CountFiles | learn.py:42-69 | the file loop yields the histograms of all observations, and `hist_len` is the vector length exactly when some file held a window (None otherwise) |
| Learning.BuildTable | learn.py:71-82 | angles are the sorted keys (exactly the keys), the matrix is fresh with one row per angle and one column per index, and row i is the normalised counter of `angles[i]` |
| Learning.Learn | learn.py:42-82 | the whole script: sorted angles and a fresh table whose row i is the learned distribution of `angles[i]` |
| Evaluation.Repeat | correlation.py:54 | n copies of the angle |
| Evaluation.RepeatStep | correlation.py:54 | one more window appends one more copy of the angle |
| Evaluation.AllMaxima | correlation.py:38-55 | `ccrs` has one entry per entry of `angles`, and each is a vector index |
| Evaluation.LabelsStep | correlation.py:38-54 | one more file appends its angle once per window, contiguously and in file order |
| Evaluation.AllMaximaStep | correlation.py:38-55 | one more file appends its window maxima in window order |
| Evaluation.Collect | correlation.py:35-55 | the lists are those of all files in order, have equal length, and every `ccrs` entry is a vector index |
| Evaluation.AppendWindows | correlation.py:46-55 | one file's window loop appends `num_samples` copies of its angle and its window maxima, in lockstep |
| Evaluation.Select | correlation.py:54-55 | no more `ccrs` entries are paired with one angle than `ccrs` holds |
| Evaluation.SelectFromCcrs | correlation.py:54-55 | the entries paired with one angle are taken from `ccrs`: a sub-multiset of it |
| Evaluation.SelectConcat | correlation.py:38-55 | selecting from concatenated list pairs selects from each in turn |
| Evaluation.SelectRepeat | correlation.py:54-55 | next to one repeated angle, all entries are selected when it is the angle asked for, none otherwise |
| Evaluation.PairsMatchLabelMaxima | correlation.py:38-55 | the maxima saved next to angle a are exactly, and in order, the window maxima of the files labelled a, as learn.py computes them |
| Evaluation.PairsMatchHistograms | correlation.py:38-55 | counting the saved pairs of angle a gives learn.py's counter for a |
| Evaluation.LabelsRecorded | correlation.py:38-54 | an angle appears in `angles` exactly when some file with that label holds a whole window |

## Left out

- Reading WAV files, `np.load`/`np.savez`, the YAML configuration, argparse and logging are input and output. The recordings, labels and parameters are arguments of the model, and the saved arrays are its results.
- The `isinstance(..., str)` branches of `cross_correlize` and `localize`, which read a file first, are file input and are not modelled.
- The `assert sr == sample_rate` checks in both scripts compare file metadata, which is not part of this model.
- The regular-expression label extraction is left out: each file carries its angle as an integer.
- The numeric content of `__ccr__` (means, `std`, a square root, IEEE rounding, NaN for silent windows) is not modelled. The score is an uninterpreted parameter, and symmetry is an explicit assumption where used.
- `scipy.stats.spearmanr` at the end of correlation.py is a foreign floating-point routine and is not modelled. The model stops at the two lists it receives.
- The unused `ccr_maxs = Counter()` in correlation.py has no effect and is not modelled.
- Floating point is replaced by exact reals:
  - `len(infile) / sample_length / sample_rate` before `int()` is modelled as integer division by W = sample_length * sample_rate;
  - row sums and divisions are exact.
- A fractional `sample_length` would give float slice bounds, which Python refuses. It is not modelled: sample length and rate are natural numbers.
- Learning.Learn requires a positive W, a non-zero step and `EveryLabelObserved`. The script would otherwise fail or produce NaN:
  - with a zero step, `range` raises at the first window;
  - with no window at all, `hist_len` stays None and the matrix cannot be built;
  - a label without windows has a row of zeros and is divided 0/0.
- Evaluation.Collect requires a positive W and a non-zero step. With a zero step the script raises at the first window, so nothing is lost when some file holds a window. The requires also excludes a zero-step run in which no file holds a whole window; correlation.py completes that run with two empty lists.
- The failure paths themselves are modelled in `Localization.CrossCorrelize` (ValueError) and `Localization.CrossCorrelizerFor` (ZeroDivisionError).
- Evaluation.Select is not in the source. It is the grouping by angle that a reader of the two lists performs, introduced to relate them to the learned counters.
