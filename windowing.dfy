/**
 * The fixed-length analysis windows that learn.py and correlation.py both
 * cut from every labelled recording, and the index of the largest
 * correlation found in each.
 */
module Windowing {
  import opened Builtins
  import opened Localization

  /** A recording together with the angle its file name carries. */
  datatype LabeledFile = LabeledFile(angle: int, samples: seq<Frame>)

  /** `num_samples`: how many whole windows of `w` frames fit into `n` frames. */
  function NumSamples(n: nat, w: nat): (k: nat)
    requires w > 0
    ensures k > 0 <==> w <= n
  {
    n / w
  }

  /** The whole windows cover the recording up to a remainder shorter than one window. */
  lemma WindowCount(n: nat, w: nat)
    requires w > 0
    ensures (n / w) * w <= n < (n / w + 1) * w
    ensures n / w > 0 <==> w <= n
  {
    if n / w > 0 {
      MultiplyMonotone(1, n / w, w);
    }
  }

  /** Multiplying by a positive number keeps the order. */
  lemma MultiplyMonotone(a: int, b: int, w: int)
    requires a <= b && 0 < w
    ensures a * w <= b * w
  {
    assert b * w - a * w == (b - a) * w;
  }

  /** Window `k` is `[k*w, (k+1)*w)`, inside the recording. */
  lemma WindowInside(n: nat, w: nat, k: nat)
    requires w > 0 && k < NumSamples(n, w)
    ensures (k + 1) * w <= n
    ensures 0 <= k * w && k * w + w <= n
  {
    WindowCount(n, w);
    MultiplyMonotone(k + 1, NumSamples(n, w), w);
    assert (k + 1) * w == k * w + w;
  }

  /** Windows are consecutive and disjoint: an earlier window ends no later than a later one begins, and each is inside the recording. */
  lemma WindowsTile(n: nat, w: nat, j: nat, k: nat)
    requires w > 0 && j < k < NumSamples(n, w)
    ensures (j + 1) * w <= k * w
    ensures k * w + w == (k + 1) * w <= n
  {
    MultiplyMonotone(j + 1, k, w);
    WindowInside(n, w, k);
  }

  /** `infile[start:end]` for window `k`. */
  function Window(samples: seq<Frame>, k: nat, w: nat): (win: seq<Frame>)
    requires w > 0 && k < NumSamples(|samples|, w)
    ensures |win| == w
  {
    WindowInside(|samples|, w, k);
    samples[k * w .. k * w + w]
  }

  /** `hist.argmax()` for window `k`: the first index of the largest correlation. */
  function WindowMaximum(c: CrossCorrelizer, ccr: Score, samples: seq<Frame>, w: nat, k: nat): (m: nat)
    requires w > 0 && c.shiftSteps != 0 && k < NumSamples(|samples|, w)
    ensures m < VectorLength(c)
  {
    ArgMax(CrossCorrelize(c, ccr, Window(samples, k, w)).value)
  }

  /** Window `k`'s maximum is the first index of the largest correlation of that window. */
  lemma WindowMaximumIsFirstMax(c: CrossCorrelizer, ccr: Score, samples: seq<Frame>, w: nat, k: nat)
    requires w > 0 && c.shiftSteps != 0 && k < NumSamples(|samples|, w)
    ensures IsFirstMax(CrossCorrelize(c, ccr, Window(samples, k, w)).value, WindowMaximum(c, ccr, samples, w, k))
  {
    ArgMaxIsFirstMax(CrossCorrelize(c, ccr, Window(samples, k, w)).value);
  }

  /** The maxima of the first `n` windows, in window order. */
  function MaximaUpTo(c: CrossCorrelizer, ccr: Score, samples: seq<Frame>, w: nat, n: nat): (ms: seq<nat>)
    requires w > 0 && c.shiftSteps != 0 && n <= NumSamples(|samples|, w)
    ensures |ms| == n
    ensures forall k :: 0 <= k < n ==> ms[k] < VectorLength(c)
  {
    if n == 0 then [] else MaximaUpTo(c, ccr, samples, w, n - 1) + [WindowMaximum(c, ccr, samples, w, n - 1)]
  }

  /** The maximum of window `n` follows the first `n` maxima. */
  lemma MaximaUpToStep(c: CrossCorrelizer, ccr: Score, samples: seq<Frame>, w: nat, n: nat, m: nat)
    requires w > 0 && c.shiftSteps != 0 && n < NumSamples(|samples|, w)
    requires m == WindowMaximum(c, ccr, samples, w, n)
    ensures MaximaUpTo(c, ccr, samples, w, n + 1) == MaximaUpTo(c, ccr, samples, w, n) + [m]
  {
  }

  /**
   * `hist.argmax()` for every window of a recording, in window order: one
   * per whole window, each a valid index of the correlation vector.
   */
  function Maxima(c: CrossCorrelizer, ccr: Score, samples: seq<Frame>, w: nat): (ms: seq<nat>)
    requires w > 0 && c.shiftSteps != 0
    ensures |ms| == NumSamples(|samples|, w)
    ensures |ms| > 0 <==> w <= |samples|
    ensures forall k :: 0 <= k < |ms| ==> ms[k] < VectorLength(c)
  {
    MaximaUpTo(c, ccr, samples, w, NumSamples(|samples|, w))
  }

  /** One pass of the window loop of either script: cut window `k` out of the recording, correlate it, and take the argmax and the length of the correlation vector. */
  method CorrelateWindow(c: CrossCorrelizer, ccr: Score, samples: seq<Frame>, w: nat, k: nat)
    returns (maximum: nat, length: nat)
    requires w > 0 && c.shiftSteps != 0 && k < NumSamples(|samples|, w)
    ensures maximum == WindowMaximum(c, ccr, samples, w, k)
    ensures IsFirstMax(CrossCorrelize(c, ccr, Window(samples, k, w)).value, maximum)
    ensures length == VectorLength(c)
  {
    WindowMaximumIsFirstMax(c, ccr, samples, w, k);
    WindowInside(|samples|, w, k);
    var start := k * w;
    var end := start + w;
    var sample := samples[start..end];
    assert sample == Window(samples, k, w);
    var hist := CrossCorrelize(c, ccr, sample).value;
    maximum := ArgMax(hist);
    length := |hist|;
  }
}
