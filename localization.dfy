/**
 * crosscorrelizer.py: the cross-correlation engine (`CrossCorrelizer`), the
 * derivation of its shift range from acoustic parameters (`cross_correlizer`)
 * and the maximum-likelihood localizer (`Localizer`).
 *
 * Sign convention of the correlation vector, as the code fixes it: with K
 * tested shift magnitudes, index K is shift 0, index K + j scores the left
 * channel against the right channel delayed by j steps, and index K - j
 * scores the right channel against the left channel delayed by j steps.
 */
module Localization {
  import opened Builtins

  /** One row of the (N x 2) sample array: a left and a right channel value. */
  datatype Frame = Frame(left: real, right: real)

  /** `infile[:, 0]` */
  function Left(sample: seq<Frame>): (r: seq<real>)
    ensures |r| == |sample|
    ensures forall i :: 0 <= i < |sample| ==> r[i] == sample[i].left
  {
    seq(|sample|, i requires 0 <= i < |sample| => sample[i].left)
  }

  /** `infile[:, 1]` */
  function Right(sample: seq<Frame>): (r: seq<real>)
    ensures |r| == |sample|
    ensures forall i :: 0 <= i < |sample| ==> r[i] == sample[i].right
  {
    seq(|sample|, i requires 0 <= i < |sample| => sample[i].right)
  }

  /** The same recording with its two channels exchanged. */
  function Swap(sample: seq<Frame>): (r: seq<Frame>)
    ensures |r| == |sample|
    ensures Left(r) == Right(sample) && Right(r) == Left(sample)
  {
    seq(|sample|, i requires 0 <= i < |sample| => Frame(sample[i].right, sample[i].left))
  }

  /**
   * The normalised cross-correlation `__ccr__` (a Pearson coefficient, which
   * needs a square root), left uninterpreted: any function that is defined on
   * every pair of equally long vectors.
   */
  type Score = f: (seq<real>, seq<real>) --> real
    | forall a: seq<real>, b: seq<real> :: |a| == |b| ==> f.requires(a, b)
    witness (a: seq<real>, b: seq<real>) => 0.0

  /** The Pearson coefficient is symmetric in its two arguments. */
  ghost predicate Symmetric(ccr: Score) {
    forall a: seq<real>, b: seq<real> :: |a| == |b| ==> ccr(a, b) == ccr(b, a)
  }

  /** A configured correlizer: the sample rate it expects, the exclusive bound on tested shifts and the step between them, in samples. */
  datatype CrossCorrelizer = CrossCorrelizer(sampleRate: int, shiftMax: int, shiftSteps: int)

  /** The tested shift magnitudes, `range(shift_steps, shift_max, shift_steps)`. */
  function Shifts(c: CrossCorrelizer): (r: seq<int>)
    requires c.shiftSteps != 0
    ensures c.shiftSteps > 0 ==> forall i :: 0 <= i < |r| ==> c.shiftSteps <= r[i] < c.shiftMax
    ensures c.shiftSteps < 0 ==> forall i :: 0 <= i < |r| ==> c.shiftMax < r[i] <= c.shiftSteps
  {
    Range(c.shiftSteps, c.shiftMax, c.shiftSteps)
  }

  /** The length of every correlation vector the correlizer produces. */
  function VectorLength(c: CrossCorrelizer): nat
    requires c.shiftSteps != 0
  {
    2 * |Shifts(c)| + 1
  }

  /** The number K of positive multiples of a positive step strictly below `shiftMax`. */
  function ShiftCount(c: CrossCorrelizer): nat
    requires c.shiftSteps > 0
  {
    if c.shiftMax > 0 then (c.shiftMax - 1) / c.shiftSteps else 0
  }

  /** A factor of a positive product with a positive integer is positive. */
  lemma PositiveFactor(a: int, d: int)
    requires 0 < d && 0 < a * d
    ensures 0 < a
  {
  }

  /** Euclidean division is determined by its bracketing multiples. */
  lemma DivisionBracket(x: int, d: int, q: int)
    requires d > 0 && q * d <= x < (q + 1) * d
    ensures x / d == q
  {
    var q', r' := x / d, x % d;
    assert x == q' * d + r' && 0 <= r' < d;
    assert (q + 1 - q') * d == (q + 1) * d - q' * d;
    PositiveFactor(q + 1 - q', d);
    assert (q' + 1 - q) * d == (q' + 1) * d - q * d;
    PositiveFactor(q' + 1 - q, d);
  }

  /** With a positive step the tested shifts are `step, 2*step, ..., K*step`, all below `shiftMax`. */
  lemma ShiftsAreMultiples(c: CrossCorrelizer)
    requires c.shiftSteps > 0
    ensures |Shifts(c)| == ShiftCount(c)
    ensures forall j :: 1 <= j <= ShiftCount(c) ==> Shifts(c)[j - 1] == j * c.shiftSteps < c.shiftMax
  {
    var step, s := c.shiftSteps, Shifts(c);
    var n := |s|;
    RangeAscending(step, c.shiftMax, step);
    forall j | 1 <= j <= n
      ensures s[j - 1] == j * step < c.shiftMax
    {
      assert s[j - 1] == step + (j - 1) * step;
      NextMultiple(j - 1, step);
    }
    if c.shiftMax > 0 {
      NextMultiple(n, step);
      if n > 0 {
        NextMultiple(n - 1, step);
      }
      DivisionBracket(c.shiftMax - 1, step, n);
    }
  }

  /** The multiple after `k * d` is `(k + 1) * d`. */
  lemma NextMultiple(k: int, d: int)
    ensures d + k * d == (k + 1) * d
  {
  }

  /** A correlation vector has length 2K + 1: odd, and fixed by the configuration alone. */
  lemma VectorLengthIsOdd(c: CrossCorrelizer)
    requires c.shiftSteps > 0
    ensures VectorLength(c) == 2 * ShiftCount(c) + 1
    ensures VectorLength(c) % 2 == 1
  {
    ShiftsAreMultiples(c);
  }

  /** `[ccr(x[:-shift], y[shift:]) for shift in range(shift_steps, shift_max, shift_steps)]`: `x` leads `y` by each tested shift. */
  function ShiftScores(c: CrossCorrelizer, ccr: Score, x: seq<real>, y: seq<real>): (r: seq<real>)
    requires c.shiftSteps != 0 && |x| == |y|
    ensures |r| == |Shifts(c)|
  {
    var shifts := Shifts(c);
    seq(|shifts|, i requires 0 <= i < |shifts| => ccr(Take(x, -shifts[i]), Drop(y, shifts[i])))
  }

  /** `cross_correlize`: the scores at every tested shift, right-leads first (decreasing), then no shift, then left-leads (increasing). */
  function CrossCorrelize(c: CrossCorrelizer, ccr: Score, sample: seq<Frame>): (r: Result<seq<real>>)
    ensures r.Ok? <==> c.shiftSteps != 0
    ensures r.Err? ==> r.exception == ValueError
    ensures r.Ok? ==> |r.value| == VectorLength(c) && |r.value| % 2 == 1
  {
    if c.shiftSteps == 0 then Err(ValueError)
    else
      var left, right := Left(sample), Right(sample);
      var shiftRight := ShiftScores(c, ccr, left, right);
      var noShift := [ccr(left, right)];
      var shiftLeft := ShiftScores(c, ccr, right, left);
      var result := Reverse(shiftLeft) + noShift + shiftRight;
      assert |result| % 2 == 1;
      Ok(result)
  }

  /** The centre entry scores the two whole channels against each other, whatever the shift configuration. */
  lemma CenterIsUnshifted(c: CrossCorrelizer, ccr: Score, sample: seq<Frame>)
    requires c.shiftSteps != 0
    ensures CrossCorrelize(c, ccr, sample).Ok?
    ensures CrossCorrelize(c, ccr, sample).value[|Shifts(c)|] == ccr(Left(sample), Right(sample))
  {
  }

  /** Shifting by `s > 0` leaves two windows of equal length `N - s` (empty once `s >= N`), the head of one channel and the tail of the other. */
  lemma ShiftedWindows<T>(x: seq<T>, y: seq<T>, s: int)
    requires |x| == |y| && 0 < s
    ensures |Take(x, -s)| == |Drop(y, s)| == if s < |x| then |x| - s else 0
    ensures s <= |x| ==> Take(x, -s) == x[..|x| - s] && Drop(y, s) == y[s..]
  {
  }

  /** For 1 <= j <= K, index K + j scores `left[..N-j*step]` against `right[j*step..]` and index K - j the channels the other way round. */
  lemma ShiftedEntries(c: CrossCorrelizer, ccr: Score, sample: seq<Frame>, j: int)
    requires c.shiftSteps > 0 && 1 <= j <= ShiftCount(c)
    ensures CrossCorrelize(c, ccr, sample).Ok?
    ensures var v, k, s := CrossCorrelize(c, ccr, sample).value, ShiftCount(c), j * c.shiftSteps;
      && 0 < s
      && |v| == 2 * k + 1
      && v[k + j] == ccr(Take(Left(sample), -s), Drop(Right(sample), s))
      && v[k - j] == ccr(Take(Right(sample), -s), Drop(Left(sample), s))
    ensures var v, k, s, n := CrossCorrelize(c, ccr, sample).value, ShiftCount(c), j * c.shiftSteps, |sample|;
      c.shiftMax < n ==>
        && 0 < n - s
        && v[k + j] == ccr(Left(sample)[..n - s], Right(sample)[s..])
        && v[k - j] == ccr(Right(sample)[..n - s], Left(sample)[s..])
  {
    ShiftsAreMultiples(c);
    var s := j * c.shiftSteps;
    assert Shifts(c)[j - 1] == s < c.shiftMax;
    ShiftedWindows(Left(sample), Right(sample), s);
    ShiftedWindows(Right(sample), Left(sample), s);
  }

  /** When the recording is longer than `shiftMax`, every score is taken over two non-empty windows of equal length. */
  lemma WindowsNonEmpty(c: CrossCorrelizer, sample: seq<Frame>)
    requires c.shiftSteps > 0 && c.shiftMax < |sample|
    ensures forall i :: 0 <= i < |Shifts(c)| ==>
      && 0 < |Take(Left(sample), -Shifts(c)[i])| == |Drop(Right(sample), Shifts(c)[i])|
      && 0 < |Take(Right(sample), -Shifts(c)[i])| == |Drop(Left(sample), Shifts(c)[i])|
  {
    forall i | 0 <= i < |Shifts(c)|
      ensures 0 < |Take(Left(sample), -Shifts(c)[i])| == |Drop(Right(sample), Shifts(c)[i])|
      ensures 0 < |Take(Right(sample), -Shifts(c)[i])| == |Drop(Left(sample), Shifts(c)[i])|
    {
      ShiftedWindows(Left(sample), Right(sample), Shifts(c)[i]);
      ShiftedWindows(Right(sample), Left(sample), Shifts(c)[i]);
    }
  }

  /** Reversing `a[::-1] + [x] + b` gives `b[::-1] + [x] + a`. */
  lemma ReverseAroundCentre(a: seq<real>, x: real, b: seq<real>)
    ensures Reverse(Reverse(a) + [x] + b) == Reverse(b) + [x] + a
  {
  }

  /** Exchanging the channels reverses the correlation vector exactly, the Pearson score being symmetric. */
  lemma SwapReverses(c: CrossCorrelizer, ccr: Score, sample: seq<Frame>)
    requires c.shiftSteps != 0 && Symmetric(ccr)
    ensures CrossCorrelize(c, ccr, Swap(sample)).Ok? && CrossCorrelize(c, ccr, sample).Ok?
    ensures CrossCorrelize(c, ccr, Swap(sample)).value == Reverse(CrossCorrelize(c, ccr, sample).value)
  {
    var left, right := Left(sample), Right(sample);
    assert Left(Swap(sample)) == right && Right(Swap(sample)) == left;
    ReverseAroundCentre(ShiftScores(c, ccr, right, left), ccr(left, right), ShiftScores(c, ccr, left, right));
  }

  /** `cross_correlizer`: a correlizer whose shifts span `max_itd` seconds in steps of half a period of `max_frequency`. */
  function CrossCorrelizerFor(sampleRate: int, maxItd: real, maxFrequency: real): (r: Result<CrossCorrelizer>)
    ensures r.Err? <==> maxFrequency == 0.0
    ensures r.Err? ==> r.exception == ZeroDivisionError
    ensures r.Ok? ==> r.value.sampleRate == sampleRate
    ensures r.Ok? ==> var x := maxItd * sampleRate as real;
      x <= r.value.shiftMax as real < x + 1.0
    ensures r.Ok? && 0 < sampleRate && 0.0 < maxFrequency ==> var y := sampleRate as real / (2.0 * maxFrequency);
      r.value.shiftSteps as real <= y < r.value.shiftSteps as real + 1.0
  {
    if maxFrequency == 0.0 then Err(ZeroDivisionError)
    else
      var shiftMax := Ceil(maxItd * sampleRate as real);
      var shiftSteps := Trunc(sampleRate as real / maxFrequency / 2.0);
      assert sampleRate as real / maxFrequency / 2.0 == sampleRate as real / (2.0 * maxFrequency);
      Ok(CrossCorrelizer(sampleRate, shiftMax, shiftSteps))
  }

  /** For positive parameters the range is non-empty, and the step is positive exactly when `max_frequency` is at most half the sample rate. */
  lemma DerivedConfiguration(sampleRate: int, maxItd: real, maxFrequency: real)
    requires 0 < sampleRate && 0.0 < maxItd && 0.0 < maxFrequency
    ensures CrossCorrelizerFor(sampleRate, maxItd, maxFrequency).Ok?
    ensures CrossCorrelizerFor(sampleRate, maxItd, maxFrequency).value.shiftMax >= 1
    ensures CrossCorrelizerFor(sampleRate, maxItd, maxFrequency).value.shiftSteps > 0
      <==> 2.0 * maxFrequency <= sampleRate as real
  {
    var c := CrossCorrelizerFor(sampleRate, maxItd, maxFrequency).value;
    var y := sampleRate as real / (2.0 * maxFrequency);
    assert 0.0 < maxItd * sampleRate as real;
    assert 2.0 * maxFrequency <= sampleRate as real <==> 1.0 <= y;
  }

  /** 16 kHz, 1 ms and 4 kHz give shifts below 16 in steps of 2: a vector of 15 entries. */
  lemma ExampleConfiguration()
    ensures CrossCorrelizerFor(16000, 0.001, 4000.0) == Ok(CrossCorrelizer(16000, 16, 2))
    ensures VectorLength(CrossCorrelizer(16000, 16, 2)) == 15
  {
    VectorLengthIsOdd(CrossCorrelizer(16000, 16, 2));
  }

  /** The trained model: the sorted angles, and per shift index the row of the most likely angle. */
  datatype Localizer = Localizer(angles: seq<int>, decisions: seq<nat>, correlizer: CrossCorrelizer)

  /** Column `m` of a matrix given as its rows. */
  function Column(hists: seq<seq<real>>, m: nat): (col: seq<real>)
    requires forall i :: 0 <= i < |hists| ==> m < |hists[i]|
    ensures |col| == |hists|
    ensures forall i :: 0 <= i < |hists| ==> col[i] == hists[i][m]
  {
    seq(|hists|, i requires 0 <= i < |hists| => hists[i][m])
  }

  /** `hists.argmax(axis=0)`: for every column, the first row holding its maximum. */
  function Decisions(hists: seq<seq<real>>, width: nat): (d: seq<nat>)
    requires |hists| > 0
    requires forall i :: 0 <= i < |hists| ==> |hists[i]| == width
    ensures |d| == width
    ensures forall m :: 0 <= m < width ==> d[m] < |hists|
    ensures forall m, i :: 0 <= m < width && 0 <= i < |hists| ==> hists[i][m] <= hists[d[m]][m]
    ensures forall m, i :: 0 <= m < width && 0 <= i < d[m] ==> hists[i][m] < hists[d[m]][m]
  {
    var d := seq(width, m requires 0 <= m < width => ArgMax(Column(hists, m)));
    assert forall m :: 0 <= m < width ==> IsFirstMax(Column(hists, m), d[m]) by {
      forall m | 0 <= m < width
        ensures IsFirstMax(Column(hists, m), d[m])
      {
        ArgMaxIsFirstMax(Column(hists, m));
      }
    }
    d
  }

  /** `Localizer.__init__` from the saved angles and angle-by-shift-index table (`width` columns); numpy refuses the argmax of an empty column. */
  function NewLocalizer(angles: seq<int>, hists: seq<seq<real>>, width: nat, correlizer: CrossCorrelizer): (r: Result<Localizer>)
    requires forall i :: 0 <= i < |hists| ==> |hists[i]| == width
    ensures r.Err? <==> |hists| == 0
    ensures r.Err? ==> r.exception == ValueError
    ensures r.Ok? ==> r.value.angles == angles && r.value.correlizer == correlizer
    ensures r.Ok? ==> |r.value.decisions| == width
    ensures r.Ok? ==> forall m :: 0 <= m < width ==> IsFirstMax(Column(hists, m), r.value.decisions[m])
  {
    if |hists| == 0 then Err(ValueError)
    else Ok(Localizer(angles, Decisions(hists, width), correlizer))
  }

  /** A localizer whose table matches its correlizer: one decision per vector index, each naming one of the angles. */
  ghost predicate WellFormed(loc: Localizer) {
    && loc.correlizer.shiftSteps != 0
    && |loc.decisions| == VectorLength(loc.correlizer)
    && forall m :: 0 <= m < |loc.decisions| ==> loc.decisions[m] < |loc.angles|
  }

  /** `localize`: the angle the table chooses for the first index of the largest correlation. */
  function Localize(loc: Localizer, ccr: Score, sample: seq<Frame>): (r: Result<int>)
    ensures loc.correlizer.shiftSteps == 0 ==> r == Err(ValueError)
    ensures loc.correlizer.shiftSteps != 0 && r.Err? ==> r.exception == IndexError
    ensures WellFormed(loc) ==> r.Ok?
    ensures r.Ok? ==> r.value in loc.angles
    ensures r.Ok? ==> forall b :: IsFirstMax(CrossCorrelize(loc.correlizer, ccr, sample).value, b) ==>
      b < |loc.decisions| && loc.decisions[b] < |loc.angles| && r.value == loc.angles[loc.decisions[b]]
    ensures loc.correlizer.shiftSteps != 0 ==>
      var best := ArgMax(CrossCorrelize(loc.correlizer, ccr, sample).value);
      (r.Err? <==> best >= |loc.decisions| || loc.decisions[best] >= |loc.angles|)
  {
    var cc :- CrossCorrelize(loc.correlizer, ccr, sample);
    var best := ArgMax(cc);
    if best >= |loc.decisions| then Err(IndexError)
    else
      var mle := loc.decisions[best];
      if mle >= |loc.angles| then Err(IndexError)
      else
        assert forall b :: IsFirstMax(cc, b) ==> b == best by {
          forall b | IsFirstMax(cc, b) ensures b == best { FirstMaxUnique(cc, b); }
        }
        Ok(loc.angles[mle])
  }
}
