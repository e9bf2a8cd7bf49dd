/**
 * correlation.py: the evaluation script. It cuts every labelled recording
 * into the same windows as learn.py and, for every window, records the
 * file's angle next to the index of the largest correlation; the two lists
 * are what the rank correlation is computed over.
 */
module Evaluation {
  import opened Builtins
  import opened Localization
  import opened Windowing
  import opened Learning

  /** `n` copies of `x`. */
  function Repeat(x: int, n: nat): (r: seq<int>)
    ensures |r| == n
    ensures forall k :: 0 <= k < n ==> r[k] == x
  {
    seq(n, _ => x)
  }

  /** One more copy goes at the end. */
  lemma RepeatStep(x: int, n: nat)
    ensures Repeat(x, n + 1) == Repeat(x, n) + [x]
  {
    assert Repeat(x, n + 1)[..n] == Repeat(x, n);
  }

  /** The `angles` list after the file loop: each file's angle, once per whole window of that file. */
  function Labels(files: seq<LabeledFile>, w: nat): (r: seq<int>)
    requires w > 0
  {
    if files == [] then []
    else
      var n := |files| - 1;
      Labels(files[..n], w) + Repeat(files[n].angle, NumSamples(|files[n].samples|, w))
  }

  /** The `ccrs` list after the file loop: the window maxima of every file, in file order; one per entry of `Labels`, each a vector index. */
  function AllMaxima(c: CrossCorrelizer, ccr: Score, files: seq<LabeledFile>, w: nat): (ms: seq<nat>)
    requires w > 0 && c.shiftSteps != 0
    ensures |ms| == |Labels(files, w)|
    ensures forall k :: 0 <= k < |ms| ==> ms[k] < VectorLength(c)
  {
    if files == [] then []
    else
      var n := |files| - 1;
      AllMaxima(c, ccr, files[..n], w) + Maxima(c, ccr, files[n].samples, w)
  }

  /** Extending the files by one extends `angles` by that file's repeated label. */
  lemma LabelsStep(files: seq<LabeledFile>, w: nat, i: nat)
    requires w > 0 && i < |files|
    ensures Labels(files[..i + 1], w) == Labels(files[..i], w) + Repeat(files[i].angle, NumSamples(|files[i].samples|, w))
  {
    assert files[..i + 1][..i] == files[..i];
  }

  /** Extending the files by one extends `ccrs` by that file's window maxima. */
  lemma AllMaximaStep(c: CrossCorrelizer, ccr: Score, files: seq<LabeledFile>, w: nat, i: nat)
    requires w > 0 && c.shiftSteps != 0 && i < |files|
    ensures AllMaxima(c, ccr, files[..i + 1], w) == AllMaxima(c, ccr, files[..i], w) + Maxima(c, ccr, files[i].samples, w)
  {
    assert files[..i + 1][..i] == files[..i];
  }

  /**
   * The file loop of correlation.py. The two lists stay in lockstep, hold
   * every labelled window in file and window order, and every `ccrs` entry
   * is an index of the correlation vector.
   */
  method Collect(c: CrossCorrelizer, ccr: Score, sampleLength: nat, sampleRate: nat, files: seq<LabeledFile>)
    returns (angles: seq<int>, ccrs: seq<nat>)
    requires 0 < sampleLength * sampleRate && c.shiftSteps != 0
    ensures angles == Labels(files, sampleLength * sampleRate)
    ensures ccrs == AllMaxima(c, ccr, files, sampleLength * sampleRate)
    ensures |angles| == |ccrs|
    ensures forall k :: 0 <= k < |ccrs| ==> ccrs[k] < VectorLength(c)
  {
    var w := sampleLength * sampleRate;
    angles, ccrs := [], [];
    for i := 0 to |files|
      invariant angles == Labels(files[..i], w)
      invariant ccrs == AllMaxima(c, ccr, files[..i], w)
    {
      angles, ccrs := AppendWindows(c, ccr, files[i], w, angles, ccrs);
      LabelsStep(files, w, i);
      AllMaximaStep(c, ccr, files, w, i);
    }
    assert files[..|files|] == files;
  }

  /** One file's window loop: `angles.append(angle)` and `ccrs.append(hist.argmax())` once per window. */
  method AppendWindows(c: CrossCorrelizer, ccr: Score, f: LabeledFile, w: nat, anglesIn: seq<int>, ccrsIn: seq<nat>)
    returns (angles: seq<int>, ccrs: seq<nat>)
    requires w > 0 && c.shiftSteps != 0
    ensures angles == anglesIn + Repeat(f.angle, NumSamples(|f.samples|, w))
    ensures ccrs == ccrsIn + Maxima(c, ccr, f.samples, w)
  {
    var numSamples := |f.samples| / w;
    angles, ccrs := anglesIn, ccrsIn;
    for offset := 0 to numSamples
      invariant angles == anglesIn + Repeat(f.angle, offset)
      invariant ccrs == ccrsIn + MaximaUpTo(c, ccr, f.samples, w, offset)
    {
      var maximum, _ := CorrelateWindow(c, ccr, f.samples, w, offset);
      angles := angles + [f.angle];
      ccrs := ccrs + [maximum];
      RepeatStep(f.angle, offset);
      MaximaUpToStep(c, ccr, f.samples, w, offset, maximum);
    }
  }

  /** The `ccrs` entries whose `angles` entry is `a`, in order. */
  function Select(angles: seq<int>, ccrs: seq<nat>, a: int): (r: seq<nat>)
    requires |angles| == |ccrs|
    ensures |r| <= |ccrs|
  {
    if angles == [] then []
    else
      var n := |angles| - 1;
      Select(angles[..n], ccrs[..n], a) + (if angles[n] == a then [ccrs[n]] else [])
  }

  /** What is selected is taken from `ccrs`: every entry, counted with multiplicity, occurs there at least as often. */
  lemma {:induction false} SelectFromCcrs(angles: seq<int>, ccrs: seq<nat>, a: int)
    requires |angles| == |ccrs|
    ensures multiset(Select(angles, ccrs, a)) <= multiset(ccrs)
  {
    if angles != [] {
      var n := |angles| - 1;
      SelectFromCcrs(angles[..n], ccrs[..n], a);
      assert ccrs == ccrs[..n] + [ccrs[n]];
    }
  }

  /** Selecting from two concatenated pairs of lists selects from each in turn. */
  lemma {:induction false} SelectConcat(a1: seq<int>, c1: seq<nat>, a2: seq<int>, c2: seq<nat>, a: int)
    requires |a1| == |c1| && |a2| == |c2|
    ensures Select(a1 + a2, c1 + c2, a) == Select(a1, c1, a) + Select(a2, c2, a)
    decreases |a2|
  {
    if a2 != [] {
      var n := |a2| - 1;
      assert (a1 + a2)[..|a1| + n] == a1 + a2[..n];
      assert (c1 + c2)[..|c1| + n] == c1 + c2[..n];
      SelectConcat(a1, c1, a2[..n], c2[..n], a);
    } else {
      assert a1 + a2 == a1 && c1 + c2 == c1;
    }
  }

  /** Next to a repeated label, selecting keeps every entry when the label is `a` and none otherwise. */
  lemma {:induction false} SelectRepeat(x: int, ms: seq<nat>, a: int)
    ensures Select(Repeat(x, |ms|), ms, a) == if x == a then ms else []
  {
    if ms != [] {
      var n := |ms| - 1;
      assert Repeat(x, |ms|)[..n] == Repeat(x, n);
      SelectRepeat(x, ms[..n], a);
      assert ms[..n] + [ms[n]] == ms;
    }
  }

  /**
   * The pairs correlation.py saves agree with the counters learn.py builds:
   * the maxima recorded next to angle `a` are exactly the window maxima of
   * the files labelled `a`, in the same order.
   */
  lemma {:induction false} PairsMatchLabelMaxima(c: CrossCorrelizer, ccr: Score, files: seq<LabeledFile>, w: nat, a: int)
    requires w > 0 && c.shiftSteps != 0
    ensures Select(Labels(files, w), AllMaxima(c, ccr, files, w), a) == LabelMaxima(Observe(c, ccr, files, w), a)
  {
    if files != [] {
      var n := |files| - 1;
      var ms := Maxima(c, ccr, files[n].samples, w);
      PairsMatchLabelMaxima(c, ccr, files[..n], w, a);
      SelectConcat(Labels(files[..n], w), AllMaxima(c, ccr, files[..n], w), Repeat(files[n].angle, |ms|), ms, a);
      SelectRepeat(files[n].angle, ms, a);
      var obs := Observe(c, ccr, files, w);
      assert obs[..n] == Observe(c, ccr, files[..n], w);
      assert obs[n] == Observation(files[n].angle, ms);
    }
  }

  /** Counting the saved pairs per angle gives learn.py's counter for that angle. */
  lemma PairsMatchHistograms(c: CrossCorrelizer, ccr: Score, files: seq<LabeledFile>, w: nat, a: int)
    requires w > 0 && c.shiftSteps != 0
    ensures multiset(Select(Labels(files, w), AllMaxima(c, ccr, files, w), a)) == Accumulate(Observe(c, ccr, files, w)).Get(a)
  {
    PairsMatchLabelMaxima(c, ccr, files, w, a);
    CountersAreLabelMaxima(Observe(c, ccr, files, w), a);
  }

  /** An angle appears in the saved `angles` exactly when some file with that label holds a whole window. */
  lemma {:induction false} LabelsRecorded(files: seq<LabeledFile>, w: nat, x: int)
    requires w > 0
    ensures x in Labels(files, w) <==> Recorded(files, w, x)
  {
    if files != [] {
      var n := |files| - 1;
      var r := Repeat(files[n].angle, NumSamples(|files[n].samples|, w));
      LabelsRecorded(files[..n], w, x);
      assert x in Labels(files, w) <==> x in Labels(files[..n], w) || x in r;
      assert x in r <==> files[n].angle == x && w <= |files[n].samples| by {
        if x in r {
          assert r[0] == files[n].angle;
        }
        if files[n].angle == x && w <= |files[n].samples| {
          assert r[0] == x;
        }
      }
      if Recorded(files[..n], w, x) {
        var j :| 0 <= j < n && files[..n][j].angle == x && w <= |files[..n][j].samples|;
        assert files[j] == files[..n][j];
      }
      if Recorded(files, w, x) {
        var j :| 0 <= j < |files| && files[j].angle == x && w <= |files[j].samples|;
        if j < n {
          assert files[..n][j] == files[j];
        }
      }
    }
  }
}
