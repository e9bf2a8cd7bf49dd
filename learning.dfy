/**
 * learn.py: per angle, count which index of the correlation vector was the
 * largest over all windows of that angle's recordings, lay the counts out as
 * an angle-by-index matrix and normalise every angle's row into the
 * distribution P(index | angle) that the localizer's table is built from.
 */
module Learning {
  import opened Builtins
  import opened Localization
  import opened Windowing

  /**
   * `defaultdict(Counter)` keyed by angle: its keys in insertion order and,
   * per key, a Counter of vector indices (a multiset).
   */
  datatype CounterDict = CounterDict(keys: seq<int>, counters: map<int, multiset<nat>>) {

    ghost predicate Valid() {
      && Distinct(keys)
      && forall a :: a in keys <==> a in counters
    }

    /** The counter of angle `a`; an absent key reads as an empty Counter. */
    function Get(a: int): multiset<nat> {
      if a in counters then counters[a] else multiset{}
    }

    /** `d[a].update(ms)`: a new key gets an empty counter appended first; no other counter changes. */
    function Update(a: int, ms: multiset<nat>): (d: CounterDict)
      requires Valid()
      ensures d.Valid()
      ensures d.keys == if a in keys then keys else keys + [a]
      ensures d.Get(a) == Get(a) + ms
      ensures forall b :: b != a ==> d.Get(b) == Get(b)
    {
      CounterDict(if a in counters then keys else keys + [a], counters[a := Get(a) + ms])
    }
  }

  /** What one file contributes to the histograms: its label and the maxima of its windows. */
  datatype Observation = Observation(angle: int, maxima: seq<nat>)

  /** Every observed maximum is below `width`. */
  ghost predicate Bounded(obs: seq<Observation>, width: nat) {
    forall i, k :: 0 <= i < |obs| && 0 <= k < |obs[i].maxima| ==> obs[i].maxima[k] < width
  }

  /** Some observation of label `a` holds a window. */
  ghost predicate Seen(obs: seq<Observation>, a: int) {
    exists j :: 0 <= j < |obs| && obs[j].angle == a && |obs[j].maxima| > 0
  }

  /** There is an observation, and every label has at least one observed window. */
  ghost predicate EveryLabelSeen(obs: seq<Observation>) {
    && |obs| > 0
    && forall i :: 0 <= i < |obs| ==> Seen(obs, obs[i].angle)
  }

  /**
   * What learn.py needs of its input: at least one file, and for every label
   * some file long enough to hold a window (otherwise that label's row would
   * be 0 / 0, or no window at all would set `hist_len`).
   */
  ghost predicate EveryLabelObserved(files: seq<LabeledFile>, w: nat) {
    && |files| > 0
    && forall i :: 0 <= i < |files| ==> Recorded(files, w, files[i].angle)
  }

  /** Some file labelled `a` holds at least `w` frames. */
  ghost predicate Recorded(files: seq<LabeledFile>, w: nat, a: int) {
    exists j :: 0 <= j < |files| && files[j].angle == a && w <= |files[j].samples|
  }

  /** The observation of every file, in file order. */
  function Observe(c: CrossCorrelizer, ccr: Score, files: seq<LabeledFile>, w: nat): (obs: seq<Observation>)
    requires w > 0 && c.shiftSteps != 0
    ensures |obs| == |files|
  {
    if files == [] then []
    else
      var n := |files| - 1;
      Observe(c, ccr, files[..n], w) + [Observation(files[n].angle, Maxima(c, ccr, files[n].samples, w))]
  }

  /**
   * Each observation carries its file's label and window maxima; the maxima
   * are vector indices, and when every label has a file long enough for a
   * window, every label has an observed window.
   */
  lemma {:induction false} ObservedFiles(c: CrossCorrelizer, ccr: Score, files: seq<LabeledFile>, w: nat)
    requires w > 0 && c.shiftSteps != 0
    ensures forall i :: 0 <= i < |files| ==>
      Observe(c, ccr, files, w)[i] == Observation(files[i].angle, Maxima(c, ccr, files[i].samples, w))
    ensures Bounded(Observe(c, ccr, files, w), VectorLength(c))
    ensures EveryLabelObserved(files, w) ==> EveryLabelSeen(Observe(c, ccr, files, w))
  {
    var obs := Observe(c, ccr, files, w);
    if files != [] {
      var n := |files| - 1;
      var prefix := Observe(c, ccr, files[..n], w);
      ObservedFiles(c, ccr, files[..n], w);
      assert obs == prefix + [Observation(files[n].angle, Maxima(c, ccr, files[n].samples, w))];
      forall i | 0 <= i < |files|
        ensures obs[i] == Observation(files[i].angle, Maxima(c, ccr, files[i].samples, w))
      {
        if i < n {
          assert obs[i] == prefix[i] && files[..n][i] == files[i];
        }
      }
      if EveryLabelObserved(files, w) {
        forall i | 0 <= i < |obs|
          ensures Seen(obs, obs[i].angle)
        {
          var j :| 0 <= j < |files| && files[j].angle == files[i].angle && w <= |files[j].samples|;
          assert |Maxima(c, ccr, files[j].samples, w)| > 0;
        }
      }
    }
  }

  /** Observing one more file appends its observation. */
  lemma ObserveStep(c: CrossCorrelizer, ccr: Score, files: seq<LabeledFile>, w: nat, i: nat)
    requires w > 0 && c.shiftSteps != 0 && i < |files|
    ensures Observe(c, ccr, files[..i + 1], w)
      == Observe(c, ccr, files[..i], w) + [Observation(files[i].angle, Maxima(c, ccr, files[i].samples, w))]
  {
    assert files[..i + 1][..i] == files[..i];
  }

  /** The histograms after the file loop has run over the observations. */
  function Accumulate(obs: seq<Observation>): (d: CounterDict)
    ensures d.Valid()
  {
    if obs == [] then CounterDict([], map[])
    else
      var o := obs[|obs| - 1];
      Accumulate(obs[..|obs| - 1]).Update(o.angle, multiset(o.maxima))
  }

  /** One more file adds its maxima to its label's counter. */
  lemma AccumulateStep(obs: seq<Observation>, o: Observation)
    ensures Accumulate(obs + [o]) == Accumulate(obs).Update(o.angle, multiset(o.maxima))
  {
    assert (obs + [o])[..|obs|] == obs;
  }

  /** The window maxima of the files labelled `a`, in file order: an independent account of what the counters hold. */
  function LabelMaxima(obs: seq<Observation>, a: int): seq<nat> {
    if obs == [] then []
    else
      var o := obs[|obs| - 1];
      LabelMaxima(obs[..|obs| - 1], a) + (if o.angle == a then o.maxima else [])
  }

  /** The keys are exactly the labels of the files. */
  lemma {:induction false} CounterKeys(obs: seq<Observation>)
    ensures forall a :: a in Accumulate(obs).keys <==> exists i :: 0 <= i < |obs| && obs[i].angle == a
  {
    if obs != [] {
      var prefix := obs[..|obs| - 1];
      CounterKeys(prefix);
      forall a
        ensures a in Accumulate(obs).keys <==> exists i :: 0 <= i < |obs| && obs[i].angle == a
      {
        if exists i :: 0 <= i < |prefix| && prefix[i].angle == a {
          var i :| 0 <= i < |prefix| && prefix[i].angle == a;
          assert obs[i].angle == a;
        }
        if exists i :: 0 <= i < |obs| && obs[i].angle == a {
          var i :| 0 <= i < |obs| && obs[i].angle == a;
          if i < |prefix| {
            assert prefix[i].angle == a;
          }
        }
      }
    }
  }

  /** The counter of angle `a` holds each window maximum of the files labelled `a`, and nothing else. */
  lemma {:induction false} CountersAreLabelMaxima(obs: seq<Observation>, a: int)
    ensures Accumulate(obs).Get(a) == multiset(LabelMaxima(obs, a))
  {
    if obs != [] {
      CountersAreLabelMaxima(obs[..|obs| - 1], a);
    }
  }

  /** The maxima of label `obs[i].angle` include those of file `i`, and all of them are below `width`. */
  lemma {:induction false} LabelMaximaBounds(obs: seq<Observation>, width: nat, i: nat)
    requires Bounded(obs, width) && i < |obs|
    ensures |LabelMaxima(obs, obs[i].angle)| >= |obs[i].maxima|
    ensures multiset(obs[i].maxima) <= multiset(LabelMaxima(obs, obs[i].angle))
    ensures forall k :: 0 <= k < |LabelMaxima(obs, obs[i].angle)| ==> LabelMaxima(obs, obs[i].angle)[k] < width
  {
    var prefix := obs[..|obs| - 1];
    assert Bounded(prefix, width) by {
      forall j, k | 0 <= j < |prefix| && 0 <= k < |prefix[j].maxima|
        ensures prefix[j].maxima[k] < width
      {
        assert prefix[j] == obs[j];
      }
    }
    if i < |prefix| {
      assert prefix[i] == obs[i];
      LabelMaximaBounds(prefix, width, i);
    } else {
      LabelMaximaBelow(prefix, width, obs[i].angle);
    }
  }

  /** Every entry of `LabelMaxima` of bounded observations is below the bound. */
  lemma {:induction false} LabelMaximaBelow(obs: seq<Observation>, width: nat, a: int)
    requires Bounded(obs, width)
    ensures forall k :: 0 <= k < |LabelMaxima(obs, a)| ==> LabelMaxima(obs, a)[k] < width
  {
    if obs != [] {
      var prefix := obs[..|obs| - 1];
      assert Bounded(prefix, width) by {
        forall j, k | 0 <= j < |prefix| && 0 <= k < |prefix[j].maxima|
          ensures prefix[j].maxima[k] < width
        {
          assert prefix[j] == obs[j];
        }
      }
      LabelMaximaBelow(prefix, width, a);
    }
  }

  /** `hists[i, m] = h[m]` for one row: the counter as a row of `width` floats. */
  function CountRow(ms: multiset<nat>, width: nat): (row: seq<real>)
    ensures |row| == width
    ensures forall m :: 0 <= m < width ==> row[m] == ms[m] as real
  {
    seq(width, m requires 0 <= m < width => ms[m] as real)
  }

  /** Two rows that differ in one entry by one differ by one in their sums. */
  lemma {:induction false} SumBump(a: seq<real>, b: seq<real>, x: nat)
    requires |a| == |b| && x < |a|
    requires b[x] == a[x] + 1.0
    requires forall m :: 0 <= m < |a| && m != x ==> b[m] == a[m]
    ensures Sum(b) == Sum(a) + 1.0
  {
    var n := |a| - 1;
    if x < n {
      SumBump(a[..n], b[..n], x);
    } else {
      assert a[..n] == b[..n];
    }
  }

  /** A row of zeros sums to zero. */
  lemma {:induction false} ZeroRowSum(width: nat)
    ensures Sum(CountRow(multiset{}, width)) == 0.0
  {
    if width > 0 {
      ZeroRowSum(width - 1);
      assert CountRow(multiset{}, width)[..width - 1] == CountRow(multiset{}, width - 1);
    }
  }

  /** The row of a counter filled from a list of indices below `width` sums to the length of the list. */
  lemma {:induction false} CountRowSum(s: seq<nat>, width: nat)
    requires forall k :: 0 <= k < |s| ==> s[k] < width
    ensures Sum(CountRow(multiset(s), width)) == |s| as real
  {
    if s == [] {
      ZeroRowSum(width);
    } else {
      var s' := s[..|s| - 1];
      var x := s[|s| - 1];
      assert s == s' + [x];
      CountRowSum(s', width);
      SumBump(CountRow(multiset(s'), width), CountRow(multiset(s), width), x);
    }
  }

  /** `hists /= hists.sum(...)` for one row. */
  function NormalizeRow(row: seq<real>): (r: seq<real>)
    requires Sum(row) != 0.0
    ensures |r| == |row|
  {
    seq(|row|, m requires 0 <= m < |row| => row[m] / Sum(row))
  }

  /** A normalised row of non-negative entries sums to one and holds values in [0, 1]. */
  lemma NormalizedRow(row: seq<real>)
    requires forall m :: 0 <= m < |row| ==> 0.0 <= row[m]
    requires Sum(row) != 0.0
    ensures Sum(NormalizeRow(row)) == 1.0
    ensures forall m :: 0 <= m < |row| ==> 0.0 <= NormalizeRow(row)[m] <= 1.0
  {
    var t := Sum(row);
    SumScaled(row, t);
    assert NormalizeRow(row) == seq(|row|, i requires 0 <= i < |row| => row[i] / t);
    DivideBySelf(t);
    SumBoundsEntries(row);
    forall m | 0 <= m < |row|
      ensures 0.0 <= NormalizeRow(row)[m] <= 1.0
    {
      FractionBounds(row[m], t);
    }
  }

  /** A non-zero number divided by itself is one. */
  lemma DivideBySelf(t: real)
    requires t != 0.0
    ensures t / t == 1.0
  {
  }

  /** A share of a positive total lies in [0, 1]. */
  lemma FractionBounds(x: real, t: real)
    requires 0.0 <= x <= t && t != 0.0
    ensures 0.0 <= x / t <= 1.0
  {
    assert x / t * t == x;
  }

  /** Each angle's row of counts sums to the number of windows of that angle, which is positive. */
  lemma RowTotals(obs: seq<Observation>, width: nat, a: int)
    requires Bounded(obs, width) && EveryLabelSeen(obs)
    requires a in Accumulate(obs).keys
    ensures Sum(CountRow(Accumulate(obs).Get(a), width)) == |LabelMaxima(obs, a)| as real
    ensures |LabelMaxima(obs, a)| > 0
  {
    CounterKeys(obs);
    var i :| 0 <= i < |obs| && obs[i].angle == a;
    var j :| 0 <= j < |obs| && obs[j].angle == a && |obs[j].maxima| > 0;
    LabelMaximaBounds(obs, width, j);
    CountersAreLabelMaxima(obs, a);
    CountRowSum(LabelMaxima(obs, a), width);
  }

  /** The counts of every sorted angle have a non-zero total, so its row can be normalised. */
  lemma SortedRowNonZero(obs: seq<Observation>, width: nat, i: nat)
    requires Bounded(obs, width) && EveryLabelSeen(obs)
    requires i < |Accumulate(obs).keys|
    ensures Sum(CountRow(Accumulate(obs).Get(Sorted(Accumulate(obs).keys)[i]), width)) > 0.0
  {
    var d := Accumulate(obs);
    SortedMembers(d.keys);
    var a := Sorted(d.keys)[i];
    assert a in d.keys;
    RowTotals(obs, width, a);
  }

  /** For every sorted angle, its counts normalised over the vector indices. */
  function Table(obs: seq<Observation>, width: nat): (t: seq<seq<real>>)
    requires Bounded(obs, width) && EveryLabelSeen(obs)
    ensures |t| == |Accumulate(obs).keys|
    ensures forall i :: 0 <= i < |t| ==> |t[i]| == width
  {
    var d := Accumulate(obs);
    var angles := Sorted(d.keys);
    seq(|angles|, i requires 0 <= i < |angles| =>
      SortedRowNonZero(obs, width, i);
      NormalizeRow(CountRow(d.Get(angles[i]), width)))
  }

  /** Row `i` of the table normalises the counts of the `i`-th sorted angle, whose total is not zero. */
  lemma TableRows(obs: seq<Observation>, width: nat)
    requires Bounded(obs, width) && EveryLabelSeen(obs)
    ensures forall i :: 0 <= i < |Accumulate(obs).keys| ==>
      && Sum(CountRow(Accumulate(obs).Get(Sorted(Accumulate(obs).keys)[i]), width)) != 0.0
      && Table(obs, width)[i] == NormalizeRow(CountRow(Accumulate(obs).Get(Sorted(Accumulate(obs).keys)[i]), width))
  {
    forall i | 0 <= i < |Accumulate(obs).keys|
      ensures Sum(CountRow(Accumulate(obs).Get(Sorted(Accumulate(obs).keys)[i]), width)) != 0.0
    {
      SortedRowNonZero(obs, width, i);
    }
  }

  /** The saved `hists`: the table learned from the recordings. */
  function LearnedTable(c: CrossCorrelizer, ccr: Score, files: seq<LabeledFile>, w: nat): (t: seq<seq<real>>)
    requires w > 0 && c.shiftSteps != 0 && EveryLabelObserved(files, w)
    ensures |t| == |Accumulate(Observe(c, ccr, files, w)).keys|
    ensures forall i :: 0 <= i < |t| ==> |t[i]| == VectorLength(c)
  {
    ObservedFiles(c, ccr, files, w);
    Table(Observe(c, ccr, files, w), VectorLength(c))
  }

  /** The angles are strictly ascending and are exactly the labels seen. */
  lemma LearnedAngles(obs: seq<Observation>)
    ensures StrictlyAscending(Sorted(Accumulate(obs).keys))
    ensures forall a :: a in Sorted(Accumulate(obs).keys) <==> exists i :: 0 <= i < |obs| && obs[i].angle == a
  {
    CounterKeys(obs);
    SortedMembers(Accumulate(obs).keys);
  }

  /**
   * Row i of the learned table is P(index | angles[i]): the share of that
   * angle's windows whose largest correlation sat at each index; each row
   * sums to one and holds values in [0, 1].
   */
  lemma LearnedTableRows(obs: seq<Observation>, width: nat, i: nat)
    requires Bounded(obs, width) && EveryLabelSeen(obs)
    requires i < |Accumulate(obs).keys|
    ensures var a := Sorted(Accumulate(obs).keys)[i];
      var row := Table(obs, width)[i];
      var windows := LabelMaxima(obs, a);
      && |windows| > 0
      && (forall m :: 0 <= m < |row| ==> row[m] == multiset(windows)[m] as real / |windows| as real)
      && (forall m :: 0 <= m < |row| ==> 0.0 <= row[m] <= 1.0)
      && Sum(row) == 1.0
  {
    var d := Accumulate(obs);
    var a := Sorted(d.keys)[i];
    SortedMembers(d.keys);
    assert a in d.keys;
    RowTotals(obs, width, a);
    CountersAreLabelMaxima(obs, a);
    var windows := LabelMaxima(obs, a);
    var counts := CountRow(d.Get(a), width);
    assert Sum(counts) == |windows| as real;
    var row := Table(obs, width)[i];
    assert row == NormalizeRow(counts);
    NormalizedRow(counts);
    forall m | 0 <= m < |row|
      ensures row[m] == counts[m] / |windows| as real
    {
      assert row[m] == counts[m] / Sum(counts);
    }
  }

  /** A localizer built from the learned angles and table is well formed, so it always answers, and with one of the learned angles. */
  lemma LearnedLocalizerAnswers(c: CrossCorrelizer, ccr: Score, files: seq<LabeledFile>, w: nat, sample: seq<Frame>)
    requires w > 0 && c.shiftSteps != 0 && EveryLabelObserved(files, w)
    ensures var angles := Sorted(Accumulate(Observe(c, ccr, files, w)).keys);
      var r := NewLocalizer(angles, LearnedTable(c, ccr, files, w), VectorLength(c), c);
      && r.Ok?
      && WellFormed(r.value)
      && Localize(r.value, ccr, sample).Ok?
      && Localize(r.value, ccr, sample).value in angles
  {
    var obs := Observe(c, ccr, files, w);
    ObservedFiles(c, ccr, files, w);
    CounterKeys(obs);
    assert obs[0].angle in Accumulate(obs).keys;
  }

  /** One file's window loop: a Counter of the window maxima, and `hist_len` set (and checked) once a window was seen. */
  method CountWindows(c: CrossCorrelizer, ccr: Score, samples: seq<Frame>, w: nat, histLenIn: Option<nat>)
    returns (ccrMaxs: multiset<nat>, histLen: Option<nat>)
    requires w > 0 && c.shiftSteps != 0
    requires histLenIn.Some? ==> histLenIn.value == VectorLength(c)
    ensures ccrMaxs == multiset(Maxima(c, ccr, samples, w))
    ensures |ccrMaxs| == NumSamples(|samples|, w)
    ensures histLen == if w <= |samples| then Some(VectorLength(c)) else histLenIn
  {
    var numSamples := |samples| / w;
    ccrMaxs := multiset{};
    histLen := histLenIn;
    for offset := 0 to numSamples
      invariant ccrMaxs == multiset(MaximaUpTo(c, ccr, samples, w, offset))
      invariant histLen == if offset > 0 then Some(VectorLength(c)) else histLenIn
    {
      var maximum, length := CorrelateWindow(c, ccr, samples, w, offset);
      ccrMaxs := ccrMaxs + multiset{maximum};
      if histLen.None? {
        histLen := Some(length);
      } else {
        assert histLen.value == length;
      }
    }
  }

  /** Row `i` of a matrix. */
  function Row(hists: array2<real>, i: nat): (row: seq<real>)
    requires i < hists.Length0
    reads hists
    ensures |row| == hists.Length1
    ensures forall m :: 0 <= m < hists.Length1 ==> row[m] == hists[i, m]
  {
    seq(hists.Length1, m requires 0 <= m < hists.Length1 reads hists => hists[i, m])
  }

  /** The nested loop `hists[i, m] = h[m]` over the sorted angles: row `i` becomes the counter of `angles[i]`. */
  method FillCounts(hists: array2<real>, angles: seq<int>, histograms: CounterDict)
    requires hists.Length0 == |angles|
    modifies hists
    ensures forall i :: 0 <= i < hists.Length0 ==> Row(hists, i) == CountRow(histograms.Get(angles[i]), hists.Length1)
  {
    for i := 0 to hists.Length0
      invariant forall r :: 0 <= r < i ==> Row(hists, r) == CountRow(histograms.Get(angles[r]), hists.Length1)
    {
      var h := histograms.Get(angles[i]);
      for m := 0 to hists.Length1
        invariant forall r :: 0 <= r < i ==> Row(hists, r) == CountRow(histograms.Get(angles[r]), hists.Length1)
        invariant forall k :: 0 <= k < m ==> hists[i, k] == h[k] as real
      {
        hists[i, m] := h[m] as real;
      }
      assert Row(hists, i) == CountRow(h, hists.Length1);
    }
  }

  /**
   * `hists = hists.T; hists /= hists.sum(axis=0)`, stated on the untransposed
   * matrix: the sum runs over the shift indices, so every angle's row is
   * divided by its own total.
   */
  method Normalize(hists: array2<real>)
    requires forall i :: 0 <= i < hists.Length0 ==> Sum(Row(hists, i)) != 0.0
    modifies hists
    ensures forall i :: 0 <= i < hists.Length0 ==> Row(hists, i) == NormalizeRow(old(Row(hists, i)))
  {
    ghost var rows := seq(hists.Length0, i requires 0 <= i < hists.Length0 reads hists => Row(hists, i));
    for i := 0 to hists.Length0
      invariant forall r :: 0 <= r < i ==> Row(hists, r) == NormalizeRow(rows[r])
      invariant forall r :: i <= r < hists.Length0 ==> Row(hists, r) == rows[r]
    {
      var total := Sum(Row(hists, i));
      for m := 0 to hists.Length1
        invariant forall r :: 0 <= r < i ==> Row(hists, r) == NormalizeRow(rows[r])
        invariant forall r :: i < r < hists.Length0 ==> Row(hists, r) == rows[r]
        invariant forall k :: 0 <= k < m ==> hists[i, k] == rows[i][k] / total
        invariant forall k :: m <= k < hists.Length1 ==> hists[i, k] == rows[i][k]
      {
        hists[i, m] := hists[i, m] / total;
      }
      assert Row(hists, i) == NormalizeRow(rows[i]);
    }
  }

  /** Some file holds at least `w` frames, so some window sets `hist_len`. */
  ghost predicate AnyWindow(files: seq<LabeledFile>, w: nat) {
    files != [] && (w <= |files[|files| - 1].samples| || AnyWindow(files[..|files| - 1], w))
  }

  /** A prefix one file longer has a whole window iff that file does or the shorter prefix has one. */
  lemma AnyWindowStep(files: seq<LabeledFile>, w: nat, i: nat)
    requires i < |files|
    ensures AnyWindow(files[..i + 1], w) <==> w <= |files[i].samples| || AnyWindow(files[..i], w)
  {
    assert files[..i + 1][..i] == files[..i];
  }

  /** A file with at least `w` frames makes `AnyWindow` hold. */
  lemma {:induction false} WindowSomewhere(files: seq<LabeledFile>, w: nat, j: nat)
    requires j < |files| && w <= |files[j].samples|
    ensures AnyWindow(files, w)
  {
    var n := |files| - 1;
    if j < n {
      assert files[..n][j] == files[j];
      WindowSomewhere(files[..n], w, j);
    }
  }

  /** learn.py's file loop: the histograms of all files, and `hist_len` once any file held a window. */
  method CountFiles(c: CrossCorrelizer, ccr: Score, files: seq<LabeledFile>, w: nat)
    returns (histograms: CounterDict, histLen: Option<nat>)
    requires w > 0 && c.shiftSteps != 0
    ensures histograms == Accumulate(Observe(c, ccr, files, w))
    ensures histLen == if AnyWindow(files, w) then Some(VectorLength(c)) else None
  {
    histograms := CounterDict([], map[]);
    histLen := None;
    for i := 0 to |files|
      invariant histograms == Accumulate(Observe(c, ccr, files[..i], w))
      invariant histLen == if AnyWindow(files[..i], w) then Some(VectorLength(c)) else None
    {
      var f := files[i];
      var ccrMaxs;
      ccrMaxs, histLen := CountWindows(c, ccr, f.samples, w, histLen);
      histograms := histograms.Update(f.angle, ccrMaxs);
      ObserveStep(c, ccr, files, w, i);
      AccumulateStep(Observe(c, ccr, files[..i], w), Observation(f.angle, Maxima(c, ccr, f.samples, w)));
      AnyWindowStep(files, w, i);
    }
    assert files[..|files|] == files;
  }

  /**
   * learn.py after the file loop: the sorted angles, the count matrix
   * filled row by row and then normalised per angle.
   */
  method BuildTable(histograms: CounterDict, maxMatch: nat) returns (angles: seq<int>, hists: array2<real>)
    requires histograms.Valid()
    requires forall a :: a in histograms.keys ==> Sum(CountRow(histograms.Get(a), maxMatch)) != 0.0
    ensures angles == Sorted(histograms.keys)
    ensures forall a :: a in angles <==> a in histograms.keys
    ensures fresh(hists) && hists.Length0 == |angles| && hists.Length1 == maxMatch
    ensures forall i :: 0 <= i < hists.Length0 ==>
      Row(hists, i) == NormalizeRow(CountRow(histograms.Get(angles[i]), maxMatch))
  {
    angles := Sorted(histograms.keys);
    SortedMembers(histograms.keys);
    hists := new real[|angles|, maxMatch]((i, m) => 0.0);
    FillCounts(hists, angles, histograms);
    Normalize(hists);
  }

  /**
   * learn.py end to end: the sorted angles and the normalised
   * angle-by-index table it saves. `w` is `sample_length * sample_rate`.
   */
  method Learn(c: CrossCorrelizer, ccr: Score, sampleLength: nat, sampleRate: nat, files: seq<LabeledFile>)
    returns (angles: seq<int>, hists: array2<real>)
    requires 0 < sampleLength * sampleRate && c.shiftSteps != 0
    requires EveryLabelObserved(files, sampleLength * sampleRate)
    ensures angles == Sorted(Accumulate(Observe(c, ccr, files, sampleLength * sampleRate)).keys)
    ensures fresh(hists) && hists.Length0 == |angles| && hists.Length1 == VectorLength(c)
    ensures forall i :: 0 <= i < hists.Length0 ==> Row(hists, i) == LearnedTable(c, ccr, files, sampleLength * sampleRate)[i]
  {
    var w := sampleLength * sampleRate;
    var histograms, histLen := CountFiles(c, ccr, files, w);
    ghost var obs := Observe(c, ccr, files, w);
    ObservedFiles(c, ccr, files, w);
    assert Recorded(files, w, files[0].angle);
    var j :| 0 <= j < |files| && files[j].angle == files[0].angle && w <= |files[j].samples|;
    WindowSomewhere(files, w, j);
    forall a | a in histograms.keys
      ensures Sum(CountRow(histograms.Get(a), histLen.value)) != 0.0
    {
      RowTotals(obs, histLen.value, a);
    }
    angles, hists := BuildTable(histograms, histLen.value);
    TableRows(obs, histLen.value);
    ghost var table := LearnedTable(c, ccr, files, w);
    assert table == Table(obs, histLen.value);
    forall i | 0 <= i < hists.Length0
      ensures Row(hists, i) == table[i]
    {
      assert Row(hists, i) == NormalizeRow(CountRow(histograms.Get(angles[i]), histLen.value));
    }
  }
}
