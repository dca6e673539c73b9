/** The cycle-time average of recoverybase: `Part::UpdateAverageCycleTime` keeps
    `(average + t) / 2` in integers, starting from the first sample. */
module CycleAverage {

  datatype TimeVal = TimeVal(sec: int, usec: int)

  function Stamp(t: TimeVal): int {
    1000000 * t.sec + t.usec
  }

  /** `diffus`: the distance of two time stamps, in either order. */
  function DiffUs(a: TimeVal, b: TimeVal): (d: int)
    ensures d >= 0
    ensures Stamp(b) == Stamp(a) + d || Stamp(a) == Stamp(b) + d
  {
    var t1, t2 := Stamp(a), Stamp(b);
    if t2 > t1 then t2 - t1 else t1 - t2
  }

  /** The clock a microsecond later. */
  function Tick(t: TimeVal): TimeVal {
    if t.usec == 999999 then TimeVal(t.sec + 1, 0) else TimeVal(t.sec, t.usec + 1)
  }

  function Later(t: TimeVal, micros: nat): TimeVal {
    if micros == 0 then t else Tick(Later(t, micros - 1))
  }

  lemma {:induction false} LaterStamp(t: TimeVal, micros: nat)
    ensures Stamp(Later(t, micros)) == Stamp(t) + micros
  {
    if micros > 0 {
      LaterStamp(t, micros - 1);
    }
  }

  /** Two readings of a clock are apart by the microseconds it has ticked in between, whichever of them
      comes first. */
  lemma DiffIsTicks(t: TimeVal, micros: nat)
    ensures DiffUs(t, Later(t, micros)) == micros == DiffUs(Later(t, micros), t)
  {
    LaterStamp(t, micros);
  }

  /** A new part whose cycles take 4 * m to 4 * m + 3 microseconds each has an average of m. */
  lemma SteadyCycles(cycles: seq<(TimeVal, TimeVal)>, m: nat)
    requires cycles != []
    requires forall k :: 0 <= k < |cycles| ==>
               exists d: nat :: 4 * m <= d < 4 * m + 4 && cycles[k].1 == Later(cycles[k].0, d)
    ensures Average(0, Samples(cycles)) == m
  {
    forall k | 0 <= k < |cycles|
      ensures Samples(cycles)[k] == m
    {
      var d: nat :| 4 * m <= d < 4 * m + 4 && cycles[k].1 == Later(cycles[k].0, d);
      DiffIsTicks(cycles[k].0, d);
    }
    AverageBetween(Samples(cycles), m, m);
  }

  /** Nonnegative operands throughout, so division truncates as it does in the source. */
  function Next(average: nat, t: nat): nat {
    if average == 0 then t else (average + t) / 2
  }

  function Average(initial: nat, samples: seq<nat>): nat {
    if samples == [] then initial else Next(Average(initial, samples[..|samples| - 1]), samples[|samples| - 1])
  }

  /** The recurrence without truncation: the first sample, then the mean of the old value and the
      next sample. */
  function Exact(samples: seq<nat>): real
    requires samples != []
  {
    var n := |samples| - 1;
    if n == 0 then samples[0] as real else (Exact(samples[..n]) + samples[n] as real) / 2.0
  }

  /** The integer average is at most the exact one and less than one microsecond below it. */
  predicate Close(samples: seq<nat>)
    requires samples != []
  {
    0.0 <= Exact(samples) - Average(0, samples) as real < 1.0
  }

  lemma FirstSample(samples: seq<nat>)
    requires |samples| == 1
    ensures Average(0, samples) == samples[0] && Close(samples)
  {
    assert Average(0, samples[..0]) == 0;
  }

  /** One more sample keeps the average close unless it finds a zero average and is not zero itself. */
  lemma OneMore(samples: seq<nat>)
    requires |samples| > 1 && Close(samples[..|samples| - 1])
    ensures Close(samples) <==> (Average(0, samples[..|samples| - 1]) == 0 ==> samples[|samples| - 1] == 0)
  {
    var n := |samples| - 1;
    var before, t := Average(0, samples[..n]), samples[n];
    assert Average(0, samples) == Next(before, t);
    assert Exact(samples) == (Exact(samples[..n]) + t as real) / 2.0;
    assert 2 * ((before + t) / 2) <= before + t <= 2 * ((before + t) / 2) + 1;
  }

  /** No nonzero sample meets an average that has sunk to zero: the branch in which the source
      takes a zero average for a missing one. */
  predicate NeverForgets(samples: seq<nat>) {
    forall n :: 1 <= n < |samples| ==> Average(0, samples[..n]) == 0 ==> samples[n] == 0
  }

  /** Truncation never costs a whole microsecond at any time, however long the history, exactly if
      the average never starts over. */
  lemma {:induction false} AverageError(samples: seq<nat>)
    ensures (forall n :: 1 <= n <= |samples| ==> Close(samples[..n])) <==> NeverForgets(samples)
    decreases |samples|
  {
    if samples != [] {
      var m := |samples| - 1;
      AverageError(samples[..m]);
      assert forall n :: 0 <= n <= m ==> samples[..m][..n] == samples[..n];
      assert samples[..m + 1] == samples;
      assert NeverForgets(samples) <==> NeverForgets(samples[..m]) && (m >= 1 ==> Average(0, samples[..m]) == 0 ==> samples[m] == 0) by {
        assert forall n :: 1 <= n < m ==> samples[..m][n] == samples[n];
      }
      if m == 0 {
        FirstSample(samples);
      } else if Close(samples[..m]) {
        OneMore(samples);
      } else {
        assert samples[..m][..m] == samples[..m];
      }
    }
  }

  /** Samples of at least one microsecond are enough for that. */
  lemma {:induction false} PositiveSamples(samples: seq<nat>)
    requires forall k :: 0 <= k < |samples| ==> samples[k] >= 1
    ensures samples != [] ==> Average(0, samples) >= 1
    ensures NeverForgets(samples)
    decreases |samples|
  {
    forall n | 1 <= n < |samples|
      ensures Average(0, samples[..n]) >= 1
    {
      PositiveSamples(samples[..n]);
    }
    if |samples| == 1 {
      FirstSample(samples);
    }
  }

  /** The average lies between any bounds of the samples. */
  lemma {:induction false} AverageBetween(samples: seq<nat>, min: nat, max: nat)
    requires samples != []
    requires forall k :: 0 <= k < |samples| ==> min <= samples[k] <= max
    ensures min <= Average(0, samples) <= max
  {
    var n := |samples| - 1;
    if n == 0 {
      assert Average(0, samples[..0]) == 0;
    } else {
      AverageBetween(samples[..n], min, max);
    }
  }

  /** With a sample of zero the bound can break. */
  lemma ZeroSampleForgets()
    ensures Average(0, [1, 0, 9]) == 9 && Exact([1, 0, 9]) == 4.75
  {
    assert [1, 0, 9][..2] == [1, 0] && [1, 0][..1] == [1] && [1][..0] == [];
    assert Average(0, [1]) == 1 && Average(0, [1, 0]) == 0;
    assert Exact([1]) == 1.0 && Exact([1, 0]) == 0.5;
  }

  class Part {
    var averageTimePerCycle: nat

    constructor (initial: nat)
      ensures averageTimePerCycle == initial
    {
      averageTimePerCycle := initial;
    }

    /** A quarter of the measured time is averaged in. */
    method UpdateAverageCycleTime(start: TimeVal, end: TimeVal)
      modifies this
      ensures averageTimePerCycle == Next(old(averageTimePerCycle), DiffUs(start, end) / 4)
    {
      var t: nat := DiffUs(start, end) / 4;
      if averageTimePerCycle == 0 {
        averageTimePerCycle := t;
      } else {
        averageTimePerCycle := (averageTimePerCycle + t) / 2;
      }
    }

    /** Any number of cycles. */
    method UpdateAll(cycles: seq<(TimeVal, TimeVal)>)
      modifies this
      ensures averageTimePerCycle == Average(old(averageTimePerCycle), Samples(cycles))
    {
      for n := 0 to |cycles|
        invariant averageTimePerCycle == Average(old(averageTimePerCycle), Samples(cycles)[..n])
      {
        UpdateAverageCycleTime(cycles[n].0, cycles[n].1);
        assert Samples(cycles)[..n + 1][..n] == Samples(cycles)[..n];
      }
      assert Samples(cycles)[..|cycles|] == Samples(cycles);
    }
  }

  function Samples(cycles: seq<(TimeVal, TimeVal)>): (s: seq<nat>)
    ensures |s| == |cycles|
  {
    seq(|cycles|, n requires 0 <= n < |cycles| => DiffUs(cycles[n].0, cycles[n].1) / 4)
  }
}
