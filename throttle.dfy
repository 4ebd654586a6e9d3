/** The wall-clock throttle on position reports made from the progress loop. */
module Throttle {

  /** Minimum gap, in milliseconds, between two reports from the progress loop. */
  const ReportInterval := 2000

  /** `now - lastSaveTime > 2000`. */
  predicate Due(now: int, lastSaveTime: int)
  {
    now - lastSaveTime > ReportInterval
  }

  /** Each report time is more than one interval after the one before it. */
  ghost predicate Spaced(times: seq<int>)
  {
    forall i :: 0 < i < |times| ==> times[i] - times[i - 1] > ReportInterval
  }

  /** Appending a report that was due keeps the times spaced. */
  lemma AppendDue(times: seq<int>, now: int)
    requires Spaced(times) && times != [] && Due(now, times[|times| - 1])
    ensures Spaced(times + [now])
  {
  }

  /**
   * Any two reports `i < j` are more than `j - i` intervals apart; in particular
   * no window of 2000 ms holds two reports.
   */
  lemma {:induction false} SpacedApart(times: seq<int>, i: nat, j: nat)
    requires Spaced(times) && i < j < |times|
    ensures times[j] - times[i] > ReportInterval * (j - i)
    decreases j - i
  {
    if i + 1 < j {
      SpacedApart(times, i, j - 1);
    }
  }
}
