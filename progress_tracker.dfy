/**
 * The single, application-wide progress tracker: three counters and the time
 * of the last update, overwritten in place by the chunk listener and reset by
 * the controller before each launch.
 */
module Tracker {
  import opened Text

  /** The three counters of a progress entry (Kotlin `Long`s). */
  datatype Counters = Counters(totalRead: int, totalWritten: int, skipCount: int)

  /** All counters at zero. */
  const Zero: Counters := Counters(0, 0, 0)

  /** The text that opens the tracker's `toString`. */
  const Prefix: string := "ProgressTracker("

  class ProgressTracker {
    var totalRead: int
    var totalWritten: int
    var lastUpdate: int
    var skipCount: int

    /** A fresh tracker: counters at zero, last update at the creation time `now`. */
    constructor(now: int)
      ensures Counts() == Zero && lastUpdate == now
    {
      totalRead := 0;
      totalWritten := 0;
      lastUpdate := now;
      skipCount := 0;
    }

    /** The tracker's counters, without the timestamp. */
    function Counts(): Counters
      reads this
    {
      Counters(totalRead, totalWritten, skipCount)
    }

    /**
     * `reset`: counters back to zero whatever they held, and the last update
     * set to the current time `now`. The new counters do not depend on the old
     * ones, so resetting twice leaves the same counters as resetting once.
     */
    method Reset(now: int)
      modifies this
      ensures Counts() == Zero && lastUpdate == now
    {
      totalRead := 0;
      totalWritten := 0;
      lastUpdate := now;
      skipCount := 0;
    }

    /**
     * `toString`: "ProgressTracker(" then four comma-separated `name=value`
     * entries in the order totalRead, totalWritten, lastUpdate, skipCount, then ")".
     */
    function ToString(): (s: string)
      reads this
      ensures |s| > |Prefix| && s[..|Prefix|] == Prefix && s[|s| - 1] == ')'
      ensures Split(s[|Prefix|..|s| - 1]) == Entries(totalRead, totalWritten, lastUpdate, skipCount)
    {
      var entries := Entries(totalRead, totalWritten, lastUpdate, skipCount);
      var s := Prefix + Join(entries) + ")";
      assert s[|Prefix|..|s| - 1] == Join(entries);
      SplitJoin(entries);
      s
    }
  }

  /**
   * The `name=value` entries of the tracker's `toString`, as they stand between
   * its commas: the field order is totalRead, totalWritten, lastUpdate, skipCount.
   */
  function Entries(totalRead: int, totalWritten: int, lastUpdate: int, skipCount: int): (r: seq<string>)
    ensures |r| == 4 && forall k :: 0 <= k < 4 ==> Comma !in r[k]
  {
    LabelledCommaFree("totalRead=", FormatInt(totalRead));
    LabelledCommaFree(" totalWritten=", FormatInt(totalWritten));
    LabelledCommaFree(" lastUpdate=", FormatInt(lastUpdate));
    LabelledCommaFree(" skipCount=", FormatInt(skipCount));
    ["totalRead=" + FormatInt(totalRead), " totalWritten=" + FormatInt(totalWritten),
     " lastUpdate=" + FormatInt(lastUpdate), " skipCount=" + FormatInt(skipCount)]
  }

  lemma LabelledCommaFree(name: string, value: string)
    requires Comma !in name && Comma !in value
    ensures Comma !in name + value
  {
  }
}
