/**
 * The chunk listener: after every chunk it copies the step's running totals
 * into the shared progress tracker; after a failed chunk it only logs.
 */
module ChunkListener {
  import opened Batch
  import opened Tracker

  class ChunkProgressListener {
    const tracker: ProgressTracker

    constructor(tracker: ProgressTracker)
      ensures this.tracker == tracker
    {
      this.tracker := tracker;
    }

    /**
     * `afterChunk`: the tracker's counters become the step's read, write and
     * skip counts, whatever they held before (a snapshot, not a sum), and the
     * last update becomes the current time `now`. Only the tracker is written;
     * the step execution is a value and stays as it was.
     */
    method AfterChunk(step: StepExecution, now: int)
      modifies tracker
      ensures tracker.Counts() == Counters(step.readCount, step.writeCount, step.skipCount)
      ensures tracker.lastUpdate == now
    {
      tracker.totalRead := step.readCount;
      tracker.totalWritten := step.writeCount;
      tracker.skipCount := step.skipCount;
      tracker.lastUpdate := now;
    }

    /** `afterChunkError`: logs the failed chunk and leaves every tracker field as it was. */
    method AfterChunkError(step: StepExecution)
      ensures unchanged(tracker)
    {
    }
  }
}
