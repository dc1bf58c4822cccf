/**
 * The skip listener: on a processing or writing skip it finds the job's id in
 * the job's parameters, adjusts that job's progress entry by one, and appends
 * the skipped record to the shared skip output; a read skip is only logged.
 *
 * The per-job progress update it calls is not part of the tracker as shown, so
 * the per-job entries are modelled here as their own registry: a map from job
 * id to counters in which an update changes the named job's entry only.
 */
module Skips {
  import opened Wrappers
  import opened Records
  import opened Batch
  import opened Tracker

  /** The job parameter that names the job. */
  const JobIdKey: string := "JobID"

  /** Why the listener could not find the job id (an `IllegalStateException`). */
  datatype ContextError = NoJobContext | MissingJobId

  /**
   * `getJobId`, with the current job's parameters passed in (absent when no job
   * context is active): the `JobID` parameter, or the error for a missing
   * context or a missing parameter.
   */
  function GetJobId(context: Option<JobParameters>): (r: Result<string, ContextError>)
    ensures r.Success? <==> context.Some? && JobIdKey in context.value
    ensures r.Success? ==> r.value == context.value[JobIdKey]
    ensures context.None? ==> r == Failure(NoJobContext)
    ensures context.Some? && JobIdKey !in context.value ==> r == Failure(MissingJobId)
  {
    match context
    case None => Failure(NoJobContext)
    case Some(parameters) =>
      if JobIdKey in parameters then Success(parameters[JobIdKey]) else Failure(MissingJobId)
  }

  /** The two per-job updates the listener makes: `totalRead++` and `totalWritten--`. */
  datatype Delta = IncrementRead | DecrementWritten

  /** The entry of a job, or zeroed counters for a job not yet seen. */
  function Entry(progress: map<string, Counters>, jobId: string): Counters
  {
    if jobId in progress then progress[jobId] else Zero
  }

  function ApplyDelta(c: Counters, d: Delta): Counters
  {
    match d
    case IncrementRead => c.(totalRead := c.totalRead + 1)
    case DecrementWritten => c.(totalWritten := c.totalWritten - 1)
  }

  /**
   * The per-job update: the named job's entry moves by exactly one in the one
   * counter the delta names; every other job's entry is unchanged.
   */
  function UpdatedProgress(progress: map<string, Counters>, jobId: string, d: Delta): (r: map<string, Counters>)
    ensures r.Keys == progress.Keys + {jobId}
    ensures forall k :: k in progress && k != jobId ==> r[k] == progress[k]
    ensures r[jobId].skipCount == Entry(progress, jobId).skipCount
    ensures r[jobId].totalRead == Entry(progress, jobId).totalRead + (if d == IncrementRead then 1 else 0)
    ensures r[jobId].totalWritten == Entry(progress, jobId).totalWritten - (if d == DecrementWritten then 1 else 0)
  {
    progress[jobId := ApplyDelta(Entry(progress, jobId), d)]
  }

  /**
   * One callback of the listener. `writeSucceeds` is whether the skip output
   * accepted the one-record chunk; `context` is the current job's parameters.
   */
  datatype SkipEvent =
    | ReadSkip
    | ProcessSkip(context: Option<JobParameters>, item: TrafficDensity, writeSucceeds: bool)
    | WriteSkip(context: Option<JobParameters>, item: TrafficDensity, writeSucceeds: bool)

  /** What the listener's callbacks can change: the per-job entries and the skip output. */
  datatype ListenerState = ListenerState(progress: map<string, Counters>, skipped: seq<TrafficDensity>)

  /**
   * The effect of one callback. A read skip changes nothing. A process or write
   * skip with no job id changes nothing (it fails before any update); otherwise
   * it applies its delta to the job's entry and, when the write succeeds,
   * appends the record; a failed write leaves the update in place.
   */
  function OnSkip(s: ListenerState, e: SkipEvent): (r: ListenerState)
    ensures e.ReadSkip? || GetJobId(e.context).Failure? ==> r == s
    ensures r.skipped == s.skipped + SkippedBy(e)
    ensures !e.ReadSkip? && GetJobId(e.context).Success? ==>
      r.progress == UpdatedProgress(s.progress, GetJobId(e.context).value,
                                    if e.ProcessSkip? then IncrementRead else DecrementWritten)
  {
    match e
    case ReadSkip => s
    case ProcessSkip(context, item, ok) =>
      (match GetJobId(context)
       case Failure(_) => s
       case Success(jobId) =>
         ListenerState(UpdatedProgress(s.progress, jobId, IncrementRead),
                       if ok then s.skipped + [item] else s.skipped))
    case WriteSkip(context, item, ok) =>
      (match GetJobId(context)
       case Failure(_) => s
       case Success(jobId) =>
         ListenerState(UpdatedProgress(s.progress, jobId, DecrementWritten),
                       if ok then s.skipped + [item] else s.skipped))
  }

  /** The effect of a run of callbacks, in call order. */
  function Replay(s: ListenerState, events: seq<SkipEvent>): ListenerState
    decreases |events|
  {
    if events == [] then s else Replay(OnSkip(s, events[0]), events[1..])
  }

  /** True when `e` is a skip of kind `process` (or else `write`) attributed to `jobId`. */
  predicate AttributedTo(e: SkipEvent, jobId: string, process: bool)
  {
    if process then e.ProcessSkip? && GetJobId(e.context) == Success(jobId)
    else e.WriteSkip? && GetJobId(e.context) == Success(jobId)
  }

  /** How many events are skips of the given kind attributed to `jobId`. */
  function CountFor(events: seq<SkipEvent>, jobId: string, process: bool): nat
  {
    if events == [] then 0
    else (if AttributedTo(events[0], jobId, process) then 1 else 0) + CountFor(events[1..], jobId, process)
  }

  /** The records the skip output should receive: those of attributed skips whose write succeeded. */
  function SkippedItems(events: seq<SkipEvent>): seq<TrafficDensity>
  {
    if events == [] then []
    else
      SkippedBy(events[0]) + SkippedItems(events[1..])
  }

  /** The record one callback appends to the skip output, if any. */
  function SkippedBy(e: SkipEvent): seq<TrafficDensity>
  {
    if !e.ReadSkip? && GetJobId(e.context).Success? && e.writeSucceeds then [e.item] else []
  }

  /** The effect of one callback on one job's entry and on the skip output. */
  lemma OnSkipStep(s: ListenerState, e: SkipEvent, jobId: string)
    ensures var before, after := Entry(s.progress, jobId), Entry(OnSkip(s, e).progress, jobId);
      after == Counters(before.totalRead + (if AttributedTo(e, jobId, true) then 1 else 0),
                        before.totalWritten - (if AttributedTo(e, jobId, false) then 1 else 0),
                        before.skipCount)
    ensures OnSkip(s, e).skipped == s.skipped + SkippedBy(e)
  {
  }

  /**
   * Accounting over any run of callbacks: each job's read count rises by its
   * process skips, its written count falls by its write skips, its skip count
   * is untouched, and the skip output gains exactly the skipped records, in call order.
   */
  lemma {:induction false} ReplayAccounting(s: ListenerState, events: seq<SkipEvent>, jobId: string)
    ensures var before, after := Entry(s.progress, jobId), Entry(Replay(s, events).progress, jobId);
      after == Counters(before.totalRead + CountFor(events, jobId, true),
                        before.totalWritten - CountFor(events, jobId, false),
                        before.skipCount)
    ensures Replay(s, events).skipped == s.skipped + SkippedItems(events)
    decreases |events|
  {
    if events != [] {
      var next := OnSkip(s, events[0]);
      OnSkipStep(s, events[0], jobId);
      ReplayAccounting(next, events[1..], jobId);
      assert s.skipped + SkippedItems(events) == next.skipped + SkippedItems(events[1..]);
    }
  }

  /** The per-job entries (the part of progress tracking the listener updates). */
  class JobProgressRegistry {
    var entries: map<string, Counters>

    constructor()
      ensures entries == map[]
    {
      entries := map[];
    }

    /** `updateProgress(jobId)`: applies the delta to that job's entry alone. */
    method UpdateProgress(jobId: string, d: Delta)
      modifies this
      ensures entries == UpdatedProgress(old(entries), jobId, d)
    {
      entries := UpdatedProgress(entries, jobId, d);
    }
  }

  /** The shared skip output, seen as the records written to it so far. */
  class SkippedItemsWriter {
    var written: seq<TrafficDensity>

    constructor()
      ensures written == []
    {
      written := [];
    }

    /** Writes one chunk; when the write fails (`succeeds` false) nothing is appended and the failure is reported. */
    method Write(chunk: seq<TrafficDensity>, succeeds: bool) returns (ok: bool)
      modifies this
      ensures ok == succeeds
      ensures written == if succeeds then old(written) + chunk else old(written)
    {
      ok := succeeds;
      if succeeds {
        written := written + chunk;
      }
    }
  }

  class TrafficDensitySkipListener {
    const registry: JobProgressRegistry
    const writer: SkippedItemsWriter

    constructor(registry: JobProgressRegistry, writer: SkippedItemsWriter)
      ensures this.registry == registry && this.writer == writer
    {
      this.registry := registry;
      this.writer := writer;
    }

    function State(): ListenerState
      reads registry, writer
    {
      ListenerState(registry.entries, writer.written)
    }

    /** `onSkipInRead`: logs only; no counter and no skip output changes. */
    method OnSkipInRead()
      ensures unchanged(registry, writer)
    {
    }

    /**
     * `onSkipInProcess`: fails before any change when the job id cannot be
     * found; otherwise `totalRead` of that job rises by one and the record is
     * appended to the skip output, a failed append being swallowed.
     */
    method OnSkipInProcess(context: Option<JobParameters>, item: TrafficDensity, writeSucceeds: bool)
      returns (r: Outcome<ContextError>)
      modifies registry, writer
      ensures r.Fail? <==> GetJobId(context).Failure?
      ensures State() == OnSkip(old(State()), ProcessSkip(context, item, writeSucceeds))
    {
      var jobId := GetJobId(context);
      if jobId.Failure? {
        return Fail(jobId.error);
      }
      registry.UpdateProgress(jobId.value, IncrementRead);
      var chunk := [item];
      var _ := writer.Write(chunk, writeSucceeds);
      r := Pass;
    }

    /**
     * `onSkipInWrite`: fails before any change when the job id cannot be
     * found; otherwise `totalWritten` of that job falls by one and the record is
     * appended to the skip output, a failed append being swallowed.
     */
    method OnSkipInWrite(context: Option<JobParameters>, item: TrafficDensity, writeSucceeds: bool)
      returns (r: Outcome<ContextError>)
      modifies registry, writer
      ensures r.Fail? <==> GetJobId(context).Failure?
      ensures State() == OnSkip(old(State()), WriteSkip(context, item, writeSucceeds))
    {
      var jobId := GetJobId(context);
      if jobId.Failure? {
        return Fail(jobId.error);
      }
      registry.UpdateProgress(jobId.value, DecrementWritten);
      var chunk := [item];
      var _ := writer.Write(chunk, writeSucceeds);
      r := Pass;
    }
  }
}
