/**
 * The observable parts of the batch framework's own types that the core reads
 * or changes: statuses, job parameters, step and job executions.
 */
module Batch {
  import opened Wrappers

  /** The status of a job or step execution. */
  datatype BatchStatus = COMPLETED | STARTING | STARTED | STOPPING | STOPPED | FAILED | ABANDONED | UNKNOWN

  /** The status as its `toString` renders it: the constant's name, in capitals. */
  function StatusName(s: BatchStatus): (r: string)
    ensures |r| >= 6
    ensures forall k :: 0 <= k < |r| ==> 'A' <= r[k] <= 'Z'
  {
    match s
    case COMPLETED => "COMPLETED"
    case STARTING => "STARTING"
    case STARTED => "STARTED"
    case STOPPING => "STOPPING"
    case STOPPED => "STOPPED"
    case FAILED => "FAILED"
    case ABANDONED => "ABANDONED"
    case UNKNOWN => "UNKNOWN"
  }

  /** Distinct statuses render differently, so a rendered status identifies the status. */
  lemma StatusNameInjective(a: BatchStatus, b: BatchStatus)
    ensures StatusName(a) == StatusName(b) <==> a == b
  {
    if a != b {
      var x, y := StatusName(a), StatusName(b);
      assert |x| != |y| || x[0] != y[0] || x[4] != y[4];
    }
  }

  /**
   * An execution counts as running while it is starting, started or stopping:
   * that is, until it has ended (completed, stopped, failed or abandoned),
   * and never when its status is unknown.
   */
  function IsRunning(s: BatchStatus): (r: bool)
    ensures r <==> !(s == COMPLETED || s == STOPPED || s == FAILED || s == ABANDONED || s == UNKNOWN)
  {
    s == STARTING || s == STARTED || s == STOPPING
  }

  /** Named string parameters of one launch. */
  type JobParameters = map<string, string>

  /** The counters of one step execution, as the framework maintains them. */
  datatype StepExecution = StepExecution(
    stepName: string,
    status: BatchStatus,
    readCount: int,
    writeCount: int,
    commitCount: int,
    rollbackCount: int,
    skipCount: int)

  /** A job instance: an id and the name of its job. */
  datatype JobInstance = JobInstance(instanceId: int, jobName: string)

  /**
   * One execution of a job. Times are held as their ISO-8601 rendering and are
   * absent until set; the status is the part the controller changes in place.
   */
  class JobExecution {
    const id: int
    const jobName: string
    var status: BatchStatus
    var startTime: Option<string>
    var endTime: Option<string>
    var exitCode: string
    var stepExecutions: seq<StepExecution>

    constructor(id: int, jobName: string, status: BatchStatus, startTime: Option<string>,
                endTime: Option<string>, exitCode: string, stepExecutions: seq<StepExecution>)
      ensures this.id == id && this.jobName == jobName && this.status == status
      ensures this.startTime == startTime && this.endTime == endTime
      ensures this.exitCode == exitCode && this.stepExecutions == stepExecutions
    {
      this.id := id;
      this.jobName := jobName;
      this.status := status;
      this.startTime := startTime;
      this.endTime := endTime;
      this.exitCode := exitCode;
      this.stepExecutions := stepExecutions;
    }
  }
}
