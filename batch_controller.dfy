/**
 * The control plane: launching the import on a file, listing executions,
 * stopping a running execution, and drawing the download progress bar.
 * The job repository, launcher and operator are outside the core; what they
 * answer is passed in, and what is asked of them is recorded.
 */
module Controller {
  import opened Wrappers
  import opened Text
  import opened Batch
  import opened Tracker
  import Skips

  /** The launcher, seen as the parameters of every launch it was asked for. */
  class JobLauncher {
    var launched: seq<JobParameters>

    constructor()
      ensures launched == []
    {
      launched := [];
    }

    /** Launches the job; `outcome` is the status the run ends with, or the error it raised. */
    method Run(parameters: JobParameters, outcome: Result<BatchStatus, string>) returns (r: Result<BatchStatus, string>)
      modifies this
      ensures launched == old(launched) + [parameters]
      ensures r == outcome
    {
      launched := launched + [parameters];
      r := outcome;
    }
  }

  /** The operator, seen as the execution ids it was asked to stop, in order. */
  class JobOperator {
    var stopRequests: seq<int>

    constructor()
      ensures stopRequests == []
    {
      stopRequests := [];
    }

    method Stop(executionId: int)
      modifies this
      ensures stopRequests == old(stopRequests) + [executionId]
    {
      stopRequests := stopRequests + [executionId];
    }
  }

  /** A one-entry response body. */
  type Message = map<string, string>

  const StopRequested: string := "Job stop requested successfully"
  const NotRunning: string := "Job is not running"

  /** Width of the progress bar, in cells. */
  const BarWidth: int := 50

  /** The parameters of a launch: the file's absolute path and the job id from the clock. */
  function LaunchParameters(absolutePath: string, now: int): (r: JobParameters)
    ensures r.Keys == {"filePath", Skips.JobIdKey}
    ensures r["filePath"] == absolutePath
    ensures ParseInt(r[Skips.JobIdKey]) == Some(now)
  {
    ParseFormatInt(now);
    map["filePath" := absolutePath, Skips.JobIdKey := FormatInt(now)]
  }

  /** The skip listener finds, in a launch's parameters, the job id the launch was given. */
  lemma LaunchParametersCarryJobId(absolutePath: string, now: int)
    ensures Skips.GetJobId(Some(LaunchParameters(absolutePath, now))) == Success(FormatInt(now))
    ensures ParseInt(Skips.GetJobId(Some(LaunchParameters(absolutePath, now))).value) == Some(now)
  {
    var p := LaunchParameters(absolutePath, now);
    assert Skips.JobIdKey in p;
    assert "filePath" != Skips.JobIdKey by { assert "filePath"[0] != Skips.JobIdKey[0]; }
    ParseFormatInt(now);
  }

  /** One step execution in an execution listing. */
  datatype StepSummary = StepSummary(
    stepName: string, status: string,
    readCount: int, writeCount: int, commitCount: int, rollbackCount: int)

  /** One execution in the full listing. */
  datatype ExecutionSummary = ExecutionSummary(
    jobExecutionId: int, jobName: string, status: string,
    startTime: string, endTime: string, exitStatus: string,
    stepExecutions: seq<StepSummary>)

  /** One execution in the running listing. */
  datatype RunningSummary = RunningSummary(jobExecutionId: int, jobName: string, status: string, startTime: string)

  /** A time's text, or the empty string when the time is not set. */
  function TimeText(t: Option<string>): (r: string)
    ensures t.Some? ==> r == t.value
    ensures t.None? ==> r == ""
  {
    match t
    case Some(text) => text
    case None => ""
  }

  function SummarizeStep(step: StepExecution): StepSummary
  {
    StepSummary(step.stepName, StatusName(step.status),
                step.readCount, step.writeCount, step.commitCount, step.rollbackCount)
  }

  /**
   * The summary of one execution: id, job name, status name, start and end
   * times (empty when not set), exit code, and one step summary per step
   * execution carrying that step's counts unchanged.
   */
  function Summarize(e: JobExecution): (r: ExecutionSummary)
    reads e
    ensures r.jobExecutionId == e.id && r.jobName == e.jobName && r.status == StatusName(e.status)
    ensures r.exitStatus == e.exitCode
    ensures r.startTime == TimeText(e.startTime) && r.endTime == TimeText(e.endTime)
    ensures |r.stepExecutions| == |e.stepExecutions|
    ensures forall k :: 0 <= k < |e.stepExecutions| ==>
      var step, summary := e.stepExecutions[k], r.stepExecutions[k];
      && summary.stepName == step.stepName && summary.status == StatusName(step.status)
      && summary.readCount == step.readCount && summary.writeCount == step.writeCount
      && summary.commitCount == step.commitCount && summary.rollbackCount == step.rollbackCount
  {
    var steps := e.stepExecutions;
    ExecutionSummary(e.id, e.jobName, StatusName(e.status),
                     TimeText(e.startTime), TimeText(e.endTime), e.exitCode,
                     seq(|steps|, k requires 0 <= k < |steps| => SummarizeStep(steps[k])))
  }

  /** `flatMap`: the lists `f` gives for each element, concatenated in order. */
  function FlatMap<A, B>(xs: seq<A>, f: A -> seq<B>): seq<B>
  {
    if xs == [] then [] else f(xs[0]) + FlatMap(xs[1..], f)
  }

  /** Flattening a concatenation gives the concatenation of the flattenings: the order is kept. */
  lemma {:induction false} FlatMapAppend<A, B>(xs: seq<A>, ys: seq<A>, f: A -> seq<B>)
    ensures FlatMap(xs + ys, f) == FlatMap(xs, f) + FlatMap(ys, f)
  {
    if xs == [] {
      assert xs + ys == ys;
    } else {
      assert (xs + ys)[0] == xs[0];
      assert (xs + ys)[1..] == xs[1..] + ys;
      FlatMapAppend(xs[1..], ys, f);
    }
  }

  /** An element is in the flattening exactly when some input element's list holds it. */
  lemma {:induction false} FlatMapMember<A, B>(xs: seq<A>, f: A -> seq<B>, y: B)
    ensures y in FlatMap(xs, f) <==> exists x :: x in xs && y in f(x)
  {
    if xs != [] {
      FlatMapMember(xs[1..], f, y);
      if y in FlatMap(xs, f) && y !in f(xs[0]) {
        var x :| x in xs[1..] && y in f(x);
        assert x in xs;
      }
      if exists x :: x in xs && y in f(x) {
        var x :| x in xs && y in f(x);
        if x != xs[0] {
          assert x in xs[1..];
        }
      }
    }
  }

  /**
   * Every execution the repository knows, in job-name order, then instance
   * order within a name, then execution order within an instance.
   */
  function Executions(jobNames: seq<string>, instancesOf: string -> seq<JobInstance>,
                      executionsOf: JobInstance -> seq<JobExecution>): seq<JobExecution>
  {
    FlatMap(jobNames, (name: string) => FlatMap(instancesOf(name), executionsOf))
  }

  /** An execution is listed exactly when it belongs to an instance of one of the job names. */
  lemma ExecutionsMember(jobNames: seq<string>, instancesOf: string -> seq<JobInstance>,
                         executionsOf: JobInstance -> seq<JobExecution>, e: JobExecution)
    ensures e in Executions(jobNames, instancesOf, executionsOf) <==>
      exists name, instance :: name in jobNames && instance in instancesOf(name) && e in executionsOf(instance)
  {
    var inner := (name: string) => FlatMap(instancesOf(name), executionsOf);
    FlatMapMember(jobNames, inner, e);
    forall name | name in jobNames
      ensures e in inner(name) <==> exists instance :: instance in instancesOf(name) && e in executionsOf(instance)
    {
      FlatMapMember(instancesOf(name), executionsOf, e);
    }
  }

  /** The executions of job names `a + b` are those of `a` followed by those of `b`. */
  lemma ExecutionsAppend(a: seq<string>, b: seq<string>, instancesOf: string -> seq<JobInstance>,
                         executionsOf: JobInstance -> seq<JobExecution>)
    ensures Executions(a + b, instancesOf, executionsOf)
         == Executions(a, instancesOf, executionsOf) + Executions(b, instancesOf, executionsOf)
  {
    FlatMapAppend(a, b, (name: string) => FlatMap(instancesOf(name), executionsOf));
  }

  /** `getAllJobExecutions`: one summary per listed execution, in listing order. */
  function AllJobExecutions(jobNames: seq<string>, instancesOf: string -> seq<JobInstance>,
                            executionsOf: JobInstance -> seq<JobExecution>): (r: seq<ExecutionSummary>)
    reads Executions(jobNames, instancesOf, executionsOf)
    ensures var es := Executions(jobNames, instancesOf, executionsOf);
      |r| == |es| && forall k :: 0 <= k < |es| ==> r[k] == Summarize(es[k])
  {
    var es := Executions(jobNames, instancesOf, executionsOf);
    seq(|es|, k reads es requires 0 <= k < |es| => Summarize(es[k]))
  }

  /** With one job name, one instance and one execution, the listing is that execution's summary. */
  lemma SingleExecutionListed(name: string, instance: JobInstance, e: JobExecution,
                              instancesOf: string -> seq<JobInstance>, executionsOf: JobInstance -> seq<JobExecution>)
    requires instancesOf(name) == [instance] && executionsOf(instance) == [e]
    ensures AllJobExecutions([name], instancesOf, executionsOf) == [Summarize(e)]
  {
    var inner := (n: string) => FlatMap(instancesOf(n), executionsOf);
    assert FlatMap([instance], executionsOf) == executionsOf(instance) + FlatMap([], executionsOf);
    assert inner(name) == [e];
    assert FlatMap([name], inner) == inner(name) + FlatMap([], inner);
  }

  /**
   * `getRunningExecutions`: for each execution the repository reports as
   * running, its id, job name, status name and start time (empty when unset).
   */
  function RunningExecutions(running: seq<JobExecution>): (r: seq<RunningSummary>)
    reads running
    ensures |r| == |running|
    ensures forall k :: 0 <= k < |running| ==>
      r[k] == RunningSummary(running[k].id, running[k].jobName,
                             StatusName(running[k].status), TimeText(running[k].startTime))
  {
    seq(|running|, k reads running requires 0 <= k < |running| =>
      RunningSummary(running[k].id, running[k].jobName, StatusName(running[k].status), TimeText(running[k].startTime)))
  }

  /** Cells of a fill count that `repeat` draws: none for a negative count. */
  function Cells(n: int): nat
  {
    if n > 0 then n else 0
  }

  class BatchController {
    const tracker: ProgressTracker
    const launcher: JobLauncher
    const operator: JobOperator

    constructor(tracker: ProgressTracker, launcher: JobLauncher, operator: JobOperator)
      ensures this.tracker == tracker && this.launcher == launcher && this.operator == operator
    {
      this.tracker := tracker;
      this.launcher := launcher;
      this.operator := operator;
    }

    /**
     * `run`: a missing file fails before anything is touched. Otherwise the
     * tracker is reset (at time `resetTime`), the job is launched with the
     * file's absolute path and a job id from the clock (`jobIdTime`), and the
     * launch's status is reported, or its error passed on.
     */
    method Run(csvName: string, fileExists: bool, absolutePath: string, jobIdTime: int, resetTime: int,
               outcome: Result<BatchStatus, string>) returns (r: Result<string, string>)
      modifies tracker, launcher
      ensures !fileExists ==> r == Failure("CSV file not found: " + csvName)
      ensures !fileExists ==> unchanged(tracker) && unchanged(launcher)
      ensures fileExists ==> tracker.Counts() == Zero && tracker.lastUpdate == resetTime
      ensures fileExists ==> launcher.launched == old(launcher.launched) + [LaunchParameters(absolutePath, jobIdTime)]
      ensures fileExists && outcome.Success? ==>
        r == Success("Batch job completed with status: " + StatusName(outcome.value))
      ensures fileExists && outcome.Failure? ==> r == Failure(outcome.error)
    {
      if !fileExists {
        return Failure("CSV file not found: " + csvName);
      }
      var parameters := LaunchParameters(absolutePath, jobIdTime);
      tracker.Reset(resetTime);
      var execution := launcher.Run(parameters, outcome);
      match execution
      case Success(status) =>
        r := Success("Batch job completed with status: " + StatusName(status));
      case Failure(error) =>
        r := Failure(error);
    }

    /**
     * `stopJob`, given what the repository found for `executionId`: an unknown
     * id fails and changes nothing; a running execution is set to STOPPING in
     * place and exactly one stop request is issued; any other execution is
     * left as it is and no request is issued.
     */
    method StopJob(executionId: int, found: JobExecution?) returns (r: Result<Message, string>)
      requires found != null ==> found.id == executionId
      modifies operator, if found == null then {} else {found}
      ensures found == null ==>
        && r == Failure("Job execution not found with id: " + FormatInt(executionId))
        && operator.stopRequests == old(operator.stopRequests)
      ensures found != null ==>
        && found.startTime == old(found.startTime) && found.endTime == old(found.endTime)
        && found.exitCode == old(found.exitCode) && found.stepExecutions == old(found.stepExecutions)
      ensures found != null && IsRunning(old(found.status)) ==>
        && found.status == STOPPING
        && operator.stopRequests == old(operator.stopRequests) + [executionId]
        && r == Success(map["message" := StopRequested])
      ensures found != null && !IsRunning(old(found.status)) ==>
        && unchanged(found)
        && operator.stopRequests == old(operator.stopRequests)
        && r == Success(map["message" := NotRunning])
    {
      if found == null {
        return Failure("Job execution not found with id: " + FormatInt(executionId));
      }
      if IsRunning(found.status) {
        found.status := STOPPING;
        operator.Stop(executionId);
        r := Success(map["message" := StopRequested]);
      } else {
        r := Success(map["message" := NotRunning]);
      }
    }
  }

  /**
   * The bar `printProgress` draws for an integer fill count `progress`: "[",
   * one '=' per filled cell, one ' ' per remaining cell of the 50, then "]".
   */
  method ProgressBar(progress: int) returns (bar: string)
    ensures |bar| == 2 + Cells(progress) + Cells(BarWidth - progress)
    ensures bar[0] == '[' && bar[|bar| - 1] == ']'
    ensures forall i :: 1 <= i <= Cells(progress) ==> bar[i] == '='
    ensures forall i :: Cells(progress) < i < |bar| - 1 ==> bar[i] == ' '
  {
    bar := "[";
    var filled := 0;
    while filled < progress
      invariant 0 <= filled <= Cells(progress)
      invariant |bar| == 1 + filled && bar[0] == '['
      invariant forall i :: 1 <= i < |bar| ==> bar[i] == '='
    {
      bar := bar + "=";
      filled := filled + 1;
    }
    var empty := 0;
    while empty < BarWidth - progress
      invariant 0 <= empty <= Cells(BarWidth - progress)
      invariant |bar| == 1 + Cells(progress) + empty && bar[0] == '['
      invariant forall i :: 1 <= i <= Cells(progress) ==> bar[i] == '='
      invariant forall i :: Cells(progress) < i < |bar| ==> bar[i] == ' '
    {
      bar := bar + " ";
      empty := empty + 1;
    }
    bar := bar + "]";
  }

  /** Within the bar's range the bar is always 52 characters with exactly `progress` filled cells. */
  lemma BarLengthInRange(progress: int)
    requires 0 <= progress <= BarWidth
    ensures 2 + Cells(progress) + Cells(BarWidth - progress) == BarWidth + 2
    ensures Cells(progress) == progress
  {
  }
}
