/** The scan queue service: how `addScanJob` builds the job options, how the
    worker's processor shapes the scanner's outcome into a job result, what
    `getJobStatus` and `getQueueStats` report, and the queue and worker
    configuration.

    The queue itself is a BullMQ queue on Redis, foreign code that the service
    only configures. `ScanQueueService` below holds the jobs as a map and gives
    the library the behaviour its configuration asks for (job id = key,
    concurrency, rate limit); that part is library semantics, not code of the
    service. */
module ScanQueue {
  import opened Wrappers
  import CS = ComplianceScorer

  const QueueName: string := "accessibility-scans"
  const JobName: string := "accessibility-scan"

  // defaultJobOptions of the queue
  const DefaultAttempts: int := 3
  const BackoffType: string := "exponential"
  const BackoffDelayMs: nat := 2000
  const RemoveOnComplete: nat := 100
  const RemoveOnFail: nat := 50

  // worker options
  const Concurrency: nat := 3
  const LimiterMax: nat := 10
  const LimiterDurationMs: nat := 60000

  const DefaultPriority: int := 0

  /** Progress the processor reports: after starting, after the scan, at the end. */
  const ProgressStarted: int := 10
  const ProgressScanned: int := 90
  const ProgressDone: int := 100

  const AddJobErrorPrefix: string := "Failed to add scan job: "
  const UnknownError: string := "Unknown error occurred"

  datatype ScanJobData = ScanJobData(
    scanId: string,
    url: string,
    userId: Option<string>,
    priority: Option<int>,
    retryAttempts: Option<int>)

  datatype JobOptions = JobOptions(priority: int, attempts: int, jobId: string)

  /** A thrown value: an `Error` with its message, or anything else. */
  datatype Thrown = ErrorObject(message: string) | NonError

  /** `error instanceof Error ? error.message : 'Unknown error occurred'`. */
  function ErrorMessage(t: Thrown): (m: string)
    ensures t.ErrorObject? ==> m == t.message
    ensures t.NonError? ==> m == UnknownError
  {
    match t
    case ErrorObject(msg) => msg
    case NonError => UnknownError
  }

  /** `v || d` on an optional number: an absent value and 0 both give `d`. */
  function OrDefault(v: Option<int>, d: int): (r: int)
    ensures v == None || v == Some(0) ==> r == d
    ensures v.Some? && v.value != 0 ==> r == v.value
  {
    if v.Some? && v.value != 0 then v.value else d
  }

  /** The options `addScanJob` passes with a job. */
  function BuildJobOptions(d: ScanJobData): (o: JobOptions)
    ensures o.jobId == d.scanId
    ensures o.priority == OrDefault(d.priority, DefaultPriority)
    ensures o.attempts == OrDefault(d.retryAttempts, DefaultAttempts)
  {
    JobOptions(OrDefault(d.priority, DefaultPriority), OrDefault(d.retryAttempts, DefaultAttempts), d.scanId)
  }

  /** The job id is always the scan id, and a missing or zero priority or
      retry count falls back to the default; in particular a job cannot be
      asked for zero attempts: 0 becomes 3. */
  lemma JobOptionsDefaults(d: ScanJobData)
    ensures BuildJobOptions(d).jobId == d.scanId
    ensures d.priority == None || d.priority == Some(0) ==> BuildJobOptions(d).priority == 0
    ensures d.retryAttempts == None || d.retryAttempts == Some(0) ==> BuildJobOptions(d).attempts == 3
    ensures d.retryAttempts.Some? && d.retryAttempts.value != 0 ==> BuildJobOptions(d).attempts == d.retryAttempts.value
  {
  }

  /** The error `addScanJob` rethrows when the queue refuses the job. */
  function AddScanJobError(t: Thrown): (msg: string)
    ensures |msg| >= |AddJobErrorPrefix| && msg[..|AddJobErrorPrefix|] == AddJobErrorPrefix
    ensures msg[|AddJobErrorPrefix|..] == ErrorMessage(t)
  {
    AddJobErrorPrefix + ErrorMessage(t)
  }

  // ---------------------------------------------------------------------------
  // The worker's processor

  datatype ScanJobResult = ScanJobResult(
    scanId: string,
    success: bool,
    result: Option<CS.ScanResult>,
    error: Option<string>,
    duration: int)

  /** What the accessibility scanner does for one url: return a scan result or
      throw. */
  datatype ScannerOutcome = Scanned(scan: CS.ScanResult) | ScanThrew(thrown: Thrown)

  /** One run of the processor: the progress values it reports, in order, and
      the value it returns. There is no thrown outcome: the processor catches
      the scanner's exception and returns it as data. */
  datatype ProcessorRun = ProcessorRun(progress: seq<int>, returned: ScanJobResult)

  /** The processor function given to the worker. `duration` is the elapsed
      time it measures. */
  function RunProcessor(data: ScanJobData, outcome: ScannerOutcome, duration: int): (r: ProcessorRun)
    ensures r.returned.scanId == data.scanId && r.returned.duration == duration
    ensures r.returned.success <==> outcome.Scanned?
    ensures r.returned.success ==> r.returned.result == Some(outcome.scan) && r.returned.error == None
    ensures !r.returned.success ==> r.returned.result == None && r.returned.error == Some(ErrorMessage(outcome.thrown))
    ensures |r.progress| > 0 && r.progress[0] == ProgressStarted
    ensures r.returned.success <==> r.progress[|r.progress| - 1] == ProgressDone
  {
    match outcome
    case Scanned(scan) =>
      ProcessorRun([ProgressStarted, ProgressScanned, ProgressDone], ScanJobResult(data.scanId, true, Some(scan), None, duration))
    case ScanThrew(t) =>
      ProcessorRun([ProgressStarted], ScanJobResult(data.scanId, false, None, Some(ErrorMessage(t)), duration))
  }

  predicate StrictlyIncreasing(s: seq<int>) {
    forall i, j :: 0 <= i < j < |s| ==> s[i] < s[j]
  }

  /** Reported progress only rises, and reaches 100 exactly on success. */
  lemma ProcessorProgressRises(data: ScanJobData, outcome: ScannerOutcome, duration: int)
    ensures StrictlyIncreasing(RunProcessor(data, outcome, duration).progress)
    ensures outcome.Scanned? ==> RunProcessor(data, outcome, duration).progress == [10, 90, 100]
  {
  }

  // ---------------------------------------------------------------------------
  // Queue statistics and job status

  datatype QueueStats = QueueStats(waiting: nat, active: nat, completed: nat, failed: nat, total: nat, error: Option<string>)

  /** `getQueueStats` from the four list lengths, or from the failure of one
      of the four reads. */
  function StatsOf(lengths: Result<(nat, nat, nat, nat), Thrown>): (s: QueueStats)
    ensures s.total == s.waiting + s.active + s.completed + s.failed
    ensures lengths.Ok? ==> (s.error == None && (s.waiting, s.active, s.completed, s.failed) == lengths.value)
    ensures lengths.Err? ==> s == QueueStats(0, 0, 0, 0, 0, Some(ErrorMessage(lengths.error)))
  {
    match lengths
    case Ok((w, a, c, f)) => QueueStats(w, a, c, f, w + a + c + f, None)
    case Err(t) => QueueStats(0, 0, 0, 0, 0, Some(ErrorMessage(t)))
  }

  datatype JobState = Waiting | Active | Completed | Failed

  datatype Job = Job(
    id: string,
    name: string,
    data: ScanJobData,
    opts: JobOptions,
    state: JobState,
    progress: int,
    attemptsMade: nat,
    processedOn: Option<int>,
    finishedOn: Option<int>,
    failedReason: Option<string>,
    returnvalue: Option<ScanJobResult>)

  /** The fields `getJobStatus` copies out of a job. */
  datatype JobStatus = JobStatus(
    id: string,
    data: ScanJobData,
    progress: int,
    processedOn: Option<int>,
    finishedOn: Option<int>,
    failedReason: Option<string>,
    returnvalue: Option<ScanJobResult>)

  function StatusOf(j: Job): (s: JobStatus)
    ensures s.id == j.id && s.data == j.data && s.progress == j.progress && s.returnvalue == j.returnvalue
    ensures s.processedOn == j.processedOn && s.finishedOn == j.finishedOn && s.failedReason == j.failedReason
  {
    JobStatus(j.id, j.data, j.progress, j.processedOn, j.finishedOn, j.failedReason, j.returnvalue)
  }

  function IdsIn(jobs: map<string, Job>, s: JobState): set<string> {
    set id | id in jobs && jobs[id].state == s
  }

  function CountIn(jobs: map<string, Job>, s: JobState): nat {
    |IdsIn(jobs, s)|
  }

  /** Every job is in exactly one of the four lists, so the four counts of
      `getQueueStats` add up to the number of jobs. */
  lemma StateCountsPartitionJobs(jobs: map<string, Job>)
    ensures CountIn(jobs, Waiting) + CountIn(jobs, Active) + CountIn(jobs, Completed) + CountIn(jobs, Failed) == |jobs|
  {
    var w, a, c, f := IdsIn(jobs, Waiting), IdsIn(jobs, Active), IdsIn(jobs, Completed), IdsIn(jobs, Failed);
    assert jobs.Keys == w + a + c + f;
    assert w * a == {} && (w + a) * c == {} && (w + a + c) * f == {};
    assert |w + a| == |w| + |a|;
    assert |w + a + c| == |w + a| + |c|;
    assert |w + a + c + f| == |w + a + c| + |f|;
  }

  /** Dispatches inside the limiter's window that ends at `now`. */
  function InWindow(dispatches: seq<int>, now: int): nat {
    if dispatches == [] then 0
    else
      var last := dispatches[|dispatches| - 1];
      (if now - (LimiterDurationMs as int) < last then 1 else 0) + InWindow(dispatches[..|dispatches| - 1], now)
  }

  lemma {:induction false} InWindowAppend(dispatches: seq<int>, t: int, now: int)
    requires now - (LimiterDurationMs as int) < t
    ensures InWindow(dispatches + [t], now) == InWindow(dispatches, now) + 1
  {
    assert (dispatches + [t])[..|dispatches|] == dispatches;
  }

  /** The queue as the service configures it. */
  class ScanQueueService {
    var jobs: map<string, Job>
    /** Times at which the worker took a job, oldest first. */
    var dispatches: seq<int>

    ghost predicate Valid()
      reads this
    {
      && (forall id :: id in jobs ==> jobs[id].id == id && jobs[id].opts.jobId == id && jobs[id].data.scanId == id)
      && CountIn(jobs, Active) <= Concurrency
      // the processor never throws, so the worker never fails a job and never retries one
      && (forall id :: id in jobs ==> jobs[id].state != Failed && jobs[id].attemptsMade <= 1)
    }

    constructor ()
      ensures Valid() && jobs == map[] && dispatches == []
    {
      jobs := map[];
      dispatches := [];
    }

    /** `addScanJob`. `failure` is the error the queue raises, if any. A job
        whose id is already in the queue is not added a second time; the queue
        answers with the job it holds (library semantics). */
    method AddScanJob(data: ScanJobData, failure: Option<Thrown>) returns (r: Result<Job, string>)
      requires Valid()
      modifies this
      ensures Valid() && dispatches == old(dispatches)
      ensures failure.Some? ==> r == Err(AddScanJobError(failure.value)) && jobs == old(jobs)
      ensures failure.None? && data.scanId in old(jobs) ==> r == Ok(old(jobs)[data.scanId]) && jobs == old(jobs)
      ensures failure.None? && data.scanId !in old(jobs) ==>
        && r.Ok? && r.value.id == data.scanId && r.value.data == data
        && r.value.opts == BuildJobOptions(data) && r.value.state == Waiting
        && jobs == old(jobs)[data.scanId := r.value]
    {
      if failure.Some? {
        return Err(AddScanJobError(failure.value));
      }
      var opts := BuildJobOptions(data);
      if opts.jobId in jobs {
        return Ok(jobs[opts.jobId]);
      }
      var job := Job(opts.jobId, JobName, data, opts, Waiting, 0, 0, None, None, None, None);
      assert IdsIn(jobs[opts.jobId := job], Active) == IdsIn(jobs, Active);
      jobs := jobs[opts.jobId := job];
      r := Ok(job);
    }

    /** The worker taking a waiting job at time `now`, if the concurrency
        bound and the rate limit allow it (library semantics). */
    method Dispatch(id: string, now: int) returns (taken: bool)
      requires Valid()
      requires id in jobs && jobs[id].state == Waiting
      modifies this
      ensures Valid()
      ensures taken <==> old(CountIn(jobs, Active)) < Concurrency && old(InWindow(dispatches, now)) < LimiterMax
      ensures taken ==> (
        && jobs == old(jobs)[id := old(jobs)[id].(state := Active, processedOn := Some(now))]
        && dispatches == old(dispatches) + [now]
        && InWindow(dispatches, now) <= LimiterMax)
      ensures !taken ==> jobs == old(jobs) && dispatches == old(dispatches)
    {
      taken := CountIn(jobs, Active) < Concurrency && InWindow(dispatches, now) < LimiterMax;
      if taken {
        var job := jobs[id].(state := Active, processedOn := Some(now));
        assert IdsIn(jobs[id := job], Active) == IdsIn(jobs, Active) + {id};
        jobs := jobs[id := job];
        InWindowAppend(dispatches, now, now);
        dispatches := dispatches + [now];
      }
    }

    /** The worker running the processor on an active job. Since the
        processor returns for every scanner outcome, the job always ends
        `completed`, carrying the processor's value; a failed scan is a
        completed job whose value says `success: false`. */
    method Process(id: string, outcome: ScannerOutcome, duration: int, now: int) returns (run: ProcessorRun)
      requires Valid()
      requires id in jobs && jobs[id].state == Active
      modifies this
      ensures Valid() && dispatches == old(dispatches)
      ensures run == RunProcessor(old(jobs)[id].data, outcome, duration)
      ensures jobs == old(jobs)[id := old(jobs)[id].(
        state := Completed,
        progress := run.progress[|run.progress| - 1],
        attemptsMade := 1,
        finishedOn := Some(now),
        returnvalue := Some(run.returned))]
    {
      run := RunProcessor(jobs[id].data, outcome, duration);
      var job := jobs[id].(
        state := Completed,
        progress := run.progress[|run.progress| - 1],
        attemptsMade := 1,
        finishedOn := Some(now),
        returnvalue := Some(run.returned));
      assert IdsIn(jobs[id := job], Active) == IdsIn(jobs, Active) - {id};
      jobs := jobs[id := job];
    }

    /** `getJobStatus`: nothing for an unknown id or when the lookup throws. */
    method GetJobStatus(id: string, lookupFailure: Option<Thrown>) returns (r: Option<JobStatus>)
      requires Valid()
      ensures lookupFailure.Some? ==> r == None
      ensures lookupFailure.None? && id !in jobs ==> r == None
      ensures lookupFailure.None? && id in jobs ==> r == Some(StatusOf(jobs[id])) && r.value.id == id
    {
      if lookupFailure.Some? {
        return None;
      }
      if id !in jobs {
        return None;
      }
      r := Some(StatusOf(jobs[id]));
    }

    /** `getQueueStats`: the four list lengths and their sum, or all zeros and
        the error when one of the reads throws. With no failure the total is
        the number of jobs in the queue, and nothing is counted as failed. */
    method GetQueueStats(readFailure: Option<Thrown>) returns (s: QueueStats)
      requires Valid()
      ensures s.total == s.waiting + s.active + s.completed + s.failed
      ensures readFailure.Some? ==> s == QueueStats(0, 0, 0, 0, 0, Some(ErrorMessage(readFailure.value)))
      ensures readFailure.None? ==> (
        && s.error == None && s.total == |jobs| && s.failed == 0
        && s.waiting == CountIn(jobs, Waiting) && s.active == CountIn(jobs, Active)
        && s.completed == CountIn(jobs, Completed))
      ensures s.active <= Concurrency
    {
      if readFailure.Some? {
        s := StatsOf(Err(readFailure.value));
      } else {
        StateCountsPartitionJobs(jobs);
        assert IdsIn(jobs, Failed) == {};
        s := StatsOf(Ok((CountIn(jobs, Waiting), CountIn(jobs, Active), CountIn(jobs, Completed), CountIn(jobs, Failed))));
      }
    }
  }
}
