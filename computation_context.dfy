/**
 * The shared list of computation jobs: submitting appends a queued job,
 * cancelling marks a job failed, and a simulated progress timer moves a job to
 * running and finally to completed with a fixed result. The active and the
 * completed lists are two filters over the same list.
 */
module ComputationContext {
  import opened Wrappers
  import opened JsText
  import opened SeqUtil

  datatype JobType = Docking | Dynamics | Generation | Prediction
  datatype JobStatus = Queued | Running | Completed | Failed

  /** The result attached on completion (`{ success, data: { score } }`). */
  datatype JobResult = JobResult(success: bool, score: real)

  /** A job; times are milliseconds since the epoch, supplied by the caller. */
  datatype Job = Job(
    id: string, kind: JobType, status: JobStatus, progress: real,
    createdAt: int, completedAt: Option<int>, result: Option<JobResult>)

  /** The `type` string of each kind of job. */
  function TypeName(kind: JobType): string {
    match kind
    case Docking => "docking"
    case Dynamics => "dynamics"
    case Generation => "generation"
    case Prediction => "prediction"
  }

  /** A freshly submitted job: queued, no progress, no completion time, no result. */
  function NewJob(id: string, kind: JobType, now: int): Job {
    Job(id, kind, Queued, 0.0, now, None, None)
  }

  /** `jobs.map(job => job.id === id ? f(job) : job)` */
  function UpdateJobs(jobs: seq<Job>, id: string, f: Job -> Job): (r: seq<Job>)
    ensures |r| == |jobs|
    ensures forall i :: 0 <= i < |jobs| ==> r[i] == (if jobs[i].id == id then f(jobs[i]) else jobs[i])
  {
    seq(|jobs|, i requires 0 <= i < |jobs| => if jobs[i].id == id then f(jobs[i]) else jobs[i])
  }

  function Cancel(job: Job): Job {
    job.(status := Failed, progress := 0.0)
  }

  /** The list after `cancelJob(id)`. */
  function CancelJobs(jobs: seq<Job>, id: string): seq<Job> {
    UpdateJobs(jobs, id, Cancel)
  }

  /** The list after a tick that leaves progress `p` below 100. */
  function RunningJobs(jobs: seq<Job>, id: string, p: real): seq<Job> {
    UpdateJobs(jobs, id, (job: Job) => job.(status := Running, progress := p))
  }

  /** The fixed result a simulated job completes with. */
  const SimulatedResult := JobResult(true, -9.3)

  /** The list after the tick that reaches 100. */
  function CompletedJobsAt(jobs: seq<Job>, id: string, now: int): seq<Job> {
    UpdateJobs(jobs, id, (job: Job) =>
      job.(status := Completed, progress := 100.0, completedAt := Some(now), result := Some(SimulatedResult)))
  }

  predicate IsActive(job: Job) {
    job.status == Queued || job.status == Running
  }

  predicate IsFinished(job: Job) {
    job.status == Completed || job.status == Failed
  }

  /** `activeJobs`: queued or running jobs. */
  function ActiveJobs(jobs: seq<Job>): seq<Job> {
    Filter(jobs, IsActive)
  }

  /** `completedJobs`: completed or failed jobs. */
  function FinishedJobs(jobs: seq<Job>): seq<Job> {
    Filter(jobs, IsFinished)
  }

  /** `jobs.find(j => j.id === id)`: the position of the first job with that id. */
  function FindJob(jobs: seq<Job>, id: string): (r: Option<nat>)
    ensures r.None? <==> forall i :: 0 <= i < |jobs| ==> jobs[i].id != id
    ensures r.Some? ==> r.value < |jobs| && jobs[r.value].id == id &&
                        forall i :: 0 <= i < r.value ==> jobs[i].id != id
  {
    if |jobs| == 0 then None
    else if jobs[0].id == id then Some(0)
    else match FindJob(jobs[1..], id)
      case None => None
      case Some(k) => Some(k + 1)
  }

  /** `getJobResult(id)`: the result of the first job with that id; nothing when
      there is no such job or it has no result yet. */
  function GetJobResult(jobs: seq<Job>, id: string): Option<JobResult> {
    match FindJob(jobs, id)
    case None => None
    case Some(k) => jobs[k].result
  }

  /** Every job is in exactly one of the two lists, and each list keeps the
      order of `jobs`. */
  lemma JobsPartition(jobs: seq<Job>)
    ensures multiset(ActiveJobs(jobs)) + multiset(FinishedJobs(jobs)) == multiset(jobs)
    ensures |ActiveJobs(jobs)| + |FinishedJobs(jobs)| == |jobs|
    ensures IsSubsequence(ActiveJobs(jobs), jobs) && IsSubsequence(FinishedJobs(jobs), jobs)
  {
    FilterPartition(jobs, IsActive, IsFinished);
    FilterIsSubsequence(jobs, IsActive);
    FilterIsSubsequence(jobs, IsFinished);
  }

  /** A submitted job joins the end of the active list. */
  lemma SubmittedIsActive(jobs: seq<Job>, id: string, kind: JobType, now: int)
    ensures ActiveJobs(jobs + [NewJob(id, kind, now)]) == ActiveJobs(jobs) + [NewJob(id, kind, now)]
    ensures FinishedJobs(jobs + [NewJob(id, kind, now)]) == FinishedJobs(jobs)
  {
    var s := jobs + [NewJob(id, kind, now)];
    assert s[..|s| - 1] == jobs;
    FilterLast(s, IsActive);
    FilterLast(s, IsFinished);
  }

  /** A new job has no result until it completes. */
  lemma SubmittedHasNoResult(jobs: seq<Job>, id: string, kind: JobType, now: int)
    requires forall i :: 0 <= i < |jobs| ==> jobs[i].id != id
    ensures GetJobResult(jobs + [NewJob(id, kind, now)], id) == None
  {
    var s := jobs + [NewJob(id, kind, now)];
    assert s[|jobs|].id == id;
  }

  /** Cancelling an id no job has changes nothing. */
  lemma CancelUnknownId(jobs: seq<Job>, id: string)
    requires forall i :: 0 <= i < |jobs| ==> jobs[i].id != id
    ensures CancelJobs(jobs, id) == jobs
  {
  }

  /** Cancelling twice is cancelling once. */
  lemma CancelIdempotent(jobs: seq<Job>, id: string)
    ensures CancelJobs(CancelJobs(jobs, id), id) == CancelJobs(jobs, id)
  {
  }

  /** After cancelling, no job with that id is active, whatever its status was. */
  lemma CancelledNotActive(jobs: seq<Job>, id: string, k: nat)
    requires k < |ActiveJobs(CancelJobs(jobs, id))|
    ensures ActiveJobs(CancelJobs(jobs, id))[k].id != id
  {
    var c := CancelJobs(jobs, id);
    var job := ActiveJobs(c)[k];
    FilterMembers(c, IsActive, job);
  }

  /** The progress timer is not stopped by a cancel: the next tick overwrites the
      cancellation, so a cancelled job comes back as running. */
  lemma TickOverridesCancel(jobs: seq<Job>, id: string, p: real)
    ensures RunningJobs(CancelJobs(jobs, id), id, p) == RunningJobs(jobs, id, p)
  {
  }

  /** Once the job with that id completes, its result can be read back. */
  lemma ResultAfterCompletion(jobs: seq<Job>, id: string, now: int)
    requires exists i :: 0 <= i < |jobs| && jobs[i].id == id
    ensures GetJobResult(CompletedJobsAt(jobs, id, now), id) == Some(SimulatedResult)
  {
    var c := CompletedJobsAt(jobs, id, now);
    var k := FindJob(c, id).value;
    assert c[k].id == id;
  }

  /** The accumulated progress after one more tick: clamped to 100. */
  function NextProgress(progress: real, increment: real): real {
    if progress + increment >= 100.0 then 100.0 else progress + increment
  }

  /** Progress never falls and never passes 100. */
  lemma NextProgressBounds(progress: real, increment: real)
    requires 0.0 <= progress <= 100.0 && 0.0 <= increment
    ensures progress <= NextProgress(progress, increment) <= 100.0
    ensures NextProgress(progress, increment) == 100.0 <==> progress + increment >= 100.0
  {
  }

  /** The provider's `jobs` state. */
  class JobStore {
    var jobs: seq<Job>

    constructor()
      ensures jobs == []
    {
      jobs := [];
    }

    /** `submitDockingJob`: appends a queued docking job and starts its timer. */
    method SubmitDockingJob(now: int) returns (id: string, timer: ProgressSimulation)
      modifies this
      ensures id == "docking-" + IntToString(now)
      ensures jobs == old(jobs) + [NewJob(id, Docking, now)]
      ensures fresh(timer) && timer.jobId == id && timer.progress == 0.0 && !timer.stopped
    {
      id := "docking-" + IntToString(now);
      jobs := jobs + [NewJob(id, Docking, now)];
      timer := new ProgressSimulation(id);
    }

    /** `submitDynamicsJob`: appends a queued dynamics job and starts its timer. */
    method SubmitDynamicsJob(now: int) returns (id: string, timer: ProgressSimulation)
      modifies this
      ensures id == "dynamics-" + IntToString(now)
      ensures jobs == old(jobs) + [NewJob(id, Dynamics, now)]
      ensures fresh(timer) && timer.jobId == id && timer.progress == 0.0 && !timer.stopped
    {
      id := "dynamics-" + IntToString(now);
      jobs := jobs + [NewJob(id, Dynamics, now)];
      timer := new ProgressSimulation(id);
    }

    /** `cancelJob`: every job with that id becomes failed with progress 0. */
    method CancelJob(id: string)
      modifies this
      ensures jobs == CancelJobs(old(jobs), id)
    {
      jobs := CancelJobs(jobs, id);
    }
  }

  /** The interval started by `simulateJobProgress`, with its `progress` accumulator. */
  class ProgressSimulation {
    const jobId: string
    var progress: real
    var stopped: bool

    ghost predicate Valid()
      reads this
    {
      0.0 <= progress <= 100.0 && (stopped ==> progress == 100.0)
    }

    constructor(id: string)
      ensures jobId == id && progress == 0.0 && !stopped && Valid()
    {
      jobId := id;
      progress := 0.0;
      stopped := false;
    }

    /** One firing of the interval; `increment` is the random step in [0, 10) and
        `now` the clock at that moment. Reaching 100 clears the interval and
        completes the job; otherwise the job is set running with the new progress. */
    method Tick(store: JobStore, increment: real, now: int)
      requires Valid() && !stopped && 0.0 <= increment < 10.0
      modifies this, store
      ensures Valid()
      ensures progress == NextProgress(old(progress), increment)
      ensures stopped <==> old(progress) + increment >= 100.0
      ensures store.jobs == if stopped then CompletedJobsAt(old(store.jobs), jobId, now)
                            else RunningJobs(old(store.jobs), jobId, progress)
    {
      progress := progress + increment;
      if progress >= 100.0 {
        progress := 100.0;
        stopped := true;
        store.jobs := CompletedJobsAt(store.jobs, jobId, now);
      } else {
        store.jobs := RunningJobs(store.jobs, jobId, progress);
      }
    }
  }
}
