/**
 Job records and the edits the schedd makes to them. An absent string attribute is
 "", an absent integer attribute that the source reads as 0 is 0.
 */
module Jobs {
  import opened Common

  const IDLE := 1
  const RUNNING := 2
  const REMOVED := 3
  const COMPLETED := 4
  const HELD := 5

  const USER_REQUEST := 1
  const JOB_POLICY := 3
  const SPOOLING_INPUT := 16
  const SYSTEM_POLICY := 26
  const SHADOW_EXCEPTION := 1002

  datatype Job = Job(
    status: int,
    lastStatus: int,
    entered: int,            // EnteredCurrentStatus
    host: string,            // RemoteHost
    lastHost: string,        // LastRemoteHost
    claim: string,           // ClaimId
    renewal: int,            // LastJobLeaseRenewal
    lease: Option<int>,      // JobLeaseDuration
    starts: int,             // NumJobStarts
    completions: int,        // NumJobCompletions
    exceptions: int,         // NumShadowExceptions
    vacateCode: int,         // VacateReasonCode
    holdCode: int,           // HoldReasonCode
    holdSub: int,            // HoldReasonSubCode
    numHolds: int,
    statusOnRelease: int)    // JobStatusOnRelease

  type Queue = map<JobId, Job>

  /** The current status of a job, 0 when it is gone. */
  function StatusOf(jobs: Queue, k: JobId): int {
    if k in jobs then jobs[k].status else 0
  }

  /** The run's slot and reconnect bookkeeping leave the record. */
  function OffHost(job: Job): Job {
    job.(lastHost := if job.host != "" then job.host else job.lastHost, host := "", claim := "", renewal := 0)
  }

  function Started(job: Job, slot: string, claim: string, defaultLease: int, now: int): Job {
    job.(lastStatus := job.status, status := RUNNING, entered := now, host := slot, starts := job.starts + 1,
         claim := if claim != "" then claim else job.claim,
         lease := if job.lease.None? then Some(defaultLease) else job.lease,
         renewal := now)
  }

  function Exited(job: Job): Job {
    OffHost(job).(completions := job.completions + 1, lastStatus := RUNNING)
  }

  function HeldOnExit(job: Job, code: int, sub: int, now: int): Job {
    job.(lastStatus := RUNNING, status := HELD, entered := now,
         holdCode := if code == 0 then JOB_POLICY else code, holdSub := sub, numHolds := job.numHolds + 1)
  }

  function RequeuedOnExit(job: Job, now: int): Job {
    job.(lastStatus := RUNNING, status := IDLE, entered := now)
  }

  /** A deliberate requeue: lease expiry, shutdown drain, recovery. */
  function Requeued(job: Job, now: int): Job {
    OffHost(job).(lastStatus := RUNNING, status := IDLE, entered := now)
  }

  /** A run that died: requeue, or hold once the counted failures reach the budget. */
  function Failed(job: Job, count: bool, budget: int, now: int): Job {
    var off := OffHost(job).(lastStatus := RUNNING, entered := now);
    var charged := if count then off.(exceptions := off.exceptions + 1, vacateCode := SHADOW_EXCEPTION) else off;
    if count && charged.exceptions >= budget
    then charged.(status := HELD, holdCode := SHADOW_EXCEPTION, holdSub := 0, numHolds := charged.numHolds + 1)
    else charged.(status := IDLE)
  }

  /** A restarted schedd may still re-attach to the run. */
  predicate LeaseAlive(job: Job, now: int) {
    job.lease.Some? && job.lease.value > 0 && job.renewal > 0 && now - job.renewal < job.lease.value
  }
}
