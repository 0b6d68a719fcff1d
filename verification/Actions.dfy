/** The queue actions behind condor_hold, condor_release and condor_rm. */
module Actions {
  import opened Common
  import opened Jobs

  datatype Kind = Hold | Release | Remove | RemoveX

  /** `owns` says whether the authenticated actor owns the job or is a super user;
      `system` marks an action of the schedd itself, which needs no owner. */
  datatype Request = Request(kind: Kind, owns: bool, system: bool, code: int, sub: int)

  datatype Code = ArError | ArSuccess | ArNotFound | ArBadStatus | ArAlreadyDone | ArPermissionDenied

  /** The job's record after the action; for a removal, the record that is archived. */
  function Edited(job: Job, req: Request, now: int): Job {
    match req.kind
    case Hold =>
      var off := if job.status == RUNNING then OffHost(job) else job;
      off.(lastStatus := job.status, status := HELD, entered := now,
           holdCode := if req.code == 0 then USER_REQUEST else req.code, holdSub := req.sub,
           numHolds := job.numHolds + 1)
    case Release =>
      job.(status := if job.statusOnRelease > 0 then job.statusOnRelease else IDLE, entered := now,
           holdCode := 0, holdSub := 0, exceptions := 0, vacateCode := 0)
    case _ =>
      var off := if job.status == RUNNING then job.(claim := "", renewal := 0) else job;
      off.(lastStatus := job.status, status := REMOVED, entered := now)
  }

  /** The result code the two-phase tool protocol reports before anything is changed. */
  function Verdict(job: Option<Job>, req: Request): Code {
    if job.None? then ArNotFound
    else if !req.system && !req.owns then ArPermissionDenied
    else
      var j := job.value;
      match req.kind
      case Hold =>
        if j.status == HELD && (j.holdCode == USER_REQUEST || j.holdCode == SPOOLING_INPUT) then ArAlreadyDone
        else if j.status == REMOVED || j.status == COMPLETED then ArPermissionDenied
        else ArSuccess
      case Release =>
        if j.status != HELD || j.holdCode == SPOOLING_INPUT then ArBadStatus else ArSuccess
      case _ =>
        if j.status == REMOVED then ArAlreadyDone else ArSuccess
  }

  predicate StaysQueued(kind: Kind) { kind.Hold? || kind.Release? }

  /** The queue and the history once the edited record is written back, or archived. */
  function JobsAfter(jobs: Queue, k: JobId, req: Request, job: Job): Queue {
    if StaysQueued(req.kind) then jobs[k := job] else jobs - {k}
  }

  function HistoryAfter(history: seq<(JobId, Job)>, k: JobId, req: Request, job: Job): seq<(JobId, Job)> {
    if StaysQueued(req.kind) then history else history + [(k, job)]
  }

  class JobStore {
    var jobs: Queue
    var history: seq<(JobId, Job)>

    /** Validates an action and, when `apply` is set, performs it. For a running job the shadow
        is torn down first; `torn` is the queue by the time that returns. `stored` says whether the
        store, or for a removal the history, accepts the write; a removal goes on regardless. */
    method ActOnJob(k: JobId, req: Request, apply: bool, torn: Queue, stored: bool, now: int) returns (code: Code)
      modifies this
      ensures var was := if k in old(jobs) then Some(old(jobs)[k]) else None;
              var verdict := Verdict(was, req);
              if !apply || !verdict.ArSuccess? then code == verdict && jobs == old(jobs) && history == old(history)
              else
                var base := if was.value.status == RUNNING && !req.kind.Release? then torn else old(jobs);
                var job := Edited(was.value, req, now);
                && code == (if !stored && (req.kind.Hold? || req.kind.Release?) then ArError else ArSuccess)
                && jobs == (if code.ArSuccess? then JobsAfter(base, k, req, job) else base)
                && history == (if stored then HistoryAfter(old(history), k, req, job) else old(history))
    {
      if k !in jobs {
        return ArNotFound;
      }
      var job := jobs[k];
      if !req.system && !req.owns {
        return ArPermissionDenied;
      }
      var status := job.status;
      match req.kind
      case Hold =>
        if status == HELD && (job.holdCode == USER_REQUEST || job.holdCode == SPOOLING_INPUT) {
          return ArAlreadyDone;
        }
        if status == REMOVED || status == COMPLETED {
          return ArPermissionDenied;
        }
        if !apply {
          return ArSuccess;
        }
        if status == RUNNING {
          jobs := torn;
          job := job.(lastHost := if job.host != "" then job.host else job.lastHost, host := "", claim := "",
                      renewal := 0);
        }
        job := job.(lastStatus := status, status := HELD, entered := now, holdSub := req.sub,
                    numHolds := job.numHolds + 1,
                    holdCode := if req.code == 0 then USER_REQUEST else req.code);
        code := Put(k, job, stored);
      case Release =>
        if status != HELD || job.holdCode == SPOOLING_INPUT {
          return ArBadStatus;
        }
        if !apply {
          return ArSuccess;
        }
        var release := if job.statusOnRelease > 0 then job.statusOnRelease else IDLE;
        job := job.(status := release, entered := now, holdCode := 0, holdSub := 0, exceptions := 0, vacateCode := 0);
        code := Put(k, job, stored);
      case _ =>
        if status == REMOVED {
          return ArAlreadyDone;
        }
        if !apply {
          return ArSuccess;
        }
        if status == RUNNING {
          jobs := torn;
          job := job.(claim := "", renewal := 0);
        }
        ArchiveAndDelete(k, job.(lastStatus := status, status := REMOVED, entered := now), stored);
        code := ArSuccess;
    }

    method Put(k: JobId, job: Job, stored: bool) returns (code: Code)
      modifies this`jobs
      ensures jobs == (if stored then old(jobs)[k := job] else old(jobs))
      ensures code == if stored then ArSuccess else ArError
    {
      if !stored {
        return ArError;
      }
      jobs := jobs[k := job];
      code := ArSuccess;
    }

    /** The job leaves the queue even when the history refuses its record. */
    method ArchiveAndDelete(k: JobId, job: Job, stored: bool)
      modifies this
      ensures history == (if stored then old(history) + [(k, job)] else old(history)) && jobs == old(jobs) - {k}
    {
      if stored {
        history := history + [(k, job)];
      }
      jobs := jobs - {k};
    }
  }

  /** An action is accepted exactly for a queued job, from its owner, a super user or the schedd
      itself, in a state that admits it: no hold of a removed or completed job nor of one held by
      the user or for spooling, no release but of a Held job, nor of one held for spooling, and no
      second removal. */
  lemma AcceptedExactly(job: Option<Job>, req: Request)
    ensures Verdict(job, req) == ArSuccess
            <==> && job.Some? && (req.system || req.owns)
                 && match req.kind
                    case Hold => job.value.status !in {3, 4}
                                 && !(job.value.status == 5 && job.value.holdCode in {1, 16})
                    case Release => job.value.status == 5 && job.value.holdCode != 16
                    case _ => job.value.status != 3
    ensures job.None? ==> Verdict(job, req) == ArNotFound
    ensures job.Some? && !req.system && !req.owns ==> Verdict(job, req) == ArPermissionDenied
  {
  }

  /** The attributes that say where a run is, and how often the job ran, are the same. */
  predicate SameRun(job: Job, after: Job) {
    && after.host == job.host && after.lastHost == job.lastHost && after.claim == job.claim
    && after.renewal == job.renewal
  }

  predicate SameHistory(job: Job, after: Job) {
    && after.lease == job.lease && after.starts == job.starts && after.completions == job.completions
    && after.statusOnRelease == job.statusOnRelease
  }

  /** A held job has the request's code, or 1 without one, one hold more, and is off its slot; its
      failures are kept. */
  lemma HoldIsRecorded(job: Job, req: Request, now: int)
    requires req.kind.Hold?
    ensures var after := Edited(job, req, now);
            && after.status == 5 && after.lastStatus == job.status && after.entered == now
            && after.holdCode == (if req.code != 0 then req.code else 1) && after.holdSub == req.sub
            && after.numHolds == job.numHolds + 1
            && after.exceptions == job.exceptions && after.vacateCode == job.vacateCode && SameHistory(job, after)
            && if job.status != 2 then SameRun(job, after)
               else after.host == "" && after.claim == "" && after.renewal == 0
                    && after.lastHost == (if job.host == "" then job.lastHost else job.host)
  {
  }

  /** Releasing undoes a hold of a job that was waiting: but for the count of holds, the last status
      and a failure budget that starts afresh, the record is as if it had never been held. */
  lemma ReleaseUndoesHold(job: Job, hold: Request, release: Request, held: int, now: int)
    requires hold.kind.Hold? && release.kind.Release? && job.status == 1 && job.statusOnRelease <= 0
    requires job.holdCode == 0 && job.holdSub == 0 && job.exceptions == 0 && job.vacateCode == 0
    ensures Edited(Edited(job, hold, held), release, now)
            == job.(numHolds := job.numHolds + 1, lastStatus := 1, entered := now)
  {
  }

  /** A released job goes to the status it asks for, or Idle, with no hold and no failure left. */
  lemma ReleaseIsRecorded(job: Job, req: Request, now: int)
    requires req.kind.Release?
    ensures var after := Edited(job, req, now);
            && after.status == (if job.statusOnRelease > 0 then job.statusOnRelease else 1) && after.entered == now
            && after.lastStatus == job.lastStatus && after.numHolds == job.numHolds
            && after.holdCode == 0 && after.holdSub == 0 && after.exceptions == 0 && after.vacateCode == 0
            && SameRun(job, after) && SameHistory(job, after)
  {
  }

  /** A removed job is archived as Removed without the claim and lease of a run it had. */
  lemma RemovalIsRecorded(job: Job, req: Request, now: int)
    requires req.kind.Remove? || req.kind.RemoveX?
    ensures var after := Edited(job, req, now);
            && after.status == 3 && after.lastStatus == job.status && after.entered == now
            && after.host == job.host && after.lastHost == job.lastHost
            && (if job.status == 2 then after.claim == "" && after.renewal == 0
                else after.claim == job.claim && after.renewal == job.renewal)
            && after.holdCode == job.holdCode && after.holdSub == job.holdSub && after.numHolds == job.numHolds
            && after.exceptions == job.exceptions && after.vacateCode == job.vacateCode && SameHistory(job, after)
  {
  }

  /** A hold and a release leave the job in the queue and the history alone; a removal moves the
      record from the one to the other. */
  lemma ActionsMoveRecords(jobs: Queue, history: seq<(JobId, Job)>, k: JobId, req: Request, job: Job, j: JobId)
    ensures var after := JobsAfter(jobs, k, req, job);
            && (j != k ==> (j in after <==> j in jobs) && (j in jobs ==> after[j] == jobs[j]))
            && if req.kind.Hold? || req.kind.Release?
               then k in after && after[k] == job && HistoryAfter(history, k, req, job) == history
               else k !in after && HistoryAfter(history, k, req, job) == history + [(k, job)]
  {
  }

  /** Asking again for what was just done is refused, except that a hold for a reason of the
      caller's own can be repeated, and a release to Held released again. */
  lemma RepeatIsRefused(job: Job, req: Request, now: int)
    requires Verdict(Some(job), req) == ArSuccess
    ensures var again := Verdict(Some(Edited(job, req, now)), req);
            match req.kind
            case Hold => (again == ArAlreadyDone <==> req.code in {0, USER_REQUEST, SPOOLING_INPUT})
            case Release => (again == ArBadStatus <==> job.statusOnRelease != HELD)
            case _ => again == ArAlreadyDone
  {
  }
}
