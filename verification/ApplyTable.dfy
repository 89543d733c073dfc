/**
 The table of core apply jobs: what one step of the manager does to it, and the class
 whose two maps share mutable job records.
 */
module ApplyTable {
  import opened Outcome

  type JobID = string

  datatype Status = Queued | Running | Retrying | Succeeded | Failed

  /** One job as clients see it; times are seconds, None is the empty string. */
  datatype Record = Record(id: JobID, core: string, status: Status, startedAt: int, finishedAt: Option<int>,
                           message: string, error: string, detail: string, accepted: bool,
                           retryCount: int, maxRetries: int, nextRetryAt: Option<int>)

  datatype Table = Table(byID: map<JobID, Record>, byCore: map<string, JobID>)

  predicate Active(status: Status) {
    status.Queued? || status.Running? || status.Retrying?
  }

  /** The core's latest job, if it has not finished. */
  predicate Busy(t: Table, core: string) {
    core in t.byCore && t.byCore[core] in t.byID && Active(t.byID[t.byCore[core]].status)
  }

  function NewRecord(id: JobID, core: string, message: string, maxRetries: int, now: int): Record {
    Record(id, core, Queued, now, None, message, "", "", true, 0, maxRetries, None)
  }

  function Start(t: Table, core: string, message: string, maxRetries: int, id: JobID, now: int): Table {
    if Busy(t, core) then t
    else Table(t.byID[id := NewRecord(id, core, message, maxRetries, now)], t.byCore[core := id])
  }

  /** Unknown ids are ignored. */
  function Update(t: Table, id: JobID, r: Record): Table {
    if id in t.byID then t.(byID := t.byID[id := r]) else t
  }

  function RunningRecord(r: Record, message: string): (u: Record)
    ensures u.id == r.id && u.core == r.core
  {
    r.(status := Running, nextRetryAt := None, message := if message != "" then message else r.message)
  }

  function RetryingRecord(r: Record, message: string, error: string, detail: string, retryCount: int, maxRetries: int, next: int): (u: Record)
    ensures u.id == r.id && u.core == r.core
  {
    r.(status := Retrying, message := message, error := error, detail := detail, retryCount := retryCount,
       maxRetries := maxRetries, nextRetryAt := Some(next))
  }

  function SucceededRecord(r: Record, message: string, detail: string, now: int): (u: Record)
    ensures u.id == r.id && u.core == r.core
  {
    r.(status := Succeeded, finishedAt := Some(now), message := message, error := "", detail := detail, nextRetryAt := None)
  }

  function FailedRecord(r: Record, message: string, error: string, detail: string, now: int): (u: Record)
    ensures u.id == r.id && u.core == r.core
  {
    r.(status := Failed, finishedAt := Some(now), message := message, error := error, detail := detail, nextRetryAt := None)
  }

  function SetRunning(t: Table, id: JobID, message: string): Table {
    if id in t.byID then Update(t, id, RunningRecord(t.byID[id], message)) else t
  }

  function SetRetrying(t: Table, id: JobID, message: string, error: string, detail: string, retryCount: int, maxRetries: int, next: int): Table {
    if id in t.byID then Update(t, id, RetryingRecord(t.byID[id], message, error, detail, retryCount, maxRetries, next)) else t
  }

  function SetSucceeded(t: Table, id: JobID, message: string, detail: string, now: int): Table {
    if id in t.byID then Update(t, id, SucceededRecord(t.byID[id], message, detail, now)) else t
  }

  function SetFailed(t: Table, id: JobID, message: string, error: string, detail: string, now: int): Table {
    if id in t.byID then Update(t, id, FailedRecord(t.byID[id], message, error, detail, now)) else t
  }

  // ---------- The manager object ----------

  class Job {
    var id: JobID
    var core: string
    var status: Status
    var startedAt: int
    var finishedAt: Option<int>
    var message: string
    var error: string
    var detail: string
    var accepted: bool
    var retryCount: int
    var maxRetries: int
    var nextRetryAt: Option<int>

    constructor (r: Record)
      ensures Value() == r
    {
      id, core, status, startedAt, finishedAt, message := r.id, r.core, r.status, r.startedAt, r.finishedAt, r.message;
      error, detail, accepted, retryCount, maxRetries, nextRetryAt := r.error, r.detail, r.accepted, r.retryCount, r.maxRetries, r.nextRetryAt;
    }

    function Value(): Record
      reads this
    {
      Record(id, core, status, startedAt, finishedAt, message, error, detail, accepted, retryCount, maxRetries, nextRetryAt)
    }

    method BecomeRunning(message: string)
      modifies this
      ensures Value() == RunningRecord(old(Value()), message)
    {
      status := Running;
      nextRetryAt := None;
      if message != "" {
        this.message := message;
      }
    }

    method BecomeRetrying(message: string, error: string, detail: string, retryCount: int, maxRetries: int, next: int)
      modifies this
      ensures Value() == RetryingRecord(old(Value()), message, error, detail, retryCount, maxRetries, next)
    {
      status := Retrying;
      this.message := message;
      this.error := error;
      this.detail := detail;
      this.retryCount := retryCount;
      this.maxRetries := maxRetries;
      nextRetryAt := Some(next);
    }

    method BecomeSucceeded(message: string, detail: string, now: int)
      modifies this
      ensures Value() == SucceededRecord(old(Value()), message, detail, now)
    {
      status := Succeeded;
      finishedAt := Some(now);
      this.message := message;
      error := "";
      this.detail := detail;
      nextRetryAt := None;
    }

    method BecomeFailed(message: string, error: string, detail: string, now: int)
      modifies this
      ensures Value() == FailedRecord(old(Value()), message, error, detail, now)
    {
      status := Failed;
      finishedAt := Some(now);
      this.message := message;
      this.error := error;
      this.detail := detail;
      nextRetryAt := None;
    }
  }

  ghost function Records(jobs: map<JobID, Job>): map<JobID, Record>
    reads jobs.Values
  {
    map id | id in jobs :: jobs[id].Value()
  }

  ghost function Current(jobs: map<string, Job>): map<string, JobID>
    reads jobs.Values
  {
    map core | core in jobs :: jobs[core].id
  }

  lemma RecordsMore(jobs: map<JobID, Job>, id: JobID, job: Job)
    ensures Records(jobs[id := job]) == Records(jobs)[id := job.Value()]
  {
  }

  lemma CurrentMore(jobs: map<string, Job>, core: string, job: Job)
    ensures Current(jobs[core := job]) == Current(jobs)[core := job.id]
  {
  }

  class JobManager {
    var byCore: map<string, Job>
    var byID: map<JobID, Job>

    /** Both maps reach the same objects, and distinct ids reach distinct objects. */
    ghost predicate Valid()
      reads this, byID.Values, byCore.Values
    {
      && (forall id :: id in byID ==> byID[id].id == id)
      && (forall core :: core in byCore ==> byCore[core].core == core && byCore[core].id in byID && byID[byCore[core].id] == byCore[core])
    }

    ghost function Contents(): Table
      reads this, byID.Values, byCore.Values
    {
      Table(Records(byID), Current(byCore))
    }

    constructor ()
      ensures Valid() && Contents() == Table(map[], map[])
    {
      byCore, byID := map[], map[];
    }

    /** A copy that no later change of the table reaches. */
    method Clone(job: Job) returns (cloned: Job)
      ensures fresh(cloned) && cloned.Value() == job.Value()
    {
      cloned := new Job(job.Value());
    }

    method Get(id: JobID) returns (job: Job?)
      requires Valid()
      ensures id !in Contents().byID ==> job == null
      ensures id in Contents().byID ==> job != null && fresh(job) && job.Value() == Contents().byID[id]
    {
      job := null;
      if id in byID {
        job := Clone(byID[id]);
      }
    }

    method Latest(core: string) returns (job: Job?)
      requires Valid()
      ensures core !in Contents().byCore ==> job == null
      ensures core in Contents().byCore ==> job != null && fresh(job) && job.Value() == Contents().byID[Contents().byCore[core]]
    {
      job := null;
      if core in byCore {
        job := Clone(byCore[core]);
      }
    }

    method IsRunning(core: string) returns (running: bool)
      requires Valid()
      ensures running == Busy(Contents(), core)
    {
      if core !in byCore {
        return false;
      }
      running := Active(byCore[core].status);
    }

    /** Enters a job into both maps. */
    method Insert(created: Job)
      requires Valid() && created.id !in byID
      modifies this
      ensures Valid() && byID == old(byID)[created.id := created]
      ensures Contents() == Table(old(Contents()).byID[created.id := created.Value()], old(Contents()).byCore[created.core := created.id])
    {
      CurrentMore(byCore, created.core, created);
      RecordsMore(byID, created.id, created);
      byCore := byCore[created.core := created];
      byID := byID[created.id := created];
      hide Records, Current, Job.Value;
    }

    /** The caller gets a copy, never the record that the table holds. */
    method TryStart(core: string, message: string, maxRetries: int, id: JobID, now: int) returns (job: Job, started: bool)
      requires Valid() && id !in byID
      modifies this
      ensures Valid()
      ensures started == !old(Busy(Contents(), core))
      ensures !started ==> Contents() == old(Contents())
      ensures started ==>
                && Contents().byCore == old(Contents()).byCore[core := id] && Contents().byID.Keys == old(Contents()).byID.Keys + {id}
                && (forall other :: other in old(Contents()).byID ==> Contents().byID[other] == old(Contents()).byID[other])
                && var r := Contents().byID[id];
                   && r.id == id && r.core == core && r.status.Queued? && r.message == message && r.error == "" && r.retryCount == 0
                   && r.maxRetries == maxRetries && r.startedAt == now && r.finishedAt.None? && r.nextRetryAt.None? && r.accepted
      ensures Contents() == Start(old(Contents()), core, message, maxRetries, id, now)
      ensures fresh(job) && job !in byID.Values && job.Value() == Contents().byID[Contents().byCore[core]]
    {
      if core in byCore && Active(byCore[core].status) {
        job := Clone(byCore[core]);
        return job, false;
      }
      var created := new Job(NewRecord(id, core, message, maxRetries, now));
      Insert(created);
      job := Clone(created);
      started := true;
    }

    method MarkRunning(id: JobID, message: string)
      requires Valid()
      modifies if id in byID then {byID[id]} else {}
      ensures Valid() && Contents() == SetRunning(old(Contents()), id, message)
    {
      hide RunningRecord;
      if id in byID {
        byID[id].BecomeRunning(message);
      }
    }

    method MarkRetrying(id: JobID, message: string, error: string, detail: string, retryCount: int, maxRetries: int, next: int)
      requires Valid()
      modifies if id in byID then {byID[id]} else {}
      ensures Valid() && Contents() == SetRetrying(old(Contents()), id, message, error, detail, retryCount, maxRetries, next)
    {
      hide RetryingRecord;
      if id in byID {
        byID[id].BecomeRetrying(message, error, detail, retryCount, maxRetries, next);
      }
    }

    method MarkSucceeded(id: JobID, message: string, detail: string, now: int)
      requires Valid()
      modifies if id in byID then {byID[id]} else {}
      ensures Valid() && Contents() == SetSucceeded(old(Contents()), id, message, detail, now)
    {
      hide SucceededRecord;
      if id in byID {
        byID[id].BecomeSucceeded(message, detail, now);
      }
    }

    method MarkFailed(id: JobID, message: string, error: string, detail: string, now: int)
      requires Valid()
      modifies if id in byID then {byID[id]} else {}
      ensures Valid() && Contents() == SetFailed(old(Contents()), id, message, error, detail, now)
    {
      hide FailedRecord;
      if id in byID {
        byID[id].BecomeFailed(message, error, detail, now);
      }
    }
  }
}
