/**
 What the record of an apply job tells about the outcomes of its work, over every run: how it ends,
 what it says between attempts, and which outcomes are tried again.
 */
module ApplyOutcomes {
  import opened Outcome
  import opened Text
  import opened ApplyTable
  import opened ApplyProtocol

  // ---------- Outcomes as a run shows them ----------

  /** The outcome that the job's driver takes in this step: what an attempt returned, or why it stopped waiting. */
  function Taken(s: State, step: Step, id: JobID): Option<Work> {
    if !step.Drive? || step.job != id then None
    else
      match step.move
      case Receive => if id in s.drivers && s.drivers[id].pc.Waiting? && s.drivers[id].pc.attempt in s.workers then s.workers[s.drivers[id].pc.attempt].result else None
      case Deadline(cancelled) => Some(if cancelled then Gone("核心应用取消", "apply_cancelled", "context canceled") else Gone("核心应用超时", "apply_timeout", "context deadline exceeded"))
      case CleanupGivesUp(cancelled) =>
        Some(if cancelled then Gone("核心应用取消", "apply_cancelled", "context canceled")
             else Gone("核心应用清理超时", "apply_cleanup_timeout", "timed out waiting for cancelled core apply attempt to exit"))
      case CancelBackoff => Some(Gone("核心应用取消", "apply_cancelled", "context canceled"))
      case _ => None
  }

  /** An outcome that is not the work's own. */
  function Gone(message: string, errCode: string, detail: string): Work {
    Work(false, message, errCode, detail)
  }

  /** The last outcome taken in the first n steps. */
  function LastTaken(states: seq<State>, steps: seq<Step>, n: nat, id: JobID): Option<Work>
    requires n <= |steps| <= |states|
  {
    if n == 0 then None
    else
      var now := Taken(states[n - 1], steps[n - 1], id);
      if now.Some? then now else LastTaken(states, steps, n - 1, id)
  }

  // ---------- What the record tells ----------

  /** The job is over, and its record is that of the outcome. */
  predicate Ended(r: Record, o: Option<Work>) {
    && o.Some? && r.finishedAt.Some? && r.nextRetryAt.None? && r.message == o.value.message && r.detail == o.value.detail
    && if o.value.ok then r.status.Succeeded? && r.error == "" else r.status.Failed? && r.error == o.value.errCode
  }

  /** The next attempt is due, after an outcome that is worth one. */
  predicate Due(r: Record, o: Option<Work>, launched: nat) {
    && o.Some? && !o.value.ok && Retryable(o.value.errCode, o.value.detail)
    && r.status.Retrying? && r.retryCount == launched && r.error == o.value.errCode && r.detail == o.value.detail && r.nextRetryAt.Some?
  }

  predicate Again(o: Option<Work>, retry: nat) {
    if retry == 0 then o.None? else o.Some? && !o.value.ok && Retryable(o.value.errCode, o.value.detail)
  }

  /** The record of a job whose driver is at pc. */
  predicate Tells(r: Record, pc: DriverPc, o: Option<Work>) {
    match pc
    case Starting => r.status.Queued? && o.None?
    case LoopTop(retry) => if retry == 0 then r.status.Running? && o.None? else Due(r, o, retry)
    case Launching(retry) => r.status.Running? && Again(o, retry)
    case Waiting(retry, _) => r.status.Running? && Again(o, retry)
    case Cleaning(_, _, last) => r.status.Running? && o == Some(last) && !last.ok && Retryable(last.errCode, last.detail)
    case Backoff(retry) => retry > 0 && Due(r, o, retry)
    case Finishing(work) => Active(r.status) && o == Some(work)
    case Done => Ended(r, o)
  }

  /** One step of the job's own driver. */
  lemma DriverTells(s: State, id: JobID, move: Move, o: Option<Work>)
    requires id in s.drivers && id in s.table.byID && s.table.byID[id].id == id && DriverEnabled(s, move, s.drivers[id].pc)
    requires Tells(s.table.byID[id], s.drivers[id].pc, o)
    ensures var u, now := ApplyDriver(s, id, move), Taken(s, Drive(id, move), id);
            id in u.table.byID && id in u.drivers && Tells(u.table.byID[id], u.drivers[id].pc, if now.Some? then now else o)
  {
    hide Retryable;
  }

  lemma OthersTell(s: State, step: Step, id: JobID)
    requires TableInv(s) && Enabled(s, step) && id in s.drivers && !(step.Drive? && step.job == id)
    ensures var u := Apply(s, step);
            id in u.drivers && u.drivers[id].pc == s.drivers[id].pc && id in u.table.byID && u.table.byID[id] == s.table.byID[id]
    ensures Taken(s, step, id) == None
  {
    hide NextTable, NextPc, WorkerEnabled, DriverEnabled, ApplyWorker;
    match step
    case TryStart(_, _, _, _, _) =>
    case OtherProcess(_) =>
    case Drive(job, move) =>
      DriverTouchesOwnRecord(s, job, move);
    case Do(a, act) =>
      WorkerTouchesNoJob(s, a, act);
  }

  /** A new job has taken no outcome yet, because it had no driver. */
  lemma {:induction false} NoDriverNoOutcome(states: seq<State>, steps: seq<Step>, n: nat, id: JobID)
    requires IsRun(states, steps) && n <= |steps| && id !in states[n].drivers
    ensures LastTaken(states, steps, n, id) == None
  {
    hide Apply, Enabled, Taken;
    if n > 0 {
      if id in states[n - 1].drivers {
        DriversStay(states[n - 1], steps[n - 1], id);
      }
      NoDriverNoOutcome(states, steps, n - 1, id);
      NotItsDriver(states[n - 1], steps[n - 1], id);
    }
  }

  lemma DriversStay(s: State, step: Step, id: JobID)
    requires Enabled(s, step) && id in s.drivers
    ensures id in Apply(s, step).drivers
  {
  }

  lemma NotItsDriver(s: State, step: Step, id: JobID)
    requires Enabled(s, step) && id !in s.drivers
    ensures Taken(s, step, id) == None
  {
    hide DriverEnabled, WorkerEnabled;
  }

  lemma NewJobTells(s: State, step: Step, id: JobID)
    requires TableInv(s) && Enabled(s, step) && id !in s.drivers && id in Apply(s, step).drivers
    ensures var u := Apply(s, step); id in u.table.byID && Tells(u.table.byID[id], u.drivers[id].pc, None)
  {
    hide DriverEnabled, WorkerEnabled;
  }

  /** In every state of every run each record tells what its driver went through. */
  lemma {:induction false} RecordsTell(states: seq<State>, steps: seq<Step>, n: nat, id: JobID)
    requires IsRun(states, steps) && n <= |steps| && id in states[n].drivers
    ensures id in states[n].table.byID && Tells(states[n].table.byID[id], states[n].drivers[id].pc, LastTaken(states, steps, n, id))
  {
    hide Apply, Enabled, Taken, Tells, Inv, TableInv, DriverEnabled;
    if n > 0 {
      var s, step := states[n - 1], steps[n - 1];
      RunInv(states, steps, n - 1);
      InvParts(s);
      if id !in s.drivers {
        NewJobTells(s, step, id);
        NoDriverNoOutcome(states, steps, n - 1, id);
        NotItsDriver(s, step, id);
      } else {
        RecordsTell(states, steps, n - 1, id);
        if step.Drive? && step.job == id {
          OwnStepTells(s, step, id, LastTaken(states, steps, n - 1, id));
        } else {
          OthersTell(s, step, id);
        }
      }
    } else {
      NothingAtFirst(id);
    }
  }

  lemma NothingAtFirst(id: JobID)
    ensures id !in Init().drivers
  {
  }

  lemma OwnStepTells(s: State, step: Step, id: JobID, o: Option<Work>)
    requires TableInv(s) && Enabled(s, step) && step.Drive? && step.job == id && id in s.drivers
    requires id in s.table.byID && Tells(s.table.byID[id], s.drivers[id].pc, o)
    ensures var u, now := Apply(s, step), Taken(s, step, id);
            id in u.table.byID && id in u.drivers && Tells(u.table.byID[id], u.drivers[id].pc, if now.Some? then now else o)
  {
    hide Tells, Taken, ApplyDriver, DriverEnabled;
    DriverTells(s, id, step.move, o);
  }

  /**
   However a run goes: a job that is over has succeeded if and only if the last outcome its driver took was ok,
   and its record carries that outcome's message, error and detail. Until then it has neither succeeded nor failed.
   */
  lemma JobsEndAsTheirWork(states: seq<State>, steps: seq<Step>, n: nat, id: JobID)
    requires IsRun(states, steps) && n <= |steps| && id in states[n].table.byID
    ensures id in states[n].drivers
    ensures var r, o := states[n].table.byID[id], LastTaken(states, steps, n, id);
            && (!Active(r.status) <==> states[n].drivers[id].pc.Done?)
            && (!Active(r.status) ==> o.Some? && r.message == o.value.message && r.detail == o.value.detail)
            && (r.status.Succeeded? ==> o.value.ok && r.error == "")
            && (r.status.Failed? ==> !o.value.ok && r.error == o.value.errCode)
  {
    hide Apply, Enabled, Taken, LastTaken;
    RunInv(states, steps, n);
    RecordsTell(states, steps, n, id);
  }

  /**
   Between two attempts the record says so: it is retrying, it counts the attempts launched so far, and it
   carries the error of the last one, which failed in a way that is worth another attempt.
   */
  lemma RetryingTells(states: seq<State>, steps: seq<Step>, n: nat, id: JobID)
    requires IsRun(states, steps) && n <= |steps| && id in states[n].drivers
    requires var pc := states[n].drivers[id].pc; pc.Backoff? || (pc.LoopTop? && AttemptsOf(states[n], id) != {})
    ensures id in states[n].table.byID
    ensures var r, o := states[n].table.byID[id], LastTaken(states, steps, n, id);
            && r.status.Retrying? && r.nextRetryAt.Some? && r.retryCount == |AttemptsOf(states[n], id)|
            && o.Some? && !o.value.ok && r.error == o.value.errCode && r.detail == o.value.detail
  {
    hide Apply, Enabled, Taken, LastTaken, AttemptsOf, Retryable;
    RunInv(states, steps, n);
    RecordsTell(states, steps, n, id);
  }

  // ---------- Which outcomes are tried again ----------

  /** Another attempt follows an outcome of an attempt if and only if it is a failure worth one and fewer than the allowed retries were made. */
  lemma RetriesIff(states: seq<State>, steps: seq<Step>, n: nat, id: JobID)
    requires IsRun(states, steps) && n < |steps| && steps[n].Drive? && steps[n].job == id && (steps[n].move.Receive? || steps[n].move.Deadline?)
    ensures id in states[n].drivers && id in states[n + 1].drivers && Taken(states[n], steps[n], id).Some?
    ensures var w, pc := Taken(states[n], steps[n], id).value, states[n + 1].drivers[id].pc;
            && (pc.Cleaning? <==> !w.ok && Retryable(w.errCode, w.detail) && |AttemptsOf(states[n], id)| <= states[n].drivers[id].maxRetries)
            && (!pc.Cleaning? ==> pc == Finishing(w))
  {
    hide AttemptsOf, Retryable, TableInv, AttemptInv, LockInv;
    RunInv(states, steps, n);
    assert LaunchedBy(states[n].drivers[id].pc, states[n].drivers[id].maxRetries, |AttemptsOf(states[n], id)|);
    assert Enabled(states[n], steps[n]) && states[n + 1] == Apply(states[n], steps[n]);
  }

  predicate Over(pc: DriverPc) {
    pc.Finishing? || pc.Done?
  }

  lemma OverStaysOver(s: State, step: Step, id: JobID)
    requires TableInv(s) && Enabled(s, step) && id in s.drivers && Over(s.drivers[id].pc)
    ensures id in Apply(s, step).drivers && Over(Apply(s, step).drivers[id].pc)
    ensures !(step.Drive? && step.job == id && step.move.Launch?)
  {
    hide NextTable, ApplyWorker, WorkerEnabled;
    match step
    case TryStart(_, _, _, _, _) =>
    case OtherProcess(_) =>
    case Drive(_, _) =>
    case Do(a, act) =>
      WorkerTouchesNoJob(s, a, act);
  }

  /** Once a job's driver has taken an outcome that ends it, it launches no further attempt for the rest of the run. */
  lemma {:induction false} NoMoreAttempts(states: seq<State>, steps: seq<Step>, i: nat, j: nat, id: JobID)
    requires IsRun(states, steps) && i < j < |steps| && steps[i].Drive? && steps[i].job == id && Taken(states[i], steps[i], id).Some?
    requires var w := Taken(states[i], steps[i], id).value;
             w.ok || !Retryable(w.errCode, w.detail) || |AttemptsOf(states[i], id)| > states[i].drivers[id].maxRetries || steps[i].move.CleanupGivesUp? || steps[i].move.CancelBackoff?
    ensures id in states[j].drivers && Over(states[j].drivers[id].pc)
    ensures !(steps[j].Drive? && steps[j].job == id && steps[j].move.Launch?)
    decreases j
  {
    hide Apply, Enabled, Taken, Over, Inv, TableInv, AttemptsOf, Retryable;
    RunInv(states, steps, j - 1);
    InvParts(states[j - 1]);
    RunInv(states, steps, j);
    InvParts(states[j]);
    if i + 1 == j {
      EndsAt(states, steps, i, id);
    } else {
      NoMoreAttempts(states, steps, i, j - 1, id);
      OverStaysOver(states[j - 1], steps[j - 1], id);
    }
    OverStaysOver(states[j], steps[j], id);
  }

  lemma EndsAt(states: seq<State>, steps: seq<Step>, i: nat, id: JobID)
    requires IsRun(states, steps) && i < |steps| && steps[i].Drive? && steps[i].job == id && Taken(states[i], steps[i], id).Some?
    requires var w := Taken(states[i], steps[i], id).value;
             w.ok || !Retryable(w.errCode, w.detail) || |AttemptsOf(states[i], id)| > states[i].drivers[id].maxRetries || steps[i].move.CleanupGivesUp? || steps[i].move.CancelBackoff?
    ensures id in states[i + 1].drivers && Over(states[i + 1].drivers[id].pc)
  {
    hide AttemptsOf, Retryable, TableInv, AttemptInv, LockInv, RetryInv, LaunchedBy;
    if steps[i].move.Receive? || steps[i].move.Deadline? {
      RetriesIff(states, steps, i, id);
    }
    assert Enabled(states[i], steps[i]) && states[i + 1] == Apply(states[i], steps[i]);
  }

  // ---------- The lock file ----------

  /** How the lock file may change: another process takes a free one or gives back its own, a worker takes a free one or gives back its own. */
  lemma LockMoves(s: State, step: Step)
    requires LockInv(s) && Enabled(s, step) && Apply(s, step).lock != s.lock
    ensures var u := Apply(s, step);
            || (step.OtherProcess? && ((s.lock.Free? && u.lock.Elsewhere?) || (s.lock.Elsewhere? && u.lock.Free?)))
            || (step.Do? && step.a in s.workers && s.lock.Free? && u.lock == Held(step.a) && u.workers[step.a].pc.InLock?)
            || (step.Do? && step.a in s.workers && s.lock == Held(step.a) && u.lock.Free? && !u.workers[step.a].pc.InLock?)
  {
    hide Decide, NextTable, Start, Busy;
  }

  // ---------- Which failures are worth another attempt ----------

  const AGAIN := {"apply_locked", "apply_timeout", "status_failed", "service_status_failed", "listener_check_failed", "port_check_failed", "restart_in_progress"}
  const NEVER := {"apply_cleanup_timeout", "build_failed", "build_xray_config_failed", "validation_failed", "validate_failed", "config_invalid", "unsupported_core",
                  "store_unavailable", "core_apply_state_store_unavailable", "record_apply_state_failed", "permission_denied", "write_failed", "write_config_failed", "cert_failed"}

  /** Known codes decide by themselves; otherwise the error has to speak of a lock, a timeout, something temporary, a busy systemd or a restart in progress. */
  lemma RetryableIff(errCode: string, detail: string)
    ensures var text := Lower(errCode + " " + detail);
            Retryable(errCode, detail) <==>
              if errCode in AGAIN then true
              else if errCode in NEVER then false
              else
                || Says(text, "lock") || Says(text, "timeout") || Says(text, "temporar")
                || (Says(text, "systemd") && Says(text, "busy")) || (Says(text, "restart") && Says(text, "progress"))
  {
    var text := Lower(errCode + " " + detail);
    forall part ensures Contains(text, part) <==> Says(text, part) {
      ContainsIff(text, part);
    }
    if Says(text, "locked") {
      PartSays(text, "locked", "lock");
    }
    hide Contains, Says, Lower;
  }

  lemma PartSays(text: string, whole: string, part: string)
    requires Says(text, whole) && part <= whole
    ensures Says(text, part)
  {
    var a, b :| text == a + whole + b;
    assert whole == part + whole[|part|..];
    assert text == a + part + (whole[|part|..] + b);
  }

  // ---------- What starts a job, and what a worker does ----------

  /** Asking for a job on a core that has an unfinished one changes nothing; on any other core it starts one. */
  lemma StartsIff(s: State, core: string, message: string, maxRetries: int, id: JobID, now: int)
    requires TableInv(s) && id !in s.table.byID
    ensures var u, busy := Apply(s, TryStart(core, message, maxRetries, id, now)), core in s.table.byCore && Unfinished(s, s.table.byCore[core]);
            if busy then u == s
            else
              && id in u.table.byID && u.table.byCore == s.table.byCore[core := id] && id in u.drivers && u.drivers[id].pc.Starting?
              && u.drivers[id].maxRetries == maxRetries && u.drivers[id].core == core && u.drivers[id].message == message
              && u.table.byID[id].status.Queued? && u.table.byID[id].core == core && u.table.byID[id].message == message
              && u.table.byID[id].retryCount == 0 && u.table.byID[id].error == "" && u.table.byID[id].detail == "" && u.table.byID[id].startedAt == now
              && forall other :: other in s.table.byID ==> other in u.table.byID && u.table.byID[other] == s.table.byID[other]
  {
  }

  /** The steps of a worker through slot, lock file and work. */
  lemma WorkerSteps(s: State, a: AttemptID, act: Act)
    requires Enabled(s, Do(a, act))
    ensures var u, w := Apply(s, Do(a, act)), s.workers[a];
            && (act.TakeSlot? ==> s.slot == None && u.slot == Some(a) && u.workers[a] == w.(pc := HoldingSlot) && u.lock == s.lock)
            && (act == TryLockFile(true) ==> s.lock == Free && u.lock == Held(a) && u.workers[a] == w.(pc := InLock) && u.slot == s.slot)
            && (act == TryLockFile(false) ==> u.lock == s.lock && u.workers[a] == w.(pc := Leaving) && u.slot == s.slot)
            && (act.Unlock? ==> u.lock == Free && u.workers[a] == w.(pc := Leaving) && u.slot == s.slot)
            && (act.ReleaseSlot? ==> u.slot == None && u.workers[a] == w.(pc := Working) && u.lock == s.lock)
            && (act.Return? ==> u.workers[a].result == Some(act.work) && u.workers[a].pc.Returned? && u.slot == s.slot && u.lock == s.lock)
            && (act.Exit? ==> u.workers[a] == w.(pc := Exited) && u.slot == s.slot && u.lock == s.lock)
  {
  }

  /** While it works a job shows the message it was started with, or the last one if that is empty; while it waits, why it retries and when. */
  lemma MessagesShown(s: State, id: JobID, move: Move)
    requires id in s.drivers && id in s.table.byID && DriverEnabled(s, move, s.drivers[id].pc)
    ensures var d, was, r := s.drivers[id], s.table.byID[id], ApplyDriver(s, id, move).table.byID;
            && id in r
            && (move.Begin? || (move.EnterLoop? && d.pc.retry > 0) ==>
                  r[id].message == (if d.message == "" then was.message else d.message) && r[id].nextRetryAt.None? && r[id].error == was.error)
            && (move.CleanupDone? ==> r[id].message == move.retryMessage && r[id].nextRetryAt == Some(move.next) && r[id].maxRetries == d.maxRetries)
            && (move.Finish? ==> r[id].finishedAt == Some(move.now))
  {
    hide NextPc;
  }
}
