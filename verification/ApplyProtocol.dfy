/**
 The core apply jobs as interleaved steps: one driver goroutine per job, one worker
 goroutine per attempt, the in-process slot and the lock file around applying.

 Attempt ids, job ids, clock readings and the outcome of work are inputs. A timeout,
 a cancellation or a wake-up may come at any moment its wait is open.
 */
module ApplyProtocol {
  import opened Outcome
  import opened Text
  import opened ApplyTable

  type AttemptID = nat

  datatype Work = Work(ok: bool, message: string, errCode: string, detail: string)

  const RETRYABLE_CODES := {"apply_locked", "apply_timeout", "status_failed", "service_status_failed",
                            "listener_check_failed", "port_check_failed", "restart_in_progress"}
  const FINAL_CODES := {"apply_cleanup_timeout", "build_failed", "build_xray_config_failed", "validation_failed", "validate_failed",
                        "config_invalid", "unsupported_core", "store_unavailable", "core_apply_state_store_unavailable",
                        "record_apply_state_failed", "permission_denied", "write_failed", "write_config_failed", "cert_failed"}

  predicate Retryable(errCode: string, detail: string) {
    if errCode in RETRYABLE_CODES then true
    else if errCode in FINAL_CODES then false
    else
      var text := Lower(errCode + " " + detail);
      || Contains(text, "temporar") || Contains(text, "timeout") || Contains(text, "locked") || Contains(text, "lock")
      || (Contains(text, "systemd") && Contains(text, "busy"))
      || (Contains(text, "restart") && Contains(text, "progress"))
  }

  // ---------- State ----------

  /** Leaving: the lock file has been given back (or refused), the slot not yet. */
  datatype WorkerPc = Working | HoldingSlot | InLock | Leaving | Returned | Exited

  datatype Worker = Worker(job: JobID, pc: WorkerPc, result: Option<Work>)

  datatype DriverPc =
    | Starting
    | LoopTop(retry: nat)
    | Launching(retry: nat)
    | Waiting(retry: nat, attempt: AttemptID)
    | Cleaning(retry: nat, attempt: AttemptID, last: Work)
    | Backoff(retry: nat)
    | Finishing(work: Work)
    | Done

  datatype Driver = Driver(core: string, message: string, maxRetries: int, pc: DriverPc)

  datatype LockFile = Free | Elsewhere | Held(owner: AttemptID)

  datatype State = State(table: Table, drivers: map<JobID, Driver>, workers: map<AttemptID, Worker>,
                         slot: Option<AttemptID>, lock: LockFile)

  /** A step of a job's driver. */
  datatype Move =
    | Begin
    | EnterLoop
    | Launch(attempt: AttemptID)
    | Receive
    | Deadline(cancelled: bool)
    | CleanupDone(retryMessage: string, next: int)
    | CleanupGivesUp(cancelled: bool)
    | Wake
    | CancelBackoff
    | Finish(now: int)

  /** A step of an attempt's worker. */
  datatype Act =
    | TakeSlot
    | TryLockFile(acquired: bool)
    | Unlock
    | ReleaseSlot
    | Return(work: Work)
    | Exit

  datatype Step =
    | TryStart(core: string, message: string, maxRetries: int, id: JobID, now: int)
    | OtherProcess(taken: bool)
    | Drive(job: JobID, move: Move)
    | Do(a: AttemptID, act: Act)

  const CANCELLED := Work(false, "核心应用取消", "apply_cancelled", "context canceled")
  const TIMED_OUT := Work(false, "核心应用超时", "apply_timeout", "context deadline exceeded")
  const CLEANUP_TIMED_OUT := Work(false, "核心应用清理超时", "apply_cleanup_timeout", "timed out waiting for cancelled core apply attempt to exit")

  function Init(): State {
    State(Table(map[], map[]), map[], map[], None, Free)
  }

  // ---------- Steps ----------

  predicate DriverEnabled(s: State, move: Move, pc: DriverPc) {
    match move
    case Begin => pc.Starting?
    case EnterLoop => pc.LoopTop?
    case Launch(a) => pc.Launching? && a !in s.workers
    case Receive => pc.Waiting? && pc.attempt in s.workers && s.workers[pc.attempt].result.Some?
    case Deadline(_) => pc.Waiting?
    case CleanupDone(_, _) => pc.Cleaning? && pc.attempt in s.workers && s.workers[pc.attempt].pc.Exited?
    case CleanupGivesUp(_) => pc.Cleaning?
    case Wake => pc.Backoff?
    case CancelBackoff => pc.Backoff?
    case Finish(_) => pc.Finishing?
  }

  predicate WorkerEnabled(s: State, act: Act, pc: WorkerPc) {
    match act
    case TakeSlot => pc.Working? && s.slot.None?
    case TryLockFile(acquired) => pc.HoldingSlot? && (acquired ==> s.lock.Free?)
    case Unlock => pc.InLock?
    case ReleaseSlot => pc.Leaving?
    case Return(_) => pc.Working?
    case Exit => pc.Returned?
  }

  predicate Enabled(s: State, step: Step) {
    match step
    case TryStart(_, _, _, id, _) => id !in s.table.byID
    case OtherProcess(taken) => if taken then s.lock.Free? else s.lock.Elsewhere?
    case Drive(id, move) => id in s.drivers && DriverEnabled(s, move, s.drivers[id].pc)
    case Do(a, act) => a in s.workers && WorkerEnabled(s, act, s.workers[a].pc)
  }

  /** Where the driver goes with an attempt's outcome. */
  function Decide(d: Driver, retry: nat, attempt: AttemptID, work: Work): DriverPc {
    if work.ok || retry >= d.maxRetries || !Retryable(work.errCode, work.detail) then Finishing(work)
    else Cleaning(retry, attempt, work)
  }

  function NextPc(s: State, move: Move, d: Driver): DriverPc
    requires DriverEnabled(s, move, d.pc)
  {
    match move
    case Begin => LoopTop(0)
    case EnterLoop => Launching(d.pc.retry)
    case Launch(a) => Waiting(d.pc.retry, a)
    case Receive => Decide(d, d.pc.retry, d.pc.attempt, s.workers[d.pc.attempt].result.value)
    case Deadline(cancelled) => Decide(d, d.pc.retry, d.pc.attempt, if cancelled then CANCELLED else TIMED_OUT)
    case CleanupDone(_, _) => Backoff(d.pc.retry + 1)
    case CleanupGivesUp(cancelled) => Finishing(if cancelled then CANCELLED else CLEANUP_TIMED_OUT)
    case Wake => LoopTop(d.pc.retry)
    case CancelBackoff => Finishing(CANCELLED)
    case Finish(_) => Done
  }

  function NextTable(s: State, id: JobID, move: Move, d: Driver): Table
    requires DriverEnabled(s, move, d.pc)
  {
    match move
    case Begin => SetRunning(s.table, id, d.message)
    case EnterLoop => if d.pc.retry > 0 then SetRunning(s.table, id, d.message) else s.table
    case CleanupDone(message, next) =>
      SetRetrying(s.table, id, message, d.pc.last.errCode, d.pc.last.detail, d.pc.retry + 1, d.maxRetries, next)
    case Finish(now) =>
      if d.pc.work.ok then SetSucceeded(s.table, id, d.pc.work.message, d.pc.work.detail, now)
      else SetFailed(s.table, id, d.pc.work.message, d.pc.work.errCode, d.pc.work.detail, now)
    case _ => s.table
  }

  function ApplyDriver(s: State, id: JobID, move: Move): State
    requires id in s.drivers && DriverEnabled(s, move, s.drivers[id].pc)
  {
    var d := s.drivers[id];
    s.(table := NextTable(s, id, move, d),
       drivers := s.drivers[id := d.(pc := NextPc(s, move, d))],
       workers := if move.Launch? then s.workers[move.attempt := Worker(id, Working, None)] else s.workers)
  }

  function ApplyWorker(s: State, a: AttemptID, act: Act): State
    requires a in s.workers && WorkerEnabled(s, act, s.workers[a].pc)
  {
    var w := s.workers[a];
    match act
    case TakeSlot => s.(workers := s.workers[a := w.(pc := HoldingSlot)], slot := Some(a))
    case TryLockFile(acquired) =>
      if acquired then s.(workers := s.workers[a := w.(pc := InLock)], lock := Held(a))
      else s.(workers := s.workers[a := w.(pc := Leaving)])
    case Unlock => s.(workers := s.workers[a := w.(pc := Leaving)], lock := Free)
    case ReleaseSlot => s.(workers := s.workers[a := w.(pc := Working)], slot := None)
    case Return(work) => s.(workers := s.workers[a := w.(pc := Returned, result := Some(work))])
    case Exit => s.(workers := s.workers[a := w.(pc := Exited)])
  }

  function Apply(s: State, step: Step): State
    requires Enabled(s, step)
  {
    match step
    case TryStart(core, message, maxRetries, id, now) =>
      if Busy(s.table, core) then s
      else s.(table := Start(s.table, core, message, maxRetries, id, now),
              drivers := s.drivers[id := Driver(core, message, maxRetries, Starting)])
    case OtherProcess(taken) => s.(lock := if taken then Elsewhere else Free)
    case Drive(id, move) => ApplyDriver(s, id, move)
    case Do(a, act) => ApplyWorker(s, a, act)
  }

  // ---------- Invariants ----------

  /** At most one unfinished job per core, and it is the one that byCore names; a driver is done exactly when its job is over. */
  ghost predicate TableInv(s: State) {
    && s.drivers.Keys == s.table.byID.Keys
    && (forall core :: core in s.table.byCore ==> s.table.byCore[core] in s.table.byID && s.table.byID[s.table.byCore[core]].core == core)
    && (forall id :: id in s.table.byID ==>
          && s.table.byID[id].id == id
          && (Active(s.table.byID[id].status) <==> !s.drivers[id].pc.Done?)
          && (Active(s.table.byID[id].status) ==> s.table.byID[id].core in s.table.byCore && s.table.byCore[s.table.byID[id].core] == id))
  }

  ghost predicate Unfinished(s: State, id: JobID) {
    id in s.table.byID && Active(s.table.byID[id].status)
  }

  ghost predicate Live(s: State, a: AttemptID) {
    a in s.workers && !s.workers[a].pc.Exited?
  }

  /** The attempt that a driver is dealing with. */
  ghost predicate Attends(pc: DriverPc, a: AttemptID) {
    (pc.Waiting? || pc.Cleaning?) && pc.attempt == a
  }

  ghost predicate AttemptInv(s: State) {
    && (forall a :: a in s.workers ==> s.workers[a].job in s.drivers)
    && (forall a, b :: Live(s, a) && Live(s, b) && s.workers[a].job == s.workers[b].job ==> a == b)
    && (forall a :: Live(s, a) ==>
          var pc := s.drivers[s.workers[a].job].pc;
          Attends(pc, a) || pc.Finishing? || pc.Done?)
    && (forall id, a :: id in s.drivers && Attends(s.drivers[id].pc, a) ==> a in s.workers && s.workers[a].job == id)
  }

  predicate Inside(pc: WorkerPc) {
    pc.HoldingSlot? || pc.InLock? || pc.Leaving?
  }

  ghost predicate LockInv(s: State) {
    && (forall a :: a in s.workers && Inside(s.workers[a].pc) ==> s.slot == Some(a))
    && (s.slot.Some? ==> s.slot.value in s.workers && Inside(s.workers[s.slot.value].pc))
    && (forall a :: a in s.workers && s.workers[a].pc.InLock? ==> s.lock == Held(a))
    && (s.lock.Held? ==> s.lock.owner in s.workers && s.workers[s.lock.owner].pc.InLock?)
  }

  function AttemptsOf(s: State, id: JobID): set<AttemptID> {
    set a | a in s.workers && s.workers[a].job == id
  }

  function Budget(maxRetries: int): nat {
    if maxRetries < 0 then 1 else maxRetries + 1
  }

  /** How many attempts a driver has launched by the time it is at pc, when pc tells. */
  predicate LaunchedBy(pc: DriverPc, maxRetries: int, launched: nat) {
    match pc
    case Starting => launched == 0
    case LoopTop(retry) => launched == retry && retry < Budget(maxRetries)
    case Launching(retry) => launched == retry && retry < Budget(maxRetries)
    case Waiting(retry, _) => launched == retry + 1 && retry < Budget(maxRetries)
    case Cleaning(retry, _, _) => launched == retry + 1 && retry + 1 < Budget(maxRetries)
    case Backoff(retry) => launched == retry && retry < Budget(maxRetries)
    case Finishing(_) => launched <= Budget(maxRetries)
    case Done => launched <= Budget(maxRetries)
  }

  ghost predicate RetryInv(s: State) {
    forall id :: id in s.drivers ==> LaunchedBy(s.drivers[id].pc, s.drivers[id].maxRetries, |AttemptsOf(s, id)|)
  }

  ghost predicate Inv(s: State) {
    TableInv(s) && AttemptInv(s) && LockInv(s) && RetryInv(s)
  }

  lemma InitInv()
    ensures Inv(Init())
  {
  }

  // ---------- Preservation ----------

  /** What a driver step may do to the table: keep it, or replace its own job's record by one that is over only if the driver is done. */
  ghost predicate OwnRecordOnly(t: Table, u: Table, id: JobID, done: bool) {
    && u.byCore == t.byCore && u.byID.Keys == t.byID.Keys
    && (forall other :: other in t.byID && other != id ==> u.byID[other] == t.byID[other])
    && (id in t.byID ==> u.byID[id].id == t.byID[id].id && u.byID[id].core == t.byID[id].core
                         && (Active(u.byID[id].status) <==> if done then false else Active(t.byID[id].status)))
  }

  lemma DriverTouchesOwnRecord(s: State, id: JobID, move: Move)
    requires TableInv(s) && id in s.drivers && DriverEnabled(s, move, s.drivers[id].pc)
    ensures OwnRecordOnly(s.table, NextTable(s, id, move, s.drivers[id]), id, move.Finish?)
    ensures !s.drivers[id].pc.Done? && (NextPc(s, move, s.drivers[id]).Done? <==> move.Finish?)
  {
    DriverStillRunning(s, id, move);
    MoveOnOwnRecord(s, id, move);
    hide *;
  }

  /** A driver that can move has a running job, and only its last move ends it. */
  lemma DriverStillRunning(s: State, id: JobID, move: Move)
    requires TableInv(s) && id in s.drivers && DriverEnabled(s, move, s.drivers[id].pc)
    ensures id in s.table.byID && s.table.byID[id].id == id && Active(s.table.byID[id].status)
    ensures !s.drivers[id].pc.Done? && (NextPc(s, move, s.drivers[id]).Done? <==> move.Finish?)
  {
    hide Retryable;
  }

  lemma MoveOnOwnRecord(s: State, id: JobID, move: Move)
    requires id in s.drivers && DriverEnabled(s, move, s.drivers[id].pc)
    requires id in s.table.byID && s.table.byID[id].id == id && Active(s.table.byID[id].status)
    ensures OwnRecordOnly(s.table, NextTable(s, id, move, s.drivers[id]), id, move.Finish?)
  {
    hide NextPc, Decide;
  }

  lemma TableInvDrive(s: State, id: JobID, move: Move)
    requires TableInv(s) && id in s.drivers && DriverEnabled(s, move, s.drivers[id].pc)
    ensures TableInv(ApplyDriver(s, id, move))
  {
    hide DriverEnabled, NextTable, NextPc;
    DriverTouchesOwnRecord(s, id, move);
  }

  lemma TableInvStart(s: State, step: Step)
    requires TableInv(s) && step.TryStart? && Enabled(s, step)
    ensures TableInv(Apply(s, step))
  {
    hide DriverEnabled, WorkerEnabled, ApplyDriver, ApplyWorker;
  }

  lemma TableInvStep(s: State, step: Step)
    requires TableInv(s) && Enabled(s, step)
    ensures TableInv(Apply(s, step))
  {
    hide DriverEnabled, WorkerEnabled, ApplyDriver, ApplyWorker, Busy, Start;
    match step
    case TryStart(_, _, _, _, _) =>
      TableInvStart(s, step);
    case OtherProcess(_) =>
    case Drive(id, move) =>
      TableInvDrive(s, id, move);
    case Do(a, act) =>
      WorkerTouchesNoJob(s, a, act);
  }

  lemma WorkerTouchesNoJob(s: State, a: AttemptID, act: Act)
    requires a in s.workers && WorkerEnabled(s, act, s.workers[a].pc)
    ensures var u := ApplyWorker(s, a, act);
            && u.table == s.table && u.drivers == s.drivers && u.workers.Keys == s.workers.Keys
            && (forall b :: b in s.workers ==> u.workers[b].job == s.workers[b].job && (s.workers[b].pc.Exited? ==> u.workers[b].pc.Exited?))
  {
  }

  /** Where a driver may go, as far as its attempts are concerned. */
  ghost predicate Flow(s: State, move: Move, pc: DriverPc, next: DriverPc) {
    if move.Launch? then pc.Launching? && move.attempt !in s.workers && next == Waiting(pc.retry, move.attempt)
    else
      || next.Finishing? || next.Done?
      || (pc.Waiting? && next.Cleaning? && next.attempt == pc.attempt)
      || (pc.Cleaning? && pc.attempt in s.workers && s.workers[pc.attempt].pc.Exited? && next.Backoff?)
      || ((pc.Starting? || pc.LoopTop? || pc.Launching? || pc.Backoff?) && (next.LoopTop? || next.Launching?))
  }

  lemma PcFlow(s: State, id: JobID, move: Move)
    requires id in s.drivers && DriverEnabled(s, move, s.drivers[id].pc)
    ensures Flow(s, move, s.drivers[id].pc, NextPc(s, move, s.drivers[id]))
  {
    hide Retryable;
  }

  lemma AttemptInvLaunch(s: State, id: JobID, move: Move)
    requires AttemptInv(s) && id in s.drivers && DriverEnabled(s, move, s.drivers[id].pc) && move.Launch?
    ensures AttemptInv(ApplyDriver(s, id, move))
  {
    hide DriverEnabled, NextTable, NextPc, AttemptInv;
    PcFlow(s, id, move);
    LaunchKeeps(s, ApplyDriver(s, id, move), id, move.attempt);
  }

  /** The driver's move to launch an attempt, as far as attempts are concerned. */
  ghost predicate Launches(s: State, u: State, id: JobID, a: AttemptID) {
    && id in s.drivers && s.drivers[id].pc.Launching? && a !in s.workers
    && u.drivers.Keys == s.drivers.Keys && Attends(u.drivers[id].pc, a)
    && (forall other :: other in s.drivers && other != id ==> u.drivers[other] == s.drivers[other])
    && u.workers == s.workers[a := Worker(id, Working, None)]
  }

  /** A driver about to launch has no live attempt, so the new one is its only one. */
  lemma OlderIsOthers(s: State, u: State, id: JobID, a: AttemptID, b: AttemptID)
    requires AttemptInv(s) && Launches(s, u, id, a) && Live(u, b) && b != a
    ensures Live(s, b) && u.workers[b] == s.workers[b] && s.workers[b].job in s.drivers && s.workers[b].job != id
    ensures var pc := u.drivers[s.workers[b].job].pc; Attends(pc, b) || pc.Finishing? || pc.Done?
  {
  }

  lemma LaunchedApart(s: State, u: State, id: JobID, a: AttemptID, b: AttemptID, c: AttemptID)
    requires AttemptInv(s) && Launches(s, u, id, a)
    requires Live(u, b) && Live(u, c) && u.workers[b].job == u.workers[c].job
    ensures b == c
  {
    if b != a {
      OlderIsOthers(s, u, id, a, b);
    }
    if c != a {
      OlderIsOthers(s, u, id, a, c);
    }
  }

  lemma LaunchedKnown(s: State, u: State, id: JobID, a: AttemptID)
    requires AttemptInv(s) && Launches(s, u, id, a)
    ensures forall b :: b in u.workers ==> u.workers[b].job in u.drivers
    ensures forall other, b :: other in u.drivers && Attends(u.drivers[other].pc, b) ==> b in u.workers && u.workers[b].job == other
  {
    hide Live;
  }

  lemma LaunchKeeps(s: State, u: State, id: JobID, a: AttemptID)
    requires AttemptInv(s) && Launches(s, u, id, a)
    ensures AttemptInv(u)
  {
    LaunchedKnown(s, u, id, a);
    forall b, c | Live(u, b) && Live(u, c) && u.workers[b].job == u.workers[c].job ensures b == c {
      LaunchedApart(s, u, id, a, b, c);
    }
    forall b | Live(u, b) ensures var pc := u.drivers[u.workers[b].job].pc; Attends(pc, b) || pc.Finishing? || pc.Done? {
      if b != a {
        OlderIsOthers(s, u, id, a, b);
      }
    }
  }

  lemma AttemptInvMove(s: State, id: JobID, move: Move)
    requires AttemptInv(s) && id in s.drivers && DriverEnabled(s, move, s.drivers[id].pc) && !move.Launch?
    ensures AttemptInv(ApplyDriver(s, id, move))
  {
    hide DriverEnabled, NextTable, NextPc;
    PcFlow(s, id, move);
    var u := ApplyDriver(s, id, move);
    assert forall a :: Live(u, a) <==> Live(s, a);
  }

  lemma AttemptInvWorker(s: State, a: AttemptID, act: Act)
    requires AttemptInv(s) && a in s.workers && WorkerEnabled(s, act, s.workers[a].pc)
    ensures AttemptInv(ApplyWorker(s, a, act))
  {
    hide WorkerEnabled, ApplyWorker;
    WorkerTouchesNoJob(s, a, act);
    assert forall b :: Live(ApplyWorker(s, a, act), b) ==> Live(s, b);
  }

  lemma AttemptInvStep(s: State, step: Step)
    requires AttemptInv(s) && TableInv(s) && Enabled(s, step)
    ensures AttemptInv(Apply(s, step))
  {
    hide DriverEnabled, WorkerEnabled, ApplyDriver, ApplyWorker, Busy, Start;
    match step
    case TryStart(_, _, _, _, _) =>
      assert forall a :: Live(Apply(s, step), a) <==> Live(s, a);
    case OtherProcess(_) =>
      assert forall a :: Live(Apply(s, step), a) <==> Live(s, a);
    case Drive(id, move) =>
      hide AttemptInv;
      if move.Launch? {
        AttemptInvLaunch(s, id, move);
      } else {
        AttemptInvMove(s, id, move);
      }
    case Do(a, act) =>
      hide AttemptInv;
      AttemptInvWorker(s, a, act);
  }

  lemma LockInvWorker(s: State, a: AttemptID, act: Act)
    requires LockInv(s) && a in s.workers && WorkerEnabled(s, act, s.workers[a].pc)
    ensures LockInv(ApplyWorker(s, a, act))
  {
  }

  lemma LockInvStep(s: State, step: Step)
    requires LockInv(s) && Enabled(s, step)
    ensures LockInv(Apply(s, step))
  {
    hide DriverEnabled, WorkerEnabled, NextTable, NextPc, Busy, ApplyWorker;
    match step
    case TryStart(_, _, _, _, _) =>
    case OtherProcess(_) =>
    case Drive(id, move) =>
      PcFlow(s, id, move);
    case Do(a, act) =>
      LockInvWorker(s, a, act);
  }

  lemma LaunchedFlow(s: State, id: JobID, move: Move, launched: nat)
    requires id in s.drivers && DriverEnabled(s, move, s.drivers[id].pc)
    requires LaunchedBy(s.drivers[id].pc, s.drivers[id].maxRetries, launched)
    ensures LaunchedBy(NextPc(s, move, s.drivers[id]), s.drivers[id].maxRetries, if move.Launch? then launched + 1 else launched)
  {
    hide Retryable;
  }

  lemma RetryInvDriver(s: State, id: JobID, move: Move)
    requires RetryInv(s) && id in s.drivers && DriverEnabled(s, move, s.drivers[id].pc)
    ensures RetryInv(ApplyDriver(s, id, move))
  {
    hide NextPc, NextTable, DriverEnabled, LaunchedBy;
    LaunchedFlow(s, id, move, |AttemptsOf(s, id)|);
    PcFlow(s, id, move);
    var u := ApplyDriver(s, id, move);
    if move.Launch? {
      assert AttemptsOf(u, id) == AttemptsOf(s, id) + {move.attempt};
    } else {
      assert AttemptsOf(u, id) == AttemptsOf(s, id);
    }
    forall other | other in s.drivers && other != id ensures AttemptsOf(u, other) == AttemptsOf(s, other) {
    }
  }

  lemma StartsUnlaunched(maxRetries: int)
    ensures LaunchedBy(Starting, maxRetries, 0)
  {
  }

  lemma RetryInvStart(s: State, step: Step)
    requires RetryInv(s) && AttemptInv(s) && TableInv(s) && Enabled(s, step) && step.TryStart?
    ensures RetryInv(Apply(s, step))
  {
    hide LaunchedBy, Busy, Start;
    assert AttemptsOf(s, step.id) == {};
    StartsUnlaunched(step.maxRetries);
    forall other ensures AttemptsOf(Apply(s, step), other) == AttemptsOf(s, other) {
    }
  }

  lemma SameAttempts(s: State, u: State)
    requires RetryInv(s) && u.drivers == s.drivers && u.workers.Keys == s.workers.Keys
    requires forall b :: b in s.workers ==> u.workers[b].job == s.workers[b].job
    ensures RetryInv(u)
  {
    hide LaunchedBy;
    forall other ensures AttemptsOf(u, other) == AttemptsOf(s, other) {
    }
  }

  lemma RetryInvStep(s: State, step: Step)
    requires RetryInv(s) && AttemptInv(s) && TableInv(s) && Enabled(s, step)
    ensures RetryInv(Apply(s, step))
  {
    hide DriverEnabled, WorkerEnabled, ApplyDriver, ApplyWorker, RetryInv, AttemptInv, TableInv, Busy;
    match step
    case TryStart(_, _, _, _, _) =>
      RetryInvStart(s, step);
    case OtherProcess(_) =>
      SameAttempts(s, Apply(s, step));
    case Drive(id, move) =>
      RetryInvDriver(s, id, move);
    case Do(a, act) =>
      WorkerTouchesNoJob(s, a, act);
      SameAttempts(s, Apply(s, step));
  }

  /** Every step, of any goroutine, keeps the invariant. */
  lemma InvStep(s: State, step: Step)
    requires Inv(s) && Enabled(s, step)
    ensures Inv(Apply(s, step))
  {
    hide TableInv, AttemptInv, LockInv, RetryInv, Apply, Enabled;
    TableInvStep(s, step);
    AttemptInvStep(s, step);
    LockInvStep(s, step);
    RetryInvStep(s, step);
  }

  // ---------- Runs ----------

  /** A finite execution: states and the steps between them. */
  ghost predicate IsRun(states: seq<State>, steps: seq<Step>) {
    && |states| == |steps| + 1 && states[0] == Init()
    && forall i :: 0 <= i < |steps| ==> Enabled(states[i], steps[i]) && states[i + 1] == Apply(states[i], steps[i])
  }

  lemma {:induction false} RunInv(states: seq<State>, steps: seq<Step>, i: nat)
    requires IsRun(states, steps) && i < |states|
    ensures Inv(states[i])
  {
    hide Inv, Apply, Enabled;
    if i == 0 {
      InitInv();
    } else {
      RunInv(states, steps, i - 1);
      InvStep(states[i - 1], steps[i - 1]);
    }
  }

  /** In every interleaving: one unfinished job per core, one live attempt per job, one worker inside the lock, and never more attempts than allowed. */
  lemma RunSafety(states: seq<State>, steps: seq<Step>, i: nat)
    requires IsRun(states, steps) && i < |states|
    ensures var s := states[i];
            && (forall id, other :: Unfinished(s, id) && Unfinished(s, other) && s.table.byID[id].core == s.table.byID[other].core ==> id == other)
            && (forall id :: Unfinished(s, id) ==> s.table.byID[id].core in s.table.byCore && s.table.byCore[s.table.byID[id].core] == id)
            && (forall a, b :: Live(s, a) && Live(s, b) && s.workers[a].job == s.workers[b].job ==> a == b)
            && (forall a, b :: a in s.workers && b in s.workers && s.workers[a].pc.InLock? && s.workers[b].pc.InLock? ==> a == b)
            && (forall id :: id in s.drivers ==> |AttemptsOf(s, id)| <= Budget(s.drivers[id].maxRetries))
  {
    hide *;
    RunInv(states, steps, i);
    InvParts(states[i]);
    JobsUnique(states[i]);
    AttemptsUnique(states[i]);
    LockUnique(states[i]);
    BudgetKept(states[i]);
  }

  lemma InvParts(s: State)
    requires Inv(s)
    ensures TableInv(s) && AttemptInv(s) && LockInv(s) && RetryInv(s)
  {
  }

  lemma JobsUnique(s: State)
    requires TableInv(s)
    ensures forall id, other :: Unfinished(s, id) && Unfinished(s, other) && s.table.byID[id].core == s.table.byID[other].core ==> id == other
    ensures forall id :: Unfinished(s, id) ==> s.table.byID[id].core in s.table.byCore && s.table.byCore[s.table.byID[id].core] == id
  {
  }

  lemma AttemptsUnique(s: State)
    requires AttemptInv(s)
    ensures forall a, b :: Live(s, a) && Live(s, b) && s.workers[a].job == s.workers[b].job ==> a == b
  {
  }

  lemma LockUnique(s: State)
    requires LockInv(s)
    ensures forall a, b :: a in s.workers && b in s.workers && s.workers[a].pc.InLock? && s.workers[b].pc.InLock? ==> a == b
  {
  }

  lemma BudgetKept(s: State)
    requires RetryInv(s)
    ensures forall id :: id in s.drivers ==> |AttemptsOf(s, id)| <= Budget(s.drivers[id].maxRetries)
  {
    hide AttemptsOf;
  }

  lemma TerminalKept(s: State, step: Step, id: JobID)
    requires TableInv(s) && Enabled(s, step)
    requires id in s.table.byID && !Active(s.table.byID[id].status)
    ensures id in Apply(s, step).table.byID && Apply(s, step).table.byID[id] == s.table.byID[id]
  {
    hide NextTable, NextPc, WorkerEnabled, DriverEnabled, ApplyWorker;
    match step
    case TryStart(_, _, _, _, _) =>
    case OtherProcess(_) =>
    case Drive(job, move) =>
      DriverTouchesOwnRecord(s, job, move);
    case Do(a, act) =>
      WorkerTouchesNoJob(s, a, act);
  }

  /** A finished job's record never changes again. */
  lemma {:induction false} TerminalForever(states: seq<State>, steps: seq<Step>, i: nat, j: nat, id: JobID)
    requires IsRun(states, steps) && i <= j < |states|
    requires id in states[i].table.byID && !Active(states[i].table.byID[id].status)
    ensures id in states[j].table.byID && states[j].table.byID[id] == states[i].table.byID[id]
    decreases j
  {
    hide Apply, Enabled, Inv, TableInv;
    if i < j {
      TerminalForever(states, steps, i, j - 1, id);
      RunInv(states, steps, j - 1);
      InvParts(states[j - 1]);
      TerminalKept(states[j - 1], steps[j - 1], id);
    }
  }

  /** The driver of the attempt's job no longer waits for the attempt's result. */
  ghost predicate Abandoned(s: State, a: AttemptID) {
    a in s.workers && s.workers[a].job in s.drivers && !(s.drivers[s.workers[a].job].pc.Waiting? && s.drivers[s.workers[a].job].pc.attempt == a)
  }

  lemma AbandonedKept(s: State, step: Step, a: AttemptID)
    requires TableInv(s) && Enabled(s, step) && Abandoned(s, a)
    ensures Abandoned(Apply(s, step), a)
  {
    hide NextTable, NextPc, WorkerEnabled, DriverEnabled, ApplyWorker;
    match step
    case TryStart(_, _, _, _, _) =>
    case OtherProcess(_) =>
    case Drive(job, move) =>
      PcFlow(s, job, move);
    case Do(b, act) =>
      WorkerTouchesNoJob(s, b, act);
  }

  /** Which attempt's result a step reads. */
  ghost predicate ReadsResultOf(s: State, step: Step, a: AttemptID) {
    step.Drive? && step.move.Receive? && step.job in s.drivers && s.drivers[step.job].pc.Waiting? && s.drivers[step.job].pc.attempt == a
  }

  /** An abandoned attempt's result is read by nobody, and its worker's steps leave every job record alone. */
  lemma AbandonedIsMute(s: State, step: Step, a: AttemptID)
    requires AttemptInv(s) && Enabled(s, step) && Abandoned(s, a)
    ensures !ReadsResultOf(s, step, a)
    ensures step.Do? && step.a == a ==> Apply(s, step).table == s.table
  {
    hide NextTable, NextPc, WorkerEnabled, ApplyWorker;
    if step.Do? {
      WorkerTouchesNoJob(s, step.a, step.act);
    }
  }

  /**
   Once a driver has stopped waiting for an attempt (its timeout, for instance), no later step
   reads that attempt's result, and whatever the worker still does leaves every job record alone.
   */
  lemma {:induction false} LateResultIgnored(states: seq<State>, steps: seq<Step>, i: nat, j: nat, a: AttemptID)
    requires IsRun(states, steps) && i <= j < |steps| && Abandoned(states[i], a)
    ensures Abandoned(states[j], a)
    ensures !ReadsResultOf(states[j], steps[j], a)
    ensures steps[j].Do? && steps[j].a == a ==> states[j + 1].table == states[j].table
    decreases j
  {
    hide Apply, Enabled, Inv, TableInv, AttemptInv, Abandoned, ReadsResultOf;
    RunInv(states, steps, j);
    InvParts(states[j]);
    if i < j {
      LateResultIgnored(states, steps, i, j - 1, a);
      RunInv(states, steps, j - 1);
      InvParts(states[j - 1]);
      AbandonedKept(states[j - 1], steps[j - 1], a);
    }
    AbandonedIsMute(states[j], steps[j], a);
  }

  /** The two states agree on everything but what the attempt's worker returned. */
  ghost predicate SameBut(s: State, u: State, a: AttemptID) {
    && u.table == s.table && u.drivers == s.drivers && u.slot == s.slot && u.lock == s.lock
    && u.workers.Keys == s.workers.Keys && (forall b :: b in s.workers && b != a ==> u.workers[b] == s.workers[b])
    && (a in s.workers ==> u.workers[a].job == s.workers[a].job && u.workers[a].pc == s.workers[a].pc)
  }

  /** A driver that does not wait for the attempt moves the same way whatever the attempt returned. */
  lemma DriverIsDeaf(s: State, u: State, id: JobID, move: Move, a: AttemptID)
    requires SameBut(s, u, a) && id in s.drivers && DriverEnabled(s, move, s.drivers[id].pc)
    requires s.drivers[id].pc.Waiting? ==> s.drivers[id].pc.attempt != a
    ensures DriverEnabled(u, move, s.drivers[id].pc)
    ensures NextPc(u, move, s.drivers[id]) == NextPc(s, move, s.drivers[id])
    ensures NextTable(u, id, move, s.drivers[id]) == NextTable(s, id, move, s.drivers[id])
  {
    hide Decide;
  }

  lemma WorkerIsAlike(s: State, u: State, b: AttemptID, act: Act, a: AttemptID)
    requires SameBut(s, u, a) && b in s.workers && WorkerEnabled(s, act, s.workers[b].pc)
    ensures WorkerEnabled(u, act, u.workers[b].pc) && SameBut(ApplyWorker(s, b, act), ApplyWorker(u, b, act), a)
  {
  }

  lemma StepIsAlike(s: State, u: State, step: Step, a: AttemptID)
    requires AttemptInv(s) && Enabled(s, step) && Abandoned(s, a) && SameBut(s, u, a)
    ensures Enabled(u, step) && SameBut(Apply(s, step), Apply(u, step), a)
  {
    hide NextTable, NextPc, WorkerEnabled, DriverEnabled, ApplyWorker, Start, Busy;
    match step
    case TryStart(_, _, _, _, _) =>
    case OtherProcess(_) =>
    case Drive(id, move) =>
      WaitsForOwn(s, id, a);
      DriverIsDeaf(s, u, id, move, a);
    case Do(b, act) =>
      WorkerIsAlike(s, u, b, act, a);
  }

  lemma WaitsForOwn(s: State, id: JobID, a: AttemptID)
    requires AttemptInv(s) && id in s.drivers && Abandoned(s, a)
    ensures s.drivers[id].pc.Waiting? ==> s.drivers[id].pc.attempt != a
  {
  }

  /** Returning something else is possible whenever returning is, and makes no other difference. */
  lemma OtherReturn(s: State, a: AttemptID, work: Work, other: Work)
    requires Enabled(s, Do(a, Return(work)))
    ensures Enabled(s, Do(a, Return(other))) && SameBut(Apply(s, Do(a, Return(work))), Apply(s, Do(a, Return(other))), a)
  {
  }

  /** The first m steps, with the i-th one replaced, lead through these states. */
  ghost predicate Leads(states: seq<State>, steps: seq<Step>, m: nat) {
    && m <= |steps| && |states| == m + 1
    && forall j :: 0 <= j < m ==> Enabled(states[j], steps[j]) && states[j + 1] == Apply(states[j], steps[j])
  }

  ghost predicate Alike(states: seq<State>, others: seq<State>, i: nat, m: nat, a: AttemptID) {
    && i < m < |states| && |others| == m + 1
    && (forall j :: 0 <= j <= i ==> others[j] == states[j])
    && (forall j :: i < j <= m ==> SameBut(states[j], others[j], a))
  }

  lemma {:induction false} AlikeUpTo(states: seq<State>, steps: seq<Step>, i: nat, m: nat, a: AttemptID, work: Work, other: Work) returns (others: seq<State>)
    requires IsRun(states, steps) && i < m <= |steps| && steps[i] == Do(a, Return(work)) && Abandoned(states[i], a)
    ensures Leads(others, steps[i := Do(a, Return(other))], m) && Alike(states, others, i, m, a)
    decreases m
  {
    hide Apply, Enabled, SameBut, Inv, TableInv, AttemptInv, Abandoned, ReadsResultOf;
    if m == i + 1 {
      OtherReturn(states[i], a, work, other);
      others := states[..i + 1] + [Apply(states[i], Do(a, Return(other)))];
    } else {
      var before := AlikeUpTo(states, steps, i, m - 1, a, work, other);
      LateResultIgnored(states, steps, i, m - 1, a);
      RunInv(states, steps, m - 1);
      InvParts(states[m - 1]);
      StepIsAlike(states[m - 1], before[m - 1], steps[m - 1], a);
      others := before + [Apply(before[m - 1], steps[m - 1])];
    }
  }

  /**
   A late result makes no difference: whatever an abandoned attempt returns in place of what it did return,
   the other steps still make a run, and its states agree with the old ones on every job, driver, lock and other worker.
   */
  lemma LateResultMakesNoDifference(states: seq<State>, steps: seq<Step>, i: nat, a: AttemptID, work: Work, other: Work) returns (others: seq<State>)
    requires IsRun(states, steps) && i < |steps| && steps[i] == Do(a, Return(work)) && Abandoned(states[i], a)
    ensures IsRun(others, steps[i := Do(a, Return(other))])
    ensures forall j :: 0 <= j < |states| ==> others[j].table == states[j].table && SameBut(states[j], others[j], a)
  {
    hide Apply, Enabled, Abandoned;
    others := AlikeUpTo(states, steps, i, |steps|, a, work, other);
    forall j | 0 <= j < |states| ensures SameBut(states[j], others[j], a) {
    }
  }

  /** An attempt that did not clean up in time ends its job: that outcome is never retried. */
  lemma CleanupTimeoutIsFinal()
    ensures !Retryable(CLEANUP_TIMED_OUT.errCode, CLEANUP_TIMED_OUT.detail) && Retryable(TIMED_OUT.errCode, TIMED_OUT.detail)
  {
  }
}
