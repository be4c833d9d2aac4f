/**
 Every committed change to tasks and prepared operations, as one transition system, and what every run of it
 keeps: the shape of a task row, the irreversibility of an exit, and each operation's effect at most once.
 */
module Lifecycle {
  import opened Store
  import opened Convergence

  datatype Event =
    | RegisterDevice(daemon: DaemonId, account: AccountId)
    | RevokeDevice(daemon: DaemonId)
    | InsertTask(task: TaskId, row: Task)
    | InsertOperation(operation: OperationId, prepared: Operation)
    | InstallAck(operation: OperationId, daemon: DaemonId, ok: bool, now: int)
    | ExpireDue(now: int)
    | Prune(operation: OperationId)
    | ReportTx(daemon: DaemonId, account: AccountId, report: Report, found: Found, now: int)
    /** The second statement of a rejected report. */
    | MarkFailed(operation: OperationId, daemon: DaemonId)
    | Tombstone(daemon: DaemonId, account: AccountId, task: TaskId, session: SessionId, code: int,
                latest: Option<OperationId>, now: int)
    /** sessionStarted, the live half of a catalog, daemon.resync. */
    | SessionLive(task: TaskId, account: AccountId, daemon: DaemonId, session: SessionId, now: int)
    | SessionExit(task: TaskId, account: AccountId, daemon: DaemonId, session: SessionId, code: int, now: int)
    | SessionAbsent(task: TaskId, account: AccountId, daemon: DaemonId, session: SessionId, now: int)
    | RemoveTasks(account: AccountId, daemon: DaemonId, tasks: set<TaskId>)
    /** removeTask and removeIdleTaskIfSession outside any other transaction. */
    | DropTask(task: TaskId)
    | MoveTask(task: TaskId, workspace: WorkspaceId, project: Option<ProjectId>, now: int)

  /** One entry per step: whose effect it committed, and which operations ended in it. */
  datatype Entry = Entry(applied: Option<OperationId>, ended: set<OperationId>)

  /** Beside the tables: every identifier ever handed out, rejected reports not yet marked, and the log. */
  datatype World = World(
    db: Db, operations: map<OperationId, DaemonId>, tasks: set<TaskId>, sessions: map<SessionId, TaskId>,
    failing: set<(OperationId, DaemonId)>, buried: set<SessionId>, log: seq<Entry>)

  const EMPTY: World := World(Db(map[], map[], map[], map[], map[]), map[], {}, map[], {}, {}, [])

  /** A task is inserted IDLE under an unused id; an agent terminal already carries its unused session id. */
  predicate CanInsertTask(w: World, t: TaskId, row: Task) {
    && t !in w.tasks && row.status.Idle? && row.exitCode.None?
    && (row.session.Some? ==> row.session.value !in w.sessions)
  }

  /** Admission: unused id, active device, free target; a session.create finds its task idle and unbound. */
  predicate CanInsertOperation(w: World, o: OperationId, row: Operation) {
    && o !in w.operations && CanInsert(w.db, o, row) && ActiveDevice(w.db, row.daemon, row.account)
    && row.state.PendingInstall? && !row.completed
    && (row.kind.SessionCreate? ==>
          && row.target.Some? && row.metadata.Some? && row.metadata.value.task == row.target
          && row.metadata.value.session.Some? && row.metadata.value.session.value !in w.sessions
          && Owns(w.db, row.target.value, row.account, row.daemon)
          && !w.db.tasks[row.target.value].status.Running? && w.db.tasks[row.target.value].session.None?
          && row.version == Some(w.db.tasks[row.target.value].updatedAt))
  }

  function NewSession(sessions: map<SessionId, TaskId>, s: Option<SessionId>, t: TaskId): map<SessionId, TaskId> {
    if s.Some? then sessions[s.value := t] else sessions
  }

  function ValidFound(db: Db, r: Report, found: Found): bool {
    r.operation in db.operations && r.payload.ProjectValidated? && r.payload.repo.Some? ==>
      && IsCandidate(db, db.operations[r.operation], r.payload.repo.value, found.candidate)
      && (found.candidate.Some? ==> IsMainOf(db, found.candidate.value, found.main))
  }

  /** The tables after an event; a disabled event leaves them alone. */
  function NextDb(w: World, e: Event): Db {
    match e
    case RegisterDevice(d, a) =>
      if d in w.db.devices then w.db else w.db.(devices := w.db.devices[d := Device(a, false)])
    case RevokeDevice(d) =>
      if d in w.db.devices && !w.db.devices[d].revoked then
        var a := w.db.devices[d].account;
        ExpireAll(w.db, DaemonOperations(w.db, a, d)).(
          devices := w.db.devices[d := Device(a, true)],
          tasks := map t | t in w.db.tasks && w.db.tasks[t].daemon != d :: w.db.tasks[t])
      else w.db
    case InsertTask(t, row) => if CanInsertTask(w, t, row) then PutTask(w.db, t, row) else w.db
    case InsertOperation(o, row) => if CanInsertOperation(w, o, row) then PutOperation(w.db, o, row) else w.db
    case InstallAck(o, d, ok, now) => MarkInstalled(w.db, o, d, ok, now).0
    case ExpireDue(now) => ExpireAll(w.db, DueOperations(w.db, now))
    case Prune(o) =>
      if o in w.db.operations && w.db.operations[o].Terminal() then w.db.(operations := w.db.operations - {o}) else w.db
    case ReportTx(d, a, r, found, now) =>
      if ValidFound(w.db, r, found) then ConvergeTx(w.db, d, a, r, found, now).0 else w.db
    case MarkFailed(o, d) => if (o, d) in w.failing then FailConvergence(w.db, o, d).0 else w.db
    case Tombstone(d, a, t, s, code, latest, now) =>
      if IsLatest(w.db, a, d, t, latest) then TombstoneTx(w.db, d, a, t, s, code, latest, now) else w.db
    case SessionLive(t, a, d, s, now) => RunTaskIfSession(w.db, t, a, d, s, now).0
    case SessionExit(t, a, d, s, code, now) => ExitTaskIfSession(w.db, t, a, d, s, code, now).0
    case SessionAbsent(t, a, d, s, now) => ExitRunningTaskIfSession(w.db, t, a, d, s, now).0
    case RemoveTasks(a, d, tasks) =>
      if forall t :: t in tasks ==> Owns(w.db, t, a, d) then DeleteTasks(w.db, a, d, tasks) else w.db
    case DropTask(t) => RemoveTask(w.db, t)
    case MoveTask(t, ws, p, now) =>
      if t in w.db.tasks then PutTask(w.db, t, w.db.tasks[t].(workspace := ws, project := p, updatedAt := now))
      else w.db
  }

  function AppliedBy(w: World, e: Event): Option<OperationId> {
    if e.ReportTx? && ValidFound(w.db, e.report, e.found)
       && ConvergeTx(w.db, e.daemon, e.account, e.report, e.found, e.now).1.Applied?
    then Some(e.report.operation) else None
  }

  predicate RejectedBy(w: World, e: Event) {
    e.ReportTx? && ValidFound(w.db, e.report, e.found)
    && ConvergeTx(w.db, e.daemon, e.account, e.report, e.found, e.now).1.Rejected?
  }

  /** The tombstone of an issued session was processed while its task and its device still existed. */
  predicate Buries(w: World, e: Event) {
    e.Tombstone? && IsLatest(w.db, e.account, e.daemon, e.task, e.latest) && ActiveDevice(w.db, e.daemon, e.account)
    && Owns(w.db, e.task, e.account, e.daemon) && e.session in w.sessions && w.sessions[e.session] == e.task
  }

  function Ended(before: Db, after: Db): set<OperationId> {
    set o | o in before.operations && !before.operations[o].Terminal() && o in after.operations
        && after.operations[o].Terminal()
  }

  function Step(w: World, e: Event): World {
    var db := NextDb(w, e);
    var newTask := e.InsertTask? && CanInsertTask(w, e.task, e.row);
    var newOperation := e.InsertOperation? && CanInsertOperation(w, e.operation, e.prepared);
    World(
      db,
      if newOperation then w.operations[e.operation := e.prepared.daemon] else w.operations,
      if newTask then w.tasks + {e.task} else w.tasks,
      if newTask then NewSession(w.sessions, e.row.session, e.task)
      else if newOperation && e.prepared.kind.SessionCreate?
      then NewSession(w.sessions, e.prepared.metadata.value.session, e.prepared.target.value)
      else w.sessions,
      (if RejectedBy(w, e) then w.failing + {(e.report.operation, e.daemon)} else w.failing)
      - (if e.MarkFailed? then {(e.operation, e.daemon)} else {}),
      if Buries(w, e) then w.buried + {e.session} else w.buried,
      w.log + [Entry(AppliedBy(w, e), Ended(w.db, db))])
  }

  function After(events: seq<Event>): World {
    if events == [] then EMPTY else Step(After(events[..|events| - 1]), events[|events| - 1])
  }

  // ---------------------------------------------------------------- what every reachable state satisfies

  /** RUNNING is bound and has no exit code; EXITED is unbound; IDLE has no exit code. */
  predicate TaskShape(t: Task) {
    && (t.status.Running? ==> t.session.Some? && t.exitCode.None?)
    && (t.status.Exited? ==> t.session.None?)
    && (t.status.Idle? ==> t.exitCode.None?)
  }

  /** An operation's row: the device it names is its account's, and 'applying' is never seen committed. */
  ghost predicate RowInv(w: World, o: OperationId, row: Operation) {
    && o in w.operations && w.operations[o] == row.daemon
    && row.daemon in w.db.devices && w.db.devices[row.daemon].account == row.account
    && !row.state.Applying? && RevokedIsTerminal(w.db, row)
  }

  /** A session.create row names the task and the session it was issued for. */
  ghost predicate SessionRowInv(w: World, row: Operation) {
    row.kind.SessionCreate? ==>
      && row.target.Some? && row.metadata.Some? && row.metadata.value.task == row.target
      && row.metadata.value.session.Some?
      && row.metadata.value.session.value in w.sessions
      && w.sessions[row.metadata.value.session.value] == row.target.value
      && row.target.value in w.tasks
      && (row.target.value in w.db.tasks ==>
            && w.db.tasks[row.target.value].account == row.account && w.db.tasks[row.target.value].daemon == row.daemon
            // while it is still open, its task is neither running nor bound
            && (Active(row) ==> !w.db.tasks[row.target.value].status.Running?)
            && (Active(row) ==> w.db.tasks[row.target.value].session.None?))
  }

  ghost predicate TaskInv(w: World, t: TaskId, row: Task) {
    && t in w.tasks && TaskShape(row)
    && (row.session.Some? ==> row.session.value in w.sessions && w.sessions[row.session.value] == t)
  }

  predicate SameTarget(a: Operation, b: Operation) {
    a.account == b.account && a.kind == b.kind && a.target == b.target && a.target.Some?
  }

  /** No two open operations own the same target. */
  ghost predicate UniqueInv(db: Db) {
    forall o, p :: o in db.operations && p in db.operations && o != p
                   && Active(db.operations[o]) && Active(db.operations[p]) ==>
      !SameTarget(db.operations[o], db.operations[p])
  }

  ghost predicate LogInv(w: World) {
    forall i, j, o :: 0 <= i < j < |w.log| && (w.log[i].applied == Some(o) || o in w.log[i].ended) ==>
      w.log[j].applied != Some(o)
  }

  ghost predicate EndedInv(w: World) {
    forall i, o :: 0 <= i < |w.log| && (w.log[i].applied == Some(o) || o in w.log[i].ended) ==>
      o in w.operations && (o in w.db.operations ==> w.db.operations[o].Terminal())
  }

  ghost predicate Inv(w: World) {
    && (forall o :: o in w.db.operations ==> RowInv(w, o, w.db.operations[o]) && SessionRowInv(w, w.db.operations[o]))
    && (forall t :: t in w.db.tasks ==> TaskInv(w, t, w.db.tasks[t]))
    && UniqueInv(w.db) && LogInv(w) && EndedInv(w)
  }
}
