/**
 The durable tables of the centre server and the single statements that act on them.

 A committed statement or transaction is one atomic step. Every function below is one statement of the
 store: it returns the tables after it and, where the statement has a RETURNING clause, the row it hit.
 Identifiers are numbers of which only equality matters; times are integers supplied by the caller.
 */
module Store {
  datatype Option<+T> = None | Some(value: T)

  type AccountId = nat
  type DaemonId = nat
  type ProjectId = nat
  type WorkspaceId = nat
  type TaskId = nat
  type SessionId = nat
  type OperationId = nat

  datatype Device = Device(account: AccountId, revoked: bool)

  datatype Project = Project(account: AccountId, daemon: DaemonId, repo: nat, deleting: bool, archived: bool)

  /** A workspace without a project is a directory workspace. */
  datatype Workspace = Workspace(
    account: AccountId, daemon: DaemonId, project: Option<ProjectId>, isMain: bool, createdAt: int)

  datatype Status = Idle | Running | Exited

  datatype Task = Task(
    account: AccountId, daemon: DaemonId, project: Option<ProjectId>, workspace: WorkspaceId,
    status: Status, session: Option<SessionId>, exitCode: Option<int>, updatedAt: int)

  datatype Kind = ProjectImport | WorktreeAdd | WorktreeRemove | SessionCreate

  /** The strings a report reads back from an operation's metadata; a missing or empty one is None. */
  datatype Metadata = Metadata(
    project: Option<ProjectId>, workspace: Option<WorkspaceId>, named: bool,
    task: Option<TaskId>, session: Option<SessionId>)

  datatype OperationState = PendingInstall | Installed | InstallFailed | Applying | Completed | Failed | Expired

  datatype Operation = Operation(
    account: AccountId, daemon: DaemonId, kind: Kind, target: Option<nat>, version: Option<int>,
    metadata: Option<Metadata>, server: bool, expiresAt: int, createdAt: int,
    state: OperationState, completed: bool)
  {
    predicate Installable() { state.PendingInstall? || state.Installed? || state.InstallFailed? }

    /** Nothing may install, hand out or report this operation any more. */
    predicate Terminal() { completed || state.Expired? }

    /** The part of a row no statement ever changes. */
    predicate SameIdentity(other: Operation) {
      && account == other.account && daemon == other.daemon && kind == other.kind && target == other.target
      && version == other.version && metadata == other.metadata && server == other.server
      && expiresAt == other.expiresAt && createdAt == other.createdAt
    }
  }

  datatype Db = Db(
    devices: map<DaemonId, Device>,
    projects: map<ProjectId, Project>,
    workspaces: map<WorkspaceId, Workspace>,
    tasks: map<TaskId, Task>,
    operations: map<OperationId, Operation>)

  function Lookup<K, V>(m: map<K, V>, k: K): Option<V> {
    if k in m then Some(m[k]) else None
  }

  /** claimActiveDevice: the row lock every parent-first transaction takes. */
  predicate ActiveDevice(db: Db, daemon: DaemonId, account: AccountId) {
    daemon in db.devices && db.devices[daemon] == Device(account, false)
  }

  // ---------------------------------------------------------------- tasks

  predicate Owns(db: Db, id: TaskId, account: AccountId, daemon: DaemonId) {
    id in db.tasks && db.tasks[id].account == account && db.tasks[id].daemon == daemon
  }

  function PutTask(db: Db, id: TaskId, task: Task): Db {
    db.(tasks := db.tasks[id := task])
  }

  function RunTaskIfSession(
    db: Db, id: TaskId, account: AccountId, daemon: DaemonId, session: SessionId, now: int): (Db, Option<Task>)
  {
    if Owns(db, id, account, daemon) && db.tasks[id].session == Some(session) && !db.tasks[id].status.Running? then
      var task := db.tasks[id].(status := Running, exitCode := None, updatedAt := now);
      (PutTask(db, id, task), Some(task))
    else (db, None)
  }

  function ExitTaskIfSession(
    db: Db, id: TaskId, account: AccountId, daemon: DaemonId, session: SessionId, code: int, now: int)
    : (Db, Option<Task>)
  {
    if Owns(db, id, account, daemon) && db.tasks[id].session == Some(session) then
      var task := db.tasks[id].(status := Exited, session := None, exitCode := Some(code), updatedAt := now);
      (PutTask(db, id, task), Some(task))
    else (db, None)
  }

  function ExitRunningTaskIfSession(
    db: Db, id: TaskId, account: AccountId, daemon: DaemonId, session: SessionId, now: int): (Db, Option<Task>)
  {
    if Owns(db, id, account, daemon) && db.tasks[id].status.Running? && db.tasks[id].session == Some(session) then
      var task := db.tasks[id].(status := Exited, session := None, exitCode := None, updatedAt := now);
      (PutTask(db, id, task), Some(task))
    else (db, None)
  }

  function RemoveTask(db: Db, id: TaskId): Db {
    db.(tasks := db.tasks - {id})
  }

  function TasksOf(db: Db, workspace: WorkspaceId): set<TaskId> {
    set t | t in db.tasks && db.tasks[t].workspace == workspace
  }

  // ---------------------------------------------------------------- prepared operations

  function PutOperation(db: Db, id: OperationId, row: Operation): Db {
    db.(operations := db.operations[id := row])
  }

  /** What the partial unique index counts: an operation that still owns its target. */
  predicate Active(row: Operation) { !row.completed && !row.state.Expired? }

  /** createPreparedOperation: INSERT ... ON CONFLICT DO NOTHING, with the unique index on active targets. */
  predicate CanInsert(db: Db, id: OperationId, row: Operation) {
    && id !in db.operations
    && forall o :: o in db.operations && Active(db.operations[o]) && row.target.Some? ==>
         !(db.operations[o].account == row.account && db.operations[o].kind == row.kind
           && db.operations[o].target == row.target)
  }

  function MarkInstalled(db: Db, id: OperationId, daemon: DaemonId, ok: bool, now: int): (Db, Option<Operation>) {
    if && id in db.operations && db.operations[id].daemon == daemon && !db.operations[id].completed
       && now < db.operations[id].expiresAt && db.operations[id].Installable()
    then
      var row := db.operations[id].(state := if ok then Installed else InstallFailed);
      (PutOperation(db, id, row), Some(row))
    else (db, None)
  }

  function ClaimReport(db: Db, id: OperationId, daemon: DaemonId): (Db, Option<Operation>) {
    if && id in db.operations && db.operations[id].daemon == daemon && !db.operations[id].completed
       && !db.operations[id].state.Applying? && !db.operations[id].state.Expired?
    then
      var row := db.operations[id].(state := Applying);
      (PutOperation(db, id, row), Some(row))
    else (db, None)
  }

  function FinishOperation(db: Db, id: OperationId, ok: bool): (Db, Option<Operation>) {
    if id in db.operations && db.operations[id].state.Applying? && !db.operations[id].completed then
      var row := db.operations[id].(state := if ok then Completed else Failed, completed := true);
      (PutOperation(db, id, row), Some(row))
    else (db, None)
  }

  function FinishFromExit(db: Db, id: OperationId): (Db, Option<Operation>) {
    if id in db.operations && !db.operations[id].completed then
      var row := db.operations[id].(state := Completed, completed := true);
      (PutOperation(db, id, row), Some(row))
    else (db, None)
  }

  function FailConvergence(db: Db, id: OperationId, daemon: DaemonId): (Db, Option<Operation>) {
    if id in db.operations && db.operations[id].daemon == daemon && !db.operations[id].completed then
      var row := db.operations[id].(state := Failed, completed := true);
      (PutOperation(db, id, row), Some(row))
    else (db, None)
  }

  /** The operations a WHERE clause hits, all moved to 'expired'. */
  function ExpireAll(db: Db, hit: set<OperationId>): Db {
    db.(operations := map o | o in db.operations ::
          if o in hit then db.operations[o].(state := Expired) else db.operations[o])
  }

  function DueOperations(db: Db, now: int): set<OperationId> {
    set o | o in db.operations && !db.operations[o].completed && db.operations[o].expiresAt <= now
            && !db.operations[o].state.Applying? && !db.operations[o].state.Expired?
  }

  function DaemonOperations(db: Db, account: AccountId, daemon: DaemonId): set<OperationId> {
    set o | o in db.operations && db.operations[o].account == account && db.operations[o].daemon == daemon
            && Active(db.operations[o])
  }

  function TargetOperations(db: Db, account: AccountId, daemon: DaemonId, kind: Kind, target: nat): set<OperationId> {
    set o | o in db.operations && db.operations[o].account == account && db.operations[o].daemon == daemon
            && db.operations[o].kind == kind && db.operations[o].target == Some(target) && Active(db.operations[o])
  }

  /**
   How the operation table may move between two committed states, whatever transaction did it: rows keep
   their identity, a terminal row never becomes usable again, only terminal rows are pruned, a pruned or
   present identifier is never inserted again, and a revoked device owns terminal rows only.
   `issued` remembers every identifier ever inserted, with its daemon.
   */
  predicate Evolves(before: Db, issued: map<OperationId, DaemonId>, after: Db) {
    && (forall o :: o in before.operations && o in after.operations ==>
          && before.operations[o].SameIdentity(after.operations[o])
          && (before.operations[o].Terminal() ==> after.operations[o].Terminal()))
    && (forall o :: o in before.operations && o !in after.operations ==> before.operations[o].Terminal())
    && (forall o :: o in after.operations && o !in before.operations ==> o !in issued)
    && (forall d :: d in before.devices && before.devices[d].revoked ==> d in after.devices && after.devices[d].revoked)
    && (forall o :: o in after.operations ==> RevokedIsTerminal(after, after.operations[o]))
  }

  predicate RevokedIsTerminal(db: Db, row: Operation) {
    row.daemon in db.devices && db.devices[row.daemon].revoked ==> row.Terminal()
  }

  function Issue(issued: map<OperationId, DaemonId>, db: Db): map<OperationId, DaemonId> {
    issued + map o | o in db.operations && o !in issued :: db.operations[o].daemon
  }
}
