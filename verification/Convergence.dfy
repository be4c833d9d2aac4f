/**
 How a device's report on a prepared operation is turned into durable state, in one transaction, and how a
 session's exit tombstone is.
 */
module Convergence {
  import opened Store

  datatype Payload =
    | ProjectValidated(repo: Option<nat>, branch: bool)
    | WorktreeAdded(complete: bool)
    | OperationAck(session: Option<SessionId>)
    | OtherPayload

  datatype Report = Report(
    operation: OperationId, ok: bool, payload: Payload, task: Option<TaskId>, session: Option<SessionId>)

  /** What the hub may show and clean up after the commit. */
  datatype Effect = Effect(
    project: Option<ProjectId>, workspace: Option<WorkspaceId>, task: Option<TaskId>, session: Option<SessionId>,
    removedTasks: set<TaskId>, cancelled: set<OperationId>, removedWorkspace: Option<WorkspaceId>,
    deletingProject: Option<ProjectId>, error: bool)

  const NO_EFFECT: Effect := Effect(None, None, None, None, {}, {}, None, None, false)

  /** Which rows two unordered `find` calls happen to return. */
  datatype Found = Found(candidate: Option<ProjectId>, main: Option<WorkspaceId>)

  datatype Verdict =
    | Ignored
    | Applied(effect: Effect)
    /** The report contradicts the stored state: rolled back, then marked failed by a second statement. */
    | Rejected
    /** A database error: rolled back and raised to the caller. */
    | Thrown

  datatype Attempted = Done(tx: Db, effect: Effect) | Contradiction | DatabaseError

  predicate IsCandidate(db: Db, row: Operation, repo: nat, candidate: Option<ProjectId>) {
    match candidate
    case Some(p) => p in db.projects && db.projects[p].daemon == row.daemon && db.projects[p].repo == repo
                    && db.projects[p].account == row.account
    case None => forall p :: p in db.projects ==>
      !(db.projects[p].daemon == row.daemon && db.projects[p].repo == repo && db.projects[p].account == row.account)
  }

  predicate IsMainOf(db: Db, project: ProjectId, main: Option<WorkspaceId>) {
    match main
    case Some(w) => w in db.workspaces && db.workspaces[w].project == Some(project) && db.workspaces[w].isMain
    case None =>
      forall w :: w in db.workspaces ==> !(db.workspaces[w].project == Some(project) && db.workspaces[w].isMain)
  }

  /** claimActiveProject: an archived project is a hit, one being deleted is not. */
  predicate Claimable(db: Db, project: ProjectId) {
    project in db.projects && !db.projects[project].deleting
  }

  function ImportInto(
      tx: Db, row: Operation, project: ProjectId, main: Option<WorkspaceId>, workspace: WorkspaceId,
      now: int): Attempted
  {
    if main.Some? then Done(tx, NO_EFFECT.(project := Some(project), workspace := main))
    else if workspace in tx.workspaces then DatabaseError
    else
      var row := Workspace(row.account, row.daemon, Some(project), true, now);
      Done(tx.(workspaces := tx.workspaces[workspace := row]),
           NO_EFFECT.(project := Some(project), workspace := Some(workspace)))
  }

  function ApplyImport(tx: Db, row: Operation, m: Metadata, repo: nat, found: Found, now: int): Attempted
    requires m.project.Some? && m.workspace.Some?
  {
    if found.candidate.Some? && Claimable(tx, found.candidate.value) then
      var reused := found.candidate.value;
      ImportInto(tx.(projects := tx.projects[reused := tx.projects[reused].(archived := false)]),
                 row, reused, found.main, m.workspace.value, now)
    else if m.project.value in tx.projects then DatabaseError
    else
      ImportInto(tx.(projects := tx.projects[m.project.value := Project(row.account, row.daemon, repo, false, false)]),
                 row, m.project.value, None, m.workspace.value, now)
  }

  function ApplyAdd(tx: Db, row: Operation, m: Metadata, now: int): Attempted
    requires m.project.Some? && m.workspace.Some?
  {
    var p := m.project.value;
    if !Claimable(tx, p) || tx.projects[p].account != row.account || tx.projects[p].daemon != row.daemon
        || tx.projects[p].archived
    then Contradiction
    else if m.workspace.value in tx.workspaces then DatabaseError
    else
      var row := Workspace(row.account, row.daemon, Some(p), false, now);
      Done(tx.(workspaces := tx.workspaces[m.workspace.value := row]),
           NO_EFFECT.(workspace := m.workspace))
  }

  /** The session.create operations that still own one of these tasks. */
  function OperationsOn(db: Db, account: AccountId, daemon: DaemonId, tasks: set<TaskId>): set<OperationId> {
    set o | o in db.operations && db.operations[o].account == account && db.operations[o].daemon == daemon
            && db.operations[o].kind == SessionCreate && db.operations[o].target.Some?
            && db.operations[o].target.value in tasks && Active(db.operations[o])
  }

  /** Delete tasks and end their pending session.create operations, as every removing transaction does. */
  function DeleteTasks(db: Db, account: AccountId, daemon: DaemonId, tasks: set<TaskId>): Db {
    ExpireAll(db, OperationsOn(db, account, daemon, tasks)).(tasks := db.tasks - tasks)
  }

  function ApplyRemove(tx: Db, row: Operation, m: Metadata): Attempted
    requires m.project.Some? && m.workspace.Some?
  {
    var w := m.workspace.value;
    var effect := NO_EFFECT.(deletingProject := m.project);
    if w !in tx.workspaces then Done(tx, effect)
    else if || tx.workspaces[w].account != row.account || tx.workspaces[w].daemon != row.daemon
            || tx.workspaces[w].project != m.project || tx.workspaces[w].isMain
            || Some(tx.workspaces[w].createdAt) != row.version
    then Contradiction
    else
      var gone := TasksOf(tx, w);
      Done(DeleteTasks(tx, row.account, row.daemon, gone).(workspaces := tx.workspaces - {w}),
           effect.(removedTasks := gone, cancelled := OperationsOn(tx, row.account, row.daemon, gone),
                   removedWorkspace := Some(w)))
  }

  function ApplySession(tx: Db, row: Operation, m: Metadata, r: Report, now: int): Attempted
    requires r.payload.OperationAck?
  {
    if || m.task.None? || m.session.None? || r.payload.session != m.session
       || (r.task.Some? && r.task != m.task) || (r.session.Some? && r.session != m.session)
    then Contradiction
    else
      var t, s := m.task.value, m.session.value;
      var effect := NO_EFFECT.(task := Some(t), session := Some(s));
      if !Owns(tx, t, row.account, row.daemon) then Contradiction
      else if tx.tasks[t].status.Running? && tx.tasks[t].session == Some(s) then Done(tx, effect)
      else if tx.tasks[t].status.Running? || tx.tasks[t].session.Some? || Some(tx.tasks[t].updatedAt) != row.version
      then Contradiction
      else Done(PutTask(tx, t, tx.tasks[t].(status := Running, session := Some(s), exitCode := None, updatedAt := now)),
          effect)
  }

  function Apply(tx: Db, row: Operation, m: Metadata, r: Report, found: Found, now: int): Attempted {
    if !r.ok then Done(tx, NO_EFFECT.(error := true))
    else if row.kind.ProjectImport? && r.payload.ProjectValidated? then
      if m.project.None? || m.workspace.None? || r.payload.repo.None? || !r.payload.branch then Contradiction
      else ApplyImport(tx, row, m, r.payload.repo.value, found, now)
    else if row.kind.WorktreeAdd? && r.payload.WorktreeAdded? then
      if m.project.None? || m.workspace.None? || !m.named || !r.payload.complete then Contradiction
      else ApplyAdd(tx, row, m, now)
    else if row.kind.WorktreeRemove? && r.payload.OperationAck? then
      if m.project.None? || m.workspace.None? then Contradiction else ApplyRemove(tx, row, m)
    else if row.kind.SessionCreate? && r.payload.OperationAck? then ApplySession(tx, row, m, r, now)
    else Contradiction
  }

  /** The whole transaction; anything but Applied and Ignored leaves the tables as they were. */
  function ConvergeTx(db: Db, daemon: DaemonId, account: AccountId, r: Report, found: Found, now: int): (Db, Verdict) {
    if !ActiveDevice(db, daemon, account) then (db, Ignored)
    else
      var (tx, claimed) := ClaimReport(db, r.operation, daemon);
      if claimed.None? then (db, Ignored)
      // a plain return: the claim itself is committed
      else if claimed.value.account != account || claimed.value.daemon != daemon then (tx, Ignored)
      else if claimed.value.metadata.None? then (db, Rejected)
      else match Apply(tx, claimed.value, claimed.value.metadata.value, r, found, now)
        case Contradiction => (db, Rejected)
        case DatabaseError => (db, Thrown)
        case Done(tx', effect) =>
          var (tx'', finished) := FinishOperation(tx', r.operation, r.ok);
          if finished.None? then (db, Thrown) else (tx'', Applied(effect))
  }

  // ---------------------------------------------------------------- the transaction as it is written

  method ExpireTargets(db: Db, account: AccountId, daemon: DaemonId, tasks: set<TaskId>)
    returns (tx: Db, cancelled: set<OperationId>)
    ensures tx == ExpireAll(db, OperationsOn(db, account, daemon, tasks))
    ensures cancelled == OperationsOn(db, account, daemon, tasks)
  {
    tx, cancelled := db, {};
    var left := tasks;
    assert ExpireAll(db, {}).operations == db.operations;
    while left != {}
      invariant left <= tasks
      invariant cancelled == OperationsOn(db, account, daemon, tasks - left)
      invariant tx == ExpireAll(db, cancelled)
    {
      var t :| t in left;
      var hit := TargetOperations(tx, account, daemon, SessionCreate, t);
      assert hit == TargetOperations(db, account, daemon, SessionCreate, t) by {
        forall o | o in db.operations
          ensures o in hit <==> o in TargetOperations(db, account, daemon, SessionCreate, t) {}
      }
      tx := ExpireAll(tx, hit);
      left := left - {t};
      var next := OperationsOn(db, account, daemon, tasks - left);
      assert next == cancelled + hit;
      assert tx.operations == ExpireAll(db, next).operations;
      cancelled := next;
    }
    assert tasks - left == tasks;
  }

  method RemoveWorktree(db: Db, row: Operation, m: Metadata) returns (ending: Ending, tx: Db, effect: Effect)
    requires m.project.Some? && m.workspace.Some?
    ensures Ends(ending, tx, effect, ApplyRemove(db, row, m))
  {
    ending, tx, effect := Continues, db, NO_EFFECT;
    var w := m.workspace.value;
    var workspace := Lookup(tx.workspaces, w);
    if workspace.Some? {
      if || workspace.value.account != row.account || workspace.value.daemon != row.daemon
         || workspace.value.project != m.project || workspace.value.isMain
         || Some(workspace.value.createdAt) != row.version
      {
        ending := Contradicts;
        return;
      }
      var gone := TasksOf(tx, w);
      tx := tx.(tasks := tx.tasks - gone);
      var cancelled;
      tx, cancelled := ExpireTargets(tx, row.account, row.daemon, gone);
      assert cancelled == OperationsOn(db, row.account, row.daemon, gone);
      tx := tx.(workspaces := tx.workspaces - {w});
      effect := effect.(removedTasks := gone, cancelled := cancelled, removedWorkspace := Some(w));
    }
    effect := effect.(deletingProject := m.project);
  }

  /** How a branch of the transaction ends. */
  datatype Ending = Continues | Contradicts | Fails

  predicate Ends(e: Ending, tx: Db, effect: Effect, a: Attempted) {
    match e
    case Continues => a == Done(tx, effect)
    case Contradicts => a == Contradiction
    case Fails => a == DatabaseError
  }

  /** project.import: reuse and unarchive the candidate or insert a project, then find or insert its main workspace. */
  method ImportProject(db: Db, row: Operation, m: Metadata, repo: nat, found: Found, now: int)
    returns (ending: Ending, tx: Db, effect: Effect)
    requires m.project.Some? && m.workspace.Some?
    ensures Ends(ending, tx, effect, ApplyImport(db, row, m, repo, found, now))
  {
    ending, tx, effect := Continues, db, NO_EFFECT;
    var candidate := found.candidate;
    var claimed := if candidate.Some? && candidate.value in tx.projects && !tx.projects[candidate.value].deleting
        then candidate else None;
    if claimed.Some? && tx.projects[claimed.value].archived {
      tx := tx.(projects := tx.projects[claimed.value := tx.projects[claimed.value].(archived := false)]);
    }
    var project := claimed;
    if project.None? {
      if m.project.value in tx.projects { ending := Fails; return; }
      project := m.project;
      tx := tx.(projects := tx.projects[project.value := Project(row.account, row.daemon, repo, false, false)]);
    }
    effect := effect.(project := project);
    var existingMain := if claimed.Some? then found.main else None;
    if existingMain.Some? {
      effect := effect.(workspace := existingMain);
    } else {
      if m.workspace.value in tx.workspaces { ending := Fails; return; }
      tx := tx.(workspaces := tx.workspaces[m.workspace.value :=
          Workspace(row.account, row.daemon, project, true, now)]);
      effect := effect.(workspace := m.workspace);
    }
    if claimed.Some? && !db.projects[claimed.value].archived {
      assert db.projects[claimed.value := db.projects[claimed.value].(archived := false)] == db.projects;
    }
  }

  /** worktree.add: the project must still be there, be the operation's own and not be archived. */
  method AddWorktree(db: Db, row: Operation, m: Metadata, now: int) returns (ending: Ending, tx: Db, effect: Effect)
    requires m.project.Some? && m.workspace.Some?
    ensures Ends(ending, tx, effect, ApplyAdd(db, row, m, now))
  {
    ending, tx, effect := Continues, db, NO_EFFECT;
    var claimed := Lookup(tx.projects, m.project.value);
    if claimed.None? || claimed.value.deleting { ending := Contradicts; return; }
    var project := claimed.value;
    if project.account != row.account || project.daemon != row.daemon { ending := Contradicts; return; }
    if project.archived { ending := Contradicts; return; }
    if m.workspace.value in tx.workspaces { ending := Fails; return; }
    tx := tx.(workspaces := tx.workspaces[m.workspace.value :=
        Workspace(row.account, row.daemon, m.project, false, now)]);
    effect := effect.(workspace := m.workspace);
  }

  /** session.create: the task is bound by a compare-and-set on its version, or was bound by the same report before. */
  method BindSession(db: Db, row: Operation, m: Metadata, r: Report, now: int)
    returns (ending: Ending, tx: Db, effect: Effect)
    requires r.payload.OperationAck?
    ensures Ends(ending, tx, effect, ApplySession(db, row, m, r, now))
  {
    ending, tx, effect := Contradicts, db, NO_EFFECT;
    if m.task.None? || m.session.None? || r.payload.session != m.session { return; }
    if r.task.Some? && r.task != m.task { return; }
    if r.session.Some? && r.session != m.session { return; }
    var t := m.task.value;
    var task := Lookup(tx.tasks, t);
    if task.None? || task.value.account != row.account || task.value.daemon != row.daemon { return; }
    if !task.value.status.Running? || task.value.session != m.session {
      if task.value.status.Running? || task.value.session.Some? || Some(task.value.updatedAt) != row.version { return; }
      tx := PutTask(tx, t, task.value.(status := Running, session := m.session, exitCode := None, updatedAt := now));
    }
    ending, effect := Continues, effect.(task := m.task, session := m.session);
  }

  /**
   converge: one transaction filling a mutable effect, statement by statement. A report that contradicts the stored
   state or hits a database error leaves the tables alone; an applied one completes its operation.
   */
  method Converge(db: Db, daemon: DaemonId, account: AccountId, r: Report, found: Found, now: int)
    returns (committed: Db, verdict: Verdict)
    ensures (committed, verdict) == ConvergeTx(db, daemon, account, r, found, now)
    ensures verdict.Rejected? || verdict.Thrown? ==> committed == db
    ensures verdict.Applied? ==>
              && r.operation in db.operations && !db.operations[r.operation].completed
              && r.operation in committed.operations && committed.operations[r.operation].completed
  {
    committed, verdict := db, Ignored;
    if !ActiveDevice(db, daemon, account) { return; }
    var (tx, claimed) := ClaimReport(db, r.operation, daemon);
    if claimed.None? { return; }
    var row := claimed.value;
    if row.account != account || row.daemon != daemon { committed := tx; return; }
    if row.metadata.None? { verdict := Rejected; return; }
    var m := row.metadata.value;

    var ending, effect := Continues, NO_EFFECT;
    if !r.ok {
      effect := effect.(error := true);
    } else if row.kind.ProjectImport? && r.payload.ProjectValidated? {
      if m.project.None? || m.workspace.None? || r.payload.repo.None? || !r.payload.branch {
        verdict := Rejected;
        return;
      }
      ending, tx, effect := ImportProject(tx, row, m, r.payload.repo.value, found, now);
    } else if row.kind.WorktreeAdd? && r.payload.WorktreeAdded? {
      if m.project.None? || m.workspace.None? || !m.named || !r.payload.complete { verdict := Rejected; return; }
      ending, tx, effect := AddWorktree(tx, row, m, now);
    } else if row.kind.WorktreeRemove? && r.payload.OperationAck? {
      if m.project.None? || m.workspace.None? { verdict := Rejected; return; }
      ending, tx, effect := RemoveWorktree(tx, row, m);
    } else if row.kind.SessionCreate? && r.payload.OperationAck? {
      ending, tx, effect := BindSession(tx, row, m, r, now);
    } else {
      ending := Contradicts;
    }
    if ending.Contradicts? { verdict := Rejected; return; }
    if ending.Fails? { verdict := Thrown; return; }

    var (done, finished) := FinishOperation(tx, r.operation, r.ok);
    if finished.None? { verdict := Thrown; return; }
    committed, verdict := done, Applied(effect);
  }

  // ---------------------------------------------------------------- exit tombstones

  predicate CreatesSessionFor(row: Operation, account: AccountId, daemon: DaemonId, t: TaskId) {
    row.account == account && row.daemon == daemon && row.kind.SessionCreate? && row.target == Some(t)
  }

  /** findLatestPreparedOperation: ORDER BY created_at DESC LIMIT 1; a tie may return either row. */
  predicate IsLatest(db: Db, account: AccountId, daemon: DaemonId, t: TaskId, latest: Option<OperationId>) {
    match latest
    case None => forall o :: o in db.operations ==> !CreatesSessionFor(db.operations[o], account, daemon, t)
    case Some(l) =>
      && l in db.operations && CreatesSessionFor(db.operations[l], account, daemon, t)
      && forall o :: o in db.operations && CreatesSessionFor(db.operations[o], account, daemon, t) ==>
           db.operations[o].createdAt <= db.operations[l].createdAt
  }

  function PreparedSession(db: Db, latest: Option<OperationId>): Option<SessionId> {
    if latest.Some? && latest.value in db.operations && db.operations[latest.value].metadata.Some?
    then db.operations[latest.value].metadata.value.session else None
  }

  /** One exit tombstone of a session catalog, inside the current daemon's transaction. */
  function TombstoneTx(
    db: Db, daemon: DaemonId, account: AccountId, t: TaskId, s: SessionId, code: int, latest: Option<OperationId>,
    now: int): Db
  {
    if !ActiveDevice(db, daemon, account) || !Owns(db, t, account, daemon) then db
    else
      var task := db.tasks[t];
      var prepared := PreparedSession(db, latest);
      if task.session != Some(s) && !(task.session.None? && prepared == Some(s)) then db
      else if task.status.Exited? && task.exitCode == Some(code) && task.session.None? then
        if latest.Some? then FinishFromExit(db, latest.value).0 else db
      else
        var exited := PutTask(db, t,
            task.(status := Exited, session := None, exitCode := Some(code), updatedAt := now));
        if latest.Some? && prepared == Some(s) then FinishFromExit(exited, latest.value).0 else exited
  }
}
