/**
 Referential integrity under row locks. Transactions on one device start by locking its row, ask their queries at
 arbitrary later moments, and write at commit what those answers told them. Transactions of other devices and
 single statements interleave freely.
 */
module Integrity {
  import opened Store

  type TxId = nat

  datatype Query =
    | GetWorkspace(workspace: WorkspaceId)
    | GetTask(task: TaskId)
    | ProjectWorkspaces(project: ProjectId)
    | DeviceWorkspaces
    | DeviceProjects
    /** The rows a DELETE or UPDATE of a workspace's or device's tasks hits when it is executed. */
    | WorkspaceTasks(workspace: WorkspaceId)
    | DeviceTasks
    | ClaimActive(project: ProjectId)
    | ClaimDeleting(project: ProjectId)

  datatype Answer =
    | OneWorkspace(workspace: Option<Workspace>)
    | OneTask(task: Option<Task>)
    | OneProject(project: Option<Project>)
    | Workspaces(workspaces: map<WorkspaceId, Workspace>)
    | Projects(projects: set<ProjectId>)
    | Tasks(tasks: set<TaskId>)

  datatype Job =
    /** taskCreate, terminalNew, and the account interface's terminal. */
    | CreateTask(task: TaskId, workspace: WorkspaceId)
    /** terminalCreate (with a task) and directoryWorkspaceEnsure (without); reuse is the row the sort picks. */
    | EnsureDirectory(unused: WorkspaceId, reuse: Option<WorkspaceId>, withTask: Option<TaskId>)
    /** report of project.import */
    | ImportProject(candidate: Option<ProjectId>, project: ProjectId, workspace: WorkspaceId, repo: nat)
    /** report of worktree.add */
    | AddWorktree(project: ProjectId, workspace: WorkspaceId)
    /** locateAgentWorkspace: move the asking terminal to a known workspace, or to one registered for it */
    | Locate(origin: TaskId, project: ProjectId, known: Option<WorkspaceId>, unused: WorkspaceId)
    /** forgetAgentWorkspace: move a workspace's terminals to the main one and drop it */
    | Forget(origin: TaskId, project: ProjectId, workspace: WorkspaceId, main: WorkspaceId)
    /** removeDirWorkspace and the report of worktree.remove */
    | RemoveWorkspace(workspace: WorkspaceId)
    | RemoveTask(task: TaskId)
    | FinalizeProject(project: ProjectId)
    | RevokeDevice

  datatype Tx = Tx(daemon: DaemonId, account: AccountId, job: Job, memo: map<Query, Answer>)

  datatype State = State(
    db: Db, deviceLocks: map<DaemonId, TxId>, projectLocks: map<ProjectId, TxId>, running: map<TxId, Tx>)

  datatype Event =
    | Begin(tx: TxId, daemon: DaemonId, account: AccountId, job: Job)
    | Ask(tx: TxId, query: Query)
    | Commit(tx: TxId, now: int)
    | Abort(tx: TxId)
    | RegisterDevice(daemon: DaemonId, account: AccountId)
    /** single statements outside any transaction */
    | MarkProjectDeleting(project: ProjectId)
    | SetProjectArchived(project: ProjectId, archived: bool)
    | DropTask(task: TaskId)

  // ---------------------------------------------------------------- queries

  function Select(db: Db, daemon: DaemonId, q: Query): Answer {
    match q
    case GetWorkspace(w) => OneWorkspace(Lookup(db.workspaces, w))
    case GetTask(t) => OneTask(Lookup(db.tasks, t))
    case ProjectWorkspaces(p) =>
      Workspaces(map w | w in db.workspaces && db.workspaces[w].project == Some(p) :: db.workspaces[w])
    case DeviceWorkspaces =>
      Workspaces(map w | w in db.workspaces && db.workspaces[w].daemon == daemon :: db.workspaces[w])
    case DeviceProjects => Projects(set p | p in db.projects && db.projects[p].daemon == daemon)
    case WorkspaceTasks(w) => Tasks(TasksOf(db, w))
    case DeviceTasks => Tasks(set t | t in db.tasks && db.tasks[t].daemon == daemon)
    case ClaimActive(p) =>
      OneProject(if p in db.projects && !db.projects[p].deleting then Some(db.projects[p]) else None)
    case ClaimDeleting(p) =>
      OneProject(if p in db.projects && db.projects[p].deleting then Some(db.projects[p]) else None)
  }

  predicate IsClaim(q: Query) { q.ClaimActive? || q.ClaimDeleting? }

  /** A claim takes the project row's lock, and waits while another transaction has it. */
  predicate Blocked(s: State, x: TxId, q: Query) {
    IsClaim(q) && q.project in s.projectLocks && s.projectLocks[q.project] != x
  }

  // ---------------------------------------------------------------- what a transaction was told

  function ToldWorkspace(tx: Tx, w: WorkspaceId): Option<Workspace> {
    if GetWorkspace(w) in tx.memo && tx.memo[GetWorkspace(w)].OneWorkspace? then tx.memo[GetWorkspace(w)].workspace
    else None
  }

  function ToldTask(tx: Tx, t: TaskId): Option<Task> {
    if GetTask(t) in tx.memo && tx.memo[GetTask(t)].OneTask? then tx.memo[GetTask(t)].task else None
  }

  function ToldActive(tx: Tx, p: ProjectId): Option<Project> {
    if ClaimActive(p) in tx.memo && tx.memo[ClaimActive(p)].OneProject? then tx.memo[ClaimActive(p)].project else None
  }

  function ToldDeleting(tx: Tx, p: ProjectId): Option<Project> {
    if ClaimDeleting(p) in tx.memo && tx.memo[ClaimDeleting(p)].OneProject? then tx.memo[ClaimDeleting(p)].project
    else None
  }

  predicate KnowsWorkspaces(tx: Tx, q: Query) { q in tx.memo && tx.memo[q].Workspaces? }
  predicate KnowsTasks(tx: Tx, q: Query) { q in tx.memo && tx.memo[q].Tasks? }

  /** The project is this transaction's own, and claimed. */
  predicate OwnActive(tx: Tx, p: ProjectId) {
    ToldActive(tx, p).Some? && ToldActive(tx, p).value.account == tx.account
        && ToldActive(tx, p).value.daemon == tx.daemon
  }

  predicate OwnWorkspace(tx: Tx, w: WorkspaceId) {
    ToldWorkspace(tx, w).Some? && ToldWorkspace(tx, w).value.account == tx.account
        && ToldWorkspace(tx, w).value.daemon == tx.daemon
  }

  predicate OwnTask(tx: Tx, t: TaskId) {
    ToldTask(tx, t).Some? && ToldTask(tx, t).value.account == tx.account && ToldTask(tx, t).value.daemon == tx.daemon
  }

  // ---------------------------------------------------------------- what each job writes

  function NewTask(ws: Workspace, w: WorkspaceId, now: int): Task {
    Task(ws.account, ws.daemon, ws.project, w, Idle, None, None, now)
  }

  function CreateTaskEffect(db: Db, tx: Tx, t: TaskId, w: WorkspaceId, now: int): Db {
    if && OwnWorkspace(tx, w) && t !in db.tasks
       && (var ws := ToldWorkspace(tx, w).value;
           ws.project.Some? ==> OwnActive(tx, ws.project.value) && !ToldActive(tx, ws.project.value).value.archived)
    then PutTask(db, t, NewTask(ToldWorkspace(tx, w).value, w, now))
    else db
  }

  function WithTask(db: Db, t: Option<TaskId>, w: WorkspaceId, ws: Workspace, now: int): Option<Db> {
    if t.None? then Some(db) else if t.value in db.tasks then None else Some(PutTask(db, t.value, NewTask(ws, w, now)))
  }

  predicate IsDirectoryOf(tx: Tx, listed: map<WorkspaceId, Workspace>, w: WorkspaceId) {
    w in listed && listed[w].account == tx.account && listed[w].project.None?
  }

  function EnsureDirectoryEffect(
      db: Db, tx: Tx, unused: WorkspaceId, reuse: Option<WorkspaceId>, t: Option<TaskId>, now: int): Db
  {
    if !KnowsWorkspaces(tx, DeviceWorkspaces) then db
    else
      var listed := tx.memo[DeviceWorkspaces].workspaces;
      var created := Workspace(tx.account, tx.daemon, None, false, now);
      var next :=
        if reuse.Some? then
          if IsDirectoryOf(tx, listed, reuse.value) then WithTask(db, t, reuse.value, listed[reuse.value], now)
          else None
        else if (forall w :: w in listed ==> !IsDirectoryOf(tx, listed, w)) && unused !in db.workspaces then
          WithTask(db.(workspaces := db.workspaces[unused := created]), t, unused, created, now)
        else None;
      if next.Some? then next.value else db
  }

  function ImportEffect(
      db: Db, tx: Tx, candidate: Option<ProjectId>, project: ProjectId, w: WorkspaceId, repo: nat, now: int): Db
  {
    if candidate.Some? && ClaimActive(candidate.value) !in tx.memo then db
    else if candidate.Some? && ToldActive(tx, candidate.value).Some? then
      var p := candidate.value;
      if !OwnActive(tx, p) || !KnowsWorkspaces(tx, ProjectWorkspaces(p)) then db
      else
        var listed := tx.memo[ProjectWorkspaces(p)].workspaces;
        var open := db.(projects := db.projects[p := ToldActive(tx, p).value.(archived := false)]);
        if exists m :: m in listed && listed[m].isMain then open
        else if w in db.workspaces then db
        else open.(workspaces := db.workspaces[w := Workspace(tx.account, tx.daemon, Some(p), true, now)])
    else if project in db.projects || w in db.workspaces then db
    else db.(projects := db.projects[project := Project(tx.account, tx.daemon, repo, false, false)],
             workspaces := db.workspaces[w := Workspace(tx.account, tx.daemon, Some(project), true, now)])
  }

  function AddWorktreeEffect(db: Db, tx: Tx, p: ProjectId, w: WorkspaceId, now: int): Db {
    if OwnActive(tx, p) && !ToldActive(tx, p).value.archived && w !in db.workspaces
    then db.(workspaces := db.workspaces[w := Workspace(tx.account, tx.daemon, Some(p), false, now)])
    else db
  }

  /** moveTaskToWorkspace: one UPDATE guarded by owner and by the workspace the terminal was in. */
  function MoveTask(db: Db, tx: Tx, t: TaskId, from: WorkspaceId, to: WorkspaceId, p: Option<ProjectId>, now: int): Db {
    if Owns(db, t, tx.account, tx.daemon) && db.tasks[t].workspace == from
    then PutTask(db, t, db.tasks[t].(workspace := to, project := p, updatedAt := now))
    else db
  }

  predicate KnownTarget(tx: Tx, p: ProjectId, w: WorkspaceId) {
    || (OwnWorkspace(tx, w) && ToldWorkspace(tx, w).value.project == Some(p))
    || (KnowsWorkspaces(tx, ProjectWorkspaces(p)) && w in tx.memo[ProjectWorkspaces(p)].workspaces)
  }

  function LocateEffect(
      db: Db, tx: Tx, origin: TaskId, p: ProjectId, known: Option<WorkspaceId>, unused: WorkspaceId, now: int): Db
  {
    if !OwnTask(tx, origin) || ToldTask(tx, origin).value.project != Some(p) || !OwnActive(tx, p)
        || ToldActive(tx, p).value.archived
    then db
    else
      var from := ToldTask(tx, origin).value.workspace;
      if known.Some? then
        if KnownTarget(tx, p, known.value) && from != known.value
        then MoveTask(db, tx, origin, from, known.value, Some(p), now) else db
      else if unused in db.workspaces then db
      else
        // a move that hits no row still commits the new workspace
        MoveTask(db.(workspaces := db.workspaces[unused := Workspace(tx.account, tx.daemon, Some(p), false, now)]),
                 tx, origin, from, unused, Some(p), now)
  }

  /** Of the rows a statement hit, those still on the device and in the workspace. */
  function Hit(db: Db, tx: Tx, w: WorkspaceId, tasks: set<TaskId>): set<TaskId> {
    set t | t in tasks && Owns(db, t, tx.account, tx.daemon) && db.tasks[t].workspace == w
  }

  function MoveAll(db: Db, tasks: set<TaskId>, to: WorkspaceId, p: Option<ProjectId>, now: int): Db {
    db.(tasks := map t | t in db.tasks ::
          if t in tasks then db.tasks[t].(workspace := to, project := p, updatedAt := now) else db.tasks[t])
  }

  function ForgetEffect(db: Db, tx: Tx, origin: TaskId, p: ProjectId, w: WorkspaceId, main: WorkspaceId, now: int): Db {
    if || !OwnTask(tx, origin) || ToldTask(tx, origin).value.project != Some(p) || !OwnActive(tx, p)
       || !KnowsWorkspaces(tx, ProjectWorkspaces(p)) || !KnowsTasks(tx, WorkspaceTasks(w))
    then db
    else
      var listed := tx.memo[ProjectWorkspaces(p)].workspaces;
      if || w !in listed || listed[w].account != tx.account || listed[w].daemon != tx.daemon || listed[w].isMain
         || main !in listed || !listed[main].isMain
      then db
      else
        var moved := MoveAll(db, Hit(db, tx, w, tx.memo[WorkspaceTasks(w)].tasks), main, listed[main].project, now);
        moved.(workspaces := db.workspaces - {w})
  }

  function RemoveWorkspaceEffect(db: Db, tx: Tx, w: WorkspaceId): Db {
    if OwnWorkspace(tx, w) && !ToldWorkspace(tx, w).value.isMain && KnowsTasks(tx, WorkspaceTasks(w))
    then db.(tasks := db.tasks - Hit(db, tx, w, tx.memo[WorkspaceTasks(w)].tasks), workspaces := db.workspaces - {w})
    else db
  }

  predicate KnowsTasksOfAll(tx: Tx, listed: set<WorkspaceId>) {
    forall w :: w in listed ==> KnowsTasks(tx, WorkspaceTasks(w))
  }

  function TasksOfAll(db: Db, tx: Tx, listed: set<WorkspaceId>): set<TaskId>
    requires KnowsTasksOfAll(tx, listed)
  {
    set t | t in db.tasks && db.tasks[t].workspace in listed
            && t in Hit(db, tx, db.tasks[t].workspace, tx.memo[WorkspaceTasks(db.tasks[t].workspace)].tasks)
  }

  function FinalizeEffect(db: Db, tx: Tx, p: ProjectId): Db {
    if ToldDeleting(tx, p).None? || ToldDeleting(tx, p).value.account != tx.account
       || ToldDeleting(tx, p).value.daemon != tx.daemon || !KnowsWorkspaces(tx, ProjectWorkspaces(p))
    then db
    else
      var listed := tx.memo[ProjectWorkspaces(p)].workspaces;
      if (exists w :: w in listed && !listed[w].isMain) || !KnowsTasksOfAll(tx, listed.Keys) then db
      else db.(tasks := db.tasks - TasksOfAll(db, tx, listed.Keys), workspaces := db.workspaces - listed.Keys,
          projects := db.projects - {p})
  }

  function RevokeEffect(db: Db, tx: Tx): Db {
    if KnowsWorkspaces(tx, DeviceWorkspaces) && KnowsTasks(tx, DeviceTasks) && DeviceProjects in tx.memo
        && tx.memo[DeviceProjects].Projects?
    then db.(devices := db.devices[tx.daemon := Device(tx.account, true)],
             tasks := map t | t in db.tasks
                 && !(t in tx.memo[DeviceTasks].tasks && db.tasks[t].daemon == tx.daemon) :: db.tasks[t],
             workspaces := db.workspaces - tx.memo[DeviceWorkspaces].workspaces.Keys,
             projects := db.projects - tx.memo[DeviceProjects].projects)
    else db
  }

  function Effect(db: Db, tx: Tx, now: int): Db {
    match tx.job
    case CreateTask(t, w) => CreateTaskEffect(db, tx, t, w, now)
    case EnsureDirectory(unused, reuse, t) => EnsureDirectoryEffect(db, tx, unused, reuse, t, now)
    case ImportProject(candidate, p, w, repo) => ImportEffect(db, tx, candidate, p, w, repo, now)
    case AddWorktree(p, w) => AddWorktreeEffect(db, tx, p, w, now)
    case Locate(origin, p, known, unused) => LocateEffect(db, tx, origin, p, known, unused, now)
    case Forget(origin, p, w, main) => ForgetEffect(db, tx, origin, p, w, main, now)
    case RemoveWorkspace(w) => RemoveWorkspaceEffect(db, tx, w)
    case RemoveTask(t) =>
      if OwnTask(tx, t) && Owns(db, t, tx.account, tx.daemon) then db.(tasks := db.tasks - {t}) else db
    case FinalizeProject(p) => FinalizeEffect(db, tx, p)
    case RevokeDevice => RevokeEffect(db, tx)
  }

  // ---------------------------------------------------------------- steps

  function Release(s: State, x: TxId): State
    requires x in s.running
  {
    s.(deviceLocks := s.deviceLocks - {s.running[x].daemon},
       projectLocks := map p | p in s.projectLocks && s.projectLocks[p] != x :: s.projectLocks[p],
       running := s.running - {x})
  }

  function Step(s: State, e: Event): State {
    match e
    case Begin(x, d, a, job) =>
      if x in s.running || d in s.deviceLocks || !ActiveDevice(s.db, d, a) then s
      else s.(deviceLocks := s.deviceLocks[d := x], running := s.running[x := Tx(d, a, job, map[])])
    case Ask(x, q) =>
      if x !in s.running || Blocked(s, x, q) then s
      else
        var tx := s.running[x];
        var answer := Select(s.db, tx.daemon, q);
        s.(running := s.running[x := tx.(memo := tx.memo[q := answer])],
           projectLocks := if IsClaim(q) && answer.project.Some? then s.projectLocks[q.project := x]
               else s.projectLocks)
    case Commit(x, now) => if x in s.running then Release(s.(db := Effect(s.db, s.running[x], now)), x) else s
    case Abort(x) => if x in s.running then Release(s, x) else s
    case RegisterDevice(d, a) =>
      if d in s.db.devices then s else s.(db := s.db.(devices := s.db.devices[d := Device(a, false)]))
    case MarkProjectDeleting(p) =>
      if p !in s.db.projects || p in s.projectLocks then s
      else s.(db := s.db.(projects := s.db.projects[p := s.db.projects[p].(deleting := true)]))
    case SetProjectArchived(p, archived) =>
      if p !in s.db.projects || p in s.projectLocks || s.db.projects[p].deleting then s
      else s.(db := s.db.(projects := s.db.projects[p := s.db.projects[p].(archived := archived)]))
    case DropTask(t) => s.(db := s.db.(tasks := s.db.tasks - {t}))
  }

  const EMPTY: State := State(Db(map[], map[], map[], map[], map[]), map[], map[], map[])

  function After(events: seq<Event>): State {
    if events == [] then EMPTY else Step(After(events[..|events| - 1]), events[|events| - 1])
  }

  // ---------------------------------------------------------------- integrity

  predicate TaskPlaced(db: Db, task: Task) {
    && task.workspace in db.workspaces
    && db.workspaces[task.workspace].account == task.account && db.workspaces[task.workspace].daemon == task.daemon
    && db.workspaces[task.workspace].project == task.project
  }

  predicate OnLiveDevice(db: Db, daemon: DaemonId, account: AccountId) { ActiveDevice(db, daemon, account) }

  predicate WorkspacePlaced(db: Db, ws: Workspace) {
    && OnLiveDevice(db, ws.daemon, ws.account)
    && (ws.project.Some? ==>
          && ws.project.value in db.projects
          && db.projects[ws.project.value].account == ws.account && db.projects[ws.project.value].daemon == ws.daemon)
  }

  /**
   Each task sits in an existing workspace of the same account, device and project; each workspace sits on a live
   device and, unless it is a directory workspace, in an existing project of its own; and no device has two
   directory workspaces.
   */
  ghost predicate Sound(db: Db) {
    && (forall t :: t in db.tasks ==> TaskPlaced(db, db.tasks[t]))
    && (forall w :: w in db.workspaces ==> WorkspacePlaced(db, db.workspaces[w]))
    && (forall p :: p in db.projects ==> OnLiveDevice(db, db.projects[p].daemon, db.projects[p].account))
    && (forall v, w ::
          v in db.workspaces && w in db.workspaces && db.workspaces[v].daemon == db.workspaces[w].daemon
          && db.workspaces[v].project.None? && db.workspaces[w].project.None? ==>
            v == w)
  }
}
