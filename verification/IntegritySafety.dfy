/** Locks keep every answer true until commit; commits built on true answers keep the tables sound. */
module IntegritySafety {
  import opened Store
  import opened Integrity

  // ---------------------------------------------------------------- answers stay true

  /** What an answer still guarantees about the tables, for a transaction that holds device `d`'s row lock. */
  ghost predicate StillTrue(db: Db, d: DaemonId, q: Query, a: Answer) {
    match q
    case GetWorkspace(w) =>
      a.OneWorkspace? && (a.workspace.Some? && a.workspace.value.daemon == d ==>
        w in db.workspaces && db.workspaces[w] == a.workspace.value)
    case GetTask(t) =>
      a.OneTask? && (a.task.Some? && a.task.value.daemon == d && t in db.tasks && db.tasks[t].daemon == d ==>
          db.tasks[t] == a.task.value)
    case ProjectWorkspaces(p) =>
      && a.Workspaces? && SameOn(db, d, a.workspaces, Some(p))
      && (p in db.projects && db.projects[p].daemon == d ==> forall w :: w in a.workspaces ==>
          a.workspaces[w].daemon == d)
    case DeviceWorkspaces =>
      a.Workspaces? && SameOn(db, d, a.workspaces, None) && forall w :: w in a.workspaces ==>
          a.workspaces[w].daemon == d
    case DeviceProjects =>
      a.Projects? && forall p :: p in a.projects <==> p in db.projects && db.projects[p].daemon == d
    case WorkspaceTasks(w) =>
      a.Tasks? && forall t :: t in db.tasks && db.tasks[t].daemon == d && db.tasks[t].workspace == w ==> t in a.tasks
    case DeviceTasks => a.Tasks? && forall t :: t in db.tasks && db.tasks[t].daemon == d ==> t in a.tasks
    case ClaimActive(p) =>
      a.OneProject? && (a.project.Some? && a.project.value.daemon == d ==>
        p in db.projects && db.projects[p] == a.project.value && !a.project.value.deleting)
    case ClaimDeleting(p) =>
      a.OneProject? && (a.project.Some? && a.project.value.daemon == d ==>
        p in db.projects && db.projects[p] == a.project.value && a.project.value.deleting)
  }

  predicate Matches(ws: Workspace, p: Option<ProjectId>) { p.Some? ==> ws.project == p }

  /** On device d, the listed rows are exactly the table's rows, of one project if one is given. */
  ghost predicate SameOn(db: Db, d: DaemonId, listed: map<WorkspaceId, Workspace>, p: Option<ProjectId>) {
    && (forall w :: w in listed ==> Matches(listed[w], p))
    && (forall w :: w in listed && listed[w].daemon == d ==> w in db.workspaces && db.workspaces[w] == listed[w])
    && (forall w :: w in db.workspaces && db.workspaces[w].daemon == d && Matches(db.workspaces[w], p) ==>
          w in listed && listed[w] == db.workspaces[w])
  }

  ghost predicate Informed(db: Db, tx: Tx) {
    forall q :: q in tx.memo ==> StillTrue(db, tx.daemon, q, tx.memo[q])
  }

  ghost predicate HoldsLocks(s: State, x: TxId) {
    x in s.running ==>
      var tx := s.running[x];
      && tx.daemon in s.deviceLocks && s.deviceLocks[tx.daemon] == x && ActiveDevice(s.db, tx.daemon, tx.account)
      && forall q :: q in tx.memo && IsClaim(q) && tx.memo[q].OneProject? && tx.memo[q].project.Some? ==>
           q.project in s.projectLocks && s.projectLocks[q.project] == x
  }

  ghost predicate Inv(s: State) {
    && Sound(s.db)
    && forall x :: x in s.running ==> HoldsLocks(s, x) && Informed(s.db, s.running[x])
  }

  /** Every row of every other device is exactly as before. */
  ghost predicate OnlyTouches(before: Db, after: Db, d: DaemonId) {
    && (forall w :: w in before.workspaces && before.workspaces[w].daemon != d ==>
        w in after.workspaces && after.workspaces[w] == before.workspaces[w])
    && (forall w :: w in after.workspaces && after.workspaces[w].daemon != d ==>
        w in before.workspaces && before.workspaces[w] == after.workspaces[w])
    && (forall t :: t in before.tasks && before.tasks[t].daemon != d ==>
        t in after.tasks && after.tasks[t] == before.tasks[t])
    && (forall t :: t in after.tasks && after.tasks[t].daemon != d ==>
        t in before.tasks && before.tasks[t] == after.tasks[t])
    && (forall p :: p in before.projects && before.projects[p].daemon != d ==>
        p in after.projects && after.projects[p] == before.projects[p])
    && (forall p :: p in after.projects && after.projects[p].daemon != d ==>
        p in before.projects && before.projects[p] == after.projects[p])
    && (forall e :: e != d && e in before.devices ==> e in after.devices && after.devices[e] == before.devices[e])
  }

  /** A commit on another device leaves this transaction's answers true. */
  lemma ForeignCommit(before: Db, after: Db, d: DaemonId, tx: Tx)
    requires OnlyTouches(before, after, d) && tx.daemon != d && Informed(before, tx) && Sound(before)
    ensures Informed(after, tx)
  {
    forall q | q in tx.memo ensures StillTrue(after, tx.daemon, q, tx.memo[q]) {
      assert StillTrue(before, tx.daemon, q, tx.memo[q]);
    }
  }

  // ---------------------------------------------------------------- each job keeps the tables sound

  ghost predicate Safe(db: Db, tx: Tx, after: Db) { Sound(after) && OnlyTouches(db, after, tx.daemon) }

  ghost predicate Ready(db: Db, tx: Tx) { Sound(db) && Informed(db, tx) && ActiveDevice(db, tx.daemon, tx.account) }

  lemma PutTaskSafe(db: Db, tx: Tx, t: TaskId, w: WorkspaceId, ws: Workspace, now: int)
    requires Sound(db) && t !in db.tasks && w in db.workspaces && db.workspaces[w] == ws && ws.daemon == tx.daemon
    ensures Safe(db, tx, PutTask(db, t, NewTask(ws, w, now)))
  {}

  lemma PutWorkspaceSafe(db: Db, tx: Tx, w: WorkspaceId, ws: Workspace)
    requires Sound(db) && w !in db.workspaces && WorkspacePlaced(db, ws) && ws.daemon == tx.daemon
    requires ws.project.None? ==> forall v :: v in db.workspaces && db.workspaces[v].daemon == tx.daemon ==>
        db.workspaces[v].project.Some?
    ensures Safe(db, tx, db.(workspaces := db.workspaces[w := ws]))
  {
    var after := db.(workspaces := db.workspaces[w := ws]);
    forall t | t in after.tasks ensures TaskPlaced(after, after.tasks[t]) { assert TaskPlaced(db, db.tasks[t]); }
    forall v | v in after.workspaces ensures WorkspacePlaced(after, after.workspaces[v]) {
      if v != w { assert WorkspacePlaced(db, db.workspaces[v]); }
    }
  }

  lemma SafeThen(db: Db, mid: Db, tx: Tx, after: Db)
    requires OnlyTouches(db, mid, tx.daemon) && Safe(mid, tx, after)
    ensures Safe(db, tx, after)
  {}

  lemma CreateTaskSafe(db: Db, tx: Tx, t: TaskId, w: WorkspaceId, now: int)
    requires Ready(db, tx)
    ensures Safe(db, tx, CreateTaskEffect(db, tx, t, w, now))
  {
    if OwnWorkspace(tx, w) {
      assert StillTrue(db, tx.daemon, GetWorkspace(w), tx.memo[GetWorkspace(w)]);
      if t !in db.tasks { PutTaskSafe(db, tx, t, w, ToldWorkspace(tx, w).value, now); }
    }
  }

  lemma ReuseDirectorySafe(db: Db, tx: Tx, reuse: WorkspaceId, t: TaskId, now: int)
    requires Ready(db, tx) && KnowsWorkspaces(tx, DeviceWorkspaces) && t !in db.tasks
    requires reuse in tx.memo[DeviceWorkspaces].workspaces
    ensures Safe(db, tx, PutTask(db, t, NewTask(tx.memo[DeviceWorkspaces].workspaces[reuse], reuse, now)))
  {
    assert StillTrue(db, tx.daemon, DeviceWorkspaces, tx.memo[DeviceWorkspaces]);
    PutTaskSafe(db, tx, t, reuse, tx.memo[DeviceWorkspaces].workspaces[reuse], now);
  }

  lemma FirstDirectorySafe(db: Db, tx: Tx, unused: WorkspaceId, now: int)
    requires Ready(db, tx) && KnowsWorkspaces(tx, DeviceWorkspaces) && unused !in db.workspaces
    requires forall w :: w in tx.memo[DeviceWorkspaces].workspaces ==>
              !IsDirectoryOf(tx, tx.memo[DeviceWorkspaces].workspaces, w)
    ensures Safe(db, tx, db.(workspaces := db.workspaces[unused := Workspace(tx.account, tx.daemon, None, false, now)]))
  {
    var listed := tx.memo[DeviceWorkspaces].workspaces;
    assert StillTrue(db, tx.daemon, DeviceWorkspaces, tx.memo[DeviceWorkspaces]);
    forall v | v in db.workspaces && db.workspaces[v].daemon == tx.daemon ensures db.workspaces[v].project.Some? {
      assert WorkspacePlaced(db, db.workspaces[v]);
      assert !IsDirectoryOf(tx, listed, v);
    }
    PutWorkspaceSafe(db, tx, unused, Workspace(tx.account, tx.daemon, None, false, now));
  }

  lemma EnsureDirectorySafe(
      db: Db, tx: Tx, unused: WorkspaceId, reuse: Option<WorkspaceId>, t: Option<TaskId>, now: int)
    requires Ready(db, tx)
    ensures Safe(db, tx, EnsureDirectoryEffect(db, tx, unused, reuse, t, now))
  {
    var after := EnsureDirectoryEffect(db, tx, unused, reuse, t, now);
    if after != db {
      if reuse.Some? {
        ReuseDirectorySafe(db, tx, reuse.value, t.value, now);
      } else {
        var ws := Workspace(tx.account, tx.daemon, None, false, now);
        var mid := db.(workspaces := db.workspaces[unused := ws]);
        FirstDirectorySafe(db, tx, unused, now);
        if t.Some? {
          PutTaskSafe(mid, tx, t.value, unused, ws, now);
          SafeThen(db, mid, tx, after);
        }
      }
    }
  }

  lemma PutProjectSafe(db: Db, tx: Tx, p: ProjectId, project: Project)
    requires Sound(db) && ActiveDevice(db, tx.daemon, tx.account)
    requires project.account == tx.account && project.daemon == tx.daemon
    requires p in db.projects ==> db.projects[p].account == tx.account && db.projects[p].daemon == tx.daemon
    ensures Safe(db, tx, db.(projects := db.projects[p := project]))
  {
    var after := db.(projects := db.projects[p := project]);
    forall v | v in after.workspaces
      ensures WorkspacePlaced(after, after.workspaces[v])
    {
      assert WorkspacePlaced(db, db.workspaces[v]);
    }
  }

  lemma ProjectThenWorkspace(db: Db, tx: Tx, p: ProjectId, project: Project, w: WorkspaceId, now: int)
    requires Ready(db, tx) && w !in db.workspaces && project.account == tx.account && project.daemon == tx.daemon
    requires p in db.projects ==> db.projects[p].account == tx.account && db.projects[p].daemon == tx.daemon
    ensures Safe(db, tx, db.(projects := db.projects[p := project],
                             workspaces := db.workspaces[w := Workspace(tx.account, tx.daemon, Some(p), true, now)]))
  {
    var mid := db.(projects := db.projects[p := project]);
    var ws := Workspace(tx.account, tx.daemon, Some(p), true, now);
    PutProjectSafe(db, tx, p, project);
    PutWorkspaceSafe(mid, tx, w, ws);
    SafeThen(db, mid, tx, mid.(workspaces := mid.workspaces[w := ws]));
  }

  lemma ImportSafe(
      db: Db, tx: Tx, candidate: Option<ProjectId>, project: ProjectId, w: WorkspaceId, repo: nat, now: int)
    requires Ready(db, tx)
    ensures Safe(db, tx, ImportEffect(db, tx, candidate, project, w, repo, now))
  {
    var after := ImportEffect(db, tx, candidate, project, w, repo, now);
    if after != db {
      if candidate.Some? && ToldActive(tx, candidate.value).Some? {
        var p := candidate.value;
        assert StillTrue(db, tx.daemon, ClaimActive(p), tx.memo[ClaimActive(p)]);
        var reopened := ToldActive(tx, p).value.(archived := false);
        PutProjectSafe(db, tx, p, reopened);
        if w !in db.workspaces { ProjectThenWorkspace(db, tx, p, reopened, w, now); }
      } else {
        ProjectThenWorkspace(db, tx, project, Project(tx.account, tx.daemon, repo, false, false), w, now);
      }
    }
  }

  lemma AddWorktreeSafe(db: Db, tx: Tx, p: ProjectId, w: WorkspaceId, now: int)
    requires Ready(db, tx)
    ensures Safe(db, tx, AddWorktreeEffect(db, tx, p, w, now))
  {
    if OwnActive(tx, p) {
      assert StillTrue(db, tx.daemon, ClaimActive(p), tx.memo[ClaimActive(p)]);
      if w !in db.workspaces { PutWorkspaceSafe(db, tx, w, Workspace(tx.account, tx.daemon, Some(p), false, now)); }
    }
  }

  lemma MoveTaskSafe(db: Db, tx: Tx, t: TaskId, from: WorkspaceId, to: WorkspaceId, p: Option<ProjectId>, now: int)
    requires Sound(db) && to in db.workspaces && db.workspaces[to].account == tx.account
    requires db.workspaces[to].daemon == tx.daemon && db.workspaces[to].project == p
    ensures Safe(db, tx, MoveTask(db, tx, t, from, to, p, now))
  {
    if Owns(db, t, tx.account, tx.daemon) && db.tasks[t].workspace == from {
      RetargetSafe(db, tx, t, db.tasks[t].(workspace := to, project := p, updatedAt := now));
    }
  }

  /** Rewriting one own task to a place that exists. */
  lemma RetargetSafe(db: Db, tx: Tx, t: TaskId, row: Task)
    requires Sound(db) && t in db.tasks && db.tasks[t].daemon == tx.daemon && row.daemon == tx.daemon
    requires TaskPlaced(db, row)
    ensures Safe(db, tx, PutTask(db, t, row))
  {
    var after := PutTask(db, t, row);
    forall x | x in after.tasks
      ensures TaskPlaced(after, after.tasks[x])
    {
      if x != t { assert TaskPlaced(db, db.tasks[x]); }
    }
    forall w | w in after.workspaces
      ensures WorkspacePlaced(after, after.workspaces[w])
    {
      assert WorkspacePlaced(db, db.workspaces[w]);
    }
  }

  lemma MoveToNewSafe(db: Db, tx: Tx, t: TaskId, from: WorkspaceId, to: WorkspaceId, ws: Workspace, now: int)
    requires Sound(db) && to !in db.workspaces && WorkspacePlaced(db, ws) && ws.daemon == tx.daemon
    requires ws.account == tx.account && ws.project.Some?
    ensures Safe(db, tx, MoveTask(db.(workspaces := db.workspaces[to := ws]), tx, t, from, to, ws.project, now))
  {
    PutWorkspaceSafe(db, tx, to, ws);
    var mid := db.(workspaces := db.workspaces[to := ws]);
    MoveTaskSafe(mid, tx, t, from, to, ws.project, now);
    SafeThen(db, mid, tx, MoveTask(mid, tx, t, from, to, ws.project, now));
  }

  lemma MoveToKnownSafe(
      db: Db, tx: Tx, origin: TaskId, from: WorkspaceId, p: ProjectId, known: WorkspaceId, now: int)
    requires Ready(db, tx) && OwnTask(tx, origin) && OwnActive(tx, p) && KnownTarget(tx, p, known)
    ensures Safe(db, tx, MoveTask(db, tx, origin, from, known, Some(p), now))
  {
    assert StillTrue(db, tx.daemon, ClaimActive(p), tx.memo[ClaimActive(p)]);
    KnownTargetStands(db, tx, p, known);
    MoveTaskSafe(db, tx, origin, from, known, Some(p), now);
  }

  lemma LocateSafe(
      db: Db, tx: Tx, origin: TaskId, p: ProjectId, known: Option<WorkspaceId>, unused: WorkspaceId, now: int)
    requires Ready(db, tx)
    ensures Safe(db, tx, LocateEffect(db, tx, origin, p, known, unused, now))
  {
    if OwnTask(tx, origin) && OwnActive(tx, p) {
      var from := ToldTask(tx, origin).value.workspace;
      if known.Some? {
        if KnownTarget(tx, p, known.value) { MoveToKnownSafe(db, tx, origin, from, p, known.value, now); }
      } else if unused !in db.workspaces {
        assert StillTrue(db, tx.daemon, ClaimActive(p), tx.memo[ClaimActive(p)]);
        MoveToNewSafe(db, tx, origin, from, unused, Workspace(tx.account, tx.daemon, Some(p), false, now), now);
      }
    }
  }

  /** A workspace of the claimed project, however it was found, is still there and of the same owner. */
  lemma KnownTargetStands(db: Db, tx: Tx, p: ProjectId, w: WorkspaceId)
    requires Ready(db, tx) && OwnActive(tx, p) && KnownTarget(tx, p, w)
    ensures w in db.workspaces && db.workspaces[w].account == tx.account && db.workspaces[w].daemon == tx.daemon
    ensures db.workspaces[w].project == Some(p)
  {
    assert StillTrue(db, tx.daemon, ClaimActive(p), tx.memo[ClaimActive(p)]);
    if OwnWorkspace(tx, w) && ToldWorkspace(tx, w).value.project == Some(p) {
      assert StillTrue(db, tx.daemon, GetWorkspace(w), tx.memo[GetWorkspace(w)]);
    } else {
      ListedStands(db, tx, p, w);
    }
  }

  lemma ListedStands(db: Db, tx: Tx, p: ProjectId, w: WorkspaceId)
    requires Ready(db, tx) && OwnActive(tx, p) && KnowsWorkspaces(tx, ProjectWorkspaces(p))
    requires w in tx.memo[ProjectWorkspaces(p)].workspaces
    ensures w in db.workspaces && db.workspaces[w] == tx.memo[ProjectWorkspaces(p)].workspaces[w]
    ensures db.workspaces[w].project == Some(p) && db.workspaces[w].account == tx.account
    ensures db.workspaces[w].daemon == tx.daemon
  {
    assert StillTrue(db, tx.daemon, ClaimActive(p), tx.memo[ClaimActive(p)]);
    assert StillTrue(db, tx.daemon, ProjectWorkspaces(p), tx.memo[ProjectWorkspaces(p)]);
    assert WorkspacePlaced(db, db.workspaces[w]);
  }

  lemma ForgetSafe(db: Db, tx: Tx, origin: TaskId, p: ProjectId, w: WorkspaceId, main: WorkspaceId, now: int)
    requires Ready(db, tx)
    ensures Safe(db, tx, ForgetEffect(db, tx, origin, p, w, main, now))
  {
    var after := ForgetEffect(db, tx, origin, p, w, main, now);
    if after != db {
      ListedStands(db, tx, p, w);
      ListedStands(db, tx, p, main);
      assert StillTrue(db, tx.daemon, WorkspaceTasks(w), tx.memo[WorkspaceTasks(w)]);
      var hit := Hit(db, tx, w, tx.memo[WorkspaceTasks(w)].tasks);
      forall t | t in db.tasks ensures t in hit <==> db.tasks[t].workspace == w { assert TaskPlaced(db, db.tasks[t]); }
      MoveAllSafe(db, tx, hit, w, main, now);
    }
  }

  /** Moving exactly a workspace's tasks away and dropping it. */
  lemma MoveAllSafe(db: Db, tx: Tx, hit: set<TaskId>, w: WorkspaceId, main: WorkspaceId, now: int)
    requires Sound(db) && w in db.workspaces && main in db.workspaces && w != main
    requires db.workspaces[w].account == db.workspaces[main].account == tx.account
    requires db.workspaces[w].daemon == db.workspaces[main].daemon == tx.daemon
    requires forall t :: t in db.tasks ==> (t in hit <==> db.tasks[t].workspace == w)
    ensures Safe(db, tx, MoveAll(db, hit, main, db.workspaces[main].project, now).(workspaces := db.workspaces - {w}))
  {
    var after := MoveAll(db, hit, main, db.workspaces[main].project, now).(workspaces := db.workspaces - {w});
    forall t | t in after.tasks ensures TaskPlaced(after, after.tasks[t]) { assert TaskPlaced(db, db.tasks[t]); }
    forall v | v in after.workspaces
      ensures WorkspacePlaced(after, after.workspaces[v])
    {
      assert WorkspacePlaced(db, db.workspaces[v]);
    }
  }

  lemma HitIsAll(db: Db, tx: Tx, w: WorkspaceId)
    requires Ready(db, tx) && KnowsTasks(tx, WorkspaceTasks(w))
    requires w in db.workspaces && db.workspaces[w].account == tx.account && db.workspaces[w].daemon == tx.daemon
    ensures Hit(db, tx, w, tx.memo[WorkspaceTasks(w)].tasks) == TasksOf(db, w)
  {
    assert StillTrue(db, tx.daemon, WorkspaceTasks(w), tx.memo[WorkspaceTasks(w)]);
    forall t | t in TasksOf(db, w)
      ensures t in Hit(db, tx, w, tx.memo[WorkspaceTasks(w)].tasks)
    {
      assert TaskPlaced(db, db.tasks[t]);
    }
  }

  /** Rows are dropped, none is changed, and every child of a dropped row goes with it. */
  ghost predicate Prunes(db: Db, after: Db) {
    && (forall t :: t in after.tasks ==>
          t in db.tasks && after.tasks[t] == db.tasks[t] && db.tasks[t].workspace in after.workspaces)
    && (forall w :: w in after.workspaces ==> w in db.workspaces && after.workspaces[w] == db.workspaces[w])
    && (forall w :: w in after.workspaces && db.workspaces[w].project.Some? ==>
          db.workspaces[w].project.value in after.projects)
    && (forall p :: p in after.projects ==> p in db.projects && after.projects[p] == db.projects[p])
  }

  lemma PrunedTask(db: Db, after: Db, t: TaskId)
    requires Sound(db) && after.devices == db.devices && Prunes(db, after) && t in after.tasks
    ensures TaskPlaced(after, after.tasks[t])
  {
    assert TaskPlaced(db, db.tasks[t]);
  }

  lemma PrunedWorkspace(db: Db, after: Db, w: WorkspaceId)
    requires Sound(db) && after.devices == db.devices && Prunes(db, after) && w in after.workspaces
    ensures WorkspacePlaced(after, after.workspaces[w])
  {
    assert WorkspacePlaced(db, db.workspaces[w]);
  }

  lemma DropSafe(db: Db, tx: Tx, after: Db)
    requires Sound(db) && after.devices == db.devices && OnlyTouches(db, after, tx.daemon) && Prunes(db, after)
    ensures Safe(db, tx, after)
  {
    forall t | t in after.tasks ensures TaskPlaced(after, after.tasks[t]) { PrunedTask(db, after, t); }
    forall w | w in after.workspaces ensures WorkspacePlaced(after, after.workspaces[w]) {
      PrunedWorkspace(db, after, w);
    }
  }

  predicate Removes(tx: Tx, w: WorkspaceId) {
    OwnWorkspace(tx, w) && !ToldWorkspace(tx, w).value.isMain && KnowsTasks(tx, WorkspaceTasks(w))
  }

  lemma RemoveWorkspaceTouches(db: Db, tx: Tx, w: WorkspaceId)
    requires Ready(db, tx) && Removes(tx, w)
    ensures OnlyTouches(db, RemoveWorkspaceEffect(db, tx, w), tx.daemon)
  {
    assert StillTrue(db, tx.daemon, GetWorkspace(w), tx.memo[GetWorkspace(w)]);
  }

  lemma RemoveWorkspacePrunes(db: Db, tx: Tx, w: WorkspaceId)
    requires Ready(db, tx) && Removes(tx, w)
    ensures Prunes(db, RemoveWorkspaceEffect(db, tx, w))
  {
    var after := RemoveWorkspaceEffect(db, tx, w);
    assert StillTrue(db, tx.daemon, GetWorkspace(w), tx.memo[GetWorkspace(w)]);
    HitIsAll(db, tx, w);
    forall t | t in after.tasks
      ensures db.tasks[t].workspace in after.workspaces
    {
      assert TaskPlaced(db, db.tasks[t]);
    }
    forall v | v in after.workspaces && db.workspaces[v].project.Some?
      ensures db.workspaces[v].project.value in after.projects
    {
      assert WorkspacePlaced(db, db.workspaces[v]);
    }
  }

  lemma RemoveWorkspaceSafe(db: Db, tx: Tx, w: WorkspaceId)
    requires Ready(db, tx)
    ensures Safe(db, tx, RemoveWorkspaceEffect(db, tx, w))
  {
    if Removes(tx, w) {
      RemoveWorkspaceTouches(db, tx, w);
      RemoveWorkspacePrunes(db, tx, w);
      DropSafe(db, tx, RemoveWorkspaceEffect(db, tx, w));
    }
  }

  lemma FinalizeListed(db: Db, tx: Tx, p: ProjectId)
    requires Ready(db, tx) && FinalizeEffect(db, tx, p) != db
    ensures var listed := tx.memo[ProjectWorkspaces(p)].workspaces;
            && (forall w :: w in listed ==>
                w in db.workspaces && db.workspaces[w].daemon == tx.daemon && db.workspaces[w].account == tx.account)
            && (forall w :: w in db.workspaces && db.workspaces[w].project == Some(p) ==> w in listed)
            && (p in db.projects ==> db.projects[p].daemon == tx.daemon)
  {
    var listed := tx.memo[ProjectWorkspaces(p)].workspaces;
    assert StillTrue(db, tx.daemon, ClaimDeleting(p), tx.memo[ClaimDeleting(p)]);
    assert StillTrue(db, tx.daemon, ProjectWorkspaces(p), tx.memo[ProjectWorkspaces(p)]);
    forall w | w in listed
      ensures w in db.workspaces && db.workspaces[w].daemon == tx.daemon && db.workspaces[w].account == tx.account
    {
      assert WorkspacePlaced(db, db.workspaces[w]);
    }
  }

  lemma FinalizedTask(db: Db, tx: Tx, p: ProjectId, t: TaskId)
    requires Ready(db, tx) && FinalizeEffect(db, tx, p) != db && t in FinalizeEffect(db, tx, p).tasks
    ensures t in db.tasks && db.tasks[t].workspace in FinalizeEffect(db, tx, p).workspaces
  {
    FinalizeListed(db, tx, p);
    assert TaskPlaced(db, db.tasks[t]);
    if db.tasks[t].workspace in tx.memo[ProjectWorkspaces(p)].workspaces {
      HitIsAll(db, tx, db.tasks[t].workspace);
    }
  }

  lemma FinalizePrunes(db: Db, tx: Tx, p: ProjectId)
    requires Ready(db, tx) && FinalizeEffect(db, tx, p) != db
    ensures Prunes(db, FinalizeEffect(db, tx, p))
  {
    var after := FinalizeEffect(db, tx, p);
    FinalizeListed(db, tx, p);
    forall t | t in after.tasks ensures t in db.tasks && db.tasks[t].workspace in after.workspaces {
      FinalizedTask(db, tx, p, t);
    }
    forall v | v in after.workspaces && db.workspaces[v].project.Some?
      ensures db.workspaces[v].project.value in after.projects
    {
      assert WorkspacePlaced(db, db.workspaces[v]);
    }
  }

  lemma FinalizeSafe(db: Db, tx: Tx, p: ProjectId)
    requires Ready(db, tx)
    ensures Safe(db, tx, FinalizeEffect(db, tx, p))
  {
    if FinalizeEffect(db, tx, p) != db {
      FinalizeListed(db, tx, p);
      FinalizePrunes(db, tx, p);
      DropSafe(db, tx, FinalizeEffect(db, tx, p));
    }
  }

  predicate Revokes(tx: Tx) {
    KnowsWorkspaces(tx, DeviceWorkspaces) && KnowsTasks(tx, DeviceTasks) && DeviceProjects in tx.memo
    && tx.memo[DeviceProjects].Projects?
  }

  /** The three lists of a revocation are complete: nothing of the device is left, and nothing else goes. */
  lemma RevokeComplete(db: Db, tx: Tx)
    requires Ready(db, tx) && Revokes(tx)
    ensures Strips(db, RevokeEffect(db, tx), tx.daemon)
  {
    assert StillTrue(db, tx.daemon, DeviceWorkspaces, tx.memo[DeviceWorkspaces]);
    assert StillTrue(db, tx.daemon, DeviceTasks, tx.memo[DeviceTasks]);
    assert StillTrue(db, tx.daemon, DeviceProjects, tx.memo[DeviceProjects]);
  }

  lemma RevokeSafe(db: Db, tx: Tx)
    requires Ready(db, tx)
    ensures Safe(db, tx, RevokeEffect(db, tx))
  {
    if Revokes(tx) {
      RevokeComplete(db, tx);
      StripSafe(db, tx, RevokeEffect(db, tx));
    }
  }

  /** Exactly the rows of one device go. */
  ghost predicate Strips(db: Db, after: Db, gone: DaemonId) {
    && (forall t :: t in after.tasks <==> t in db.tasks && db.tasks[t].daemon != gone)
    && (forall t :: t in after.tasks ==> after.tasks[t] == db.tasks[t])
    && (forall w :: w in after.workspaces <==> w in db.workspaces && db.workspaces[w].daemon != gone)
    && (forall w :: w in after.workspaces ==> after.workspaces[w] == db.workspaces[w])
    && (forall p :: p in after.projects <==> p in db.projects && db.projects[p].daemon != gone)
    && (forall p :: p in after.projects ==> after.projects[p] == db.projects[p])
    && (forall d :: d in db.devices && d != gone ==> d in after.devices && after.devices[d] == db.devices[d])
  }

  lemma StripTouches(db: Db, after: Db, gone: DaemonId)
    requires Strips(db, after, gone)
    ensures OnlyTouches(db, after, gone)
  {
  }

  lemma StrippedTask(db: Db, after: Db, gone: DaemonId, t: TaskId)
    requires Sound(db) && Strips(db, after, gone) && t in after.tasks
    ensures TaskPlaced(after, after.tasks[t])
  {
    assert TaskPlaced(db, db.tasks[t]);
  }

  lemma StrippedWorkspace(db: Db, after: Db, gone: DaemonId, w: WorkspaceId)
    requires Sound(db) && Strips(db, after, gone) && w in after.workspaces
    ensures WorkspacePlaced(after, after.workspaces[w])
  {
    assert WorkspacePlaced(db, db.workspaces[w]);
  }

  /** No row of another device refers to a row of the device that goes. */
  lemma StripSafe(db: Db, tx: Tx, after: Db)
    requires Sound(db) && Strips(db, after, tx.daemon)
    ensures Safe(db, tx, after)
  {
    StripTouches(db, after, tx.daemon);
    forall t | t in after.tasks ensures TaskPlaced(after, after.tasks[t]) { StrippedTask(db, after, tx.daemon, t); }
    forall w | w in after.workspaces ensures WorkspacePlaced(after, after.workspaces[w]) {
      StrippedWorkspace(db, after, tx.daemon, w);
    }
  }

  lemma RemoveTaskSafe(db: Db, tx: Tx, t: TaskId)
    requires Ready(db, tx) && Owns(db, t, tx.account, tx.daemon)
    ensures Safe(db, tx, db.(tasks := db.tasks - {t}))
  {}

  predicate Creates(j: Job) { j.CreateTask? || j.EnsureDirectory? || j.ImportProject? || j.AddWorktree? }

  predicate Moves(j: Job) { j.Locate? || j.Forget? }

  lemma CreationSafe(db: Db, tx: Tx, now: int)
    requires Ready(db, tx) && Creates(tx.job)
    ensures Safe(db, tx, Effect(db, tx, now))
  {
    match tx.job {
      case CreateTask(t, w) => CreateTaskSafe(db, tx, t, w, now);
      case EnsureDirectory(unused, reuse, t) => EnsureDirectorySafe(db, tx, unused, reuse, t, now);
      case ImportProject(candidate, p, w, repo) => ImportSafe(db, tx, candidate, p, w, repo, now);
      case AddWorktree(p, w) => AddWorktreeSafe(db, tx, p, w, now);
    }
  }

  lemma MovementSafe(db: Db, tx: Tx, now: int)
    requires Ready(db, tx) && Moves(tx.job)
    ensures Safe(db, tx, Effect(db, tx, now))
  {
    match tx.job {
      case Locate(origin, p, known, unused) => LocateSafe(db, tx, origin, p, known, unused, now);
      case Forget(origin, p, w, main) => ForgetSafe(db, tx, origin, p, w, main, now);
    }
  }

  lemma RemovalSafe(db: Db, tx: Tx, now: int)
    requires Ready(db, tx) && !Creates(tx.job) && !Moves(tx.job)
    ensures Safe(db, tx, Effect(db, tx, now))
  {
    match tx.job {
      case RemoveWorkspace(w) => RemoveWorkspaceSafe(db, tx, w);
      case RemoveTask(t) => if OwnTask(tx, t) && Owns(db, t, tx.account, tx.daemon) { RemoveTaskSafe(db, tx, t); }
      case FinalizeProject(p) => FinalizeSafe(db, tx, p);
      case RevokeDevice => RevokeSafe(db, tx);
    }
  }

  lemma EffectSafe(db: Db, tx: Tx, now: int)
    requires Ready(db, tx)
    ensures Safe(db, tx, Effect(db, tx, now))
  {
    if Creates(tx.job) {
      CreationSafe(db, tx, now);
    } else if Moves(tx.job) {
      MovementSafe(db, tx, now);
    } else {
      RemovalSafe(db, tx, now);
    }
  }

  // ---------------------------------------------------------------- one step, every run

  lemma AnswerIsTrue(db: Db, d: DaemonId, q: Query)
    requires Sound(db)
    ensures StillTrue(db, d, q, Select(db, d, q))
  {
    if q.ProjectWorkspaces? {
      forall w | w in db.workspaces && db.workspaces[w].project == Some(q.project)
        ensures WorkspacePlaced(db, db.workspaces[w])
      {
      }
    }
  }

  lemma AskKeeps(s: State, x: TxId, q: Query)
    requires Inv(s)
    ensures Inv(Step(s, Ask(x, q)))
  {
    var t := Step(s, Ask(x, q));
    if x in s.running && !Blocked(s, x, q) {
      AnswerIsTrue(s.db, s.running[x].daemon, q);
      forall y | y in t.running ensures HoldsLocks(t, y) && Informed(t.db, t.running[y]) {
        assert HoldsLocks(s, y) && Informed(s.db, s.running[y]);
      }
    }
  }

  /** Two running transactions hold different devices. */
  lemma DifferentDevices(s: State, x: TxId, y: TxId)
    requires Inv(s) && x in s.running && y in s.running && x != y
    ensures s.running[x].daemon != s.running[y].daemon
  {
    assert HoldsLocks(s, x) && HoldsLocks(s, y);
  }

  lemma CommitKeeps(s: State, x: TxId, now: int)
    requires Inv(s) && x in s.running
    ensures Inv(Step(s, Commit(x, now)))
  {
    var tx := s.running[x];
    assert HoldsLocks(s, x) && Informed(s.db, tx);
    EffectSafe(s.db, tx, now);
    var t := Step(s, Commit(x, now));
    forall y | y in t.running ensures HoldsLocks(t, y) && Informed(t.db, t.running[y]) {
      assert HoldsLocks(s, y) && Informed(s.db, s.running[y]);
      DifferentDevices(s, x, y);
      ForeignCommit(s.db, t.db, tx.daemon, s.running[y]);
    }
  }

  lemma ReleaseKeeps(s: State, x: TxId)
    requires Inv(s) && x in s.running
    ensures Inv(Release(s, x))
  {
    var t := Release(s, x);
    forall y | y in t.running ensures HoldsLocks(t, y) && Informed(t.db, t.running[y]) {
      assert HoldsLocks(s, y) && Informed(s.db, s.running[y]);
      DifferentDevices(s, x, y);
    }
  }

  /** A project flag changes only while no transaction has the row, so no answer goes stale. */
  lemma FlagKeeps(s: State, p: ProjectId, project: Project)
    requires Inv(s) && p in s.db.projects && p !in s.projectLocks
    requires project.account == s.db.projects[p].account && project.daemon == s.db.projects[p].daemon
    ensures Inv(s.(db := s.db.(projects := s.db.projects[p := project])))
  {
    var t := s.(db := s.db.(projects := s.db.projects[p := project]));
    forall w | w in t.db.workspaces
      ensures WorkspacePlaced(t.db, t.db.workspaces[w])
    {
      assert WorkspacePlaced(s.db, s.db.workspaces[w]);
    }
    forall y | y in t.running ensures HoldsLocks(t, y) && Informed(t.db, t.running[y]) {
      assert HoldsLocks(s, y) && Informed(s.db, s.running[y]);
      forall q | q in t.running[y].memo ensures StillTrue(t.db, t.running[y].daemon, q, t.running[y].memo[q]) {
        assert StillTrue(s.db, s.running[y].daemon, q, s.running[y].memo[q]);
      }
    }
  }

  lemma DropTaskKeeps(s: State, k: TaskId)
    requires Inv(s)
    ensures Inv(Step(s, DropTask(k)))
  {
    var t := Step(s, DropTask(k));
    forall y | y in t.running ensures HoldsLocks(t, y) && Informed(t.db, t.running[y]) {
      assert HoldsLocks(s, y) && Informed(s.db, s.running[y]);
      forall q | q in t.running[y].memo ensures StillTrue(t.db, t.running[y].daemon, q, t.running[y].memo[q]) {
        assert StillTrue(s.db, s.running[y].daemon, q, s.running[y].memo[q]);
      }
    }
  }

  lemma RegisterKeeps(s: State, d: DaemonId, a: AccountId)
    requires Inv(s) && d !in s.db.devices
    ensures Inv(Step(s, RegisterDevice(d, a)))
  {
    var t := Step(s, RegisterDevice(d, a));
    forall y | y in t.running ensures HoldsLocks(t, y) && Informed(t.db, t.running[y]) {
      assert HoldsLocks(s, y) && Informed(s.db, s.running[y]);
      forall q | q in t.running[y].memo ensures StillTrue(t.db, t.running[y].daemon, q, t.running[y].memo[q]) {
        assert StillTrue(s.db, s.running[y].daemon, q, s.running[y].memo[q]);
      }
    }
  }

  lemma BeginKeeps(s: State, x: TxId, d: DaemonId, a: AccountId, job: Job)
    requires Inv(s)
    ensures Inv(Step(s, Begin(x, d, a, job)))
  {
    var t := Step(s, Begin(x, d, a, job));
    forall y | y in t.running ensures HoldsLocks(t, y) && Informed(t.db, t.running[y]) {
      if y in s.running { assert HoldsLocks(s, y) && Informed(s.db, s.running[y]); }
    }
  }

  lemma StepKeeps(s: State, e: Event)
    requires Inv(s)
    ensures Inv(Step(s, e))
  {
    match e {
      case Begin(x, d, a, job) => BeginKeeps(s, x, d, a, job);
      case Ask(x, q) => AskKeeps(s, x, q);
      case Commit(x, now) => if x in s.running { CommitKeeps(s, x, now); }
      case Abort(x) => if x in s.running { ReleaseKeeps(s, x); }
      case RegisterDevice(d, a) => if d !in s.db.devices { RegisterKeeps(s, d, a); }
      case MarkProjectDeleting(p) =>
        if p in s.db.projects && p !in s.projectLocks { FlagKeeps(s, p, s.db.projects[p].(deleting := true)); }
      case SetProjectArchived(p, archived) =>
        if p in s.db.projects && p !in s.projectLocks { FlagKeeps(s, p, s.db.projects[p].(archived := archived)); }
      case DropTask(t) => DropTaskKeeps(s, t);
    }
  }

  lemma {:induction false} Always(events: seq<Event>)
    ensures Inv(After(events))
    decreases |events|
  {
    if events != [] {
      Always(events[..|events| - 1]);
      StepKeeps(After(events[..|events| - 1]), events[|events| - 1]);
    }
  }

  /**
   However creating, moving and deleting transactions of all devices interleave, statement by statement, the
   committed tables are always sound: no foreign key ever dangles and no device gets a second directory workspace.
   */
  lemma {:induction false} IntegrityAlwaysHolds(events: seq<Event>)
    ensures Sound(After(events).db)
  {
    Always(events);
  }
}
