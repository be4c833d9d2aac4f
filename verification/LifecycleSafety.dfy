/** The proofs about every run of the lifecycle, and its main theorems. */
module LifecycleSafety {
  import opened Store
  import opened Convergence
  import opened Lifecycle

  // ---------------------------------------------------------------- what a committed step does to operations

  /** Rows keep their identity and never reopen, no row is invented, only ended rows disappear. */
  ghost predicate Shrinks(before: Db, after: Db) {
    && after.operations.Keys <= before.operations.Keys
    && (forall o :: o in after.operations ==>
          && before.operations[o].SameIdentity(after.operations[o])
          && (before.operations[o].Terminal() ==> after.operations[o].Terminal())
          && !after.operations[o].state.Applying?)
    && (forall o :: o in before.operations && o !in after.operations ==> before.operations[o].Terminal())
  }

  ghost predicate SameDevices(before: Db, after: Db) { before.devices == after.devices }

  /** No open session.create operation targets this task. */
  ghost predicate NoneOpen(db: Db, t: TaskId) {
    forall o :: o in db.operations && db.operations[o].kind.SessionCreate? && db.operations[o].target == Some(t) ==>
      !Active(db.operations[o])
  }

  /** Every surviving task keeps its owner, and one that an open operation targets stays as it was or ends unbound. */
  ghost predicate TasksRespect(before: Db, after: Db) {
    forall t :: t in after.tasks ==>
      && t in before.tasks && after.tasks[t].account == before.tasks[t].account
      && after.tasks[t].daemon == before.tasks[t].daemon
      && (|| (after.tasks[t].status == before.tasks[t].status && after.tasks[t].session == before.tasks[t].session)
          || (!after.tasks[t].status.Running? && after.tasks[t].session.None?)
          || NoneOpen(after, t))
  }

  /** Surviving tasks stay well shaped and bound to sessions that were already theirs. */
  ghost predicate TasksShaped(w: World, after: Db) {
    forall t :: t in after.tasks ==> TaskInv(w, t, after.tasks[t])
  }

  lemma RowsKeep(w: World, after: World)
    requires Inv(w) && Shrinks(w.db, after.db) && TasksRespect(w.db, after.db)
    requires after.operations == w.operations && after.tasks == w.tasks && after.sessions == w.sessions
    requires forall d :: d in w.db.devices ==>
              d in after.db.devices && after.db.devices[d].account == w.db.devices[d].account
    requires forall o :: o in after.db.operations ==> RevokedIsTerminal(after.db, after.db.operations[o])
    ensures forall o :: o in after.db.operations ==>
              RowInv(after, o, after.db.operations[o]) && SessionRowInv(after, after.db.operations[o])
    ensures UniqueInv(after.db)
  {
    forall o | o in after.db.operations
      ensures RowInv(after, o, after.db.operations[o]) && SessionRowInv(after, after.db.operations[o])
    {
      assert RowInv(w, o, w.db.operations[o]) && SessionRowInv(w, w.db.operations[o]);
    }
    forall o, p | o in after.db.operations && p in after.db.operations && o != p
                  && Active(after.db.operations[o]) && Active(after.db.operations[p])
      ensures !SameTarget(after.db.operations[o], after.db.operations[p])
    {
      assert Active(w.db.operations[o]) && Active(w.db.operations[p]);
    }
  }

  lemma StillTerminal(w: World, after: Db)
    requires Inv(w) && Shrinks(w.db, after) && SameDevices(w.db, after)
    ensures forall o :: o in after.operations ==> RevokedIsTerminal(after, after.operations[o])
  {
    forall o | o in after.operations ensures RevokedIsTerminal(after, after.operations[o]) {
      assert RowInv(w, o, w.db.operations[o]);
    }
  }

  /** Whatever step it is, an operation it applies was open before and has ended after. */
  ghost predicate AppliesOpen(w: World, e: Event) {
    AppliedBy(w, e).Some? ==>
      var o := AppliedBy(w, e).value;
      o in w.db.operations && !w.db.operations[o].Terminal() && o in NextDb(w, e).operations
          && NextDb(w, e).operations[o].Terminal()
  }

  lemma LogKeeps(w: World, e: Event)
    requires Inv(w) && AppliesOpen(w, e)
    requires forall o :: o in w.db.operations && o in NextDb(w, e).operations && w.db.operations[o].Terminal() ==>
               NextDb(w, e).operations[o].Terminal()
    requires forall o :: o in NextDb(w, e).operations && o !in w.db.operations ==> o !in w.operations
    ensures LogInv(Step(w, e)) && EndedInv(Step(w, e))
  {
    var after := Step(w, e);
    var n := |w.log|;
    assert forall o :: o in w.db.operations ==> RowInv(w, o, w.db.operations[o]);
    forall i, j, o | 0 <= i < j < |after.log| && (after.log[i].applied == Some(o) || o in after.log[i].ended)
      ensures after.log[j].applied != Some(o)
    {
      assert after.log[i] == w.log[i];
      if j < n { assert after.log[j] == w.log[j]; }
    }
    forall i, o | 0 <= i < |after.log| && (after.log[i].applied == Some(o) || o in after.log[i].ended)
      ensures o in after.operations && (o in after.db.operations ==> after.db.operations[o].Terminal())
    {
      if i < n { assert after.log[i] == w.log[i]; }
    }
  }

  // ---------------------------------------------------------------- the report transaction

  lemma ExpireFacts(db: Db, hit: set<OperationId>)
    requires forall o :: o in db.operations ==> !db.operations[o].state.Applying?
    ensures Shrinks(db, ExpireAll(db, hit)) && SameDevices(db, ExpireAll(db, hit))
    ensures ExpireAll(db, hit).tasks == db.tasks
  {}

  /** A transaction that does not apply leaves no trace; one that does ends exactly the operation it claimed. */
  lemma ConvergeFacts(w: World, d: DaemonId, a: AccountId, r: Report, found: Found, now: int)
    requires Inv(w)
    ensures !ConvergeTx(w.db, d, a, r, found, now).1.Applied? ==> ConvergeTx(w.db, d, a, r, found, now).0 == w.db
    ensures ConvergeTx(w.db, d, a, r, found, now).1.Applied? ==>
              var after := ConvergeTx(w.db, d, a, r, found, now).0;
              && ActiveDevice(w.db, d, a) && r.operation in w.db.operations && !w.db.operations[r.operation].Terminal()
              && w.db.operations[r.operation].metadata.Some? && w.db.operations[r.operation].account == a
              && w.db.operations[r.operation].daemon == d
              && r.operation in after.operations && after.operations[r.operation].completed
              && Shrinks(w.db, after) && SameDevices(w.db, after)
  {
    assert NoneApplying(w.db) by {
      forall o | o in w.db.operations
        ensures !w.db.operations[o].state.Applying?
      {
        assert RowInv(w, o, w.db.operations[o]);
      }
    }
    if r.operation in w.db.operations { assert RowInv(w, r.operation, w.db.operations[r.operation]); }
    if ConvergeTx(w.db, d, a, r, found, now).1.Applied? { AppliedShrinks(w.db, d, a, r, found, now); }
  }

  lemma AppliedShrinks(db: Db, d: DaemonId, a: AccountId, r: Report, found: Found, now: int)
    requires NoneApplying(db) && ConvergeTx(db, d, a, r, found, now).1.Applied?
    ensures var after := ConvergeTx(db, d, a, r, found, now).0;
            && r.operation in after.operations && after.operations[r.operation].completed
            && Shrinks(db, after) && SameDevices(db, after)
  {
    var (tx, claimed) := ClaimReport(db, r.operation, d);
    var m := claimed.value.metadata.value;
    ApplyFacts(tx, claimed.value, m, r, found, now);
    FinishShrinks(db, Apply(tx, claimed.value, m, r, found, now).tx, r.operation, r.ok);
  }

  /** Nothing but the claimed operation is being applied, and finishing it ends that. */
  lemma FinishShrinks(db: Db, tx: Db, o: OperationId, ok: bool)
    requires NoneApplying(db) && o in db.operations && tx.operations.Keys == db.operations.Keys
    requires tx.operations[o] == db.operations[o].(state := Applying) && !db.operations[o].completed
    requires !db.operations[o].Terminal()
    requires forall p :: p in db.operations && p != o ==>
               tx.operations[p] == db.operations[p] || tx.operations[p] == db.operations[p].(state := Expired)
    ensures var after := FinishOperation(tx, o, ok).0;
            o in after.operations && after.operations[o].completed && Shrinks(db, after)
  {
  }

  /** Inside the transaction only session.create rows of removed tasks change, and they expire. */
  lemma ApplyFacts(tx: Db, row: Operation, m: Metadata, r: Report, found: Found, now: int)
    requires Apply(tx, row, m, r, found, now).Done?
    ensures var after := Apply(tx, row, m, r, found, now).tx;
            && after.devices == tx.devices && after.operations.Keys == tx.operations.Keys
            && forall o :: o in tx.operations ==>
                 after.operations[o] == tx.operations[o]
                 || (row.kind.WorktreeRemove? && tx.operations[o].kind.SessionCreate?
                     && after.operations[o] == tx.operations[o].(state := Expired))
  {
    if !row.kind.WorktreeRemove? { assert Apply(tx, row, m, r, found, now).tx.operations == tx.operations; }
  }

  lemma ApplyTasks(tx: Db, row: Operation, m: Metadata, r: Report, found: Found, now: int)
    requires Apply(tx, row, m, r, found, now).Done?
    ensures var after := Apply(tx, row, m, r, found, now).tx;
            || after.tasks == tx.tasks
            || (&& row.kind.WorktreeRemove?
                && exists gone: set<TaskId> :: after.tasks == tx.tasks - gone)
            || (&& row.kind.SessionCreate? && m.task.Some? && m.session.Some?
                && Owns(tx, m.task.value, row.account, row.daemon)
                && tx.tasks[m.task.value].session.None? && !tx.tasks[m.task.value].status.Running?
                && after.tasks == tx.tasks[m.task.value := tx.tasks[m.task.value].(
                     status := Running, session := m.session, exitCode := None, updatedAt := now)])
  {
    if r.ok && row.kind.WorktreeRemove? && m.workspace.value in tx.workspaces {
      var gone := TasksOf(tx, m.workspace.value);
      assert Apply(tx, row, m, r, found, now).tx.tasks == tx.tasks - gone;
    }
  }

  lemma ReportTasks(w: World, d: DaemonId, a: AccountId, r: Report, found: Found, now: int)
    requires Inv(w) && ConvergeTx(w.db, d, a, r, found, now).1.Applied?
    ensures TasksRespect(w.db, ConvergeTx(w.db, d, a, r, found, now).0)
    ensures TasksShaped(w, ConvergeTx(w.db, d, a, r, found, now).0)
  {
    ConvergeFacts(w, d, a, r, found, now);
    var after := ConvergeTx(w.db, d, a, r, found, now).0;
    var (tx, claimed) := ClaimReport(w.db, r.operation, d);
    var m := claimed.value.metadata.value;
    ApplyTasks(tx, claimed.value, m, r, found, now);
    assert RowInv(w, r.operation, w.db.operations[r.operation]) && SessionRowInv(w, w.db.operations[r.operation]);
    forall t | t in after.tasks
      ensures TaskInv(w, t, after.tasks[t])
      ensures after.tasks[t] == w.db.tasks[t] || NoneOpen(after, t)
    {
      assert TaskInv(w, t, w.db.tasks[t]);
      if after.tasks[t] != w.db.tasks[t] {
        OnlyOneOpen(w, r.operation, t);
        assert NoneOpen(after, t);
      }
    }
  }

  /** By the unique index, an open session.create operation is the only open one on its task. */
  lemma OnlyOneOpen(w: World, o: OperationId, t: TaskId)
    requires Inv(w) && o in w.db.operations && w.db.operations[o].kind.SessionCreate?
    requires w.db.operations[o].target == Some(t)
    requires Active(w.db.operations[o]) && t in w.db.tasks
    ensures forall p ::
              p in w.db.operations && p != o && w.db.operations[p].kind.SessionCreate?
              && w.db.operations[p].target == Some(t) ==>
              !Active(w.db.operations[p])
  {
    forall p | p in w.db.operations && p != o && w.db.operations[p].kind.SessionCreate?
        && w.db.operations[p].target == Some(t)
      ensures !Active(w.db.operations[p])
    {
      assert SessionRowInv(w, w.db.operations[p]) && SessionRowInv(w, w.db.operations[o]);
      assert SameTarget(w.db.operations[o], w.db.operations[p]);
    }
  }

  // ---------------------------------------------------------------- the other transactions

  predicate RowStatement(e: Event) { e.InstallAck? || e.ExpireDue? || e.Prune? || e.MarkFailed? }

  predicate TaskStatement(
      e: Event) { e.SessionLive? || e.SessionExit? || e.SessionAbsent? || e.DropTask? || e.MoveTask? }

  predicate PlainStatement(e: Event) { RowStatement(e) || TaskStatement(e) }

  lemma TaskStatementFrame(w: World, e: Event)
    requires TaskStatement(e)
    ensures NextDb(w, e).operations == w.db.operations && SameDevices(w.db, NextDb(w, e))
  {
  }

  lemma RowStatementFrame(w: World, e: Event)
    requires RowStatement(e)
    ensures NextDb(w, e).tasks == w.db.tasks && SameDevices(w.db, NextDb(w, e))
  {
  }

  ghost predicate NoneApplying(db: Db) { forall o :: o in db.operations ==> !db.operations[o].state.Applying? }

  lemma PutShrinks(db: Db, after: Db, id: OperationId, row: Operation)
    requires NoneApplying(db) && id in db.operations && after.operations == db.operations[id := row]
    requires db.operations[id].SameIdentity(row) && (db.operations[id].Terminal() ==> row.Terminal())
    requires !row.state.Applying?
    ensures Shrinks(db, after)
  {}

  lemma SameShrinks(db: Db, after: Db)
    requires NoneApplying(db) && after.operations == db.operations
    ensures Shrinks(db, after)
  {}

  lemma TombstoneOperations(
      w: World, d: DaemonId, a: AccountId, t: TaskId, s: SessionId, code: int, latest: Option<OperationId>, now: int,
      after: Db)
    requires Inv(w) && after == TombstoneTx(w.db, d, a, t, s, code, latest, now)
    ensures Shrinks(w.db, after) && SameDevices(w.db, after)
  {
    assert NoneApplying(w.db) by {
      forall o | o in w.db.operations
        ensures !w.db.operations[o].state.Applying?
      {
        assert RowInv(w, o, w.db.operations[o]);
      }
    }
    if after.operations == w.db.operations { SameShrinks(w.db, after); }
    else {
      PutShrinks(w.db, after, latest.value, w.db.operations[latest.value].(state := Completed, completed := true));
    }
  }

  lemma TombstoneTasks(
      w: World, d: DaemonId, a: AccountId, t: TaskId, s: SessionId, code: int, latest: Option<OperationId>, now: int,
      after: Db)
    requires Inv(w) && after == TombstoneTx(w.db, d, a, t, s, code, latest, now)
    ensures TasksRespect(w.db, after) && TasksShaped(w, after)
  {
    TombstoneRows(w.db, d, a, t, s, code, latest, now);
    forall u | u in after.tasks ensures TaskInv(w, u, after.tasks[u]) { assert TaskInv(w, u, w.db.tasks[u]); }
  }

  /** A tombstone leaves the task rows alone or ends exactly one of them. */
  lemma TombstoneRows(
      db: Db, d: DaemonId, a: AccountId, t: TaskId, s: SessionId, code: int, latest: Option<OperationId>, now: int)
    ensures var after := TombstoneTx(db, d, a, t, s, code, latest, now);
            || after.tasks == db.tasks
            || (t in db.tasks && after.tasks == db.tasks[t :=
                  db.tasks[t].(status := Exited, session := None, exitCode := Some(code), updatedAt := now)])
  {
  }

  lemma StatementOperations(w: World, e: Event)
    requires Inv(w) && PlainStatement(e)
    ensures Shrinks(w.db, NextDb(w, e)) && SameDevices(w.db, NextDb(w, e))
  {
    assert NoneApplying(w.db) by {
      forall o | o in w.db.operations
        ensures !w.db.operations[o].state.Applying?
      {
        assert RowInv(w, o, w.db.operations[o]);
      }
    }
    if TaskStatement(e) {
      TaskStatementFrame(w, e);
      SameShrinks(w.db, NextDb(w, e));
    } else {
      RowStatementFrame(w, e);
      RowStatementShrinks(w, e);
    }
  }

  lemma RowStatementShrinks(w: World, e: Event)
    requires NoneApplying(w.db) && RowStatement(e)
    ensures Shrinks(w.db, NextDb(w, e))
  {
    match e {
      case ExpireDue(now) => ExpireFacts(w.db, DueOperations(w.db, now));
      case Prune(o) => PruneShrinks(w, o);
      case InstallAck(o, d, ok, now) => InstallShrinks(w.db, o, d, ok, now);
      case MarkFailed(o, d) => FailShrinks(w, o, d);
    }
  }

  lemma PruneShrinks(w: World, o: OperationId)
    requires NoneApplying(w.db)
    ensures Shrinks(w.db, NextDb(w, Prune(o)))
  {
  }

  lemma InstallShrinks(db: Db, o: OperationId, d: DaemonId, ok: bool, now: int)
    requires NoneApplying(db)
    ensures Shrinks(db, MarkInstalled(db, o, d, ok, now).0)
  {
    var after := MarkInstalled(db, o, d, ok, now).0;
    if after.operations == db.operations { SameShrinks(db, after); }
    else { PutShrinks(db, after, o, after.operations[o]); }
  }

  lemma FailShrinks(w: World, o: OperationId, d: DaemonId)
    requires NoneApplying(w.db)
    ensures Shrinks(w.db, NextDb(w, MarkFailed(o, d)))
  {
    var after := NextDb(w, MarkFailed(o, d));
    if after.operations == w.db.operations { SameShrinks(w.db, after); }
    else { PutShrinks(w.db, after, o, after.operations[o]); }
  }

  lemma StatementShapes(w: World, e: Event)
    requires Inv(w) && PlainStatement(e)
    ensures TasksShaped(w, NextDb(w, e))
  {
    forall t | t in NextDb(w, e).tasks ensures TaskInv(w, t, NextDb(w, e).tasks[t]) {
      assert TaskInv(w, t, w.db.tasks[t]);
    }
  }

  lemma BoundHasNoneOpen(w: World, t: TaskId)
    requires Inv(w) && t in w.db.tasks && w.db.tasks[t].session.Some?
    ensures NoneOpen(w.db, t)
  {
    forall o | o in w.db.operations && w.db.operations[o].kind.SessionCreate? && w.db.operations[o].target == Some(t)
      ensures !Active(w.db.operations[o])
    {
      assert SessionRowInv(w, w.db.operations[o]);
    }
  }

  lemma StatementTasks(w: World, e: Event)
    requires Inv(w) && PlainStatement(e)
    ensures TasksRespect(w.db, NextDb(w, e))
  {
    if RowStatement(e) {
      RowStatementFrame(w, e);
    } else {
      TaskStatementFrame(w, e);
      if e.SessionLive? && Owns(w.db, e.task, e.account, e.daemon) && w.db.tasks[e.task].session.Some? {
        BoundHasNoneOpen(w, e.task);
        assert NoneOpen(NextDb(w, e), e.task);
      }
    }
  }

  lemma RemovalFacts(w: World, a: AccountId, d: DaemonId, tasks: set<TaskId>)
    requires Inv(w)
    ensures var after := DeleteTasks(w.db, a, d, tasks);
            Shrinks(w.db, after) && SameDevices(w.db, after) && TasksRespect(w.db, after) && TasksShaped(w, after)
  {
    assert forall o :: o in w.db.operations ==> RowInv(w, o, w.db.operations[o]);
    assert forall t :: t in w.db.tasks ==> TaskInv(w, t, w.db.tasks[t]);
  }

  lemma RevokeFacts(w: World, d: DaemonId)
    requires Inv(w) && d in w.db.devices && !w.db.devices[d].revoked
    ensures var after := NextDb(w, RevokeDevice(d));
            && Shrinks(w.db, after) && TasksRespect(w.db, after) && TasksShaped(w, after)
            && forall o :: o in after.operations ==> RevokedIsTerminal(after, after.operations[o])
  {
    assert forall t :: t in w.db.tasks ==> TaskInv(w, t, w.db.tasks[t]);
    var after := NextDb(w, RevokeDevice(d));
    forall o | o in after.operations
      ensures RevokedIsTerminal(after, after.operations[o]) && !after.operations[o].state.Applying?
    {
      assert RowInv(w, o, w.db.operations[o]);
    }
  }

  // ---------------------------------------------------------------- one step keeps the invariant

  /** Every step that inserts nothing. */
  lemma ShrinkingStep(w: World, e: Event)
    requires Inv(w) && !e.InsertTask? && !e.InsertOperation?
    requires Shrinks(w.db, NextDb(w, e)) && TasksRespect(w.db, NextDb(w, e)) && TasksShaped(w, NextDb(w, e))
    requires forall d :: d in w.db.devices ==>
              d in NextDb(w, e).devices && NextDb(w, e).devices[d].account == w.db.devices[d].account
    requires forall o :: o in NextDb(w, e).operations ==> RevokedIsTerminal(NextDb(w, e), NextDb(w, e).operations[o])
    requires AppliesOpen(w, e)
    ensures Inv(Step(w, e))
  {
    var after := Step(w, e);
    RowsKeep(w, after);
    LogKeeps(w, e);
    forall t | t in after.db.tasks
      ensures TaskInv(after, t, after.db.tasks[t])
    {
      assert TaskInv(w, t, after.db.tasks[t]);
    }
  }

  lemma ReportStep(w: World, e: Event)
    requires Inv(w) && e.ReportTx?
    ensures Inv(Step(w, e)) && Shrinks(w.db, NextDb(w, e)) && SameDevices(w.db, NextDb(w, e)) && AppliesOpen(w, e)
  {
    var after := NextDb(w, e);
    if ValidFound(w.db, e.report, e.found) {
      ConvergeFacts(w, e.daemon, e.account, e.report, e.found, e.now);
      if AppliedBy(w, e).Some? { ReportTasks(w, e.daemon, e.account, e.report, e.found, e.now); }
    }
    if after == w.db { SameStep(w); }
    StillTerminal(w, after);
    ShrinkingStep(w, e);
  }

  lemma SameStep(w: World)
    requires Inv(w)
    ensures Shrinks(w.db, w.db) && TasksRespect(w.db, w.db) && TasksShaped(w, w.db)
    ensures forall o :: o in w.db.operations ==> RevokedIsTerminal(w.db, w.db.operations[o])
  {
    assert forall o :: o in w.db.operations ==> RowInv(w, o, w.db.operations[o]);
  }

  lemma InsertTaskStep(w: World, t: TaskId, row: Task)
    requires Inv(w) && CanInsertTask(w, t, row)
    ensures Inv(Step(w, InsertTask(t, row)))
  {
    var e := InsertTask(t, row);
    var after := Step(w, e);
    LogKeeps(w, e);
    forall o | o in after.db.operations
      ensures RowInv(after, o, after.db.operations[o]) && SessionRowInv(after, after.db.operations[o])
    {
      assert RowInv(w, o, w.db.operations[o]) && SessionRowInv(w, w.db.operations[o]);
    }
    forall u | u in after.db.tasks ensures TaskInv(after, u, after.db.tasks[u]) {
      if u != t { assert TaskInv(w, u, w.db.tasks[u]); }
    }
  }

  lemma InsertOperationStep(w: World, o: OperationId, row: Operation)
    requires Inv(w) && CanInsertOperation(w, o, row)
    ensures Inv(Step(w, InsertOperation(o, row)))
  {
    var e := InsertOperation(o, row);
    var after := Step(w, e);
    LogKeeps(w, e);
    forall p | p in after.db.operations
      ensures RowInv(after, p, after.db.operations[p]) && SessionRowInv(after, after.db.operations[p])
    {
      if p != o { assert RowInv(w, p, w.db.operations[p]) && SessionRowInv(w, w.db.operations[p]); }
      else if row.kind.SessionCreate? { assert TaskInv(w, row.target.value, w.db.tasks[row.target.value]); }
    }
    forall u | u in after.db.tasks ensures TaskInv(after, u, after.db.tasks[u]) { assert TaskInv(w, u, w.db.tasks[u]); }
  }

  lemma RegisterStep(w: World, e: Event)
    requires Inv(w) && e.RegisterDevice?
    ensures Inv(Step(w, e))
  {
    SameStep(w);
    forall o | o in w.db.operations
      ensures RevokedIsTerminal(NextDb(w, e), w.db.operations[o])
    {
      assert RowInv(w, o, w.db.operations[o]);
    }
    ShrinkingStep(w, e);
  }

  lemma RevokeStep(w: World, e: Event)
    requires Inv(w) && e.RevokeDevice?
    ensures Inv(Step(w, e))
  {
    SameStep(w);
    if e.daemon in w.db.devices && !w.db.devices[e.daemon].revoked { RevokeFacts(w, e.daemon); }
    ShrinkingStep(w, e);
  }

  lemma UnchangedFacts(w: World, after: Db)
    requires Inv(w) && after == w.db
    ensures Shrinks(w.db, after) && SameDevices(w.db, after) && TasksRespect(w.db, after) && TasksShaped(w, after)
  {
    SameStep(w);
  }

  lemma TombstoneFacts(w: World, e: Event)
    requires Inv(w) && e.Tombstone?
    ensures Shrinks(w.db, NextDb(w, e)) && SameDevices(w.db, NextDb(w, e))
    ensures TasksRespect(w.db, NextDb(w, e)) && TasksShaped(w, NextDb(w, e))
  {
    if IsLatest(w.db, e.account, e.daemon, e.task, e.latest) {
      TombstoneOperations(w, e.daemon, e.account, e.task, e.session, e.code, e.latest, e.now, NextDb(w, e));
      TombstoneTasks(w, e.daemon, e.account, e.task, e.session, e.code, e.latest, e.now, NextDb(w, e));
    } else {
      UnchangedFacts(w, NextDb(w, e));
    }
  }

  lemma TombstoneStep(w: World, e: Event)
    requires Inv(w) && e.Tombstone?
    ensures Inv(Step(w, e))
  {
    TombstoneFacts(w, e);
    StillTerminal(w, NextDb(w, e));
    ShrinkingStep(w, e);
  }

  lemma RemovalStep(w: World, e: Event)
    requires Inv(w) && e.RemoveTasks?
    ensures Inv(Step(w, e))
  {
    SameStep(w);
    RemovalFacts(w, e.account, e.daemon, e.tasks);
    StillTerminal(w, NextDb(w, e));
    ShrinkingStep(w, e);
  }

  lemma StatementStep(w: World, e: Event)
    requires Inv(w) && PlainStatement(e)
    ensures Inv(Step(w, e))
  {
    StatementOperations(w, e);
    StatementShapes(w, e);
    StatementTasks(w, e);
    StillTerminal(w, NextDb(w, e));
    ShrinkingStep(w, e);
  }

  lemma StepKeeps(w: World, e: Event)
    requires Inv(w)
    ensures Inv(Step(w, e))
  {
    SameStep(w);
    match e {
      case RegisterDevice(_, _) => RegisterStep(w, e);
      case RevokeDevice(_) => RevokeStep(w, e);
      case InsertTask(t, row) => if CanInsertTask(w, t, row) { InsertTaskStep(w, t, row); } else { IdleStep(w, e); }
      case InsertOperation(o, row) =>
        if CanInsertOperation(w, o, row) { InsertOperationStep(w, o, row); } else { IdleStep(w, e); }
      case ReportTx(_, _, _, _, _) => ReportStep(w, e);
      case Tombstone(_, _, _, _, _, _, _) => TombstoneStep(w, e);
      case RemoveTasks(_, _, _) => RemovalStep(w, e);
      case _ => StatementStep(w, e);
    }
  }

  lemma IdleStep(w: World, e: Event)
    requires Inv(w) && NextDb(w, e) == w.db && AppliedBy(w, e).None?
    requires Step(w, e).operations == w.operations && Step(w, e).tasks == w.tasks && Step(w, e).sessions == w.sessions
    ensures Inv(Step(w, e))
  {
    SameStep(w);
    var after := Step(w, e);
    RowsKeep(w, after);
    LogKeeps(w, e);
    forall t | t in after.db.tasks ensures TaskInv(after, t, after.db.tasks[t]) { assert TaskInv(w, t, w.db.tasks[t]); }
  }

  lemma {:induction false} Always(events: seq<Event>)
    ensures Inv(After(events))
    decreases |events|
  {
    if events != [] {
      Always(events[..|events| - 1]);
      StepKeeps(After(events[..|events| - 1]), events[|events| - 1]);
    }
  }

  // ---------------------------------------------------------------- main theorems

  /** RUNNING has a bound session and no exit code, EXITED has no session, in every reachable state. */
  lemma {:induction false} TaskRowsWellShaped(events: seq<Event>, t: TaskId)
    requires t in After(events).db.tasks
    ensures TaskShape(After(events).db.tasks[t])
  {
    Always(events);
    assert TaskInv(After(events), t, After(events).db.tasks[t]);
  }

  /** The log of a shorter run is a prefix of the log of a longer one, so the log's positions are moments. */
  lemma {:induction false} LogGrows(events: seq<Event>, k: nat)
    requires k <= |events|
    ensures |After(events).log| == |events| && After(events[..k]).log == After(events).log[..k]
    decreases |events|
  {
    if events != [] {
      var n := |events| - 1;
      if k <= n {
        LogGrows(events[..n], k);
        assert events[..n][..k] == events[..k];
        assert After(events).log[..k] == After(events[..n]).log[..k];
      } else {
        LogGrows(events[..n], n);
        assert events[..k] == events;
      }
    }
  }

  function Logs(w: World, e: Event): Entry { Entry(AppliedBy(w, e), Ended(w.db, Step(w, e).db)) }

  lemma LogNext(w: World, e: Event)
    ensures Step(w, e).log == w.log + [Logs(w, e)]
  {
  }

  lemma {:induction false} LogAt(events: seq<Event>, i: nat)
    requires i < |events| == |After(events).log|
    ensures After(events).log[i] == Logs(After(events[..i]), events[i])
    ensures After(events[..i + 1]) == Step(After(events[..i]), events[i])
  {
    assert events[..i + 1][..i] == events[..i];
    LogGrows(events, i + 1);
    LogGrows(events, i);
    LogNext(After(events[..i]), events[i]);
    assert After(events[..i + 1]) == Step(After(events[..i]), events[i]);
    assert After(events).log[i] == After(events[..i + 1]).log[i];
  }

  /** An operation's effect commits at most once, and never after it was completed, failed or expired. */
  lemma {:induction false} EffectAtMostOnce(events: seq<Event>, i: nat, j: nat, o: OperationId)
    requires i < j < |events|
    requires AppliedBy(After(events[..i]), events[i]) == Some(o)
        || o in Ended(After(events[..i]).db, After(events[..i + 1]).db)
    ensures AppliedBy(After(events[..j]), events[j]) != Some(o)
  {
    Always(events);
    LogGrows(events, 0);
    LogAt(events, i);
    LogAt(events, j);
  }

  lemma UnappliedLeavesDb(w: World, e: Event)
    requires Inv(w) && e.ReportTx? && AppliedBy(w, e).None?
    ensures Step(w, e).db == w.db
  {
    ConvergeFacts(w, e.daemon, e.account, e.report, e.found, e.now);
  }

  lemma FailureIsLocal(db: Db, o: OperationId, d: DaemonId, p: OperationId)
    ensures FailConvergence(db, o, d).0.(operations := db.operations) == db
    ensures p != o ==> Lookup(FailConvergence(db, o, d).0.operations, p) == Lookup(db.operations, p)
  {
  }

  lemma MarkIsLocal(w: World, o: OperationId, d: DaemonId, p: OperationId)
    ensures NextDb(w, MarkFailed(o, d)).(operations := w.db.operations) == w.db
    ensures p != o ==> Lookup(NextDb(w, MarkFailed(o, d)).operations, p) == Lookup(w.db.operations, p)
  {
    FailureIsLocal(w.db, o, d, p);
  }

  /** A report that is not applied leaves every table as it was; marking it failed touches its own row only. */
  lemma {:induction false} NoPartialEffect(events: seq<Event>, e: Event)
    requires e.ReportTx? && AppliedBy(After(events), e).None?
    ensures Step(After(events), e).db == After(events).db
    ensures forall o, d ::
              NextDb(After(events), MarkFailed(o, d)).(operations := After(events).db.operations) == After(events).db
    ensures forall o, d, p :: p != o ==>
              Lookup(NextDb(After(events), MarkFailed(o, d)).operations, p) == Lookup(After(events).db.operations, p)
  {
    Always(events);
    UnappliedLeavesDb(After(events), e);
    forall o, d, p
      ensures NextDb(After(events), MarkFailed(o, d)).(operations := After(events).db.operations) == After(events).db
      ensures p != o ==>
                Lookup(NextDb(After(events), MarkFailed(o, d)).operations, p) == Lookup(After(events).db.operations, p)
    {
      MarkIsLocal(After(events), o, d, p);
    }
  }

  /** The report is that of an open session.create operation, and the row is what it makes of the task. */
  predicate Rebinds(w: World, e: Event, t: TaskId, row: Task)
    requires e.ReportTx?
  {
    && AppliedBy(w, e) == Some(e.report.operation) && e.report.ok && e.report.operation in w.db.operations
    && var o := w.db.operations[e.report.operation];
    && o.kind.SessionCreate? && Active(o) && o.metadata.Some? && o.metadata.value.task == Some(t)
    && row.session == o.metadata.value.session && row.session.Some? && row.daemon == e.daemon
  }

  /** A report leaves a task as it was or binds it. */
  lemma ReportRow(w: World, e: Event, t: TaskId, row: Task)
    requires Inv(w) && e.ReportTx? && t in NextDb(w, e).tasks && row == NextDb(w, e).tasks[t]
    ensures (t in w.db.tasks && row == w.db.tasks[t]) || Rebinds(w, e, t, row)
  {
    ConvergeFacts(w, e.daemon, e.account, e.report, e.found, e.now);
    if AppliedBy(w, e).Some? {
      var (tx, claimed) := ClaimReport(w.db, e.report.operation, e.daemon);
      ApplyTasks(tx, claimed.value, claimed.value.metadata.value, e.report, e.found, e.now);
    }
  }

  lemma ReportReruns(w: World, e: Event, t: TaskId)
    requires Inv(w) && e.ReportTx? && t in w.db.tasks && w.db.tasks[t].status.Exited?
    requires t in NextDb(w, e).tasks && NextDb(w, e).tasks[t].status.Running?
    ensures AppliedBy(w, e) == Some(e.report.operation) && e.report.operation in w.db.operations
    ensures w.db.operations[e.report.operation].kind.SessionCreate?
    ensures w.db.operations[e.report.operation].target == Some(t)
  {
    ReportRow(w, e, t, NextDb(w, e).tasks[t]);
    assert SessionRowInv(w, w.db.operations[e.report.operation]);
  }

  predicate Sessional(e: Event) { e.SessionLive? || e.SessionExit? || e.SessionAbsent? }

  lemma NoSessionReruns(w: World, e: Event, t: TaskId)
    requires Inv(w) && Sessional(e) && t in w.db.tasks && w.db.tasks[t].status.Exited?
    ensures t in NextDb(w, e).tasks ==> !NextDb(w, e).tasks[t].status.Running?
  {
    assert TaskInv(w, t, w.db.tasks[t]);
  }

  lemma NothingElseReruns(w: World, e: Event, t: TaskId)
    requires Inv(w) && !e.ReportTx? && t in w.db.tasks && w.db.tasks[t].status.Exited?
    ensures t in NextDb(w, e).tasks ==> !NextDb(w, e).tasks[t].status.Running?
  {
    assert TaskInv(w, t, w.db.tasks[t]);
    if Sessional(e) { NoSessionReruns(w, e, t); }
  }

  /** Only the applied report of a session.create operation takes a task from EXITED to RUNNING. */
  lemma {:induction false} OnlyReportReruns(events: seq<Event>, e: Event, t: TaskId)
    requires t in After(events).db.tasks && After(events).db.tasks[t].status.Exited?
    requires t in Step(After(events), e).db.tasks && Step(After(events), e).db.tasks[t].status.Running?
    ensures e.ReportTx? && AppliedBy(After(events), e) == Some(e.report.operation)
    ensures e.report.operation in After(events).db.operations
    ensures After(events).db.operations[e.report.operation].kind.SessionCreate?
    ensures After(events).db.operations[e.report.operation].target == Some(t)
  {
    Always(events);
    if e.ReportTx? { ReportReruns(After(events), e, t); } else { NothingElseReruns(After(events), e, t); }
  }

  /** Convergence by absence never overwrites an exit code that is already recorded. */
  lemma {:induction false} AbsenceKeepsExitCodes(events: seq<Event>, e: Event, t: TaskId)
    requires e.SessionAbsent? && t in After(events).db.tasks && After(events).db.tasks[t].exitCode.Some?
    ensures t in Step(After(events), e).db.tasks && Step(After(events), e).db.tasks[t] == After(events).db.tasks[t]
  {
    Always(events);
    assert TaskInv(After(events), t, After(events).db.tasks[t]);
  }

  lemma RevocationStays(w: World, e: Event)
    ensures forall d :: d in w.db.devices && w.db.devices[d].revoked ==>
              d in NextDb(w, e).devices && NextDb(w, e).devices[d].revoked
  {
    if e.ReportTx? {
      var (tx, claimed) := ClaimReport(w.db, e.report.operation, e.daemon);
      if claimed.Some? && claimed.value.metadata.Some?
          && Apply(tx, claimed.value, claimed.value.metadata.value, e.report, e.found, e.now).Done? {
        ApplyFacts(tx, claimed.value, claimed.value.metadata.value, e.report, e.found, e.now);
      }
    }
  }

  lemma EvolvesBy(before: Db, issued: map<OperationId, DaemonId>, after: Db, o: OperationId, row: Operation)
    requires o !in before.operations && o !in issued && after == PutOperation(before, o, row)
    requires forall p :: p in after.operations ==> RevokedIsTerminal(after, after.operations[p])
    ensures Evolves(before, issued, after)
  {}

  lemma StepEvolves(w: World, e: Event)
    requires Inv(w) && Inv(Step(w, e))
    ensures Evolves(w.db, w.operations, NextDb(w, e))
  {
    var after := NextDb(w, e);
    forall o | o in after.operations ensures RevokedIsTerminal(after, after.operations[o]) {
      assert RowInv(Step(w, e), o, after.operations[o]);
    }
    if e.InsertOperation? && CanInsertOperation(w, e.operation, e.prepared) {
      EvolvesBy(w.db, w.operations, after, e.operation, e.prepared);
    } else {
      StepShrinks(w, e);
      RevocationStays(w, e);
      ShrinksEvolves(w.db, w.operations, after);
    }
  }

  lemma ShrinksEvolves(before: Db, issued: map<OperationId, DaemonId>, after: Db)
    requires Shrinks(before, after)
    requires forall d :: d in before.devices && before.devices[d].revoked ==>
              d in after.devices && after.devices[d].revoked
    requires forall o :: o in after.operations ==> RevokedIsTerminal(after, after.operations[o])
    ensures Evolves(before, issued, after)
  {}

  lemma NoneIssued(issued: map<OperationId, DaemonId>, db: Db)
    requires db.operations.Keys <= issued.Keys
    ensures Issue(issued, db) == issued
  {
  }

  lemma InsertIssues(w: World, o: OperationId, row: Operation)
    requires Inv(w) && CanInsertOperation(w, o, row)
    ensures Issue(w.operations, PutOperation(w.db, o, row)) == w.operations[o := row.daemon]
  {
    assert forall p :: p in w.db.operations ==> RowInv(w, p, w.db.operations[p]);
  }

  lemma StepIssues(w: World, e: Event)
    requires Inv(w)
    ensures Issue(w.operations, NextDb(w, e)) == Step(w, e).operations
  {
    if e.InsertOperation? && CanInsertOperation(w, e.operation, e.prepared) {
      InsertIssues(w, e.operation, e.prepared);
    } else {
      StepShrinks(w, e);
      assert forall p :: p in w.db.operations ==> RowInv(w, p, w.db.operations[p]);
      NoneIssued(w.operations, NextDb(w, e));
    }
  }

  /** The prepared-operation table moves only as delivery assumes, whatever transaction commits. */
  lemma {:induction false} EveryStepEvolves(events: seq<Event>, e: Event)
    ensures Evolves(After(events).db, After(events).operations, Step(After(events), e).db)
    ensures Issue(After(events).operations, Step(After(events), e).db) == Step(After(events), e).operations
  {
    Always(events);
    StepKeeps(After(events), e);
    StepEvolves(After(events), e);
    StepIssues(After(events), e);
  }

  /** Apart from an insertion, every step only shrinks the open operations. */
  lemma StepShrinks(w: World, e: Event)
    requires Inv(w)
    ensures !(e.InsertOperation? && CanInsertOperation(w, e.operation, e.prepared)) ==> Shrinks(w.db, NextDb(w, e))
  {
    SameStep(w);
    match e {
      case RevokeDevice(d) => if d in w.db.devices && !w.db.devices[d].revoked { RevokeFacts(w, d); }
      case ReportTx(_, _, _, _, _) => ReportStep(w, e);
      case Tombstone(_, _, _, _, _, _, _) => TombstoneFacts(w, e);
      case RemoveTasks(a, d, tasks) => RemovalFacts(w, a, d, tasks);
      case RegisterDevice(_, _) | InsertTask(_, _) | InsertOperation(_, _) =>
      case _ => StatementOperations(w, e);
    }
  }

  // ---------------------------------------------------------------- buried sessions

  predicate Opens(row: Operation, s: SessionId) {
    Active(row) && row.kind.SessionCreate? && row.metadata.Some? && row.metadata.value.session == Some(s)
  }

  /** No task is bound to the session and no open operation could bind one to it. */
  ghost predicate Dead(db: Db, s: SessionId) {
    && (forall t :: t in db.tasks ==> db.tasks[t].session != Some(s))
    && (forall o :: o in db.operations ==> !Opens(db.operations[o], s))
  }

  ghost predicate BuriedDead(w: World) {
    w.buried <= w.sessions.Keys && forall s :: s in w.buried ==> Dead(w.db, s)
  }

  /** The tombstone's latest-operation query returned the operation that is open for its session, if there is one. */
  ghost predicate LatestIsOpen(w: World, e: Event) {
    Buries(w, e) ==> forall o :: o in w.db.operations && Opens(w.db.operations[o], e.session) ==> e.latest == Some(o)
  }

  ghost predicate Bound(db: Db, t: TaskId, s: SessionId) { t in db.tasks && db.tasks[t].session == Some(s) }

  ghost predicate SomeOpen(db: Db, s: SessionId) { exists o :: o in db.operations && Opens(db.operations[o], s) }

  lemma ReportBinds(w: World, e: Event, t: TaskId, s: SessionId)
    requires Inv(w) && e.ReportTx? && Bound(NextDb(w, e), t, s)
    ensures Bound(w.db, t, s) || SomeOpen(w.db, s)
  {
    ReportRow(w, e, t, NextDb(w, e).tasks[t]);
    if Rebinds(w, e, t, NextDb(w, e).tasks[t]) { assert Opens(w.db.operations[e.report.operation], s); }
  }

  lemma SessionBinds(w: World, e: Event, t: TaskId, s: SessionId)
    requires Inv(w) && Sessional(e) && Bound(NextDb(w, e), t, s)
    ensures Bound(w.db, t, s)
  {
  }

  lemma StatementBinds(w: World, e: Event, t: TaskId, s: SessionId)
    requires Inv(w) && !e.ReportTx? && Bound(NextDb(w, e), t, s)
    ensures Bound(w.db, t, s) || s !in w.sessions
  {
    if Sessional(e) { SessionBinds(w, e, t, s); }
    else if RowStatement(e) { RowStatementFrame(w, e); }
  }

  /** A task is bound only by its own insertion or by the report of an open operation. */
  lemma NewBindings(w: World, e: Event, t: TaskId, s: SessionId)
    requires Inv(w) && Bound(NextDb(w, e), t, s)
    ensures Bound(w.db, t, s) || s !in w.sessions || SomeOpen(w.db, s)
  {
    if e.ReportTx? { ReportBinds(w, e, t, s); } else { StatementBinds(w, e, t, s); }
  }

  /** What was dead stays dead. */
  lemma DeadStays(w: World, e: Event, s: SessionId)
    requires Inv(w) && Dead(w.db, s) && s in w.sessions
    ensures Dead(NextDb(w, e), s)
  {
    StepShrinks(w, e);
    forall t | t in NextDb(w, e).tasks ensures NextDb(w, e).tasks[t].session != Some(s) {
      if NextDb(w, e).tasks[t].session == Some(s) { NewBindings(w, e, t, s); }
    }
  }

  lemma TombstoneUnbinds(w: World, e: Event, t: TaskId)
    requires Inv(w) && Buries(w, e)
    ensures !Bound(NextDb(w, e), t, e.session)
  {
    if t in w.db.tasks { assert TaskInv(w, t, w.db.tasks[t]); }
  }

  lemma TombstoneBuries(w: World, e: Event)
    requires Inv(w) && Buries(w, e) && LatestIsOpen(w, e)
    ensures Dead(NextDb(w, e), e.session)
  {
    var after := NextDb(w, e);
    forall t | t in after.tasks ensures after.tasks[t].session != Some(e.session) { TombstoneUnbinds(w, e, t); }
    TombstoneCloses(w, e);
  }

  lemma TombstoneClosesOne(w: World, e: Event, o: OperationId)
    requires Inv(w) && Buries(w, e) && LatestIsOpen(w, e)
    requires o in w.db.operations && o in NextDb(w, e).operations && Opens(w.db.operations[o], e.session)
    ensures NextDb(w, e).operations[o].completed
  {
    assert SessionRowInv(w, w.db.operations[o]);
    assert PreparedSession(w.db, e.latest) == Some(e.session);
  }

  lemma TombstoneCloses(w: World, e: Event)
    requires Inv(w) && Buries(w, e) && LatestIsOpen(w, e)
    ensures !SomeOpen(NextDb(w, e), e.session)
  {
    var after := NextDb(w, e);
    TombstoneFacts(w, e);
    forall o | o in after.operations ensures !Opens(after.operations[o], e.session) {
      if Opens(w.db.operations[o], e.session) { TombstoneClosesOne(w, e, o); }
    }
  }

  /** If the query returned another row, the open operation survives the tombstone of its own session. */
  lemma TombstoneMisses(w: World, e: Event)
    requires Inv(w) && !LatestIsOpen(w, e)
    ensures !Dead(NextDb(w, e), e.session)
  {
    var o :| o in w.db.operations && Opens(w.db.operations[o], e.session) && e.latest != Some(o);
    assert NextDb(w, e).operations[o] == w.db.operations[o];
  }

  lemma BuriedStep(w: World, e: Event)
    requires Inv(w) && BuriedDead(w) && LatestIsOpen(w, e)
    ensures BuriedDead(Step(w, e))
  {
    var after := Step(w, e);
    forall s | s in after.buried ensures Dead(after.db, s) {
      if s in w.buried { DeadStays(w, e, s); } else { TombstoneBuries(w, e); }
    }
  }

  ghost predicate AllFound(events: seq<Event>) {
    forall k :: 0 <= k < |events| ==> LatestIsOpen(After(events[..k]), events[k])
  }

  lemma {:induction false} AllFoundPrefix(events: seq<Event>, n: nat)
    requires n <= |events| && AllFound(events)
    ensures AllFound(events[..n])
  {
    forall k | 0 <= k < n ensures LatestIsOpen(After(events[..n][..k]), events[..n][k]) {
      assert events[..n][..k] == events[..k];
    }
  }

  lemma {:induction false} BuriedSessionsDead(events: seq<Event>)
    requires AllFound(events)
    ensures BuriedDead(After(events))
    decreases |events|
  {
    if events != [] {
      var n := |events| - 1;
      AllFoundPrefix(events, n);
      BuriedSessionsDead(events[..n]);
      Always(events[..n]);
      assert LatestIsOpen(After(events[..n]), events[n]);
      BuriedStep(After(events[..n]), events[n]);
    }
  }

  lemma {:induction false} MissedIsNotDead(events: seq<Event>, k: nat)
    requires k < |events| && !LatestIsOpen(After(events[..k]), events[k])
    ensures !BuriedDead(After(events[..k + 1]))
  {
    Always(events[..k]);
    TombstoneMisses(After(events[..k]), events[k]);
    assert events[..k + 1][..k] == events[..k];
    assert After(events[..k + 1]) == Step(After(events[..k]), events[k]);
  }

  /**
   A session whose exit tombstone converged while its task existed is dead from then on - no late report, resync or
   catalog can ever make a task RUNNING on it - exactly when every such tombstone found the open operation.
   */
  lemma {:induction false} BuriedExactly(events: seq<Event>)
    ensures (forall k :: 0 <= k <= |events| ==> BuriedDead(After(events[..k]))) <==> AllFound(events)
  {
    if AllFound(events) {
      forall k | 0 <= k <= |events| ensures BuriedDead(After(events[..k])) {
        AllFoundPrefix(events, k);
        BuriedSessionsDead(events[..k]);
      }
    } else {
      var k :| 0 <= k < |events| && !LatestIsOpen(After(events[..k]), events[k]);
      MissedIsNotDead(events, k);
    }
  }

  // ---------------------------------------------------------------- when the query finds the open operation

  /** A session.create operation is created strictly later than every earlier one of the same task. */
  ghost predicate CreatedLast(w: World, e: Event) {
    e.InsertOperation? && e.prepared.kind.SessionCreate? && e.prepared.target.Some? ==>
      forall o :: o in w.db.operations
                  && CreatesSessionFor(w.db.operations[o], e.prepared.account, e.prepared.daemon,
                      e.prepared.target.value) ==>
        w.db.operations[o].createdAt < e.prepared.createdAt
  }

  ghost predicate LatestInv(db: Db) {
    forall o, p :: o in db.operations && p in db.operations && o != p && Active(db.operations[o])
                   && db.operations[o].kind.SessionCreate? && db.operations[o].target.Some?
                   && CreatesSessionFor(db.operations[p], db.operations[o].account, db.operations[o].daemon,
                       db.operations[o].target.value) ==>
      db.operations[p].createdAt < db.operations[o].createdAt
  }

  lemma OpenIsLatest(w: World, e: Event)
    requires Inv(w) && LatestInv(w.db)
    ensures LatestIsOpen(w, e)
  {
    if Buries(w, e) {
      forall o | o in w.db.operations && Opens(w.db.operations[o], e.session) ensures e.latest == Some(o) {
        assert SessionRowInv(w, w.db.operations[o]);
        assert CreatesSessionFor(w.db.operations[o], e.account, e.daemon, e.task);
        assert e.latest.Some?;
        assert CreatesSessionFor(w.db.operations[e.latest.value], e.account, e.daemon, e.task);
      }
    }
  }

  /** Readable off the table beforehand: the operation open for the session is strictly the newest of its task. */
  predicate OpenIsNewest(db: Db, a: AccountId, d: DaemonId, t: TaskId, s: SessionId) {
    forall o, p ::
      o in db.operations && Opens(db.operations[o], s) && p in db.operations && p != o
      && CreatesSessionFor(db.operations[p], a, d, t) ==>
        db.operations[p].createdAt < db.operations[o].createdAt
  }

  function SessionRows(db: Db, a: AccountId, d: DaemonId, t: TaskId): set<OperationId> {
    set o | o in db.operations && CreatesSessionFor(db.operations[o], a, d, t)
  }

  /** Some row of a nonempty set is newest. */
  lemma {:induction false} Newest(db: Db, rows: set<OperationId>) returns (l: OperationId)
    requires rows != {} && rows <= db.operations.Keys
    ensures l in rows && forall o :: o in rows ==> db.operations[o].createdAt <= db.operations[l].createdAt
    decreases rows
  {
    var o :| o in rows;
    l := o;
    if rows != {o} {
      l := Newest(db, rows - {o});
      if db.operations[l].createdAt < db.operations[o].createdAt { l := o; }
    }
  }

  /** The tombstone is about an issued session of an owned task on an active device, so its answer decides. */
  predicate Decides(w: World, a: AccountId, d: DaemonId, t: TaskId, s: SessionId) {
    ActiveDevice(w.db, d, a) && Owns(w.db, t, a, d) && s in w.sessions && w.sessions[s] == t
  }

  lemma OpenBelongs(w: World, a: AccountId, d: DaemonId, t: TaskId, s: SessionId, o: OperationId)
    requires Inv(w) && Decides(w, a, d, t, s) && o in w.db.operations && Opens(w.db.operations[o], s)
    ensures CreatesSessionFor(w.db.operations[o], a, d, t)
  {
    assert SessionRowInv(w, w.db.operations[o]);
  }

  /** A row other than the open one that the query may return, when the open one is not strictly newest. */
  lemma OtherAnswer(w: World, a: AccountId, d: DaemonId, t: TaskId, s: SessionId)
    returns (o: OperationId, l: OperationId)
    requires Inv(w) && Decides(w, a, d, t, s) && !OpenIsNewest(w.db, a, d, t, s)
    ensures o in w.db.operations && Opens(w.db.operations[o], s) && l != o && IsLatest(w.db, a, d, t, Some(l))
  {
    var x, p :| x in w.db.operations && Opens(w.db.operations[x], s) && p in w.db.operations && p != x
                && CreatesSessionFor(w.db.operations[p], a, d, t)
                && w.db.operations[p].createdAt >= w.db.operations[x].createdAt;
    var rows := SessionRows(w.db, a, d, t);
    assert p in rows;
    o := x;
    l := Newest(w.db, rows);
    if l == x { l := p; }
    assert forall y :: y in w.db.operations && CreatesSessionFor(w.db.operations[y], a, d, t) ==> y in rows;
  }

  /**
   After any run, whatever row the latest-operation query returns, the tombstone of an owned task's session leaves that
   session dead: exactly when the operation open for it is strictly the newest session.create row of the task.
   */
  lemma {:induction false} TombstoneSafeExactly(
    events: seq<Event>, a: AccountId, d: DaemonId, t: TaskId, s: SessionId, code: int, now: int)
    requires Decides(After(events), a, d, t, s)
    ensures (forall latest :: IsLatest(After(events).db, a, d, t, latest) ==>
               Dead(Step(After(events), Tombstone(d, a, t, s, code, latest, now)).db, s))
       <==> OpenIsNewest(After(events).db, a, d, t, s)
  {
    Always(events);
    var w := After(events);
    if OpenIsNewest(w.db, a, d, t, s) {
      forall latest | IsLatest(w.db, a, d, t, latest)
        ensures Dead(Step(w, Tombstone(d, a, t, s, code, latest, now)).db, s)
      {
        NewestIsFound(w, Tombstone(d, a, t, s, code, latest, now));
        TombstoneBuries(w, Tombstone(d, a, t, s, code, latest, now));
      }
    } else {
      var o, l := OtherAnswer(w, a, d, t, s);
      assert !LatestIsOpen(w, Tombstone(d, a, t, s, code, Some(l), now));
      TombstoneMisses(w, Tombstone(d, a, t, s, code, Some(l), now));
      assert !Dead(Step(w, Tombstone(d, a, t, s, code, Some(l), now)).db, s);
    }
  }

  lemma NewestIsFound(w: World, e: Event)
    requires Inv(w) && Buries(w, e) && OpenIsNewest(w.db, e.account, e.daemon, e.task, e.session)
    ensures LatestIsOpen(w, e)
  {
    forall o | o in w.db.operations && Opens(w.db.operations[o], e.session) ensures e.latest == Some(o) {
      OpenBelongs(w, e.account, e.daemon, e.task, e.session, o);
    }
  }

  lemma LatestStep(w: World, e: Event)
    requires Inv(w) && LatestInv(w.db) && CreatedLast(w, e)
    ensures LatestInv(NextDb(w, e))
  {
    StepShrinks(w, e);
  }

  ghost predicate CreationOrdered(events: seq<Event>) {
    forall k :: 0 <= k < |events| ==> CreatedLast(After(events[..k]), events[k])
  }

  lemma {:induction false} CreationOrderedPrefix(events: seq<Event>, n: nat)
    requires n <= |events| && CreationOrdered(events)
    ensures CreationOrdered(events[..n])
  {
    forall k | 0 <= k < n ensures CreatedLast(After(events[..n][..k]), events[..n][k]) {
      assert events[..n][..k] == events[..k];
    }
  }

  lemma {:induction false} CreationOrderKeeps(events: seq<Event>)
    requires CreationOrdered(events)
    ensures LatestInv(After(events).db)
    decreases |events|
  {
    if events != [] {
      var n := |events| - 1;
      CreationOrderedPrefix(events, n);
      CreationOrderKeeps(events[..n]);
      Always(events[..n]);
      assert CreatedLast(After(events[..n]), events[n]);
      LatestStep(After(events[..n]), events[n]);
    }
  }

  /** Strictly ordered creation times suffice for every tombstone to find the open operation. */
  lemma {:induction false} CreationOrderSuffices(events: seq<Event>)
    requires CreationOrdered(events)
    ensures AllFound(events)
  {
    forall i | 0 <= i < |events| ensures LatestIsOpen(After(events[..i]), events[i]) {
      CreationOrderedPrefix(events, i);
      CreationOrderKeeps(events[..i]);
      Always(events[..i]);
      OpenIsLatest(After(events[..i]), events[i]);
    }
  }

  lemma {:induction false} BuriedGrows(events: seq<Event>, k: nat)
    requires k <= |events|
    ensures After(events[..k]).buried <= After(events).buried
    decreases |events|
  {
    if k < |events| {
      BuriedGrows(events[..|events| - 1], k);
      assert events[..|events| - 1][..k] == events[..k];
    } else {
      assert events[..k] == events;
    }
  }

  /** With strictly ordered creation times a converged tombstone is final, said about two moments of one run. */
  lemma {:induction false} TombstoneIsFinal(events: seq<Event>, k: nat, t: TaskId)
    requires CreationOrdered(events)
    requires k < |events| && Buries(After(events[..k]), events[k]) && t in After(events).db.tasks
    ensures After(events).db.tasks[t].session != Some(events[k].session)
  {
    CreationOrderSuffices(events);
    BuriedSessionsDead(events);
    BuriedGrows(events, k + 1);
    assert events[..k + 1][..k] == events[..k];
    assert After(events[..k + 1]) == Step(After(events[..k]), events[k]);
  }

  // ---------------------------------------------------------------- and a run in which it does not

  const ROW: Operation := Operation(
    1, 1, SessionCreate, Some(1), Some(0), Some(Metadata(None, None, false, Some(1), Some(100))), false, 9, 5,
        PendingInstall, false)
  const LATER_ROW: Operation := ROW.(metadata := Some(Metadata(None, None, false, Some(1), Some(101))), expiresAt := 99)
  const TASK: Task := Task(1, 1, None, 1, Idle, None, None, 0)

  lemma {:induction false} Then(events: seq<Event>, e: Event)
    ensures After(events + [e]) == Step(After(events), e)
  {
    assert (events + [e])[..|events|] == events;
  }

  /** Two operations of one task, the first expired, created in the same millisecond. */
  lemma FirstCreation() returns (events: seq<Event>)
    ensures var w := After(events);
            && w.db == Db(map[1 := Device(1, false)], map[], map[], map[1 := TASK], map[10 := ROW])
            && w.sessions == map[100 := 1] && w.operations == map[10 := 1]
  {
    events := [];
    Then(events, RegisterDevice(1, 1));
    events := events + [RegisterDevice(1, 1)];
    Then(events, InsertTask(1, TASK));
    events := events + [InsertTask(1, TASK)];
    assert After(events).db == Db(map[1 := Device(1, false)], map[], map[], map[1 := TASK], map[]);
    Then(events, InsertOperation(10, ROW));
    events := events + [InsertOperation(10, ROW)];
    assert After(events).db.operations == map[10 := ROW] && After(events).sessions == map[100 := 1];
  }

  lemma TiedCreation() returns (events: seq<Event>)
    ensures var w := After(events);
            && w.db.devices == map[1 := Device(1, false)] && w.db.tasks == map[1 := TASK]
            && w.db.operations == map[10 := ROW.(state := Expired), 11 := LATER_ROW]
            && w.sessions == map[100 := 1, 101 := 1] && w.db.projects == map[]
  {
    events := FirstCreation();
    FirstExpires(After(events));
    Then(events, ExpireDue(9));
    events := events + [ExpireDue(9)];
    SecondInserts(After(events));
    Then(events, InsertOperation(11, LATER_ROW));
    events := events + [InsertOperation(11, LATER_ROW)];
  }

  lemma FirstExpires(w: World)
    requires w.db == Db(map[1 := Device(1, false)], map[], map[], map[1 := TASK], map[10 := ROW])
    ensures Step(w, ExpireDue(9)).db == w.db.(operations := map[10 := ROW.(state := Expired)])
    ensures Step(w, ExpireDue(9)).sessions == w.sessions && Step(w, ExpireDue(9)).operations == w.operations
  {
    assert DueOperations(w.db, 9) == {10};
  }

  lemma SecondInserts(w: World)
    requires w.db == Db(map[1 := Device(1, false)], map[], map[], map[1 := TASK], map[10 := ROW.(state := Expired)])
    requires w.sessions == map[100 := 1] && w.operations == map[10 := 1]
    ensures var t := Step(w, InsertOperation(11, LATER_ROW));
            t.db == w.db.(operations := map[10 := ROW.(state := Expired), 11 := LATER_ROW])
                && t.sessions == map[100 := 1, 101 := 1]
  {
    assert CanInsertOperation(w, 11, LATER_ROW);
  }

  /** The tombstone of the open one is lost on the tie, and its report then runs the dead session. */
  lemma TombstoneLostOnTie() returns (events: seq<Event>)
    ensures 1 in After(events).db.tasks && After(events).db.tasks[1].status.Running?
    ensures After(events).db.tasks[1].session == Some(101) && 101 in After(events).buried
  {
    events := TiedCreation();
    var w := After(events);
    var tombstone := Tombstone(1, 1, 1, 101, 0, Some(10), 20);
    assert IsLatest(w.db, 1, 1, 1, Some(10)) && PreparedSession(w.db, Some(10)) == Some(100);
    assert NextDb(w, tombstone) == w.db && Buries(w, tombstone);
    Then(events, tombstone);
    events := events + [tombstone];
    var r := Report(11, true, OperationAck(Some(101)), None, None);
    TiedReport(After(events), r);
    Then(events, ReportTx(1, 1, r, Found(None, None), 21));
    events := events + [ReportTx(1, 1, r, Found(None, None), 21)];
  }

  lemma TiedReport(w: World, r: Report)
    requires w.db.devices == map[1 := Device(1, false)] && w.db.tasks == map[1 := TASK]
    requires w.db.operations == map[10 := ROW.(state := Expired), 11 := LATER_ROW]
    requires r == Report(11, true, OperationAck(Some(101)), None, None)
    ensures 1 in NextDb(w, ReportTx(1, 1, r, Found(None, None), 21)).tasks
    ensures NextDb(w, ReportTx(1, 1, r, Found(None, None), 21)).tasks[1].status.Running?
    ensures NextDb(w, ReportTx(1, 1, r, Found(None, None), 21)).tasks[1].session == Some(101)
  {
    assert ActiveDevice(w.db, 1, 1);
    var (tx, claimed) := ClaimReport(w.db, 11, 1);
    assert claimed == Some(LATER_ROW.(state := Applying));
    assert Owns(tx, 1, 1, 1);
  }
}
