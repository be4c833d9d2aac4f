/**
 A retired operation is never delivered again: exactly when, over every interleaving.
 */
module DeliverySafety {
  import opened Store
  import opened DeliveryRuntime
  import opened PreparedDelivery

  predicate Delivers(o: Output, id: OperationId) {
    (o.Frame? || o.Install?) && o.operation == id
  }

  /** Some frame or install order left after its operation was retired. */
  ghost predicate LogRevives(sent: seq<Output>) {
    exists i, j, id :: 0 <= i < j < |sent| && sent[i].Retired? && id in sent[i].operations && Delivers(sent[j], id)
  }

  /** A retired operation was delivered, or is being retried or waited for again. */
  ghost predicate Revived(s: System) {
    LogRevives(s.run.sent) || exists id :: id in s.done && (id in s.run.retries || id in s.run.waiters)
  }

  /** Whether handing this row to its caller sends a frame, adds a waiter or dispatches. */
  predicate HandoverActs(s: System, who: Option<ClientId>, row: Operation, now: int) {
    && !s.run.stopped
    && (if who.Some? then row.state.Installed? ==> CanEmit(s.run, row, now)
        else !row.state.Installed? && (row.server || CanDispatch(s.run, s.online, row, now)))
  }

  /** The one step that can revive: a caller resumes after its operation was retired behind its back. */
  predicate LateHandover(s: System, e: Event) {
    && e.Resume? && e.at in s.waiting && s.waiting[e.at].Handing? && s.waiting[e.at].id in s.done
    && HandoverActs(s, s.waiting[e.at].who, s.waiting[e.at].row, e.now)
  }

  // ---------------------------------------------------------------- the invariant

  ghost predicate Known(s: System, id: OperationId, row: Operation) {
    id in s.issued && s.issued[id] == row.daemon
  }

  ghost predicate Fresh(s: System, token: nat, id: OperationId, row: Operation) {
    Known(s, id, row) && (id in s.done && !row.Terminal() ==> token < s.run.token)
  }

  ghost predicate Sound(s: System, k: Continuation) {
    match k
    case Admitted(_, token, id, row) => token <= s.run.token && Fresh(s, token, id, row)
    case Handing(_, token, id, row) => token <= s.run.token && Fresh(s, token, id, row) && !row.Terminal()
    case Reread(_, token, id, found) => token <= s.run.token && (found.Some? ==> Fresh(s, token, id, found.value))
    case ReadActive(_, token, id, found) => token <= s.run.token && (found.Some? ==> Fresh(s, token, id, found.value))
    case RetryRead(id, _, found) => found.Some? ==> Known(s, id, found.value)
    case Restored(_, _, token, rows) =>
      token <= s.run.token && forall i :: 0 <= i < |rows| ==> Fresh(s, token, rows[i].0, rows[i].1)
    case Readied(_, _, token, rows) =>
      token <= s.run.token && forall i :: 0 <= i < |rows| ==> Fresh(s, token, rows[i].0, rows[i].1)
    case Admitting(_, token) => token <= s.run.token
    case Rereading(_, token, _) => token <= s.run.token
    case ReadingActive(_, token, _) => token <= s.run.token
    case Restoring(_, _, token) => token <= s.run.token
    case Readying(_, _, token) => token <= s.run.token
    case _ => true
  }

  ghost predicate TableInv(s: System) {
    && (forall o :: o in s.db.operations ==>
        Known(s, o, s.db.operations[o]) && RevokedIsTerminal(s.db, s.db.operations[o]))
    && (forall o :: o in s.done ==> RowTerminal(s, o))
  }

  predicate AllOf(waiters: seq<Waiter>, daemon: DaemonId) {
    forall i :: 0 <= i < |waiters| ==> waiters[i].daemon == daemon
  }

  ghost predicate OwnersInv(r: Runtime, issued: map<OperationId, DaemonId>) {
    && (forall o :: o in r.retries ==> o in issued && r.retries[o].daemon == issued[o])
    && (forall o :: o in r.waiters ==> o in issued && r.waiters[o] != [] && AllOf(r.waiters[o], issued[o]))
  }

  ghost predicate QuietInv(r: Runtime, done: set<OperationId>) {
    && (forall o :: o in done ==> o !in r.retries && o !in r.waiters)
    && (forall i :: 0 <= i < |r.sent| && r.sent[i].Retired? ==> r.sent[i].operations <= done)
    && !LogRevives(r.sent)
  }

  ghost predicate Inv(s: System) {
    && TableInv(s) && OwnersInv(s.run, s.issued) && QuietInv(s.run, s.done)
    && forall k :: k in s.waiting ==> Sound(s, s.waiting[k])
  }

  // ---------------------------------------------------------------- segments only touch live operations

  /** `after` extends `before` by messages, retries and waiters of operations outside `done` only. */
  ghost predicate Grows(before: Runtime, after: Runtime, done: set<OperationId>, issued: map<OperationId, DaemonId>) {
    && after.token == before.token && |before.sent| <= |after.sent| && after.sent[..|before.sent|] == before.sent
    && (forall j :: |before.sent| <= j < |after.sent| ==> !after.sent[j].Retired?)
    && (forall j, id :: |before.sent| <= j < |after.sent| && Delivers(after.sent[j], id) ==> id !in done)
    && (OwnersInv(before, issued) ==> OwnersInv(after, issued))
    && (forall o :: o in done && o !in before.retries ==> o !in after.retries)
    && (forall o :: o in done && o !in before.waiters ==> o !in after.waiters)
  }

  lemma GrowsKeepsQuiet(before: Runtime, after: Runtime, done: set<OperationId>, issued: map<OperationId, DaemonId>)
    requires QuietInv(before, done) && Grows(before, after, done, issued)
    ensures QuietInv(after, done)
  {
    forall i, j, id | 0 <= i < j < |after.sent| && after.sent[i].Retired? && id in after.sent[i].operations
      ensures !Delivers(after.sent[j], id)
    {
      assert after.sent[i] == before.sent[i];
      if j < |before.sent| { assert after.sent[j] == before.sent[j]; }
    }
    forall i | 0 <= i < |after.sent| && after.sent[i].Retired? ensures after.sent[i].operations <= done {
      assert after.sent[i] == before.sent[i];
    }
  }

  lemma GrowsTransitive(a: Runtime, b: Runtime, c: Runtime, done: set<OperationId>, issued: map<OperationId, DaemonId>)
    requires Grows(a, b, done, issued) && Grows(b, c, done, issued)
    ensures Grows(a, c, done, issued)
  {
    assert c.sent[..|a.sent|] == b.sent[..|a.sent|];
    forall j | |a.sent| <= j < |b.sent| ensures c.sent[j] == b.sent[j] {}
  }

  lemma DispatchGrows(r: Runtime, online: Online, id: OperationId, row: Operation, now: int,
                      done: set<OperationId>, issued: map<OperationId, DaemonId>)
    requires id in issued && issued[id] == row.daemon
    requires CanDispatch(r, online, row, now) ==> id !in done
    ensures Grows(r, Dispatch(r, online, id, row, now), done, issued)
  {}

  lemma EmitGrows(r: Runtime, client: ClientId, id: OperationId, row: Operation, now: int,
                  done: set<OperationId>, issued: map<OperationId, DaemonId>)
    requires CanEmit(r, row, now) ==> id !in done
    ensures Grows(r, Emit(r, client, id, row, now), done, issued)
  {}

  lemma WatchGrows(r: Runtime, id: OperationId, row: Operation, client: Option<ClientId>,
                   done: set<OperationId>, issued: map<OperationId, DaemonId>)
    requires id in issued && issued[id] == row.daemon && id !in done
    ensures Grows(r, Watch(r, id, row, client), done, issued)
  {}

  lemma {:induction false} DispatchAllGrows(
    r: Runtime, online: Online, account: AccountId, rows: seq<(OperationId, Operation)>, now: int,
    done: set<OperationId>, issued: map<OperationId, DaemonId>)
    requires forall i :: 0 <= i < |rows| ==> rows[i].0 in issued && issued[rows[i].0] == rows[i].1.daemon
    requires forall i :: 0 <= i < |rows| && rows[i].0 in done ==> rows[i].1.Terminal()
    ensures Grows(r, DispatchAll(r, online, account, rows, now), done, issued)
    decreases |rows|
  {
    if rows != [] {
      var n := |rows| - 1;
      var before := DispatchAll(r, online, account, rows[..n], now);
      DispatchAllGrows(r, online, account, rows[..n], now, done, issued);
      DispatchGrows(before, online, rows[n].0, rows[n].1, now, done, issued);
      GrowsTransitive(r, before, DispatchAll(r, online, account, rows, now), done, issued);
    }
  }

  lemma {:induction false} EmitAllGrows(
    r: Runtime, client: ClientId, rows: seq<(OperationId, Operation)>, now: int,
    done: set<OperationId>, issued: map<OperationId, DaemonId>)
    requires forall i :: 0 <= i < |rows| && rows[i].0 in done ==> rows[i].1.Terminal()
    ensures Grows(r, EmitAll(r, client, rows, now), done, issued)
    decreases |rows|
  {
    if rows != [] {
      var n := |rows| - 1;
      var before := EmitAll(r, client, rows[..n], now);
      EmitAllGrows(r, client, rows[..n], now, done, issued);
      EmitGrows(before, client, rows[n].0, rows[n].1, now, done, issued);
      GrowsTransitive(r, before, EmitAll(r, client, rows, now), done, issued);
    }
  }

  lemma {:induction false} EmitToWaitersGrows(
    r: Runtime, waiting: seq<Waiter>, id: OperationId, row: Operation, now: int,
    done: set<OperationId>, issued: map<OperationId, DaemonId>)
    requires waiting != [] ==> id !in done
    ensures Grows(r, EmitToWaiters(r, waiting, id, row, now), done, issued)
    ensures EmitToWaiters(r, waiting, id, row, now).waiters == r.waiters
    decreases |waiting|
  {
    if waiting != [] {
      var n := |waiting| - 1;
      var before := EmitToWaiters(r, waiting[..n], id, row, now);
      EmitToWaitersGrows(r, waiting[..n], id, row, now, done, issued);
      if waiting[n].client.Some? { EmitGrows(before, waiting[n].client.value, id, row, now, done, issued); }
      GrowsTransitive(r, before, EmitToWaiters(r, waiting, id, row, now), done, issued);
    }
  }

  lemma AcknowledgeGrows(r: Runtime, online: Online, id: OperationId, row: Operation, ok: bool, now: int,
                         done: set<OperationId>, issued: map<OperationId, DaemonId>)
    requires QuietInv(r, done)
    ensures Grows(r, Acknowledge(r, online, id, row, ok, now), done, issued)
  {
    var quiet := r.(retries := r.retries - {id});
    EmitToWaitersGrows(quiet, WaitersOf(quiet, id), id, row, now, done, issued);
  }

  lemma WatchedGrows(r: Runtime, online: Online, who: Option<ClientId>, id: OperationId, row: Operation, now: int,
                     done: set<OperationId>, issued: map<OperationId, DaemonId>)
    requires id in issued && issued[id] == row.daemon && id !in done
    ensures Grows(r, Dispatch(Watch(r, id, row, who), online, id, row, now), done, issued)
  {
    var watched := Watch(r, id, row, who);
    WatchGrows(r, id, row, who, done, issued);
    DispatchGrows(watched, online, id, row, now, done, issued);
    GrowsTransitive(r, watched, Dispatch(watched, online, id, row, now), done, issued);
  }

  lemma ResumeCurrentGrows(r: Runtime, online: Online, who: Option<ClientId>, id: OperationId, row: Operation, now: int,
                           done: set<OperationId>, issued: map<OperationId, DaemonId>)
    requires id in issued && issued[id] == row.daemon && id !in done
    ensures Grows(r, ResumeCurrent(r, online, who, id, row, now), done, issued)
  {
    if !row.state.Installed? {
      WatchedGrows(r, online, who, id, row, now, done, issued);
      DispatchGrows(r, online, id, row, now, done, issued);
    }
  }

  lemma RunOnly(s: System, run: Runtime)
    requires Inv(s) && Grows(s.run, run, s.done, s.issued)
    ensures Inv(s.(run := run))
  {
    GrowsKeepsQuiet(s.run, run, s.done, s.issued);
    var t := s.(run := run);
    forall k | k in t.waiting ensures Sound(t, t.waiting[k]) { assert Sound(s, s.waiting[k]); }
  }

  lemma ForgetGrows(r: Runtime, ids: set<OperationId>, done: set<OperationId>, issued: map<OperationId, DaemonId>)
    ensures Grows(r, Forget(r, ids), done, issued)
  {}

  lemma DropKeeps(s: System, at: nat)
    requires Inv(s)
    ensures Inv(Drop(s, at))
  {
    var t := Drop(s, at);
    forall k | k in t.waiting ensures Sound(t, t.waiting[k]) { assert Sound(s, s.waiting[k]); }
  }

  lemma ParkKeeps(s: System, at: nat, k: Continuation)
    requires Inv(s) && Sound(s, k)
    ensures Inv(Park(s, at, k))
  {
    var t := Park(s, at, k);
    forall i | i in t.waiting ensures Sound(t, t.waiting[i]) { if i != at { assert Sound(s, s.waiting[i]); } }
  }

  /** A new committed table state keeps everything, as long as it evolves from the old one. */
  lemma EvolveKeeps(s: System, next: Db)
    requires Inv(s) && Evolves(s.db, s.issued, next)
    ensures Inv(s.(db := next, issued := Issue(s.issued, next)))
  {
    var t := s.(db := next, issued := Issue(s.issued, next));
    forall o | o in t.db.operations ensures Known(t, o, t.db.operations[o]) {
      if o in s.db.operations { assert Known(s, o, s.db.operations[o]); }
    }
    forall k | k in t.waiting ensures Sound(t, t.waiting[k]) { assert Sound(s, s.waiting[k]); }
  }

  lemma IssueKnown(s: System, next: Db)
    requires TableInv(s) && next.operations.Keys <= s.issued.Keys
    ensures Issue(s.issued, next) == s.issued
  {}

  lemma MarkInstalledEvolves(s: System, id: OperationId, daemon: DaemonId, ok: bool, now: int)
    requires TableInv(s)
    ensures Evolves(s.db, s.issued, MarkInstalled(s.db, id, daemon, ok, now).0)
  {
    var next := MarkInstalled(s.db, id, daemon, ok, now).0;
    forall o | o in next.operations ensures RevokedIsTerminal(next, next.operations[o]) {
      assert RevokedIsTerminal(s.db, s.db.operations[o]);
    }
  }

  lemma ExpireEvolves(s: System, hit: set<OperationId>)
    requires TableInv(s)
    ensures Evolves(s.db, s.issued, ExpireAll(s.db, hit))
  {
    var next := ExpireAll(s.db, hit);
    forall o | o in next.operations ensures RevokedIsTerminal(next, next.operations[o]) {
      assert RevokedIsTerminal(s.db, s.db.operations[o]);
    }
  }

  lemma InsertEvolves(s: System, id: OperationId, row: Operation)
    requires TableInv(s) && AdmissionAllowed(s, Created(id, row))
    ensures Evolves(s.db, s.issued, PutOperation(s.db, id, row))
    ensures Issue(s.issued, PutOperation(s.db, id, row)) == s.issued[id := row.daemon]
  {
    var next := PutOperation(s.db, id, row);
    forall o | o in next.operations ensures RevokedIsTerminal(next, next.operations[o]) {
      if o != id { assert RevokedIsTerminal(s.db, s.db.operations[o]); }
    }
  }

  lemma LookupFresh(s: System, token: nat, id: OperationId)
    requires Inv(s) && id in s.db.operations
    ensures Fresh(s, token, id, s.db.operations[id])
  {
    assert Known(s, id, s.db.operations[id]);
  }

  lemma RowsFresh(s: System, token: nat, listed: seq<OperationId>)
    requires Inv(s) && forall i :: 0 <= i < |listed| ==> listed[i] in s.db.operations
    ensures forall i :: 0 <= i < |listed| ==> Fresh(s, token, Rows(s.db, listed)[i].0, Rows(s.db, listed)[i].1)
  {
    forall i | 0 <= i < |listed| ensures Fresh(s, token, Rows(s.db, listed)[i].0, Rows(s.db, listed)[i].1) {
      LookupFresh(s, token, listed[i]);
    }
  }

  lemma BeginKeeps(s: System, at: nat, call: Call)
    requires Inv(s)
    ensures Inv(BeginCall(s, at, call))
  {
    var t := BeginCall(s, at, call);
    if t != s { ParkKeeps(s, at, t.waiting[at]); assert t == Park(s, at, t.waiting[at]); }
  }

  lemma TableThenPark(s: System, next: Db, at: nat, k: Continuation)
    requires Inv(s) && Evolves(s.db, s.issued, next) && next.operations.Keys <= s.db.operations.Keys
    requires k.Acknowledged? || k.ExpiredSome?
    ensures Inv(Park(s.(db := next), at, k))
  {
    forall o | o in next.operations ensures o in s.issued { assert Known(s, o, s.db.operations[o]); }
    EvolveKeeps(s, next);
    IssueKnown(s, next);
    ParkKeeps(s.(db := next), at, k);
  }

  lemma ReadAnswerKeeps(s: System, at: nat, admission: Admission, listed: seq<OperationId>, now: int)
    requires Inv(s) && at in s.waiting
    requires s.waiting[at].Rereading? || s.waiting[at].ReadingActive? || s.waiting[at].RetryReading?
    ensures Inv(AnswerCall(s, at, admission, listed, now))
  {
    assert Sound(s, s.waiting[at]);
    match s.waiting[at] {
      case Rereading(who, token, id) =>
        if id in s.db.operations { LookupFresh(s, token, id); }
        ParkKeeps(s, at, Reread(who, token, id, Lookup(s.db.operations, id)));
      case ReadingActive(client, token, id) =>
        if id in s.db.operations { LookupFresh(s, token, id); }
        ParkKeeps(s, at, ReadActive(client, token, id, Lookup(s.db.operations, id)));
      case RetryReading(id, attempt) =>
        if id in s.db.operations { LookupFresh(s, 0, id); }
        ParkKeeps(s, at, RetryRead(id, attempt, Lookup(s.db.operations, id)));
    }
  }

  lemma AnswerKeeps(s: System, at: nat, admission: Admission, listed: seq<OperationId>, now: int)
    requires Inv(s) && at in s.waiting
    ensures Inv(AnswerCall(s, at, admission, listed, now))
  {
    assert Sound(s, s.waiting[at]);
    match s.waiting[at] {
      case Admitting(who, token) =>
        if AdmissionAllowed(s, admission) { AnswerAdmissionKeeps(s, at, who, token, admission); }
      case Rereading(_, _, _) | ReadingActive(_, _, _) | RetryReading(_, _) =>
        ReadAnswerKeeps(s, at, admission, listed, now);
      case Restoring(daemon, connection, token) =>
        if ListsInstallable(s.db, daemon, listed) {
          RowsFresh(s, token, listed);
          ParkKeeps(s, at, Restored(daemon, connection, token, Rows(s.db, listed)));
        }
      case Readying(client, account, token) =>
        if ListsReady(s.db, account, listed) {
          RowsFresh(s, token, listed);
          ParkKeeps(s, at, Readied(client, account, token, Rows(s.db, listed)));
        }
      case Installing(daemon, connection, id, ok) =>
        var (next, row) := MarkInstalled(s.db, id, daemon, ok, now);
        MarkInstalledEvolves(s, id, daemon, ok, now);
        TableThenPark(s, next, at, Acknowledged(daemon, connection, id, ok, row));
      case Expiring(deadline) =>
        var due := DueOperations(s.db, deadline);
        ExpireEvolves(s, due);
        TableThenPark(s, ExpireAll(s.db, due), at, ExpiredSome(deadline, due != {}));
      case _ =>
    }
  }

  lemma AnswerAdmissionKeeps(s: System, at: nat, who: Option<ClientId>, token: nat, a: Admission)
    requires Inv(s) && AdmissionAllowed(s, a) && token <= s.run.token
    ensures Inv(AnswerAdmission(s, at, who, token, a))
  {
    match a {
      case Refused => DropKeeps(s, at);
      case Existing(id) =>
        LookupFresh(s, token, id);
        ParkKeeps(s, at, Admitted(who, token, id, s.db.operations[id]));
      case Created(id, row) =>
        InsertEvolves(s, id, row);
        EvolveKeeps(s, PutOperation(s.db, id, row));
        ParkKeeps(s.(db := PutOperation(s.db, id, row), issued := s.issued[id := row.daemon]), at,
                  Admitted(who, token, id, row));
    }
  }

  lemma RunThenDrop(s: System, run: Runtime, at: nat)
    requires Inv(s) && Grows(s.run, run, s.done, s.issued)
    ensures Inv(Drop(s.(run := run), at))
  {
    RunOnly(s, run);
    DropKeeps(s.(run := run), at);
  }

  lemma ResumeRetryKeeps(s: System, at: nat, id: OperationId, attempt: nat, found: Option<Operation>, now: int)
    requires Inv(s) && Sound(s, RetryRead(id, attempt, found))
    ensures Inv(ResumeRetry(s, at, id, attempt, found, now))
  {
    if !RetryIsCurrent(s.run, id, attempt) {
      DropKeeps(s, at);
    } else if found.None? || found.value.completed || found.value.state.Installed? || !found.value.Installable()
              || (now < found.value.expiresAt && found.value.daemon !in s.online) {
      RunThenDrop(s, s.run.(retries := s.run.retries - {id}), at);
    } else if found.value.expiresAt <= now {
      ParkKeeps(s, at, RetryExpiring(id, attempt));
    } else {
      DispatchGrows(s.run, s.online, id, found.value, now, s.done, s.issued);
      RunThenDrop(s, Dispatch(s.run, s.online, id, found.value, now), at);
    }
  }

  /** Advancing the token (expiry found due rows) only makes stale what it should. */
  lemma ExpireDueKeeps(s: System, now: int)
    requires Inv(s)
    ensures Inv(s.(run := ExpireDue(s.run, now)))
  {
    var t := s.(run := ExpireDue(s.run, now));
    forall k | k in t.waiting ensures Sound(t, t.waiting[k]) { assert Sound(s, s.waiting[k]); }
  }

  lemma HandoverKeeps(s: System, at: nat, now: int)
    requires Inv(s) && at in s.waiting && s.waiting[at].Handing? && !LateHandover(s, Resume(at, now))
    ensures Inv(ResumeCall(s, at, now))
  {
    var Handing(who, token, id, row) := s.waiting[at];
    assert Sound(s, s.waiting[at]);
    var run := ResumeCurrent(s.run, s.online, who, id, row, now);
    if id !in s.done { ResumeCurrentGrows(s.run, s.online, who, id, row, now, s.done, s.issued); }
    RunThenDrop(s, run, at);
  }

  lemma ResumeRestoredKeeps(s: System, at: nat, now: int)
    requires Inv(s) && at in s.waiting && s.waiting[at].Restored?
    ensures Inv(ResumeCall(s, at, now))
  {
    assert Sound(s, s.waiting[at]);
    match s.waiting[at] {
      case Restored(daemon, connection, token, rows) =>
        if s.run.stopped || !Current(s, daemon, connection) { DropKeeps(s, at); }
        else if token != s.run.token { ParkKeeps(s, at, Restoring(daemon, connection, s.run.token)); }
        else {
          DispatchAllGrows(s.run, s.online, connection.account, rows, now, s.done, s.issued);
          RunThenDrop(s, DispatchAll(s.run, s.online, connection.account, rows, now), at);
        }
    }
  }

  lemma ResumeReadKeeps(s: System, at: nat, now: int)
    requires Inv(s) && at in s.waiting
    requires s.waiting[at].Admitted? || s.waiting[at].Reread? || s.waiting[at].ReadActive?
    ensures Inv(ResumeCall(s, at, now))
  {
    assert Sound(s, s.waiting[at]);
    match s.waiting[at] {
      case Admitted(who, token, id, row) =>
        if s.run.stopped { DropKeeps(s, at); }
        else if token != s.run.token { ParkKeeps(s, at, Rereading(who, s.run.token, id)); }
        else if Deliverable(Some(row), now) { ParkKeeps(s, at, Handing(who, token, id, row)); }
        else { DropKeeps(s, at); }
      case Reread(who, token, id, found) =>
        if s.run.stopped { DropKeeps(s, at); }
        else if token != s.run.token { ParkKeeps(s, at, Rereading(who, s.run.token, id)); }
        else if Deliverable(found, now) { ParkKeeps(s, at, Handing(who, token, id, found.value)); }
        else { DropKeeps(s, at); }
      case ReadActive(client, token, id, found) =>
        if s.run.stopped || !Deliverable(found, now) { DropKeeps(s, at); }
        else if token != s.run.token { ParkKeeps(s, at, ReadingActive(client, s.run.token, id)); }
        else { ParkKeeps(s, at, Handing(Some(client), token, id, found.value)); }
    }
  }

  lemma ResumeKeeps(s: System, at: nat, now: int)
    requires Inv(s) && at in s.waiting && !LateHandover(s, Resume(at, now))
    ensures Inv(ResumeCall(s, at, now))
  {
    assert Sound(s, s.waiting[at]);
    match s.waiting[at] {
      case Admitted(_, _, _, _) | Reread(_, _, _, _) | ReadActive(_, _, _, _) => ResumeReadKeeps(s, at, now);
      case Handing(_, _, _, _) => HandoverKeeps(s, at, now);
      case RetryRead(id, attempt, found) => ResumeRetryKeeps(s, at, id, attempt, found, now);
      case RetryExpiring(id, attempt) =>
        ForgetGrows(s.run, {id}, s.done, s.issued);
        RunThenDrop(s, Forget(s.run, {id}), at);
        DropKeeps(s, at);
      case Restored(_, _, _, _) => ResumeRestoredKeeps(s, at, now);
      case Readied(client, account, token, rows) =>
        if s.run.stopped { DropKeeps(s, at); }
        else if token != s.run.token { ParkKeeps(s, at, Readying(client, account, s.run.token)); }
        else {
          EmitAllGrows(s.run, client, rows, now, s.done, s.issued);
          RunThenDrop(s, EmitAll(s.run, client, rows, now), at);
        }
      case Acknowledged(daemon, connection, id, ok, found) =>
        DropKeeps(s, at);
        if found.Some? {
          AcknowledgeGrows(s.run, s.online, id, found.value, ok, now, s.done, s.issued);
          RunThenDrop(s, Acknowledge(s.run, s.online, id, found.value, ok, now), at);
        }
      case ExpiredSome(deadline, any) =>
        ExpireDueKeeps(s, deadline);
        DropKeeps(s.(run := ExpireDue(s.run, deadline)), at);
        DropKeeps(s, at);
      case _ =>
    }
  }

  /** complete, cancelMany, cancelDaemon: the new token outdates every snapshot taken before. */
  lemma RetireKeeps(s: System, run: Runtime, ids: set<OperationId>)
    requires Inv(s) && forall id :: id in ids ==> RowTerminal(s, id)
    requires run.token == s.run.token + 1 && run.sent == s.run.sent && OwnersInv(run, s.issued)
    requires forall o :: o in run.retries ==> o in s.run.retries && o !in ids
    requires forall o :: o in run.waiters ==> o in s.run.waiters && o !in ids
    ensures Inv(Mark(s.(run := run), ids))
  {
    var t := Mark(s.(run := run), ids);
    forall k | k in t.waiting ensures Sound(t, t.waiting[k]) { assert Sound(s, s.waiting[k]); }
    forall i, j, id | 0 <= i < j < |t.run.sent| && t.run.sent[i].Retired? && id in t.run.sent[i].operations
      ensures !Delivers(t.run.sent[j], id)
    {
      if j < |s.run.sent| { assert s.run.sent[i].Retired? && !Delivers(s.run.sent[j], id); }
    }
  }

  lemma CancelDaemonKeeps(s: System, daemon: DaemonId)
    requires Inv(s) && daemon in s.db.devices && s.db.devices[daemon].revoked
    ensures Inv(Mark(s.(run := RetireDaemon(s.run, daemon)), OwnedBy(s, daemon)))
  {
    var run := RetireDaemon(s.run, daemon);
    forall o | o in run.waiters ensures o !in OwnedBy(s, daemon) {
      assert s.run.waiters[o][0].daemon == s.issued[o];
    }
    forall o | o in OwnedBy(s, daemon) ensures RowTerminal(s, o) {
      if o in s.db.operations { assert RevokedIsTerminal(s.db, s.db.operations[o]) && Known(s, o, s.db.operations[o]); }
    }
    RetireKeeps(s, run, OwnedBy(s, daemon));
  }

  lemma {:induction false} WithoutClientKeeps(waiters: seq<Waiter>, client: ClientId, daemon: DaemonId)
    requires AllOf(waiters, daemon)
    ensures AllOf(WithoutClient(waiters, client), daemon)
  {
    if waiters != [] { WithoutClientKeeps(waiters[..|waiters| - 1], client, daemon); }
  }

  lemma RemoveClientGrows(r: Runtime, client: ClientId, done: set<OperationId>, issued: map<OperationId, DaemonId>)
    ensures Grows(r, RemoveClient(r, client), done, issued)
  {
    if OwnersInv(r, issued) {
      forall o | o in RemoveClient(r, client).waiters
        ensures AllOf(RemoveClient(r, client).waiters[o], issued[o])
      {
        WithoutClientKeeps(r.waiters[o], client, issued[o]);
      }
    }
  }

  lemma TimeoutKeeps(s: System, id: OperationId, i: nat)
    requires Inv(s)
    ensures Inv(Step(s, WaiterTimeout(id, i)))
  {
    RunOnly(s, Step(s, WaiterTimeout(id, i)).run);
  }

  lemma LinkKeeps(s: System, e: Event)
    requires Inv(s) && (e.Connect? || e.Disconnect?)
    ensures Inv(Step(s, e))
  {
    var t := Step(s, e);
    forall k | k in t.waiting ensures Sound(t, t.waiting[k]) { assert Sound(s, s.waiting[k]); }
  }

  lemma RejectKeeps(s: System, at: nat, givingUp: bool)
    requires Inv(s)
    ensures Inv(Step(s, Reject(at, givingUp)))
  {
    if at in s.waiting {
      DropKeeps(s, at);
      if s.waiting[at].RetryReading? || s.waiting[at].RetryExpiring? {
        ForgetGrows(s.run, {s.waiting[at].id}, s.done, s.issued);
        RunThenDrop(s, Forget(s.run, {s.waiting[at].id}), at);
      }
    }
  }

  lemma RetirementKeeps(s: System, e: Event)
    requires Inv(s) && (e.Complete? || e.CancelMany? || e.CancelDaemon?)
    ensures Inv(Step(s, e))
  {
    match e {
      case Complete(id) => if RowTerminal(s, id) { RetireKeeps(s, Retire(s.run, {id}), {id}); }
      case CancelMany(ids) =>
        if ids != {} && forall id :: id in ids ==> RowTerminal(s, id) { RetireKeeps(s, Retire(s.run, ids), ids); }
      case CancelDaemon(daemon) =>
        if daemon in s.db.devices && s.db.devices[daemon].revoked { CancelDaemonKeeps(s, daemon); }
    }
  }

  lemma StepKeeps(s: System, e: Event)
    requires Inv(s) && !LateHandover(s, e)
    ensures Inv(Step(s, e))
  {
    match e {
      case Commit(next) => if Evolves(s.db, s.issued, next) { EvolveKeeps(s, next); }
      case Connect(_, _) | Disconnect(_) => LinkKeeps(s, e);
      case Begin(at, call) => BeginKeeps(s, at, call);
      case Answer(at, admission, listed, now) => if at in s.waiting { AnswerKeeps(s, at, admission, listed, now); }
      case Reject(at, givingUp) => RejectKeeps(s, at, givingUp);
      case Resume(at, now) => if at in s.waiting { ResumeKeeps(s, at, now); }
      case WaiterTimeout(id, i) => TimeoutKeeps(s, id, i);
      case Complete(_) | CancelMany(_) | CancelDaemon(_) => RetirementKeeps(s, e);
      case ClientGone(client) =>
        RemoveClientGrows(s.run, client, s.done, s.issued);
        RunOnly(s, RemoveClient(s.run, client));
      case Stop => RunOnly(s, Shutdown(s.run));
    }
  }

  // ---------------------------------------------------------------- whole runs

  lemma {:induction false} RunKeeps(events: seq<Event>)
    requires forall k :: 0 <= k < |events| ==> !LateHandover(After(events[..k]), events[k])
    ensures Inv(After(events))
    decreases |events|
  {
    if events != [] {
      var n := |events| - 1;
      forall k | 0 <= k < n ensures !LateHandover(After(events[..n][..k]), events[..n][k]) {
        assert events[..n][..k] == events[..k];
      }
      RunKeeps(events[..n]);
      StepKeeps(After(events[..n]), events[n]);
    }
  }

  ghost predicate Logged(s: System) {
    forall id :: id in s.done ==>
        exists i :: 0 <= i < |s.run.sent| && s.run.sent[i].Retired? && id in s.run.sent[i].operations
  }

  lemma {:induction false} DispatchAllExtends(r: Runtime, online: Online, account: AccountId,
                                              rows: seq<(OperationId, Operation)>, now: int)
    ensures r.sent <= DispatchAll(r, online, account, rows, now).sent
    decreases |rows|
  {
    if rows != [] { DispatchAllExtends(r, online, account, rows[..|rows| - 1], now); }
  }

  lemma {:induction false} EmitAllExtends(r: Runtime, client: ClientId, rows: seq<(OperationId, Operation)>, now: int)
    ensures r.sent <= EmitAll(r, client, rows, now).sent
    decreases |rows|
  {
    if rows != [] { EmitAllExtends(r, client, rows[..|rows| - 1], now); }
  }

  lemma {:induction false} EmitToWaitersExtends(
      r: Runtime, waiting: seq<Waiter>, id: OperationId, row: Operation, now: int)
    ensures r.sent <= EmitToWaiters(r, waiting, id, row, now).sent
    decreases |waiting|
  {
    if waiting != [] { EmitToWaitersExtends(r, waiting[..|waiting| - 1], id, row, now); }
  }

  lemma AcknowledgeExtends(r: Runtime, online: Online, id: OperationId, row: Operation, ok: bool, now: int)
    ensures r.sent <= Acknowledge(r, online, id, row, ok, now).sent
  {
    var quiet := r.(retries := r.retries - {id});
    EmitToWaitersExtends(quiet, WaitersOf(quiet, id), id, row, now);
  }

  lemma DeliverExtends(r: Runtime, online: Online, who: Option<ClientId>, id: OperationId, row: Operation, now: int)
    ensures r.sent <= ResumeCurrent(r, online, who, id, row, now).sent
  {
  }

  lemma RetryExtends(s: System, at: nat, id: OperationId, attempt: nat, found: Option<Operation>, now: int)
    ensures var t := ResumeRetry(s, at, id, attempt, found, now); s.run.sent <= t.run.sent && t.done == s.done
  {
  }

  lemma ResumeExtends(s: System, at: nat, now: int)
    requires at in s.waiting
    ensures s.run.sent <= ResumeCall(s, at, now).run.sent && ResumeCall(s, at, now).done == s.done
  {
    match s.waiting[at] {
      case Handing(who, _, id, row) => DeliverExtends(s.run, s.online, who, id, row, now);
      case RetryRead(id, attempt, found) => RetryExtends(s, at, id, attempt, found, now);
      case Restored(_, connection, _, rows) => DispatchAllExtends(s.run, s.online, connection.account, rows, now);
      case Readied(client, _, _, rows) => EmitAllExtends(s.run, client, rows, now);
      case Acknowledged(_, _, id, ok, found) =>
        if found.Some? { AcknowledgeExtends(s.run, s.online, id, found.value, ok, now); }
      case _ =>
    }
  }

  /** What was sent stays sent, and whatever an event retires is logged by it at once. */
  lemma StepExtends(s: System, e: Event)
    ensures var t := Step(s, e);
            && s.run.sent <= t.run.sent
            && (t.done == s.done || (|s.run.sent| < |t.run.sent| && t.run.sent[|s.run.sent|].Retired?
                                     && t.done == s.done + t.run.sent[|s.run.sent|].operations))
  {
    if e.Resume? && e.at in s.waiting { ResumeExtends(s, e.at, e.now); }
  }

  lemma LoggedStep(s: System, e: Event)
    requires Logged(s)
    ensures Logged(Step(s, e))
  {
    var t := Step(s, e);
    StepExtends(s, e);
    forall id | id in t.done
      ensures exists i :: 0 <= i < |t.run.sent| && t.run.sent[i].Retired? && id in t.run.sent[i].operations
    {
      if id in s.done {
        var i :| 0 <= i < |s.run.sent| && s.run.sent[i].Retired? && id in s.run.sent[i].operations;
        assert t.run.sent[i] == s.run.sent[i];
      } else {
        assert t.run.sent[|s.run.sent|].Retired?;
      }
    }
  }

  lemma {:induction false} AlwaysLogged(events: seq<Event>)
    ensures Logged(After(events))
    decreases |events|
  {
    if events != [] {
      AlwaysLogged(events[..|events| - 1]);
      LoggedStep(After(events[..|events| - 1]), events[|events| - 1]);
    }
  }

  // ---------------------------------------------------------------- after shutdown

  ghost predicate Silenced(r: Runtime) { r.stopped && r.retries == map[] && r.waiters == map[] }

  ghost predicate OnlyRetires(before: seq<Output>, after: seq<Output>) {
    before <= after && forall j :: |before| <= j < |after| ==> after[j].Retired?
  }

  lemma SilentResume(s: System, at: nat, now: int)
    requires Silenced(s.run) && at in s.waiting
    ensures ResumeCall(s, at, now).run == s.run || ResumeCall(s, at, now).run == s.run.(token := s.run.token + 1)
  {
    assert DueRetries(s.run.retries, now) + DueWaiters(s.run.waiters, now) == {};
  }

  lemma SilentRetire(r: Runtime, ids: set<OperationId>, daemon: DaemonId, client: ClientId)
    requires Silenced(r)
    ensures Silenced(Retire(r, ids)) && Silenced(RetireDaemon(r, daemon)) && Silenced(RemoveClient(r, client))
  {
  }

  lemma SilentStep(s: System, e: Event)
    requires Silenced(s.run)
    ensures Silenced(Step(s, e).run) && OnlyRetires(s.run.sent, Step(s, e).run.sent)
  {
    match e {
      case Resume(at, now) => if at in s.waiting { SilentResume(s, at, now); }
      case Complete(id) => SilentRetire(s.run, {id}, 0, 0);
      case CancelMany(ids) => SilentRetire(s.run, ids, 0, 0);
      case CancelDaemon(daemon) => SilentRetire(s.run, {}, daemon, 0);
      case ClientGone(client) => SilentRetire(s.run, {}, 0, client);
      case _ =>
    }
  }

  /**
   After shutdown, whatever calls, answers, timers and resumptions still arrive: nothing is retried or awaited, and
   nothing is sent any more.
   */
  lemma {:induction false} StoppedStaysSilent(events: seq<Event>, k: nat)
    requires k < |events| && events[k].Stop?
    ensures Silenced(After(events).run) && OnlyRetires(After(events[..k + 1]).run.sent, After(events).run.sent)
    decreases |events|
  {
    var n := |events| - 1;
    if k == n {
      assert events[..k + 1] == events;
    } else {
      StoppedStaysSilent(events[..n], k);
      assert events[..n][..k + 1] == events[..k + 1];
      SilentStep(After(events[..n]), events[n]);
    }
  }

  lemma LateHandoverRevives(s: System, e: Event)
    requires Logged(s) && LateHandover(s, e)
    ensures Revived(Step(s, e))
  {
    var Handing(who, token, id, row) := s.waiting[e.at];
    var t := Step(s, e);
    if who.Some? && row.state.Installed? {
      var i :| 0 <= i < |s.run.sent| && s.run.sent[i].Retired? && id in s.run.sent[i].operations;
      var j := |s.run.sent|;
      assert t.run.sent == s.run.sent + [Frame(who.value, id)];
      assert t.run.sent[i] == s.run.sent[i] && Delivers(t.run.sent[j], id);
    } else {
      assert id in t.run.waiters || id in t.run.retries;
    }
  }

  /**
   The exact condition, over every interleaving: a retired operation is delivered, dispatched, retried or
   waited for again if and only if some caller of stableAdmitted or readActiveOperation resumed from its own
   await after the operation had been retired, while its row still called for action. The ready list, restore,
   retry and install-acknowledgement continuations never revive anything.
   */
  lemma {:induction false} RevivedExactlyByLateHandover(events: seq<Event>)
    ensures (exists k :: 0 <= k <= |events| && Revived(After(events[..k])))
       <==> (exists k :: 0 <= k < |events| && LateHandover(After(events[..k]), events[k]))
  {
    if k :| 0 <= k < |events| && LateHandover(After(events[..k]), events[k]) {
      AlwaysLogged(events[..k]);
      LateHandoverRevives(After(events[..k]), events[k]);
      assert events[..k + 1][..k] == events[..k];
      assert Revived(After(events[..k + 1]));
    } else {
      forall k | 0 <= k <= |events| ensures !Revived(After(events[..k])) {
        forall j | 0 <= j < k ensures !LateHandover(After(events[..k][..j]), events[..k][j]) {
          assert events[..k][..j] == events[..j];
        }
        RunKeeps(events[..k]);
      }
    }
  }

  lemma {:induction false} Then(events: seq<Event>, e: Event)
    ensures After(events + [e]) == Step(After(events), e)
  {
    assert (events + [e])[..|events|] == events;
  }

  const SAMPLE_ROW: Operation := Operation(1, 1, SessionCreate, None, None, None, false, 100, 0, PendingInstall, false)
  const SAMPLE_DB: Db := EMPTY.db.(devices := map[1 := Device(1, false)])

  lemma PrepareAsked() returns (events: seq<Event>)
    ensures After(events) == EMPTY.(db := SAMPLE_DB, waiting := map[0 := Admitting(Some(7), 0)])
  {
    events := [];
    Then(events, Commit(SAMPLE_DB));
    events := events + [Commit(SAMPLE_DB)];
    assert Issue(map[], SAMPLE_DB) == map[];
    assert After(events) == EMPTY.(db := SAMPLE_DB);
    var s := EMPTY.(db := SAMPLE_DB);
    assert Step(s, Begin(0, Prepare(Some(7)))) == s.(waiting := map[0 := Admitting(Some(7), 0)]);
    Then(events, Begin(0, Prepare(Some(7))));
    events := events + [Begin(0, Prepare(Some(7)))];
  }

  lemma PrepareReturns() returns (events: seq<Event>)
    ensures After(events) == System(PutOperation(SAMPLE_DB, 5, SAMPLE_ROW), map[5 := 1], map[], EMPTY.run,
                                    map[0 := Handing(Some(7), 0, 5, SAMPLE_ROW)], {})
  {
    events := PrepareAsked();
    Then(events, Answer(0, Created(5, SAMPLE_ROW), [], 0));
    events := events + [Answer(0, Created(5, SAMPLE_ROW), [], 0)];
    assert After(events).waiting == map[0 := Admitted(Some(7), 0, 5, SAMPLE_ROW)];
    Then(events, Resume(0, 0));
    events := events + [Resume(0, 0)];
    assert After(events).waiting == map[0 := Handing(Some(7), 0, 5, SAMPLE_ROW)];
  }

  lemma CancelBehind(s: System)
    requires s == System(PutOperation(SAMPLE_DB, 5, SAMPLE_ROW), map[5 := 1], map[], EMPTY.run,
                         map[0 := Handing(Some(7), 0, 5, SAMPLE_ROW)], {})
    ensures Step(s, Commit(ExpireAll(s.db, {5}))) == s.(db := ExpireAll(s.db, {5}))
  {
    var next := ExpireAll(s.db, {5});
    assert Evolves(s.db, s.issued, next);
    assert Issue(s.issued, next) == s.issued;
  }

  lemma CancelTakesEffect(t: System)
    requires RowTerminal(t, 5)
    ensures Step(t, CancelMany({5})) == Mark(t.(run := Retire(t.run, {5})), {5})
  {
  }

  /** The gap is real in the model: a client prepares an operation, which is cancelled before its call returns. */
  lemma LateHandoverHappens() returns (events: seq<Event>)
    ensures Revived(After(events))
  {
    events := PrepareReturns();
    var s := After(events);
    CancelBehind(s);
    var cancelled := ExpireAll(s.db, {5});
    Then(events, Commit(cancelled));
    events := events + [Commit(cancelled)];
    var t := s.(db := cancelled);
    assert After(events) == t;
    CancelTakesEffect(t);
    Then(events, CancelMany({5}));
    events := events + [CancelMany({5})];
    AlwaysLogged(events);
    Then(events, Resume(0, 0));
    LateHandoverRevives(After(events), Resume(0, 0));
    events := events + [Resume(0, 0)];
  }

  /** No retirement runs between the last token check and the caller's resumption. */
  ghost predicate GapClosed(s: System, e: Event) {
    e.Resume? && e.at in s.waiting && s.waiting[e.at].Handing? ==> s.waiting[e.at].token == s.run.token
  }

  /** With that gap closed, nothing is ever revived: the property the completion token is there for. */
  lemma {:induction false} NeverRevived(events: seq<Event>)
    requires forall k :: 0 <= k < |events| ==> GapClosed(After(events[..k]), events[k])
    ensures Inv(After(events)) && !Revived(After(events))
    decreases |events|
  {
    if events != [] {
      var n := |events| - 1;
      forall k | 0 <= k < n ensures GapClosed(After(events[..n][..k]), events[..n][k]) {
        assert events[..n][..k] == events[..k];
      }
      NeverRevived(events[..n]);
      var s := After(events[..n]);
      assert GapClosed(s, events[n]);
      assert forall k :: k in s.waiting ==> Sound(s, s.waiting[k]);
      StepKeeps(s, events[n]);
    }
  }
}
