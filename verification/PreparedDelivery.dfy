/**
 Prepared-operation delivery as a transition system. Every `await` is a step boundary: a call first leaves
 a continuation that waits for the database, the database answers at some later moment, and the
 continuation resumes at a later moment still. Anything may happen in between.
 */
module PreparedDelivery {
  import opened Store
  import opened DeliveryRuntime

  datatype Continuation =
    // prepare and prepareServer; `who` is the asking client, or nobody for the centre itself
    | Admitting(who: Option<ClientId>, token: nat)
    | Admitted(who: Option<ClientId>, token: nat, id: OperationId, row: Operation)
    | Rereading(who: Option<ClientId>, token: nat, id: OperationId)
    | Reread(who: Option<ClientId>, token: nat, id: OperationId, found: Option<Operation>)
    // resumeForClient
    | ReadingActive(client: ClientId, token: nat, id: OperationId)
    | ReadActive(client: ClientId, token: nat, id: OperationId, found: Option<Operation>)
    /** stableAdmitted or readActiveOperation has returned; its caller's own await has not resumed yet. */
    | Handing(who: Option<ClientId>, token: nat, id: OperationId, row: Operation)
    | RetryReading(id: OperationId, attempt: nat)
    | RetryRead(id: OperationId, attempt: nat, found: Option<Operation>)
    | RetryExpiring(id: OperationId, attempt: nat)
    | Restoring(daemon: DaemonId, connection: Connection, token: nat)
    | Restored(daemon: DaemonId, connection: Connection, token: nat, rows: seq<(OperationId, Operation)>)
    | Readying(client: ClientId, account: AccountId, token: nat)
    | Readied(client: ClientId, account: AccountId, token: nat, rows: seq<(OperationId, Operation)>)
    | Installing(daemon: DaemonId, connection: Connection, id: OperationId, ok: bool)
    | Acknowledged(daemon: DaemonId, connection: Connection, id: OperationId, ok: bool, found: Option<Operation>)
    | Expiring(now: int)
    | ExpiredSome(now: int, any: bool)

  datatype Call =
    | Prepare(who: Option<ClientId>)
    | ResumeForClient(client: ClientId, id: OperationId)
    | RetryTimer(id: OperationId, attempt: nat)
    | Restore(daemon: DaemonId, connection: Connection)
    | SendReadyToClient(client: ClientId, account: AccountId)
    | InstallAck(daemon: DaemonId, connection: Connection, id: OperationId, ok: bool)
    | ExpireDueOperations(now: int)

  /** What the admission transaction decided; its own checks are not modelled further. */
  datatype Admission = Refused | Existing(id: OperationId) | Created(id: OperationId, row: Operation)

  datatype Event =
    /** Any transaction of any other part of the server commits. */
    | Commit(next: Db)
    | Connect(daemon: DaemonId, connection: Connection)
    | Disconnect(daemon: DaemonId)
    | Begin(at: nat, call: Call)
    | Answer(at: nat, admission: Admission, listed: seq<OperationId>, now: int)
    /** The awaited statement throws; a retry gives up once it is out of time or out of attempts. */
    | Reject(at: nat, givingUp: bool)
    | Resume(at: nat, now: int)
    | WaiterTimeout(id: OperationId, index: nat)
    | Complete(id: OperationId)
    | CancelMany(ids: set<OperationId>)
    | CancelDaemon(daemon: DaemonId)
    | ClientGone(client: ClientId)
    | Stop

  /** `issued` and `done` are history: every identifier ever inserted, and every one ever retired. */
  datatype System = System(
    db: Db, issued: map<OperationId, DaemonId>, online: Online,
    run: Runtime, waiting: map<nat, Continuation>, done: set<OperationId>)

  const EMPTY: System :=
    System(Db(map[], map[], map[], map[], map[]), map[], map[], Runtime(0, false, 0, map[], map[], []), map[], {})

  predicate Current(s: System, daemon: DaemonId, connection: Connection) {
    daemon in s.online && s.online[daemon] == connection
  }

  /** The check stableAdmitted and readActiveOperation make on the row they read. */
  predicate Deliverable(found: Option<Operation>, now: int) {
    found.Some? && !found.value.completed && found.value.Installable() && now < found.value.expiresAt
  }

  function Park(s: System, at: nat, k: Continuation): System { s.(waiting := s.waiting[at := k]) }
  function Drop(s: System, at: nat): System { s.(waiting := s.waiting - {at}) }

  function BeginCall(s: System, at: nat, call: Call): System {
    if at in s.waiting then s else
    match call
    case Prepare(who) => if s.run.stopped then s else Park(s, at, Admitting(who, s.run.token))
    case ResumeForClient(client, id) =>
      if s.run.stopped then s else Park(s, at, ReadingActive(client, s.run.token, id))
    case RetryTimer(id, attempt) =>
      if RetryIsCurrent(s.run, id, attempt) then Park(s, at, RetryReading(id, attempt)) else s
    case Restore(daemon, connection) =>
      if s.run.stopped || !Current(s, daemon, connection) then s
      else Park(s, at, Restoring(daemon, connection, s.run.token))
    case SendReadyToClient(client, account) =>
      if s.run.stopped then s else Park(s, at, Readying(client, account, s.run.token))
    case InstallAck(daemon, connection, id, ok) =>
      if s.run.stopped || !Current(s, daemon, connection) then s
      else Park(s, at, Installing(daemon, connection, id, ok))
    case ExpireDueOperations(now) => Park(s, at, Expiring(now))
  }

  predicate ListsInstallable(db: Db, daemon: DaemonId, listed: seq<OperationId>) {
    forall i :: 0 <= i < |listed| ==>
      listed[i] in db.operations && db.operations[listed[i]].daemon == daemon
      && !db.operations[listed[i]].completed && db.operations[listed[i]].Installable()
  }

  predicate ListsReady(db: Db, account: AccountId, listed: seq<OperationId>) {
    forall i :: 0 <= i < |listed| ==>
      listed[i] in db.operations && db.operations[listed[i]].account == account
      && !db.operations[listed[i]].completed && db.operations[listed[i]].state.Installed?
  }

  function Rows(db: Db, listed: seq<OperationId>): (rows: seq<(OperationId, Operation)>)
    requires forall i :: 0 <= i < |listed| ==> listed[i] in db.operations
  {
    seq(|listed|, i requires 0 <= i < |listed| => (listed[i], db.operations[listed[i]]))
  }

  predicate AdmissionAllowed(s: System, a: Admission) {
    match a
    case Refused => true
    case Existing(id) => id in s.db.operations && !s.db.operations[id].Terminal()
    case Created(id, row) =>
      && id !in s.issued && CanInsert(s.db, id, row) && ActiveDevice(s.db, row.daemon, row.account)
      && row.state.PendingInstall? && !row.completed
  }

  function AnswerAdmission(s: System, at: nat, who: Option<ClientId>, token: nat, a: Admission): System
    requires AdmissionAllowed(s, a)
  {
    match a
    case Refused => Drop(s, at)
    case Existing(id) => Park(s, at, Admitted(who, token, id, s.db.operations[id]))
    case Created(id, row) =>
      Park(s.(db := PutOperation(s.db, id, row), issued := s.issued[id := row.daemon]), at,
          Admitted(who, token, id, row))
  }

  /** The database executes the statement a continuation waits for. */
  function AnswerCall(s: System, at: nat, admission: Admission, listed: seq<OperationId>, now: int): System
    requires at in s.waiting
  {
    match s.waiting[at]
    case Admitting(who, token) =>
      if AdmissionAllowed(s, admission) then AnswerAdmission(s, at, who, token, admission) else s
    case Rereading(who, token, id) => Park(s, at, Reread(who, token, id, Lookup(s.db.operations, id)))
    case ReadingActive(client, token, id) => Park(s, at, ReadActive(client, token, id, Lookup(s.db.operations, id)))
    case RetryReading(id, attempt) => Park(s, at, RetryRead(id, attempt, Lookup(s.db.operations, id)))
    case Restoring(daemon, connection, token) =>
      if ListsInstallable(s.db, daemon, listed)
      then Park(s, at, Restored(daemon, connection, token, Rows(s.db, listed))) else s
    case Readying(client, account, token) =>
      if ListsReady(s.db, account, listed) then Park(s, at, Readied(client, account, token, Rows(s.db, listed))) else s
    case Installing(daemon, connection, id, ok) =>
      var (db, row) := MarkInstalled(s.db, id, daemon, ok, now);
      Park(s.(db := db), at, Acknowledged(daemon, connection, id, ok, row))
    case Expiring(deadline) =>
      var due := DueOperations(s.db, deadline);
      Park(s.(db := ExpireAll(s.db, due)), at, ExpiredSome(deadline, due != {}))
    case _ => s
  }

  function ResumeRetry(s: System, at: nat, id: OperationId, attempt: nat, found: Option<Operation>, now: int): System {
    if !RetryIsCurrent(s.run, id, attempt) then Drop(s, at)
    else if found.None? || found.value.completed || found.value.state.Installed? || !found.value.Installable() then
      Drop(s.(run := s.run.(retries := s.run.retries - {id})), at)
    else if found.value.expiresAt <= now then Park(s, at, RetryExpiring(id, attempt))
    else if found.value.daemon !in s.online then Drop(s.(run := s.run.(retries := s.run.retries - {id})), at)
    else Drop(s.(run := Dispatch(s.run, s.online, id, found.value, now)), at)
  }

  /** One await-free segment after an answer. */
  function ResumeCall(s: System, at: nat, now: int): System
    requires at in s.waiting
  {
    match s.waiting[at]
    case Admitted(who, token, id, row) =>
      if s.run.stopped then Drop(s, at)
      else if token != s.run.token then Park(s, at, Rereading(who, s.run.token, id))
      else if Deliverable(Some(row), now) then Park(s, at, Handing(who, token, id, row))
      else Drop(s, at)
    case Reread(who, token, id, found) =>
      if s.run.stopped then Drop(s, at)
      else if token != s.run.token then Park(s, at, Rereading(who, s.run.token, id))
      else if Deliverable(found, now) then Park(s, at, Handing(who, token, id, found.value))
      else Drop(s, at)
    case ReadActive(client, token, id, found) =>
      if s.run.stopped || !Deliverable(found, now) then Drop(s, at)
      else if token != s.run.token then Park(s, at, ReadingActive(client, s.run.token, id))
      else Park(s, at, Handing(Some(client), token, id, found.value))
    case Handing(who, token, id, row) =>
      Drop(s.(run := ResumeCurrent(s.run, s.online, who, id, row, now)), at)
    case RetryRead(id, attempt, found) => ResumeRetry(s, at, id, attempt, found, now)
    case RetryExpiring(id, attempt) =>
      if RetryIsCurrent(s.run, id, attempt) then Drop(s.(run := Forget(s.run, {id})), at) else Drop(s, at)
    case Restored(daemon, connection, token, rows) =>
      if s.run.stopped || !Current(s, daemon, connection) then Drop(s, at)
      else if token != s.run.token then Park(s, at, Restoring(daemon, connection, s.run.token))
      else Drop(s.(run := DispatchAll(s.run, s.online, connection.account, rows, now)), at)
    case Readied(client, account, token, rows) =>
      if s.run.stopped then Drop(s, at)
      else if token != s.run.token then Park(s, at, Readying(client, account, s.run.token))
      else Drop(s.(run := EmitAll(s.run, client, rows, now)), at)
    case Acknowledged(daemon, connection, id, ok, found) =>
      if s.run.stopped || !Current(s, daemon, connection) || found.None? || found.value.account != connection.account
      then Drop(s, at)
      else Drop(s.(run := Acknowledge(s.run, s.online, id, found.value, ok, now)), at)
    case ExpiredSome(deadline, any) =>
      if any then Drop(s.(run := ExpireDue(s.run, deadline)), at) else Drop(s, at)
    case _ => s
  }

  function RejectCall(s: System, at: nat, givingUp: bool): System
    requires at in s.waiting
  {
    match s.waiting[at]
    case RetryReading(id, attempt) =>
      if givingUp && RetryIsCurrent(s.run, id, attempt) then Drop(s.(run := Forget(s.run, {id})), at) else Drop(s, at)
    case RetryExpiring(id, attempt) =>
      if RetryIsCurrent(s.run, id, attempt) then Drop(s.(run := Forget(s.run, {id})), at) else Drop(s, at)
    case _ => Drop(s, at)
  }

  predicate RowTerminal(s: System, id: OperationId) {
    id in s.issued && (id in s.db.operations ==> s.db.operations[id].Terminal())
  }

  function Mark(s: System, ids: set<OperationId>): System {
    s.(done := s.done + ids, run := s.run.(sent := s.run.sent + [Retired(ids)]))
  }

  function OwnedBy(s: System, daemon: DaemonId): set<OperationId> {
    set o | o in s.issued && s.issued[o] == daemon
  }

  /** A disabled event changes nothing, so every sequence of events is a run. */
  function Step(s: System, e: Event): System {
    match e
    case Commit(next) => if Evolves(s.db, s.issued, next) then s.(db := next, issued := Issue(s.issued, next)) else s
    case Connect(daemon, connection) => s.(online := s.online[daemon := connection])
    case Disconnect(daemon) => s.(online := s.online - {daemon})
    case Begin(at, call) => BeginCall(s, at, call)
    case Answer(at, admission, listed, now) => if at in s.waiting then AnswerCall(s, at, admission, listed, now) else s
    case Reject(at, givingUp) => if at in s.waiting then RejectCall(s, at, givingUp) else s
    case Resume(at, now) => if at in s.waiting then ResumeCall(s, at, now) else s
    case WaiterTimeout(id, i) => s.(run := TimeOut(s.run, id, i))
    // the hub calls these only after the rows are terminal
    case Complete(id) => if RowTerminal(s, id) then Mark(s.(run := Retire(s.run, {id})), {id}) else s
    case CancelMany(ids) =>
      if ids != {} && forall id :: id in ids ==> RowTerminal(s, id) then Mark(s.(run := Retire(s.run, ids)), ids) else s
    case CancelDaemon(daemon) =>
      if daemon in s.db.devices && s.db.devices[daemon].revoked
      then Mark(s.(run := RetireDaemon(s.run, daemon)), OwnedBy(s, daemon)) else s
    case ClientGone(client) => s.(run := RemoveClient(s.run, client))
    case Stop => s.(run := Shutdown(s.run))
  }

  function After(events: seq<Event>): System {
    if events == [] then EMPTY else Step(After(events[..|events| - 1]), events[|events| - 1])
  }

  // ---------------------------------------------------------------- the service in a run

  method ResumeService(service: DeliveryService, s: System, at: nat, now: int)
    requires service.Valid() && service.View() == s.run && at in s.waiting
    modifies service
    ensures service.Valid() && service.View() == ResumeCall(s, at, now).run
  {
    match s.waiting[at] {
      case Handing(who, _, id, row) => service.Deliver(s.online, who, id, row, now);
      case RetryRead(_, _, _) | RetryExpiring(_, _) => ResumeTimers(service, s, at, now);
      case Restored(_, _, _, _) | Readied(_, _, _, _) | Acknowledged(_, _, _, _, _) =>
        ResumeForMany(service, s, at, now);
      case ExpiredSome(deadline, any) => if any { service.ExpireDueItems(deadline); }
      case _ =>
    }
  }

  /** The segments that send to more than one client or for more than one operation. */
  method ResumeForMany(service: DeliveryService, s: System, at: nat, now: int)
    requires service.Valid() && service.View() == s.run && at in s.waiting
    requires s.waiting[at].Restored? || s.waiting[at].Readied? || s.waiting[at].Acknowledged?
    modifies service
    ensures service.Valid() && service.View() == ResumeCall(s, at, now).run
  {
    if s.run.stopped { return; }
    match s.waiting[at] {
      case Restored(daemon, connection, token, rows) =>
        if Current(s, daemon, connection) && token == s.run.token {
          service.RestoreListed(s.online, connection.account, rows, now);
        }
      case Readied(client, _, token, rows) => if token == s.run.token { service.SendReady(client, rows, now); }
      case Acknowledged(daemon, connection, id, ok, found) =>
        if Current(s, daemon, connection) && found.Some? && found.value.account == connection.account {
          service.HandleInstalled(s.online, id, found.value, ok, now);
        }
    }
  }

  method ResumeTimers(service: DeliveryService, s: System, at: nat, now: int)
    requires service.Valid() && service.View() == s.run && at in s.waiting
    requires s.waiting[at].RetryRead? || s.waiting[at].RetryExpiring?
    modifies service
    ensures service.Valid() && service.View() == ResumeCall(s, at, now).run
  {
    match s.waiting[at] {
      case RetryRead(id, attempt, found) => ResumeTimer(service, s, at, id, attempt, found, now);
      case RetryExpiring(id, attempt) => if RetryIsCurrent(s.run, id, attempt) { service.EndRetry(id, true); }
    }
  }

  method ResumeTimer(
      service: DeliveryService, s: System, at: nat, id: OperationId, attempt: nat, found: Option<Operation>, now: int)
    requires service.Valid() && service.View() == s.run
    modifies service
    ensures service.Valid() && service.View() == ResumeRetry(s, at, id, attempt, found, now).run
  {
    if !RetryIsCurrent(s.run, id, attempt) { return; }
    if found.None? || found.value.completed || found.value.state.Installed? || !found.value.Installable() {
      service.EndRetry(id, false);
    } else if now < found.value.expiresAt {
      if found.value.daemon !in s.online { service.EndRetry(id, false); }
      else { service.DispatchOne(s.online, id, found.value, now); }
    }
  }

  /** The throwing of an awaited statement. */
  method RejectService(service: DeliveryService, s: System, at: nat, givingUp: bool)
    requires service.Valid() && service.View() == s.run && at in s.waiting
    modifies service
    ensures service.Valid() && service.View() == RejectCall(s, at, givingUp).run
  {
    match s.waiting[at] {
      case RetryReading(id, attempt) =>
        if givingUp && RetryIsCurrent(s.run, id, attempt) { service.EndRetry(id, true); }
      case RetryExpiring(id, attempt) => if RetryIsCurrent(s.run, id, attempt) { service.EndRetry(id, true); }
      case _ =>
    }
  }

  /** The calls that retire operations; `Record` writes the history. */
  method RetireService(service: DeliveryService, s: System, e: Event)
    requires service.Valid() && service.View() == s.run && (e.Complete? || e.CancelMany? || e.CancelDaemon?)
    modifies service
    ensures service.Valid() && service.View() == Step(s, e).run
  {
    match e {
      case Complete(id) =>
        if RowTerminal(s, id) {
          service.Complete(id);
          service.Record({id});
        }
      case CancelMany(ids) =>
        if ids != {} && forall id :: id in ids ==> RowTerminal(s, id) {
          service.CancelMany(ids);
          service.Record(ids);
        }
      case CancelDaemon(daemon) =>
        if daemon in s.db.devices && s.db.devices[daemon].revoked {
          service.CancelDaemon(daemon);
          service.Record(OwnedBy(s, daemon));
        }
    }
  }

  lemma BeginsLeaveRun(s: System, e: Event)
    requires e.Commit? || e.Connect? || e.Disconnect? || e.Begin? || e.Answer?
    ensures Step(s, e).run == s.run
  {
  }

  method Follow(service: DeliveryService, s: System, e: Event)
    requires service.Valid() && service.View() == s.run
    modifies service
    ensures service.Valid() && service.View() == Step(s, e).run
  {
    match e {
      case Reject(at, givingUp) => if at in s.waiting { RejectService(service, s, at, givingUp); }
      case Resume(at, now) => if at in s.waiting { ResumeService(service, s, at, now); }
      case WaiterTimeout(id, i) => service.WaiterExpired(id, i);
      case Complete(_) | CancelMany(_) | CancelDaemon(_) => RetireService(service, s, e);
      case ClientGone(client) => service.DropClient(client);
      case Stop => service.Stop();
      case _ => BeginsLeaveRun(s, e);
    }
  }

  /** A service driven through any interleaving is the one that the theorems on delivery speak about. */
  method Drive(events: seq<Event>) returns (service: DeliveryService)
    ensures fresh(service) && service.Valid() && service.View() == After(events).run
  {
    service := new DeliveryService();
    var s := EMPTY;
    for i := 0 to |events|
      invariant fresh(service) && service.Valid() && s == After(events[..i]) && service.View() == s.run
    {
      assert events[..i + 1][..i] == events[..i];
      Follow(service, s, events[i]);
      s := Step(s, events[i]);
    }
    assert events[..|events|] == events;
  }
}
