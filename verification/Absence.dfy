/**
 Convergence by absence. A catalog request freezes the RUNNING bindings of a device; a candidate missing from
 the answered catalog is marked exited. The device's processes live in the same run and are told to nobody.
 */
module Absence {
  import opened Store
  import opened Convergence
  import L = Lifecycle
  import LS = LifecycleSafety

  type RequestId = nat

  /** A request: its device and the (task, session) bindings that were RUNNING when it was made. */
  datatype Request = Request(daemon: DaemonId, account: AccountId, candidates: set<(TaskId, SessionId)>, sent: bool)

  /** `home` maps every session ever started to its device; `dead` holds those whose process has ended. */
  datatype State = State(
    server: L.World, home: map<SessionId, DaemonId>, dead: set<SessionId>,
    requests: map<RequestId, Request>, catalogs: map<RequestId, set<SessionId>>)

  const EMPTY: State := State(L.EMPTY, map[], {}, map[], map[])

  datatype Event =
    | StartProcess(session: SessionId, daemon: DaemonId)
    | EndProcess(session: SessionId)
    | Freeze(request: RequestId, daemon: DaemonId, account: AccountId)
    | SendRequest(request: RequestId)
    /** The device takes its catalog, at any moment after the request reached it. */
    | TakeCatalog(request: RequestId)
    | ConvergeAbsent(request: RequestId, task: TaskId, session: SessionId, now: int)
    | Server(event: L.Event)

  predicate Alive(s: State, session: SessionId) { session in s.home && session !in s.dead }

  function LiveOn(s: State, daemon: DaemonId): set<SessionId> {
    set x | x in s.home && s.home[x] == daemon && x !in s.dead
  }

  function Candidates(db: Db, daemon: DaemonId, account: AccountId): set<(TaskId, SessionId)> {
    set t | t in db.tasks && db.tasks[t].daemon == daemon && db.tasks[t].account == account
            && db.tasks[t].status.Running? && db.tasks[t].session.Some? :: (t, db.tasks[t].session.value)
  }

  /** Devices say a session runs only after they started it. */
  predicate Truthful(s: State, e: L.Event) {
    && (e.SessionLive? ==> e.session in s.home && s.home[e.session] == e.daemon)
    && (e.ReportTx? && e.report.ok && e.report.operation in s.server.db.operations
        && s.server.db.operations[e.report.operation].metadata.Some?
        && s.server.db.operations[e.report.operation].kind.SessionCreate?
        && s.server.db.operations[e.report.operation].metadata.value.session.Some? ==>
          var session := s.server.db.operations[e.report.operation].metadata.value.session.value;
          session in s.home && s.home[session] == e.daemon)
  }

  predicate Missing(s: State, request: RequestId, task: TaskId, session: SessionId) {
    request in s.requests && request in s.catalogs && (task, session) in s.requests[request].candidates
    && session !in s.catalogs[request]
  }

  function AbsentEvent(s: State, e: Event): L.Event
    requires e.ConvergeAbsent? && e.request in s.requests
  {
    L.SessionAbsent(e.task, s.requests[e.request].account, s.requests[e.request].daemon, e.session, e.now)
  }

  function Step(s: State, e: Event): State {
    match e
    case StartProcess(x, d) => if x in s.home then s else s.(home := s.home[x := d])
    case EndProcess(x) => if x in s.home then s.(dead := s.dead + {x}) else s
    case Freeze(q, d, a) =>
      if q in s.requests then s
      else s.(requests := s.requests[q := Request(d, a, Candidates(s.server.db, d, a), false)])
    case SendRequest(q) => if q in s.requests then s.(requests := s.requests[q := s.requests[q].(sent := true)]) else s
    case TakeCatalog(q) =>
      if q in s.requests && s.requests[q].sent && q !in s.catalogs
      then s.(catalogs := s.catalogs[q := LiveOn(s, s.requests[q].daemon)]) else s
    case ConvergeAbsent(q, t, x, now) =>
      if Missing(s, q, t, x) then s.(server := L.Step(s.server, AbsentEvent(s, e))) else s
    case Server(event) =>
      if event.SessionAbsent? || !Truthful(s, event) then s else s.(server := L.Step(s.server, event))
  }

  function After(events: seq<Event>): State {
    if events == [] then EMPTY else Step(After(events[..|events| - 1]), events[|events| - 1])
  }

  /** The task was RUNNING on this session before the step and is EXITED after it. */
  predicate MarksExited(before: State, after: State, t: TaskId, x: SessionId) {
    && t in before.server.db.tasks && before.server.db.tasks[t].status.Running?
    && before.server.db.tasks[t].session == Some(x)
    && t in after.server.db.tasks && after.server.db.tasks[t].status.Exited?
  }

  // ---------------------------------------------------------------- invariant

  ghost predicate StartedInv(s: State) {
    forall t :: t in s.server.db.tasks && s.server.db.tasks[t].status.Running? && s.server.db.tasks[t].session.Some? ==>
      && s.server.db.tasks[t].session.value in s.home
      && s.home[s.server.db.tasks[t].session.value] == s.server.db.tasks[t].daemon
  }

  ghost predicate RequestInv(s: State, q: RequestId) {
    q in s.requests ==>
      && (forall c :: c in s.requests[q].candidates ==> c.1 in s.home && s.home[c.1] == s.requests[q].daemon)
      && (q in s.catalogs ==> s.requests[q].sent)
      && (q in s.catalogs ==> forall c :: c in s.requests[q].candidates && c.1 !in s.catalogs[q] ==> c.1 in s.dead)
  }

  ghost predicate Inv(s: State) {
    L.Inv(s.server) && StartedInv(s) && (forall q :: q in s.requests ==> RequestInv(s, q))
        && s.catalogs.Keys <= s.requests.Keys
  }

  /** It was RUNNING on the same session before. */
  ghost predicate RanBefore(w: L.World, t: TaskId, row: Task) {
    t in w.db.tasks && w.db.tasks[t].status.Running? && w.db.tasks[t].session == row.session
        && w.db.tasks[t].daemon == row.daemon
  }

  /** The event says itself that the row's session is alive on the row's device. */
  ghost predicate SaysSo(w: L.World, e: L.Event, row: Task) {
    || (e.SessionLive? && row.session == Some(e.session) && row.daemon == e.daemon)
    || (e.ReportTx? && e.report.ok && e.report.operation in w.db.operations
        && w.db.operations[e.report.operation].metadata.Some? && w.db.operations[e.report.operation].kind.SessionCreate?
        && w.db.operations[e.report.operation].metadata.value.session == row.session && row.daemon == e.daemon)
  }

  lemma ReportRuns(w: L.World, e: L.Event, t: TaskId)
    requires L.Inv(w) && e.ReportTx? && t in L.NextDb(w, e).tasks && L.NextDb(w, e).tasks[t].status.Running?
    ensures RanBefore(w, t, L.NextDb(w, e).tasks[t]) || SaysSo(w, e, L.NextDb(w, e).tasks[t])
  {
    LS.ReportRow(w, e, t, L.NextDb(w, e).tasks[t]);
  }

  lemma SessionRuns(w: L.World, e: L.Event, t: TaskId)
    requires L.Inv(w) && LS.Sessional(e) && t in L.NextDb(w, e).tasks && L.NextDb(w, e).tasks[t].status.Running?
    ensures RanBefore(w, t, L.NextDb(w, e).tasks[t]) || SaysSo(w, e, L.NextDb(w, e).tasks[t])
  {
  }

  lemma RowRuns(w: L.World, e: L.Event, t: TaskId)
    requires LS.RowStatement(e) && t in L.NextDb(w, e).tasks && L.NextDb(w, e).tasks[t].status.Running?
    ensures RanBefore(w, t, L.NextDb(w, e).tasks[t])
  {
    LS.RowStatementFrame(w, e);
  }

  lemma OtherRuns(w: L.World, e: L.Event, t: TaskId)
    requires !e.ReportTx? && !LS.Sessional(e) && !LS.RowStatement(e)
    requires t in L.NextDb(w, e).tasks && L.NextDb(w, e).tasks[t].status.Running?
    ensures RanBefore(w, t, L.NextDb(w, e).tasks[t])
  {
  }

  lemma StatementRuns(w: L.World, e: L.Event, t: TaskId)
    requires L.Inv(w) && !e.ReportTx? && t in L.NextDb(w, e).tasks && L.NextDb(w, e).tasks[t].status.Running?
    ensures RanBefore(w, t, L.NextDb(w, e).tasks[t]) || SaysSo(w, e, L.NextDb(w, e).tasks[t])
  {
    if LS.Sessional(e) { SessionRuns(w, e, t); }
    else if LS.RowStatement(e) { RowRuns(w, e, t); }
    else { OtherRuns(w, e, t); }
  }

  /** A task becomes RUNNING on a session only through a device's own word. */
  lemma RunningCauses(w: L.World, e: L.Event, t: TaskId)
    requires L.Inv(w) && t in L.NextDb(w, e).tasks && L.NextDb(w, e).tasks[t].status.Running?
    ensures RanBefore(w, t, L.NextDb(w, e).tasks[t]) || SaysSo(w, e, L.NextDb(w, e).tasks[t])
  {
    if e.ReportTx? { ReportRuns(w, e, t); } else { StatementRuns(w, e, t); }
  }

  lemma ServerStep(s: State, e: L.Event)
    requires Inv(s) && Truthful(s, e)
    ensures Inv(s.(server := L.Step(s.server, e)))
  {
    LS.StepKeeps(s.server, e);
    var t := s.(server := L.Step(s.server, e));
    forall k | k in t.server.db.tasks && t.server.db.tasks[k].status.Running? && t.server.db.tasks[k].session.Some?
      ensures t.server.db.tasks[k].session.value in t.home
      ensures t.home[t.server.db.tasks[k].session.value] == t.server.db.tasks[k].daemon
    {
      RunningCauses(s.server, e, k);
    }
    forall q | q in t.requests ensures RequestInv(t, q) { assert RequestInv(s, q); }
  }

  lemma RequestKept(s: State, e: Event, q: RequestId)
    requires Inv(s) && !e.Server? && !e.ConvergeAbsent?
    ensures RequestInv(Step(s, e), q)
  {
    if q in s.requests { assert RequestInv(s, q); }
  }

  lemma StepKeeps(s: State, e: Event)
    requires Inv(s)
    ensures Inv(Step(s, e))
  {
    var t := Step(s, e);
    match e {
      case Server(event) => if !event.SessionAbsent? && Truthful(s, event) { ServerStep(s, event); }
      case ConvergeAbsent(q, k, x, now) => if Missing(s, q, k, x) { ServerStep(s, AbsentEvent(s, e)); }
      case _ => forall q | q in t.requests ensures RequestInv(t, q) { RequestKept(s, e, q); }
    }
  }

  lemma {:induction false} Always(events: seq<Event>)
    ensures Inv(After(events))
    decreases |events|
  {
    if events != [] {
      Always(events[..|events| - 1]);
      StepKeeps(After(events[..|events| - 1]), events[|events| - 1]);
    }
  }

  /**
   Absence is sound: in no run is a task marked exited by absence while its process is alive, however many sessions
   were started, rebound or ended between the request, the catalog and the convergence.
   */
  lemma {:induction false} AbsentMeansDead(events: seq<Event>, e: Event, t: TaskId, x: SessionId)
    requires e.ConvergeAbsent? && MarksExited(After(events), Step(After(events), e), t, x)
    ensures !Alive(After(events), x) && !Alive(Step(After(events), e), x)
  {
    Always(events);
    var s := After(events);
    assert Missing(s, e.request, e.task, e.session) && t == e.task && x == e.session;
    assert RequestInv(s, e.request);
    assert (e.task, e.session) in s.requests[e.request].candidates;
  }
}
