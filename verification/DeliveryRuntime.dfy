/**
 The volatile half of prepared-operation delivery: retry attempts, waiting clients, the completion token
 and the stop flag. The functions say what one await-free segment does to that state; the class does the
 same by updating its fields in place and is proved against the functions.
 */
module DeliveryRuntime {
  import opened Store

  type ClientId = nat
  type ConnectionId = nat

  /** One scheduled retry; its number stands for object identity. */
  datatype Attempt = Attempt(id: nat, daemon: DaemonId, expiresAt: int)

  /** Someone waiting for the install acknowledgement; no client means the centre itself initiated it. */
  datatype Waiter = Waiter(client: Option<ClientId>, daemon: DaemonId, expiresAt: int)

  /** A daemon's current control connection. */
  datatype Connection = Connection(id: ConnectionId, account: AccountId)

  type Online = map<DaemonId, Connection>

  datatype Output =
    | Frame(client: ClientId, operation: OperationId)
    | Install(operation: OperationId)
    | Execute(operation: OperationId)
    /** Not a message: marks the moment complete, cancelMany or cancelDaemon ran for these operations. */
    | Retired(operations: set<OperationId>)

  /** A fresh completion token is one never seen before, so a counter stands for its identity. */
  datatype Runtime = Runtime(
    token: nat, stopped: bool, nextAttempt: nat,
    retries: map<OperationId, Attempt>, waiters: map<OperationId, seq<Waiter>>, sent: seq<Output>)

  function WaitersOf(r: Runtime, id: OperationId): seq<Waiter> {
    if id in r.waiters then r.waiters[id] else []
  }

  predicate Watches(waiters: seq<Waiter>, client: Option<ClientId>) {
    exists i :: 0 <= i < |waiters| && waiters[i].client == client
  }

  predicate AnyOfDaemon(waiters: seq<Waiter>, daemon: DaemonId) {
    exists i :: 0 <= i < |waiters| && waiters[i].daemon == daemon
  }

  predicate AnyDue(waiters: seq<Waiter>, now: int) {
    exists i :: 0 <= i < |waiters| && waiters[i].expiresAt <= now
  }

  /** Drop the retry attempts and the waiters of a set of operations. */
  function Forget(r: Runtime, ids: set<OperationId>): Runtime {
    r.(retries := r.retries - ids, waiters := r.waiters - ids)
  }

  /** complete and cancelMany: advance the generation, then forget. */
  function Retire(r: Runtime, ids: set<OperationId>): Runtime {
    Forget(r, ids).(token := r.token + 1)
  }

  function WithoutDaemonRetries(retries: map<OperationId, Attempt>, daemon: DaemonId): map<OperationId, Attempt> {
    map o | o in retries && retries[o].daemon != daemon :: retries[o]
  }

  function WithoutDaemonWaiters(
      waiters: map<OperationId, seq<Waiter>>, daemon: DaemonId): map<OperationId, seq<Waiter>>
  {
    map o | o in waiters && !AnyOfDaemon(waiters[o], daemon) :: waiters[o]
  }

  /** cancelDaemon: retries go by their own daemon, waiters by any member's daemon. */
  function RetireDaemon(r: Runtime, daemon: DaemonId): Runtime {
    r.(token := r.token + 1, retries := WithoutDaemonRetries(r.retries, daemon),
       waiters := WithoutDaemonWaiters(r.waiters, daemon))
  }

  function DueRetries(retries: map<OperationId, Attempt>, now: int): set<OperationId> {
    set o | o in retries && retries[o].expiresAt <= now
  }

  function DueWaiters(waiters: map<OperationId, seq<Waiter>>, now: int): set<OperationId> {
    set o | o in waiters && AnyDue(waiters[o], now)
  }

  /** The continuation of expireDueOperations once some row expired. */
  function ExpireDue(r: Runtime, now: int): Runtime {
    Retire(r, DueRetries(r.retries, now) + DueWaiters(r.waiters, now))
  }

  function Watch(r: Runtime, id: OperationId, row: Operation, client: Option<ClientId>): Runtime {
    if r.stopped || Watches(WaitersOf(r, id), client) then r
    else r.(waiters := r.waiters[id := WaitersOf(r, id) + [Waiter(client, row.daemon, row.expiresAt)]])
  }

  predicate CanDispatch(r: Runtime, online: Online, row: Operation, now: int) {
    && !r.stopped && row.daemon in online && online[row.daemon].account == row.account
    && !row.completed && row.Installable() && now < row.expiresAt
  }

  function Dispatch(r: Runtime, online: Online, id: OperationId, row: Operation, now: int): Runtime {
    if CanDispatch(r, online, row, now) then
      r.(sent := r.sent + [Install(id)],
         retries := r.retries[id := Attempt(r.nextAttempt, row.daemon, row.expiresAt)],
         nextAttempt := r.nextAttempt + 1)
    else r
  }

  predicate CanEmit(r: Runtime, row: Operation, now: int) {
    !r.stopped && !row.completed && row.state.Installed? && now < row.expiresAt
  }

  function Emit(r: Runtime, client: ClientId, id: OperationId, row: Operation, now: int): Runtime {
    if CanEmit(r, row, now) then r.(sent := r.sent + [Frame(client, id)]) else r
  }

  function SendExecute(r: Runtime, online: Online, id: OperationId, row: Operation, now: int): Runtime {
    if CanEmit(r, row, now) && row.daemon in online && online[row.daemon].account == row.account
    then r.(sent := r.sent + [Execute(id)]) else r
  }

  /** resumeCurrentForClient, and for the centre resumeCurrentForServer or resumeForClientless. */
  function ResumeCurrent(
    r: Runtime, online: Online, who: Option<ClientId>, id: OperationId, row: Operation, now: int): Runtime
  {
    if r.stopped then r
    else if who.Some? then
      if row.state.Installed? then Emit(r, who.value, id, row, now)
      else Dispatch(Watch(r, id, row, who), online, id, row, now)
    else if row.server then
      if row.state.Installed? then SendExecute(r, online, id, row, now)
      else Dispatch(Watch(r, id, row, None), online, id, row, now)
    else if row.state.Installed? then r
    else Dispatch(r, online, id, row, now)
  }

  predicate RetryIsCurrent(r: Runtime, id: OperationId, attempt: nat) {
    !r.stopped && id in r.retries && r.retries[id].id == attempt
  }

  /** restore: dispatch every listed row of the daemon's own account, in list order. */
  function DispatchAll(
    r: Runtime, online: Online, account: AccountId, rows: seq<(OperationId, Operation)>, now: int): Runtime
    decreases |rows|
  {
    if rows == [] then r
    else
      var (id, row) := rows[|rows| - 1];
      var before := DispatchAll(r, online, account, rows[..|rows| - 1], now);
      if row.account == account then Dispatch(before, online, id, row, now) else before
  }

  /** sendReadyToClient: emit every listed row the centre did not initiate, in list order. */
  function EmitAll(r: Runtime, client: ClientId, rows: seq<(OperationId, Operation)>, now: int): Runtime
    decreases |rows|
  {
    if rows == [] then r
    else
      var (id, row) := rows[|rows| - 1];
      var before := EmitAll(r, client, rows[..|rows| - 1], now);
      if row.server then before else Emit(before, client, id, row, now)
  }

  /** handleInstalled: every waiting client receives the frame. */
  function EmitToWaiters(r: Runtime, waiting: seq<Waiter>, id: OperationId, row: Operation, now: int): Runtime
    decreases |waiting|
  {
    if waiting == [] then r
    else
      var last := waiting[|waiting| - 1];
      var before := EmitToWaiters(r, waiting[..|waiting| - 1], id, row, now);
      if last.client.Some? then Emit(before, last.client.value, id, row, now) else before
  }

  function Acknowledge(r: Runtime, online: Online, id: OperationId, row: Operation, ok: bool, now: int): Runtime {
    var quiet := r.(retries := r.retries - {id});
    if !ok then quiet.(waiters := quiet.waiters - {id})
    else if row.server then SendExecute(quiet.(waiters := quiet.waiters - {id}), online, id, row, now)
    else
      var told := EmitToWaiters(quiet, WaitersOf(quiet, id), id, row, now);
      told.(waiters := told.waiters - {id})
  }

  function WithoutClient(waiters: seq<Waiter>, client: ClientId): seq<Waiter> {
    if waiters == [] then []
    else
      var rest := WithoutClient(waiters[..|waiters| - 1], client);
      var last := waiters[|waiters| - 1];
      if last.client == Some(client) then rest else rest + [last]
  }

  function RemoveClient(r: Runtime, client: ClientId): Runtime {
    r.(waiters := map o | o in r.waiters && WithoutClient(r.waiters[o], client) != [] ::
                    WithoutClient(r.waiters[o], client))
  }

  function TimeOut(r: Runtime, id: OperationId, i: nat): Runtime {
    if id in r.waiters && i < |r.waiters[id]| then
      var left := r.waiters[id][..i] + r.waiters[id][i + 1..];
      r.(waiters := if left == [] then r.waiters - {id} else r.waiters[id := left])
    else r
  }

  function Shutdown(r: Runtime): Runtime {
    r.(stopped := true, retries := map[], waiters := map[])
  }

  // ---------------------------------------------------------------- what every segment keeps

  ghost predicate OnePerClient(waiting: seq<Waiter>) {
    forall i, j :: 0 <= i < j < |waiting| ==> waiting[i].client != waiting[j].client
  }

  /** Attempts differ in their numbers, a client waits once per operation, and a stopped service holds nothing. */
  ghost predicate RuntimeInv(r: Runtime) {
    && (forall o :: o in r.retries ==> r.retries[o].id < r.nextAttempt)
    && (forall o, p :: o in r.retries && p in r.retries && o != p ==> r.retries[o].id != r.retries[p].id)
    && (forall o :: o in r.waiters ==> r.waiters[o] != [] && OnePerClient(r.waiters[o]))
    && (r.stopped ==> r.retries == map[] && r.waiters == map[])
  }

  lemma FewerKeeps(r: Runtime, t: Runtime)
    requires RuntimeInv(r) && t.stopped == r.stopped && t.nextAttempt == r.nextAttempt
    requires forall o :: o in t.retries ==> o in r.retries && t.retries[o] == r.retries[o]
    requires forall o :: o in t.waiters ==> o in r.waiters && t.waiters[o] == r.waiters[o]
    ensures RuntimeInv(t)
  {
  }

  lemma WatchKeeps(r: Runtime, id: OperationId, row: Operation, client: Option<ClientId>)
    requires RuntimeInv(r)
    ensures RuntimeInv(Watch(r, id, row, client))
  {
  }

  /** A dispatch supersedes every earlier attempt for its operation and leaves the others current. */
  lemma DispatchSupersedes(r: Runtime, online: Online, id: OperationId, row: Operation, now: int)
    requires RuntimeInv(r)
    ensures var t := Dispatch(r, online, id, row, now);
            && RuntimeInv(t)
            && (CanDispatch(r, online, row, now) ==> forall n :: RetryIsCurrent(r, id, n) ==> !RetryIsCurrent(t, id, n))
            && (forall o, n :: o != id ==> (RetryIsCurrent(r, o, n) <==> RetryIsCurrent(t, o, n)))
  {
  }

  lemma {:induction false} WithoutClientOnce(waiting: seq<Waiter>, client: ClientId)
    requires OnePerClient(waiting)
    ensures OnePerClient(WithoutClient(waiting, client))
    ensures forall w :: w in WithoutClient(waiting, client) ==> w in waiting
    decreases |waiting|
  {
    if waiting != [] {
      var n := |waiting| - 1;
      WithoutClientOnce(waiting[..n], client);
      var rest := WithoutClient(waiting[..n], client);
      forall i | 0 <= i < |rest| ensures rest[i].client != waiting[n].client {
        assert rest[i] in rest && rest[i] in waiting[..n];
      }
    }
  }

  lemma TimeOutKeeps(r: Runtime, id: OperationId, i: nat)
    requires RuntimeInv(r)
    ensures RuntimeInv(TimeOut(r, id, i))
  {
    if id in r.waiters && i < |r.waiters[id]| {
      var all := r.waiters[id];
      var left := all[..i] + all[i + 1..];
      assert forall j :: 0 <= j < |left| ==> left[j] == if j < i then all[j] else all[j + 1];
    }
  }

  lemma RemoveClientKeeps(r: Runtime, client: ClientId)
    requires RuntimeInv(r)
    ensures RuntimeInv(RemoveClient(r, client))
  {
    var t := RemoveClient(r, client);
    forall o | o in t.waiters ensures t.waiters[o] != [] && OnePerClient(t.waiters[o]) {
      WithoutClientOnce(r.waiters[o], client);
    }
  }

  lemma {:induction false} EmitToWaitersOnlySends(
      r: Runtime, waiting: seq<Waiter>, id: OperationId, row: Operation, now: int)
    ensures EmitToWaiters(r, waiting, id, row, now).(sent := r.sent) == r
    decreases |waiting|
  {
    if waiting != [] { EmitToWaitersOnlySends(r, waiting[..|waiting| - 1], id, row, now); }
  }

  lemma AcknowledgeKeeps(r: Runtime, online: Online, id: OperationId, row: Operation, ok: bool, now: int)
    requires RuntimeInv(r)
    ensures RuntimeInv(Acknowledge(r, online, id, row, ok, now))
  {
    var quiet := r.(retries := r.retries - {id});
    EmitToWaitersOnlySends(quiet, WaitersOf(quiet, id), id, row, now);
    FewerKeeps(r, Acknowledge(r, online, id, row, ok, now));
  }

  // ---------------------------------------------------------------- the service object

  /** The same segments, by assignment to its fields. */
  class DeliveryService {
    var token: nat
    var stopped: bool
    var nextAttempt: nat
    var retries: map<OperationId, Attempt>
    var waiters: map<OperationId, seq<Waiter>>
    ghost var sent: seq<Output>

    ghost function View(): Runtime
      reads this
    {
      Runtime(token, stopped, nextAttempt, retries, waiters, sent)
    }

    ghost predicate Valid()
      reads this
    {
      RuntimeInv(View())
    }

    constructor ()
      ensures Valid() && View() == Runtime(0, false, 0, map[], map[], [])
    {
      token, stopped, nextAttempt := 0, false, 0;
      retries, waiters, sent := map[], map[], [];
    }

    method CancelRetry(id: OperationId)
      modifies this`retries
      ensures retries == old(retries) - {id}
    {
      retries := retries - {id};
    }

    method ClearWaiters(id: OperationId)
      modifies this`waiters
      ensures waiters == old(waiters) - {id}
    {
      waiters := waiters - {id};
    }

    method ForgetAll(ids: set<OperationId>)
      modifies this`retries, this`waiters
      ensures retries == old(retries) - ids && waiters == old(waiters) - ids
    {
      var left := ids;
      while left != {}
        invariant left <= ids
        invariant retries == old(retries) - (ids - left) && waiters == old(waiters) - (ids - left)
      {
        var id :| id in left;
        CancelRetry(id);
        ClearWaiters(id);
        left := left - {id};
      }
      assert ids - left == ids;
    }

    method Complete(id: OperationId)
      requires Valid()
      modifies this`token, this`retries, this`waiters
      ensures Valid() && View() == Retire(old(View()), {id})
    {
      FewerKeeps(View(), Retire(View(), {id}));
      token := token + 1;
      CancelRetry(id);
      ClearWaiters(id);
    }

    method CancelMany(ids: set<OperationId>)
      requires Valid()
      modifies this`token, this`retries, this`waiters
      ensures Valid() && View() == if ids == {} then old(View()) else Retire(old(View()), ids)
    {
      FewerKeeps(View(), Retire(View(), ids));
      if ids == {} { return; }
      token := token + 1;
      ForgetAll(ids);
    }

    method DropDaemonRetries(daemon: DaemonId)
      modifies this`retries
      ensures retries == WithoutDaemonRetries(old(retries), daemon)
    {
      var left := retries.Keys;
      while left != {}
        invariant left <= retries.Keys
        invariant forall o :: o in retries <==> o in old(retries) && (o in left || old(retries)[o].daemon != daemon)
        invariant forall o :: o in retries ==> retries[o] == old(retries)[o]
      {
        var id :| id in left;
        if retries[id].daemon == daemon { CancelRetry(id); }
        left := left - {id};
      }
    }

    method DropDaemonWaiters(daemon: DaemonId)
      modifies this`waiters
      ensures waiters == WithoutDaemonWaiters(old(waiters), daemon)
    {
      var left := waiters.Keys;
      while left != {}
        invariant left <= waiters.Keys
        invariant forall o ::
                    o in waiters <==> o in old(waiters) && (o in left || !AnyOfDaemon(old(waiters)[o], daemon))
        invariant forall o :: o in waiters ==> waiters[o] == old(waiters)[o]
      {
        var id :| id in left;
        if AnyOfDaemon(waiters[id], daemon) { ClearWaiters(id); }
        left := left - {id};
      }
    }

    method CancelDaemon(daemon: DaemonId)
      requires Valid()
      modifies this`token, this`retries, this`waiters
      ensures Valid() && View() == RetireDaemon(old(View()), daemon)
    {
      token := token + 1;
      DropDaemonRetries(daemon);
      DropDaemonWaiters(daemon);
      FewerKeeps(old(View()), View());
    }

    /** Which items are due is decided from both maps before anything is cancelled. */
    method CollectDue(now: int) returns (due: set<OperationId>)
      ensures due == DueRetries(retries, now) + DueWaiters(waiters, now)
    {
      due := {};
      var left := retries.Keys;
      while left != {}
        invariant left <= retries.Keys
        invariant forall o :: o in due <==> o in retries && o !in left && retries[o].expiresAt <= now
      {
        var id :| id in left;
        if retries[id].expiresAt <= now { due := due + {id}; }
        left := left - {id};
      }
      assert due == DueRetries(retries, now);
      left := waiters.Keys;
      while left != {}
        invariant left <= waiters.Keys
        invariant forall o :: o in due <==>
                    o in DueRetries(retries, now) || (o in waiters && o !in left && AnyDue(waiters[o], now))
      {
        var id :| id in left;
        if AnyDue(waiters[id], now) { due := due + {id}; }
        left := left - {id};
      }
    }

    method ExpireDueItems(now: int)
      requires Valid()
      modifies this`token, this`retries, this`waiters
      ensures Valid() && View() == ExpireDue(old(View()), now)
    {
      token := token + 1;
      var due := CollectDue(now);
      ForgetAll(due);
      FewerKeeps(old(View()), View());
    }

    method AddWatch(id: OperationId, row: Operation, client: Option<ClientId>)
      requires Valid()
      modifies this`waiters
      ensures Valid() && View() == Watch(old(View()), id, row, client)
    {
      WatchKeeps(View(), id, row, client);
      if stopped { return; }
      var waiting := if id in waiters then waiters[id] else [];
      for i := 0 to |waiting|
        invariant forall j :: 0 <= j < i ==> waiting[j].client != client
      {
        if waiting[i].client == client { return; }
      }
      waiters := waiters[id := waiting + [Waiter(client, row.daemon, row.expiresAt)]];
    }

    method DispatchOne(online: Online, id: OperationId, row: Operation, now: int)
      requires Valid()
      modifies this`retries, this`nextAttempt, this`sent
      ensures Valid() && View() == Dispatch(old(View()), online, id, row, now)
      ensures CanDispatch(old(View()), online, row, now) ==>
                forall n :: RetryIsCurrent(old(View()), id, n) ==> !RetryIsCurrent(View(), id, n)
      ensures forall o, n :: o != id ==> (RetryIsCurrent(old(View()), o, n) <==> RetryIsCurrent(View(), o, n))
    {
      DispatchSupersedes(View(), online, id, row, now);
      if stopped { return; }
      if row.daemon !in online || online[row.daemon].account != row.account || row.completed
         || !row.Installable() || row.expiresAt <= now { return; }
      sent := sent + [Install(id)];
      retries := retries[id := Attempt(nextAttempt, row.daemon, row.expiresAt)];
      nextAttempt := nextAttempt + 1;
    }

    method EmitOne(client: ClientId, id: OperationId, row: Operation, now: int)
      modifies this`sent
      ensures View() == Emit(old(View()), client, id, row, now)
    {
      if stopped || row.completed || !row.state.Installed? || row.expiresAt <= now { return; }
      sent := sent + [Frame(client, id)];
    }

    method RestoreListed(online: Online, account: AccountId, rows: seq<(OperationId, Operation)>, now: int)
      requires Valid()
      modifies this`retries, this`nextAttempt, this`sent
      ensures Valid() && View() == DispatchAll(old(View()), online, account, rows, now)
    {
      for i := 0 to |rows|
        invariant Valid() && View() == DispatchAll(old(View()), online, account, rows[..i], now)
      {
        assert rows[..i + 1][..i] == rows[..i];
        if rows[i].1.account == account { DispatchOne(online, rows[i].0, rows[i].1, now); }
      }
      assert rows[..|rows|] == rows;
    }

    method SendReady(client: ClientId, rows: seq<(OperationId, Operation)>, now: int)
      requires Valid()
      modifies this`sent
      ensures Valid() && View() == EmitAll(old(View()), client, rows, now)
    {
      for i := 0 to |rows|
        invariant Valid() && View() == EmitAll(old(View()), client, rows[..i], now)
      {
        assert rows[..i + 1][..i] == rows[..i];
        if !rows[i].1.server { EmitOne(client, rows[i].0, rows[i].1, now); }
      }
      assert rows[..|rows|] == rows;
    }

    method HandleInstalled(online: Online, id: OperationId, row: Operation, ok: bool, now: int)
      requires Valid()
      modifies this
      ensures Valid() && View() == Acknowledge(old(View()), online, id, row, ok, now)
    {
      AcknowledgeKeeps(View(), online, id, row, ok, now);
      CancelRetry(id);
      if !ok {
        ClearWaiters(id);
      } else if row.server {
        ClearWaiters(id);
        ExecuteOwn(online, id, row, now);
      } else {
        TellWaiting(if id in waiters then waiters[id] else [], id, row, now);
        ClearWaiters(id);
      }
    }

    method ExecuteOwn(online: Online, id: OperationId, row: Operation, now: int)
      modifies this`sent
      ensures View() == SendExecute(old(View()), online, id, row, now)
    {
      if !stopped && !row.completed && row.state.Installed? && now < row.expiresAt
         && row.daemon in online && online[row.daemon].account == row.account {
        sent := sent + [Execute(id)];
      }
    }

    method TellWaiting(waiting: seq<Waiter>, id: OperationId, row: Operation, now: int)
      modifies this`sent
      ensures View() == EmitToWaiters(old(View()), waiting, id, row, now)
    {
      for i := 0 to |waiting|
        invariant View() == EmitToWaiters(old(View()), waiting[..i], id, row, now)
      {
        assert waiting[..i + 1][..i] == waiting[..i];
        if waiting[i].client.Some? { EmitOne(waiting[i].client.value, id, row, now); }
      }
      assert waiting[..|waiting|] == waiting;
    }

    /** resumeCurrentForClient, resumeCurrentForServer and resumeForClientless. */
    method Deliver(online: Online, who: Option<ClientId>, id: OperationId, row: Operation, now: int)
      requires Valid()
      modifies this
      ensures Valid() && View() == ResumeCurrent(old(View()), online, who, id, row, now)
    {
      if stopped { return; }
      if row.state.Installed? {
        if who.Some? { EmitOne(who.value, id, row, now); } else if row.server { ExecuteOwn(online, id, row, now); }
      } else {
        if who.Some? || row.server { AddWatch(id, row, who); }
        DispatchOne(online, id, row, now);
      }
    }

    /** A waiter's own timer. */
    method WaiterExpired(id: OperationId, i: nat)
      requires Valid()
      modifies this`waiters
      ensures Valid() && View() == TimeOut(old(View()), id, i)
    {
      TimeOutKeeps(View(), id, i);
      if id !in waiters || i >= |waiters[id]| { return; }
      var left := waiters[id][..i] + waiters[id][i + 1..];
      if left == [] { ClearWaiters(id); } else { waiters := waiters[id := left]; }
    }

    /** The retry of an operation ends, alone or with the waiting for it. */
    method EndRetry(id: OperationId, waiting: bool)
      requires Valid()
      modifies this`retries, this`waiters
      ensures Valid() && View() == if waiting then Forget(old(View()), {id})
                                   else old(View()).(retries := old(retries) - {id})
    {
      CancelRetry(id);
      if waiting { ClearWaiters(id); }
      FewerKeeps(old(View()), View());
    }

    method DropClient(client: ClientId)
      requires Valid()
      modifies this`waiters
      ensures Valid() && View() == RemoveClient(old(View()), client)
    {
      RemoveClientKeeps(View(), client);
      DropWaitersOf(client);
    }

    method DropWaitersOf(client: ClientId)
      modifies this`waiters
      ensures View() == RemoveClient(old(View()), client)
    {
      var left := waiters.Keys;
      while left != {}
        invariant left <= old(waiters).Keys && left <= waiters.Keys
        invariant forall o ::
                    o in waiters <==> o in old(waiters) && (o in left || WithoutClient(old(waiters)[o], client) != [])
        invariant forall o :: o in waiters ==>
                    waiters[o] == if o in left then old(waiters)[o] else WithoutClient(old(waiters)[o], client)
      {
        var id :| id in left;
        var kept := WithoutClient(waiters[id], client);
        if kept == [] { waiters := waiters - {id}; } else { waiters := waiters[id := kept]; }
        left := left - {id};
      }
    }

    /** History only: these operations are retired from here on. */
    ghost method Record(ids: set<OperationId>)
      requires Valid()
      modifies this`sent
      ensures Valid() && View() == old(View()).(sent := old(sent) + [Retired(ids)])
    {
      sent := sent + [Retired(ids)];
    }

    method Stop()
      requires Valid()
      modifies this
      ensures Valid() && View() == Shutdown(old(View()))
    {
      stopped := true;
      retries, waiters := map[], map[];
    }
  }
}
