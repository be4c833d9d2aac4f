/**
 The per-daemon gate: a chain of promises, each caller waiting for the one before it. The gate's map entry is made by
 the first user and dropped by the last. Registration, disconnect, device removal and every gated transaction run
 inside it; shutdown does not.
 */
module GenerationGate {
  import opened Store

  type CallId = nat
  type GateRef = nat
  type Connection = nat
  type TxId = nat

  /** Each call makes one promise, so the promise is named by its call; None is a promise resolved from the start. */
  type Promise = Option<CallId>

  datatype Gate = Gate(daemon: DaemonId, tail: Promise, users: nat)

  datatype Gates = Gates(
    table: map<DaemonId, GateRef>, objects: map<GateRef, Gate>, nextGate: GateRef, released: set<CallId>)

  /** A caller between its arrival and its departure. */
  datatype Ticket = Ticket(daemon: DaemonId, gate: GateRef, previous: Promise)

  function Open(g: Gates, d: DaemonId): Gates {
    if d in g.table then g
    else g.(table := g.table[d := g.nextGate], objects := g.objects[g.nextGate := Gate(d, None, 0)],
        nextGate := g.nextGate + 1)
  }

  predicate Sound(g: Gates) {
    forall d :: d in g.table ==> g.table[d] in g.objects
  }

  function Arrive(g: Gates, d: DaemonId, k: CallId): (Gates, Ticket)
    requires Sound(g)
  {
    var o := Open(g, d);
    var gate := o.objects[o.table[d]];
    (o.(objects := o.objects[o.table[d] := gate.(users := gate.users + 1, tail := Some(k))]),
     Ticket(d, o.table[d], gate.tail))
  }

  predicate MayEnter(g: Gates, t: Ticket) { t.previous.None? || t.previous.value in g.released }

  function Depart(g: Gates, t: Ticket, k: CallId): Gates {
    if t.gate !in g.objects then g
    else
      var gate := g.objects[t.gate];
      var users := if gate.users > 0 then gate.users - 1 else 0;
      var left := g.(released := g.released + {k}, objects := g.objects[t.gate := gate.(users := users)]);
      if users == 0 && t.daemon in g.table && g.table[t.daemon] == t.gate then left.(table := g.table - {t.daemon})
      else left
  }

  // ---------------------------------------------------------------- the lock

  datatype Waiter = Waiter(ticket: Ticket, running: bool)

  type Orders = map<DaemonId, seq<CallId>>

  function Order(orders: Orders, d: DaemonId): seq<CallId> { if d in orders then orders[d] else [] }

  /** Callers between arrival and departure, in order in `queue`; `arrived` and `entered` remember all of them. */
  datatype Lock = Lock(
    gates: Gates, calls: map<CallId, Waiter>, nextCall: CallId, queue: Orders, arrived: Orders, entered: Orders)

  function ArriveAt(l: Lock, d: DaemonId): Lock
    requires Sound(l.gates)
  {
    var (gates, ticket) := Arrive(l.gates, d, l.nextCall);
    Lock(gates, l.calls[l.nextCall := Waiter(ticket, false)], l.nextCall + 1,
         l.queue[d := Order(l.queue, d) + [l.nextCall]], l.arrived[d := Order(l.arrived, d) + [l.nextCall]], l.entered)
  }

  function EnterGate(l: Lock, k: CallId): Lock {
    if k in l.calls && !l.calls[k].running && MayEnter(l.gates, l.calls[k].ticket) then
      var d := l.calls[k].ticket.daemon;
      l.(calls := l.calls[k := l.calls[k].(running := true)], entered := l.entered[d := Order(l.entered, d) + [k]])
    else l
  }

  function LeaveGate(l: Lock, k: CallId): Lock {
    if k in l.calls && l.calls[k].running then
      var d := l.calls[k].ticket.daemon;
      var q := Order(l.queue, d);
      l.(gates := Depart(l.gates, l.calls[k].ticket, k), calls := l.calls - {k},
         queue := l.queue[d := if q == [] then [] else q[1..]])
    else l
  }

  ghost predicate Linked(l: Lock, d: DaemonId, q: seq<CallId>, i: nat)
    requires i < |q|
  {
    && q[i] in l.calls && q[i] !in l.gates.released && q[i] < l.nextCall
    && d in l.gates.table && l.calls[q[i]].ticket.daemon == d && l.calls[q[i]].ticket.gate == l.gates.table[d]
    && (if i == 0 then MayEnter(l.gates, l.calls[q[i]].ticket)
        else q[i - 1] < q[i] && l.calls[q[i]].ticket.previous == Some(q[i - 1]) && !l.calls[q[i]].running)
  }

  ghost predicate ChainInv(l: Lock, d: DaemonId) {
    forall i :: 0 <= i < |Order(l.queue, d)| ==> Linked(l, d, Order(l.queue, d), i)
  }

  ghost predicate TableInv(l: Lock, d: DaemonId) {
    var q := Order(l.queue, d);
    && (d in l.gates.table <==> q != [])
    && (d in l.gates.table ==>
          && l.gates.table[d] in l.gates.objects && l.gates.table[d] < l.gates.nextGate
          && l.gates.objects[l.gates.table[d]] == Gate(d, Some(q[|q| - 1]), |q|))
  }

  /** The part of a queue that has not entered. */
  ghost function Outside(l: Lock, q: seq<CallId>): seq<CallId> {
    if q != [] && q[0] in l.calls && l.calls[q[0]].running then q[1..] else q
  }

  ghost predicate OrderInv(l: Lock, d: DaemonId) {
    Order(l.arrived, d) == Order(l.entered, d) + Outside(l, Order(l.queue, d))
  }

  ghost predicate Queued(l: Lock, k: CallId) { k in l.calls ==> k in Order(l.queue, l.calls[k].ticket.daemon) }

  ghost predicate LockInv(l: Lock) {
    && (forall d :: ChainInv(l, d)) && (forall d :: TableInv(l, d)) && (forall d :: OrderInv(l, d))
    && (forall k :: k in l.calls ==> Queued(l, k))
    && (forall k :: k in l.gates.released ==> k < l.nextCall)
  }

  lemma {:induction false} Ascends(l: Lock, d: DaemonId, i: nat, j: nat)
    requires ChainInv(l, d) && i < j < |Order(l.queue, d)|
    ensures Order(l.queue, d)[i] < Order(l.queue, d)[j]
    decreases j - i
  {
    var q := Order(l.queue, d);
    assert Linked(l, d, q, j);
    if i < j - 1 { Ascends(l, d, i, j - 1); }
  }

  lemma Position(l: Lock, k: CallId) returns (d: DaemonId, i: nat)
    requires LockInv(l) && k in l.calls
    ensures d == l.calls[k].ticket.daemon && i < |Order(l.queue, d)| && Order(l.queue, d)[i] == k
    ensures Linked(l, d, Order(l.queue, d), i)
    ensures (l.calls[k].running || MayEnter(l.gates, l.calls[k].ticket) ==> i == 0)
  {
    d := l.calls[k].ticket.daemon;
    assert Queued(l, k) && ChainInv(l, d);
    i :| 0 <= i < |Order(l.queue, d)| && Order(l.queue, d)[i] == k;
    if i > 0 { assert Linked(l, d, Order(l.queue, d), i - 1); }
  }

  /** A step at one daemon leaves another daemon's chain as it was. */
  lemma OtherDaemonKept(l: Lock, m: Lock, d: DaemonId)
    requires ChainInv(l, d) && TableInv(l, d) && OrderInv(l, d)
    requires Order(m.queue, d) == Order(l.queue, d) && Order(m.arrived, d) == Order(l.arrived, d)
    requires Order(m.entered, d) == Order(l.entered, d)
    requires l.nextCall <= m.nextCall && l.gates.nextGate <= m.gates.nextGate && l.gates.released <= m.gates.released
    requires d in m.gates.table <==> d in l.gates.table
    requires d in l.gates.table ==>
               && m.gates.table[d] == l.gates.table[d] && l.gates.table[d] in l.gates.objects
               && l.gates.table[d] in m.gates.objects
               && m.gates.objects[l.gates.table[d]] == l.gates.objects[l.gates.table[d]]
    requires forall k :: k in l.calls && l.calls[k].ticket.daemon == d && k < l.nextCall ==>
               k in m.calls && m.calls[k] == l.calls[k] && (k in m.gates.released ==> k in l.gates.released)
    ensures ChainInv(m, d) && TableInv(m, d) && OrderInv(m, d)
  {
    var q := Order(l.queue, d);
    forall i | 0 <= i < |q| ensures Linked(m, d, q, i) { assert Linked(l, d, q, i); }
    if q != [] { assert Linked(l, d, q, 0); }
  }

  lemma ArriveChain(l: Lock, d: DaemonId)
    requires LockInv(l) && Sound(l.gates)
    ensures ChainInv(ArriveAt(l, d), d)
  {
    var m := ArriveAt(l, d);
    var q := Order(l.queue, d);
    var p := q + [l.nextCall];
    assert ChainInv(l, d) && TableInv(l, d);
    forall i | 0 <= i < |p|
      ensures Linked(m, d, p, i)
    {
      if i < |q| { assert Linked(l, d, q, i); } else if i > 0 { assert Linked(l, d, q, i - 1); }
    }
  }

  lemma ArriveTable(l: Lock, d: DaemonId)
    requires LockInv(l) && Sound(l.gates)
    ensures TableInv(ArriveAt(l, d), d)
  {
    assert ChainInv(l, d) && TableInv(l, d);
  }

  lemma ArriveOutside(l: Lock, d: DaemonId)
    requires LockInv(l) && Sound(l.gates)
    ensures Outside(ArriveAt(l, d), Order(l.queue, d) + [l.nextCall]) == Outside(l, Order(l.queue, d)) + [l.nextCall]
  {
    var q := Order(l.queue, d);
    assert ChainInv(l, d);
    if q != [] {
      assert Linked(l, d, q, 0);
      assert (q + [l.nextCall])[1..] == q[1..] + [l.nextCall];
    }
  }

  lemma ArriveOrder(l: Lock, d: DaemonId)
    requires LockInv(l) && Sound(l.gates)
    ensures TableInv(ArriveAt(l, d), d) && OrderInv(ArriveAt(l, d), d)
  {
    ArriveTable(l, d);
    ArriveOutside(l, d);
    assert OrderInv(l, d);
  }

  lemma SoundLock(l: Lock)
    requires LockInv(l)
    ensures Sound(l.gates)
  {
    forall d | d in l.gates.table ensures l.gates.table[d] in l.gates.objects { assert TableInv(l, d); }
  }

  lemma ArriveOther(l: Lock, d: DaemonId, x: DaemonId)
    requires LockInv(l) && Sound(l.gates) && x != d
    ensures var m := ArriveAt(l, d); ChainInv(m, x) && TableInv(m, x) && OrderInv(m, x)
  {
    assert ChainInv(l, x) && TableInv(l, x) && OrderInv(l, x) && TableInv(l, d);
    OtherDaemonKept(l, ArriveAt(l, d), x);
  }

  lemma ArriveQueued(l: Lock, d: DaemonId, k: CallId)
    requires LockInv(l) && Sound(l.gates)
    ensures Queued(ArriveAt(l, d), k)
  {
    if k in l.calls && k != l.nextCall { assert Queued(l, k); }
  }

  lemma ArriveKeeps(l: Lock, d: DaemonId)
    requires LockInv(l) && Sound(l.gates)
    ensures LockInv(ArriveAt(l, d))
  {
    var m := ArriveAt(l, d);
    ArriveChain(l, d);
    ArriveOrder(l, d);
    forall x ensures ChainInv(m, x) && TableInv(m, x) && OrderInv(m, x) { if x != d { ArriveOther(l, d, x); } }
    forall k | k in m.calls ensures Queued(m, k) { ArriveQueued(l, d, k); }
  }

  lemma EnterKeepsOwn(l: Lock, k: CallId)
    requires LockInv(l) && EnterGate(l, k) != l
    ensures var d := l.calls[k].ticket.daemon;
            ChainInv(EnterGate(l, k), d) && TableInv(EnterGate(l, k), d) && OrderInv(EnterGate(l, k), d)
  {
    var m := EnterGate(l, k);
    var d, at := Position(l, k);
    var q := Order(l.queue, d);
    assert ChainInv(l, d) && TableInv(l, d) && OrderInv(l, d);
    forall i | 0 <= i < |q| ensures Linked(m, d, q, i) { assert Linked(l, d, q, i); if i > 0 { Ascends(l, d, 0, i); } }
    assert q == [k] + q[1..];
  }

  lemma EnterKeeps(l: Lock, k: CallId)
    requires LockInv(l)
    ensures LockInv(EnterGate(l, k))
  {
    var m := EnterGate(l, k);
    if m != l {
      EnterKeepsOwn(l, k);
      forall x ensures ChainInv(m, x) && TableInv(m, x) && OrderInv(m, x) {
        assert ChainInv(l, x) && TableInv(l, x) && OrderInv(l, x);
        if x != l.calls[k].ticket.daemon { OtherDaemonKept(l, m, x); }
      }
      forall j | j in m.calls ensures Queued(m, j) { assert Queued(l, j); }
    }
  }

  lemma LeaveKeepsOwn(l: Lock, k: CallId)
    requires LockInv(l) && k in l.calls && l.calls[k].running
    ensures var d := l.calls[k].ticket.daemon;
            ChainInv(LeaveGate(l, k), d) && TableInv(LeaveGate(l, k), d) && OrderInv(LeaveGate(l, k), d)
  {
    var m := LeaveGate(l, k);
    var d, at := Position(l, k);
    var q := Order(l.queue, d);
    assert ChainInv(l, d) && TableInv(l, d) && OrderInv(l, d);
    assert Order(m.queue, d) == q[1..];
    forall i | 0 <= i < |q[1..]| ensures Linked(m, d, q[1..], i) {
      Ascends(l, d, 0, i + 1);
      assert Linked(l, d, q, i + 1);
      assert q[1..][i] == q[i + 1];
    }
    if q[1..] != [] { assert Linked(l, d, q, 1); }
  }

  lemma LeaveOther(l: Lock, k: CallId, x: DaemonId)
    requires LockInv(l) && k in l.calls && l.calls[k].running && x != l.calls[k].ticket.daemon
    ensures var m := LeaveGate(l, k); ChainInv(m, x) && TableInv(m, x) && OrderInv(m, x)
  {
    var d, at := Position(l, k);
    assert ChainInv(l, x) && TableInv(l, x) && OrderInv(l, x) && TableInv(l, d);
    OtherDaemonKept(l, LeaveGate(l, k), x);
  }

  lemma LeaveQueued(l: Lock, k: CallId, j: CallId)
    requires LockInv(l) && k in l.calls && l.calls[k].running && j in LeaveGate(l, k).calls
    ensures Queued(LeaveGate(l, k), j)
  {
    var d, at := Position(l, k);
    var x, i := Position(l, j);
    if x == d { assert Order(l.queue, d)[1..][i - 1] == j; }
  }

  lemma LeaveKeeps(l: Lock, k: CallId)
    requires LockInv(l)
    ensures LockInv(LeaveGate(l, k))
  {
    var m := LeaveGate(l, k);
    if k in l.calls && l.calls[k].running {
      LeaveKeepsOwn(l, k);
      forall x ensures ChainInv(m, x) && TableInv(m, x) && OrderInv(m, x) {
        if x != l.calls[k].ticket.daemon { LeaveOther(l, k, x); }
      }
      forall j | j in m.calls ensures Queued(m, j) { LeaveQueued(l, k, j); }
      var d, at := Position(l, k);
    }
  }

  /** Two running callers of one daemon are the same caller. */
  lemma Exclusive(l: Lock, j: CallId, k: CallId)
    requires LockInv(l) && j in l.calls && k in l.calls && l.calls[j].running && l.calls[k].running
    requires l.calls[j].ticket.daemon == l.calls[k].ticket.daemon
    ensures j == k
  {
    var d, i := Position(l, j);
    var c, h := Position(l, k);
  }

  /** The callers of one daemon, waiting or inside. */
  ghost function CallersOf(l: Lock, d: DaemonId): set<CallId> { set k | k in l.calls && l.calls[k].ticket.daemon == d }

  ghost function Elements(q: seq<CallId>): set<CallId> { set i | 0 <= i < |q| :: q[i] }

  lemma {:induction false} DistinctElements(q: seq<CallId>)
    requires forall i, j :: 0 <= i < j < |q| ==> q[i] != q[j]
    ensures |Elements(q)| == |q|
    decreases |q|
  {
    if q == [] {
      assert Elements(q) == {};
    } else {
      var n := |q| - 1;
      DistinctElements(q[..n]);
      assert Elements(q) == Elements(q[..n]) + {q[n]};
    }
  }

  /** A queue lists exactly its daemon's callers, each once. */
  lemma QueueIsCallers(l: Lock, d: DaemonId)
    requires LockInv(l)
    ensures Elements(Order(l.queue, d)) == CallersOf(l, d) && |CallersOf(l, d)| == |Order(l.queue, d)|
  {
    var q := Order(l.queue, d);
    assert ChainInv(l, d);
    forall i, j | 0 <= i < j < |q| ensures q[i] != q[j] { Ascends(l, d, i, j); }
    DistinctElements(q);
    forall k | k in CallersOf(l, d) ensures k in Elements(q) { assert Queued(l, k); }
    forall k | k in Elements(q) ensures k in CallersOf(l, d) {
      var i :| 0 <= i < |q| && q[i] == k;
      assert Linked(l, d, q, i);
    }
  }

  // ---------------------------------------------------------------- the gate table object

  const NO_LOCK: Lock := Lock(Gates(map[], map[], 0, {}), map[], 0, map[], map[], map[])

  /** The first in line need not wait, and any other waits for exactly the one before it. */
  lemma ArrivalWaits(l: Lock, d: DaemonId)
    requires LockInv(l) && Sound(l.gates)
    ensures var q, t := Order(l.queue, d), ArriveAt(l, d).calls[l.nextCall].ticket;
            if q == [] then MayEnter(l.gates, t) else t.previous == Some(q[|q| - 1])
  {
    assert TableInv(l, d);
  }

  /** When a caller leaves, the next in line may go in, and the last to leave takes the entry with it. */
  lemma DepartureWakes(l: Lock, k: CallId)
    requires LockInv(l) && k in l.calls && l.calls[k].running
    ensures var m, d := LeaveGate(l, k), l.calls[k].ticket.daemon;
            var q := Order(m.queue, d);
            && (d in m.gates.table <==> q != [])
            && (q != [] ==> q[0] in m.calls && MayEnter(m.gates, m.calls[q[0]].ticket))
  {
    LeaveKeepsOwn(l, k);
    var m, d := LeaveGate(l, k), l.calls[k].ticket.daemon;
    if Order(m.queue, d) != [] { assert Linked(m, d, Order(m.queue, d), 0); }
  }

  class GateTable {
    var table: map<DaemonId, GateRef>
    var objects: map<GateRef, Gate>
    var nextGate: GateRef
    var released: set<CallId>
    /** The callers between arrival and departure, with their order. */
    ghost var lock: Lock

    ghost function View(): Gates
      reads this
    {
      Gates(table, objects, nextGate, released)
    }

    ghost predicate Valid()
      reads this
    {
      LockInv(lock) && lock.gates == View()
    }

    constructor ()
      ensures Valid() && lock == NO_LOCK
    {
      table, objects, nextGate, released := map[], map[], 0, {};
      lock := NO_LOCK;
    }

    method Enqueue(d: DaemonId, k: CallId) returns (t: Ticket)
      requires Valid() && k == lock.nextCall
      modifies this
      ensures Valid() && Sound(old(lock).gates) && lock == ArriveAt(old(lock), d) && t == lock.calls[k].ticket
      ensures var q := Order(old(lock).queue, d);
              if q == [] then MayEnter(View(), t) else t.previous == Some(q[|q| - 1])
    {
      SoundLock(lock);
      ArriveKeeps(lock, d);
      ArrivalWaits(lock, d);
      if d !in table {
        table, objects, nextGate := table[d := nextGate], objects[nextGate := Gate(d, None, 0)], nextGate + 1;
      }
      var gate := objects[table[d]];
      gate := gate.(users := gate.users + 1);
      var previous := gate.tail;
      gate := gate.(tail := Some(k));
      objects := objects[table[d] := gate];
      t := Ticket(d, table[d], previous);
      lock := ArriveAt(lock, d);
    }

    /** The await of the promise before it is over. */
    ghost method Admit(k: CallId)
      requires Valid()
      modifies this`lock
      ensures Valid() && lock == EnterGate(old(lock), k)
    {
      EnterKeeps(lock, k);
      lock := EnterGate(lock, k);
    }

    /** The finally clause of the caller inside. */
    method Release(t: Ticket, k: CallId)
      requires Valid() && k in lock.calls && lock.calls[k] == Waiter(t, true)
      modifies this
      ensures Valid() && lock == LeaveGate(old(lock), k)
      ensures var q := Order(lock.queue, t.daemon);
              && (t.daemon in table <==> q != [])
              && (q != [] ==> q[0] in lock.calls && MayEnter(View(), lock.calls[q[0]].ticket))
    {
      InsideHasGate(lock, k);
      LeaveKeeps(lock, k);
      DepartureWakes(lock, k);
      released := released + {k};
      var gate := objects[t.gate];
      objects := objects[t.gate := gate.(users := gate.users - 1)];
      if objects[t.gate].users == 0 && t.daemon in table && table[t.daemon] == t.gate {
        table := table - {t.daemon};
      }
      lock := LeaveGate(lock, k);
    }
  }

  lemma InsideHasGate(l: Lock, k: CallId)
    requires LockInv(l) && k in l.calls
    ensures l.calls[k].ticket.gate in l.gates.objects && l.gates.objects[l.calls[k].ticket.gate].users > 0
  {
    var d, i := Position(l, k);
    assert TableInv(l, d);
  }

  // ---------------------------------------------------------------- the bodies run inside it

  datatype Tx = Tx(id: TxId, claim: Option<Connection>)

  /** What the outside sees of transactions and connection changes. */
  datatype Mark = Began(daemon: DaemonId, tx: TxId) | Committed(daemon: DaemonId, tx: TxId) | Swapped(daemon: DaemonId)

  datatype State = State(
    lock: Lock, txs: map<CallId, Tx>, current: map<DaemonId, Connection>, nextTx: TxId, shut: bool, log: seq<Mark>)

  const EMPTY: State := State(NO_LOCK, map[], map[], 0, false, [])

  datatype Event =
    | Queue(daemon: DaemonId)
    | Enter(call: CallId)
    /** BEGIN; a transaction for a connection first asserts that it is the current one. */
    | Begin(call: CallId, claim: Option<Connection>)
    | Commit(call: CallId)
    /** Registration installs a connection; disconnect, removal and a failed handshake take it away. */
    | Swap(call: CallId, connection: Option<Connection>)
    | Leave(call: CallId)
    | Shutdown

  function Current(s: State, d: DaemonId): Option<Connection> { if d in s.current then Some(s.current[d]) else None }

  /** A body acts only while it runs, and swaps, begins and leaves only outside its own transactions. */
  predicate Idle(s: State, k: CallId) { k in s.lock.calls && s.lock.calls[k].running && k !in s.txs }

  function DaemonOf(s: State, k: CallId): DaemonId { if k in s.lock.calls then s.lock.calls[k].ticket.daemon else 0 }

  function Step(s: State, e: Event): State {
    match e
    case Queue(d) => if Sound(s.lock.gates) then s.(lock := ArriveAt(s.lock, d)) else s
    case Enter(k) => s.(lock := EnterGate(s.lock, k))
    case Begin(k, claim) =>
      if Idle(s, k) && (claim.Some? ==> Current(s, DaemonOf(s, k)) == claim)
      then s.(txs := s.txs[k := Tx(s.nextTx, claim)], nextTx := s.nextTx + 1,
          log := s.log + [Began(DaemonOf(s, k), s.nextTx)])
      else s
    case Commit(k) =>
      if k in s.txs then s.(txs := s.txs - {k}, log := s.log + [Committed(DaemonOf(s, k), s.txs[k].id)]) else s
    case Swap(k, c) =>
      if Idle(s, k) && !s.shut then
        var d := DaemonOf(s, k);
        s.(current := if c.Some? then s.current[d := c.value] else s.current - {d}, log := s.log + [Swapped(d)])
      else s
    case Leave(k) => if Idle(s, k) then s.(lock := LeaveGate(s.lock, k)) else s
    case Shutdown => s.(shut := true, current := map[])
  }

  function After(events: seq<Event>): State {
    if events == [] then EMPTY else Step(After(events[..|events| - 1]), events[|events| - 1])
  }

  /** No swap after the transaction began. */
  ghost predicate Quiet(log: seq<Mark>, d: DaemonId, tx: TxId) {
    forall i, j :: 0 <= i < j < |log| && log[i] == Began(d, tx) ==> log[j] != Swapped(d)
  }

  ghost predicate TxInv(s: State, k: CallId) {
    k in s.txs ==>
      && k in s.lock.calls && s.lock.calls[k].running && s.txs[k].id < s.nextTx
      && Quiet(s.log, DaemonOf(s, k), s.txs[k].id)
      && (s.txs[k].claim.Some? && !s.shut ==> Current(s, DaemonOf(s, k)) == s.txs[k].claim)
  }

  /** No swap between a transaction's begin and its commit. */
  ghost predicate LogInv(log: seq<Mark>) {
    forall i, m :: 0 <= i < m < |log| && log[i].Began? && log[m] == Committed(log[i].daemon, log[i].tx) ==>
      NoSwap(log, i, m, log[i].daemon)
  }

  ghost predicate NoSwap(log: seq<Mark>, i: nat, m: nat, d: DaemonId)
    requires m <= |log|
  {
    forall j :: i < j < m ==> log[j] != Swapped(d)
  }

  ghost predicate Inv(s: State) {
    && LockInv(s.lock) && LogInv(s.log)
    && (forall k :: k in s.txs ==> TxInv(s, k))
    && (forall i :: 0 <= i < |s.log| && s.log[i].Began? ==> s.log[i].tx < s.nextTx)
  }

  lemma LogGrows(log: seq<Mark>, mark: Mark)
    requires LogInv(log) && (mark.Committed? ==> Quiet(log, mark.daemon, mark.tx))
    ensures LogInv(log + [mark])
  {
    var to := log + [mark];
    forall i, m | 0 <= i < m < |to| && to[i].Began? && to[m] == Committed(to[i].daemon, to[i].tx)
      ensures NoSwap(to, i, m, to[i].daemon)
    {
      assert to[i] == log[i];
      if m < |log| { assert NoSwap(log, i, m, log[i].daemon); }
    }
  }

  lemma BeginKeeps(s: State, k: CallId, claim: Option<Connection>)
    requires Inv(s)
    ensures Inv(Step(s, Begin(k, claim)))
  {
    var t := Step(s, Begin(k, claim));
    if t != s {
      LogGrows(s.log, Began(DaemonOf(s, k), s.nextTx));
      forall j | j in t.txs ensures TxInv(t, j) { if j != k { assert TxInv(s, j); } }
    }
  }

  lemma CommitKeeps(s: State, k: CallId)
    requires Inv(s)
    ensures Inv(Step(s, Commit(k)))
  {
    var t := Step(s, Commit(k));
    if k in s.txs {
      assert TxInv(s, k);
      LogGrows(s.log, Committed(DaemonOf(s, k), s.txs[k].id));
      forall j | j in t.txs ensures TxInv(t, j) { assert TxInv(s, j); }
    }
  }

  lemma SwapKeeps(s: State, k: CallId, c: Option<Connection>)
    requires Inv(s)
    ensures Inv(Step(s, Swap(k, c)))
  {
    var t := Step(s, Swap(k, c));
    if Idle(s, k) && !s.shut {
      LogGrows(s.log, Swapped(DaemonOf(s, k)));
      forall j | j in t.txs ensures TxInv(t, j) {
        assert TxInv(s, j);
        if DaemonOf(s, j) == DaemonOf(s, k) { Exclusive(s.lock, j, k); }
      }
    }
  }

  lemma QueueKeeps(s: State, d: DaemonId)
    requires Inv(s)
    ensures Inv(Step(s, Queue(d)))
  {
    var t := Step(s, Queue(d));
    SoundLock(s.lock);
    ArriveKeeps(s.lock, d);
    forall k | k in t.txs ensures TxInv(t, k) { assert TxInv(s, k); var x, i := Position(s.lock, k); }
  }

  lemma EnterStepKeeps(s: State, k: CallId)
    requires Inv(s)
    ensures Inv(Step(s, Enter(k)))
  {
    var t := Step(s, Enter(k));
    EnterKeeps(s.lock, k);
    forall j | j in t.txs ensures TxInv(t, j) { assert TxInv(s, j); }
  }

  lemma LeaveStepKeeps(s: State, k: CallId)
    requires Inv(s)
    ensures Inv(Step(s, Leave(k)))
  {
    var t := Step(s, Leave(k));
    LeaveKeeps(s.lock, k);
    forall j | j in t.txs ensures TxInv(t, j) { assert TxInv(s, j); }
  }

  lemma StepKeeps(s: State, e: Event)
    requires Inv(s)
    ensures Inv(Step(s, e))
  {
    var t := Step(s, e);
    match e {
      case Queue(d) => QueueKeeps(s, d);
      case Enter(k) => EnterStepKeeps(s, k);
      case Begin(k, claim) => BeginKeeps(s, k, claim);
      case Commit(k) => CommitKeeps(s, k);
      case Swap(k, c) => SwapKeeps(s, k, c);
      case Leave(k) => LeaveStepKeeps(s, k);
      case Shutdown =>
        forall j | j in t.txs ensures TxInv(t, j) { assert TxInv(s, j); }
    }
  }

  lemma {:induction false} Always(events: seq<Event>)
    ensures Inv(After(events))
    decreases |events|
  {
    if events != [] {
      Always(events[..|events| - 1]);
      StepKeeps(After(events[..|events| - 1]), events[|events| - 1]);
    }
  }

  /** At most one caller of a daemon is inside its gate. */
  lemma {:induction false} MutualExclusion(events: seq<Event>, j: CallId, k: CallId)
    requires var l := After(events).lock;
             && j in l.calls && k in l.calls && l.calls[j].running && l.calls[k].running
             && l.calls[j].ticket.daemon == l.calls[k].ticket.daemon
    ensures j == k
  {
    Always(events);
    Exclusive(After(events).lock, j, k);
  }

  /** Callers enter in the order in which they arrived, and none is passed over. */
  lemma {:induction false} FirstInFirstOut(events: seq<Event>, d: DaemonId)
    ensures Order(After(events).lock.entered, d) <= Order(After(events).lock.arrived, d)
  {
    Always(events);
    assert OrderInv(After(events).lock, d);
  }

  /** A daemon has a gate exactly while some caller is waiting or inside, and `users` counts those callers. */
  lemma {:induction false} EntryExactlyWhileUsed(events: seq<Event>, d: DaemonId)
    ensures var l := After(events).lock;
            && (d in l.gates.table <==> CallersOf(l, d) != {})
            && (d in l.gates.table ==>
                  && l.gates.table[d] in l.gates.objects
                  && l.gates.objects[l.gates.table[d]].users == |CallersOf(l, d)|)
  {
    Always(events);
    var l := After(events).lock;
    assert TableInv(l, d);
    QueueIsCallers(l, d);
    if Order(l.queue, d) != [] { assert Order(l.queue, d)[0] in Elements(Order(l.queue, d)); }
  }

  /** The gate never blocks its first caller, so the last departure before it always wakes it. */
  lemma {:induction false} HeadNeverBlocked(events: seq<Event>, d: DaemonId)
    requires Order(After(events).lock.queue, d) != []
    ensures var l := After(events).lock;
            var k := Order(l.queue, d)[0];
            k in l.calls && (l.calls[k].running || MayEnter(l.gates, l.calls[k].ticket))
  {
    Always(events);
    assert ChainInv(After(events).lock, d);
    assert Linked(After(events).lock, d, Order(After(events).lock.queue, d), 0);
  }

  /** Shutdown aside, no connection is swapped or removed between the start and the commit of a gated transaction. */
  lemma {:induction false} NoSwapInsideTransaction(events: seq<Event>, i: nat, j: nat, m: nat, d: DaemonId, tx: TxId)
    requires i < j < m < |After(events).log|
    requires After(events).log[i] == Began(d, tx) && After(events).log[m] == Committed(d, tx)
    ensures After(events).log[j] != Swapped(d)
  {
    Always(events);
    assert NoSwap(After(events).log, i, m, d);
  }

  /** The connection a transaction was begun for is the current one as long as it runs, unless the hub shut down. */
  lemma {:induction false} ClaimStaysCurrent(events: seq<Event>, k: CallId)
    requires k in After(events).txs && After(events).txs[k].claim.Some? && !After(events).shut
    ensures Current(After(events), DaemonOf(After(events), k)) == After(events).txs[k].claim
  {
    Always(events);
    assert TxInv(After(events), k);
  }

  method Follow(gates: GateTable, s: State, e: Event)
    requires gates.Valid() && gates.lock == s.lock
    modifies gates
    ensures gates.Valid() && gates.lock == Step(s, e).lock
  {
    match e {
      case Queue(d) => var _ := gates.Enqueue(d, s.lock.nextCall);
      case Enter(k) => gates.Admit(k);
      case Leave(k) => if Idle(s, k) { gates.Release(s.lock.calls[k].ticket, k); }
      case _ =>
    }
  }

  /** A gate table driven through any run is the one that the theorems above speak about. */
  method Drive(events: seq<Event>) returns (gates: GateTable)
    ensures fresh(gates) && gates.Valid() && gates.lock == After(events).lock
  {
    gates := new GateTable();
    var s := EMPTY;
    for i := 0 to |events|
      invariant fresh(gates) && gates.Valid() && s == After(events[..i]) && gates.lock == s.lock
    {
      assert events[..i + 1][..i] == events[..i];
      Follow(gates, s, events[i]);
      s := Step(s, events[i]);
    }
    assert events[..|events|] == events;
  }
}
