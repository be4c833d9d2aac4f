/**
 The registry of preview tunnels: one browser socket joined to one daemon-side connection. An open waits for the
 daemon's reply or a timer, whichever is first; whoever ends a tunnel decides whether its daemon is told.
 */
module Tunnels {
  import opened Sets
  import opened Store

  type ConnId = nat
  type ShortId = nat
  type Socket = nat

  /** The identity of one accepted open; a connection id may be used again after its entry is gone. */
  type Handle = nat

  datatype TunnelState = Connecting | Active | Broken | TimedOut

  /** The control messages of one tunnel. */
  datatype Message = ProxyOpen | ProxyClose

  /**
   `waiting` holds while the ready promise has its resolver and `armed` while its timer runs. `settles` counts the
   settlings of the promise and `ready` is its result; `removals` counts the removals from the table; `wire` lists
   what was sent to the daemon about this tunnel.
   */
  datatype Entry = Entry(
    conn: ConnId, daemon: DaemonId, shortId: ShortId, socket: Socket, state: TunnelState, waiting: bool,
    armed: bool, settles: nat, ready: bool, removals: nat, wire: seq<Message>)

  /** `entries` keeps the entries that have left the table. */
  datatype Registry = Registry(max: nat, conns: map<ConnId, Handle>, entries: map<Handle, Entry>, next: Handle)

  function Initial(max: nat): Registry { Registry(max, map[], map[], 0) }

  /** Calls the resolver if there still is one, which also stops the timer. */
  function Resolved(e: Entry, ok: bool, state: TunnelState): Entry {
    if e.waiting then e.(state := state, waiting := false, armed := false, settles := e.settles + 1, ready := ok) else e
  }

  /** Out of the table; `tell` says whether a proxyClose is sent. */
  function Left(e: Entry, tell: bool): Entry {
    e.(removals := e.removals + 1, wire := if tell then e.wire + [ProxyClose] else e.wire)
  }

  function Dropped(e: Entry, tell: bool): Entry { Resolved(Left(e, tell), false, Broken) }

  ghost predicate Indexed(r: Registry) {
    && (forall id :: id in r.conns ==> r.conns[id] in r.entries && r.entries[r.conns[id]].conn == id)
    && (forall h :: h in r.entries ==> h < r.next)
  }

  predicate InTable(r: Registry, h: Handle) {
    h in r.entries && r.entries[h].conn in r.conns && r.conns[r.entries[h].conn] == h
  }

  function Update(r: Registry, h: Handle, e: Entry): Registry { r.(entries := r.entries[h := e]) }

  function Drop(r: Registry, id: ConnId, tell: bool): Registry {
    if id in r.conns && r.conns[id] in r.entries
    then Update(r, r.conns[id], Dropped(r.entries[r.conns[id]], tell)).(conns := r.conns - {id})
    else r
  }

  /** `id` is what the id generator returned, None for the empty string. */
  predicate Refused(r: Registry, id: Option<ConnId>) {
    |r.conns| >= r.max || id.None? || id.value in r.conns
  }

  function Opening(id: ConnId, daemon: DaemonId, shortId: ShortId, socket: Socket, sent: bool): Entry {
    Entry(id, daemon, shortId, socket, Connecting, true, true, 0, false, 0, if sent then [ProxyOpen] else [])
  }

  function Place(r: Registry, e: Entry): Registry {
    r.(entries := r.entries[r.next := e], conns := r.conns[e.conn := r.next], next := r.next + 1)
  }

  /** `sent` says whether the control channel took the proxyOpen or threw. */
  function Open(
    r: Registry, daemon: DaemonId, shortId: ShortId, socket: Socket, id: Option<ConnId>, sent: bool): Registry
  {
    if Refused(r, id) then r
    else
      var placed := Place(r, Opening(id.value, daemon, shortId, socket, sent));
      if sent then placed else Drop(placed, id.value, false)
  }

  function Expire(r: Registry, h: Handle): Registry {
    if h in r.entries && r.entries[h].armed then
      var e := r.entries[h];
      Update(r, h, e.(state := TimedOut, waiting := false, armed := false, settles := e.settles + 1, ready := false))
    else r
  }

  predicate OfDaemon(r: Registry, id: ConnId, daemon: DaemonId) {
    id in r.conns && r.conns[id] in r.entries && r.entries[r.conns[id]].daemon == daemon
  }

  predicate OfSocket(r: Registry, id: ConnId, expected: Option<Socket>) {
    id in r.conns && r.conns[id] in r.entries && (expected.Some? ==> r.entries[r.conns[id]].socket == expected.value)
  }

  function Close(r: Registry, id: ConnId, expected: Option<Socket>): Registry {
    if OfSocket(r, id, expected) then Drop(r, id, true) else r
  }

  function Data(r: Registry, daemon: DaemonId, id: ConnId, destroyed: bool, overLimit: bool): Registry {
    if OfDaemon(r, id, daemon) && !destroyed && overLimit then Drop(r, id, true) else r
  }

  function Opened(r: Registry, daemon: DaemonId, id: ConnId, ok: bool): Registry {
    if !OfDaemon(r, id, daemon) then r
    else
      var h := r.conns[id];
      var e := r.entries[h];
      if e.state.Connecting? && e.waiting then Update(r, h, Resolved(e, ok, if ok then Active else Broken))
      else if e.state.TimedOut? then Update(r, h, Left(e, ok)).(conns := r.conns - {id})
      else r
  }

  function Closed(r: Registry, daemon: DaemonId, id: ConnId): Registry {
    if OfDaemon(r, id, daemon) then Drop(r, id, false) else r
  }

  /** Every connection of `ids` leaves the table at once. */
  function DropAll(r: Registry, ids: set<ConnId>, tell: bool): Registry {
    r.(conns := r.conns - ids,
       entries := map h | h in r.entries ::
         if InTable(r, h) && r.entries[h].conn in ids then Dropped(r.entries[h], tell) else r.entries[h])
  }

  function DaemonConns(r: Registry, daemon: DaemonId): set<ConnId> {
    set id | id in r.conns && OfDaemon(r, id, daemon)
  }

  function RouteConns(r: Registry, shortId: ShortId): set<ConnId> {
    set id | id in r.conns && r.conns[id] in r.entries && r.entries[r.conns[id]].shortId == shortId
  }

  // ---------------------------------------------------------------- runs

  datatype Event =
    | OpenAsked(daemon: DaemonId, shortId: ShortId, socket: Socket, id: Option<ConnId>, sent: bool)
    | TimerFired(handle: Handle)
    | CloseAsked(conn: ConnId, expected: Option<Socket>)
    | DataArrived(daemon: DaemonId, conn: ConnId, destroyed: bool, overLimit: bool)
    | OpenedReply(daemon: DaemonId, conn: ConnId, ok: bool)
    | ClosedByPeer(daemon: DaemonId, conn: ConnId)
    | DaemonGone(daemon: DaemonId)
    | RouteGone(shortId: ShortId)

  function Step(r: Registry, e: Event): Registry {
    match e
    case OpenAsked(d, short, socket, id, sent) => Open(r, d, short, socket, id, sent)
    case TimerFired(h) => Expire(r, h)
    case CloseAsked(id, expected) => Close(r, id, expected)
    case DataArrived(d, id, destroyed, over) => Data(r, d, id, destroyed, over)
    case OpenedReply(d, id, ok) => Opened(r, d, id, ok)
    case ClosedByPeer(d, id) => Closed(r, d, id)
    case DaemonGone(d) => DropAll(r, DaemonConns(r, d), false)
    case RouteGone(short) => DropAll(r, RouteConns(r, short), true)
  }

  function After(max: nat, events: seq<Event>): Registry {
    if events == [] then Initial(max) else Step(After(max, events[..|events| - 1]), events[|events| - 1])
  }

  // ---------------------------------------------------------------- invariant

  ghost predicate EntryInv(e: Entry, inTable: bool) {
    && (e.waiting <==> e.state.Connecting?) && (e.waiting <==> e.armed) && (e.waiting ==> inTable)
    && e.settles == (if e.waiting then 0 else 1)
    && (e.ready <==> e.state.Active?)
    && e.removals == (if inTable then 0 else 1)
    && (inTable ==> e.wire == [ProxyOpen])
  }

  ghost predicate Inv(r: Registry) {
    && Indexed(r)
    && (forall h: Handle :: h < r.next ==> h in r.entries)
    && (forall h :: h in r.entries ==> EntryInv(r.entries[h], InTable(r, h)))
    && |r.conns| <= r.max
  }

  lemma RemoveSmaller(m: map<ConnId, Handle>, ids: set<ConnId>)
    ensures |m - ids| <= |m|
  {
    SubsetSmaller((m - ids).Keys, m.Keys);
  }

  lemma DropKeeps(r: Registry, id: ConnId, tell: bool)
    requires Inv(r)
    ensures Inv(Drop(r, id, tell))
  {
    if id in r.conns {
      var t := Drop(r, id, tell);
      RemoveSmaller(r.conns, {id});
      assert InTable(r, r.conns[id]);
      forall h | h in t.entries ensures EntryInv(t.entries[h], InTable(t, h)) {
        assert EntryInv(r.entries[h], InTable(r, h));
      }
    }
  }

  lemma PlacedEntry(r: Registry, e: Entry, h: Handle)
    requires Inv(r) && e.conn !in r.conns && h in Place(r, e).entries
    requires e == Opening(e.conn, e.daemon, e.shortId, e.socket, true)
    ensures var t := Place(r, e); EntryInv(t.entries[h], InTable(t, h))
  {
    if h != r.next { assert EntryInv(r.entries[h], InTable(r, h)); }
  }

  lemma PlacedIndexed(r: Registry, e: Entry)
    requires Indexed(r)
    ensures Indexed(Place(r, e))
  {
  }

  lemma PlaceKeeps(r: Registry, e: Entry)
    requires Inv(r) && e.conn !in r.conns && |r.conns| < r.max
    requires e == Opening(e.conn, e.daemon, e.shortId, e.socket, true)
    ensures Inv(Place(r, e))
  {
    var t := Place(r, e);
    PlacedIndexed(r, e);
    assert |t.conns| == |r.conns| + 1;
    forall h | h in t.entries ensures EntryInv(t.entries[h], InTable(t, h)) { PlacedEntry(r, e, h); }
  }

  lemma ThrownLeaves(r: Registry, e: Entry)
    requires e.conn !in r.conns
    ensures Drop(Place(r, e), e.conn, false)
         == r.(entries := r.entries[r.next := Dropped(e, false)], next := r.next + 1)
  {
    assert Place(r, e).conns - {e.conn} == r.conns;
  }

  lemma FailedKeeps(r: Registry, e: Entry, t: Registry)
    requires Inv(r) && e.conn !in r.conns && EntryInv(e, false)
    requires t == r.(entries := r.entries[r.next := e], next := r.next + 1)
    ensures Inv(t)
  {
    forall h | h in t.entries ensures EntryInv(t.entries[h], InTable(t, h)) {
      if h != r.next { assert EntryInv(r.entries[h], InTable(r, h)); }
    }
  }

  /** An open whose send throws leaves nothing but its own failed entry. */
  lemma ThrownKeeps(r: Registry, e: Entry)
    requires Inv(r) && e.conn !in r.conns && e == Opening(e.conn, e.daemon, e.shortId, e.socket, false)
    ensures Inv(Drop(Place(r, e), e.conn, false))
  {
    ThrownLeaves(r, e);
    FailedKeeps(r, Dropped(e, false), Drop(Place(r, e), e.conn, false));
  }

  lemma OpenKeeps(r: Registry, daemon: DaemonId, shortId: ShortId, socket: Socket, id: Option<ConnId>, sent: bool)
    requires Inv(r)
    ensures Inv(Open(r, daemon, shortId, socket, id, sent))
  {
    if !Refused(r, id) {
      var e := Opening(id.value, daemon, shortId, socket, sent);
      if sent { PlaceKeeps(r, e); } else { ThrownKeeps(r, e); }
    }
  }

  lemma AnswerKeeps(r: Registry, h: Handle, ok: bool)
    requires Inv(r) && h in r.entries && r.entries[h].waiting
    ensures Inv(Update(r, h, Resolved(r.entries[h], ok, if ok then Active else Broken)))
  {
    var t := Update(r, h, Resolved(r.entries[h], ok, if ok then Active else Broken));
    forall x | x in t.entries ensures EntryInv(t.entries[x], InTable(t, x)) {
      assert EntryInv(r.entries[x], InTable(r, x));
    }
  }

  lemma LateKeeps(r: Registry, id: ConnId, tell: bool)
    requires Inv(r) && id in r.conns && r.entries[r.conns[id]].state.TimedOut?
    ensures Inv(Update(r, r.conns[id], Left(r.entries[r.conns[id]], tell)).(conns := r.conns - {id}))
  {
    var t := Update(r, r.conns[id], Left(r.entries[r.conns[id]], tell)).(conns := r.conns - {id});
    RemoveSmaller(r.conns, {id});
    assert InTable(r, r.conns[id]);
    forall h | h in t.entries ensures EntryInv(t.entries[h], InTable(t, h)) {
      assert EntryInv(r.entries[h], InTable(r, h));
    }
  }

  lemma OpenedKeeps(r: Registry, daemon: DaemonId, id: ConnId, ok: bool, t: Registry)
    requires Inv(r) && t == Opened(r, daemon, id, ok)
    ensures Inv(t)
  {
    if OfDaemon(r, id, daemon) {
      var e := r.entries[r.conns[id]];
      if e.state.Connecting? && e.waiting { AnswerKeeps(r, r.conns[id], ok); }
      else if e.state.TimedOut? { LateKeeps(r, id, ok); }
    }
  }

  lemma ExpireKeeps(r: Registry, h: Handle)
    requires Inv(r)
    ensures Inv(Expire(r, h))
  {
    var t := Expire(r, h);
    forall x | x in t.entries ensures EntryInv(t.entries[x], InTable(t, x)) {
      assert EntryInv(r.entries[x], InTable(r, x));
    }
  }

  lemma DropAllIndex(r: Registry, ids: set<ConnId>, tell: bool, h: Handle)
    requires Indexed(r) && h in r.entries
    ensures InTable(DropAll(r, ids, tell), h) <==> InTable(r, h) && r.entries[h].conn !in ids
  {
  }

  lemma DropAllEntry(r: Registry, ids: set<ConnId>, tell: bool, h: Handle)
    requires Inv(r) && h in r.entries
    ensures var t := DropAll(r, ids, tell); EntryInv(t.entries[h], InTable(t, h))
  {
    assert EntryInv(r.entries[h], InTable(r, h));
    DropAllIndex(r, ids, tell, h);
  }

  lemma DropAllKeeps(r: Registry, ids: set<ConnId>, tell: bool, t: Registry)
    requires Inv(r) && t == DropAll(r, ids, tell)
    ensures Inv(t)
  {
    RemoveSmaller(r.conns, ids);
    forall h | h in t.entries ensures EntryInv(t.entries[h], InTable(t, h)) { DropAllEntry(r, ids, tell, h); }
  }

  lemma OneClosedKeeps(r: Registry, e: Event)
    requires Inv(r) && (e.CloseAsked? || e.DataArrived? || e.ClosedByPeer?)
    ensures Inv(Step(r, e))
  {
    DropKeeps(r, e.conn, !e.ClosedByPeer?);
  }

  lemma ManyClosedKeeps(r: Registry, e: Event)
    requires Inv(r) && (e.DaemonGone? || e.RouteGone?)
    ensures Inv(Step(r, e))
  {
    match e {
      case DaemonGone(d) => DropAllKeeps(r, DaemonConns(r, d), false, Step(r, e));
      case RouteGone(short) => DropAllKeeps(r, RouteConns(r, short), true, Step(r, e));
    }
  }

  lemma EntryKeeps(r: Registry, e: Event)
    requires Inv(r) && (e.OpenAsked? || e.TimerFired? || e.OpenedReply?)
    ensures Inv(Step(r, e))
  {
    match e {
      case OpenAsked(d, short, socket, id, sent) => OpenKeeps(r, d, short, socket, id, sent);
      case TimerFired(h) => ExpireKeeps(r, h);
      case OpenedReply(d, id, ok) => OpenedKeeps(r, d, id, ok, Step(r, e));
    }
  }

  /** Every operation of the registry keeps its invariant. */
  lemma StepKeeps(r: Registry, e: Event)
    requires Inv(r)
    ensures Inv(Step(r, e))
  {
    if e.OpenAsked? || e.TimerFired? || e.OpenedReply? {
      EntryKeeps(r, e);
    } else if e.DaemonGone? || e.RouteGone? {
      ManyClosedKeeps(r, e);
    } else {
      OneClosedKeeps(r, e);
    }
  }

  lemma MaxKept(r: Registry, e: Event)
    ensures Step(r, e).max == r.max
  {
  }

  lemma {:induction false} Always(max: nat, events: seq<Event>)
    ensures Inv(After(max, events)) && After(max, events).max == max
    decreases |events|
  {
    if events != [] {
      Always(max, events[..|events| - 1]);
      StepKeeps(After(max, events[..|events| - 1]), events[|events| - 1]);
      MaxKept(After(max, events[..|events| - 1]), events[|events| - 1]);
    }
  }

  // ---------------------------------------------------------------- the registry object

  lemma DropNone(r: Registry, tell: bool)
    ensures DropAll(r, {}, tell) == r
  {
    assert DropAll(r, {}, tell).entries == r.entries;
    assert DropAll(r, {}, tell).conns == r.conns;
  }

  lemma DropNext(r: Registry, ids: set<ConnId>, id: ConnId, tell: bool)
    requires Indexed(r) && id in r.conns && id !in ids
    ensures Drop(DropAll(r, ids, tell), id, tell) == DropAll(r, ids + {id}, tell)
  {
    var a, b := Drop(DropAll(r, ids, tell), id, tell), DropAll(r, ids + {id}, tell);
    assert InTable(r, r.conns[id]);
    assert a.conns == b.conns;
    assert a.entries == b.entries;
  }

  /** An open touches no other entry, and its own is in the table exactly when the proxyOpen was sent. */
  lemma OpenIsLocal(
    r: Registry, daemon: DaemonId, shortId: ShortId, socket: Socket, id: Option<ConnId>, sent: bool)
    requires Indexed(r)
    ensures var t := Open(r, daemon, shortId, socket, id, sent);
            && (forall h :: h in r.entries ==> h in t.entries && t.entries[h] == r.entries[h])
            && (!Refused(r, id) ==> (InTable(t, r.next) <==> sent))
  {
  }

  class TunnelRegistry {
    const max: nat
    var conns: map<ConnId, Handle>
    var entries: map<Handle, Entry>
    var next: Handle

    ghost function View(): Registry
      reads this
    {
      Registry(max, conns, entries, next)
    }

    ghost predicate Valid()
      reads this
    {
      Inv(View())
    }

    constructor (max: nat)
      requires max > 0
      ensures Valid() && View() == Initial(max)
    {
      this.max := max;
      conns, entries, next := map[], map[], 0;
    }

    method Discard(id: ConnId, tell: bool)
      requires id in conns && conns[id] in entries
      modifies this
      ensures View() == Drop(old(View()), id, tell)
    {
      var h := conns[id];
      conns := conns - {id};
      var e := entries[h];
      e := e.(removals := e.removals + 1);
      if e.waiting {
        e := e.(state := Broken, waiting := false, armed := false, settles := e.settles + 1, ready := false);
      }
      if tell { e := e.(wire := e.wire + [ProxyClose]); }
      entries := entries[h := e];
    }

    method OpenTunnel(daemon: DaemonId, shortId: ShortId, socket: Socket, id: Option<ConnId>, sent: bool)
      returns (accepted: Option<Handle>)
      requires Valid()
      modifies this
      ensures Valid() && View() == Open(old(View()), daemon, shortId, socket, id, sent)
      ensures accepted == if Refused(old(View()), id) then None else Some(old(next))
      ensures accepted.Some? ==> (InTable(View(), accepted.value) <==> sent)
      ensures forall h :: h in old(entries) ==> h in entries && entries[h] == old(entries)[h]
    {
      OpenKeeps(View(), daemon, shortId, socket, id, sent);
      OpenIsLocal(View(), daemon, shortId, socket, id, sent);
      accepted := Reserve(daemon, shortId, socket, id, sent);
      if accepted.Some? && !sent { Discard(id.value, false); }
    }

    /** Capacity and id are checked and the place is taken before anything is sent. */
    method Reserve(daemon: DaemonId, shortId: ShortId, socket: Socket, id: Option<ConnId>, sent: bool)
      returns (accepted: Option<Handle>)
      modifies this
      ensures accepted == if Refused(old(View()), id) then None else Some(old(next))
      ensures accepted.None? ==> View() == old(View())
      ensures accepted.Some? ==> View() == Place(old(View()), Opening(id.value, daemon, shortId, socket, sent))
    {
      if |conns| >= max { return None; }
      if id.None? || id.value in conns { return None; }
      var h := next;
      next := next + 1;
      var wire := if sent then [ProxyOpen] else [];
      entries := entries[h := Entry(id.value, daemon, shortId, socket, Connecting, true, true, 0, false, 0, wire)];
      conns := conns[id.value := h];
      return Some(h);
    }

    /** The timer's callback. */
    method OnTimeout(h: Handle)
      requires Valid() && h in entries && entries[h].armed
      modifies this
      ensures Valid() && View() == Expire(old(View()), h)
    {
      ExpireKeeps(View(), h);
      var e := entries[h];
      e := e.(state := TimedOut, waiting := false, armed := false, settles := e.settles + 1, ready := false);
      entries := entries[h := e];
    }

    method CloseTunnel(id: ConnId, expected: Option<Socket>)
      requires Valid()
      modifies this
      ensures Valid() && View() == Close(old(View()), id, expected)
    {
      DropKeeps(View(), id, true);
      if id !in conns || (expected.Some? && entries[conns[id]].socket != expected.value) { return; }
      Discard(id, true);
    }

    method HandleData(daemon: DaemonId, id: ConnId, destroyed: bool, overLimit: bool)
      requires Valid()
      modifies this
      ensures Valid() && View() == Data(old(View()), daemon, id, destroyed, overLimit)
    {
      DropKeeps(View(), id, true);
      if id !in conns || entries[conns[id]].daemon != daemon || destroyed { return; }
      if overLimit { Discard(id, true); }
    }

    method HandleOpened(daemon: DaemonId, id: ConnId, ok: bool)
      requires Valid()
      modifies this
      ensures Valid() && View() == Opened(old(View()), daemon, id, ok)
    {
      Reply(daemon, id, ok);
      OpenedKeeps(old(View()), daemon, id, ok, View());
    }

    method Reply(daemon: DaemonId, id: ConnId, ok: bool)
      requires Indexed(View())
      modifies this
      ensures View() == Opened(old(View()), daemon, id, ok)
    {
      if id !in conns || entries[conns[id]].daemon != daemon { return; }
      var h := conns[id];
      var e := entries[h];
      if e.state.Connecting? && e.waiting {
        e := e.(state := if ok then Active else Broken);
        entries := entries[h := e.(waiting := false, armed := false, settles := e.settles + 1, ready := ok)];
        return;
      }
      if !e.state.TimedOut? { return; }
      TakeOut(id, ok);
    }

    method TakeOut(id: ConnId, tell: bool)
      requires id in conns && conns[id] in entries
      modifies this
      ensures View() == Update(old(View()), old(conns)[id],
          Left(old(entries)[old(conns)[id]], tell)).(conns := old(conns) - {id})
    {
      var h := conns[id];
      conns := conns - {id};
      var e := entries[h];
      e := e.(removals := e.removals + 1);
      if tell { e := e.(wire := e.wire + [ProxyClose]); }
      entries := entries[h := e];
    }

    method HandleClosed(daemon: DaemonId, id: ConnId)
      requires Valid()
      modifies this
      ensures Valid() && View() == Closed(old(View()), daemon, id)
    {
      DropKeeps(View(), id, false);
      if id !in conns || entries[conns[id]].daemon != daemon { return; }
      Discard(id, false);
    }

    method CloseAll(ids: set<ConnId>, tell: bool)
      requires Indexed(View()) && ids <= conns.Keys
      modifies this
      ensures View() == DropAll(old(View()), ids, tell)
    {
      var left := ids;
      DropNone(View(), tell);
      while left != {}
        invariant left <= ids
        invariant View() == DropAll(old(View()), ids - left, tell)
      {
        var id :| id in left;
        DropNext(old(View()), ids - left, id, tell);
        assert ids - (left - {id}) == ids - left + {id};
        Discard(id, tell);
        left := left - {id};
      }
      assert ids - left == ids;
    }

    method TakeOfDaemon(daemon: DaemonId)
      requires Indexed(View())
      modifies this
      ensures View() == DropAll(old(View()), DaemonConns(old(View()), daemon), false)
    {
      var doomed := set id | id in conns && conns[id] in entries && entries[conns[id]].daemon == daemon;
      assert doomed == DaemonConns(View(), daemon);
      CloseAll(doomed, false);
    }

    method TakeOfRoute(shortId: ShortId)
      requires Indexed(View())
      modifies this
      ensures View() == DropAll(old(View()), RouteConns(old(View()), shortId), true)
    {
      var doomed := set id | id in conns && conns[id] in entries && entries[conns[id]].shortId == shortId;
      assert doomed == RouteConns(View(), shortId);
      CloseAll(doomed, true);
    }

    method CloseAllForDaemon(daemon: DaemonId)
      requires Valid()
      modifies this
      ensures Valid() && View() == Step(old(View()), DaemonGone(daemon))
    {
      TakeOfDaemon(daemon);
      DropAllKeeps(old(View()), DaemonConns(old(View()), daemon), false, View());
    }

    method CloseAllForShortId(shortId: ShortId)
      requires Valid()
      modifies this
      ensures Valid() && View() == Step(old(View()), RouteGone(shortId))
    {
      TakeOfRoute(shortId);
      DropAllKeeps(old(View()), RouteConns(old(View()), shortId), true, View());
    }

    /** Any call of the registry, timers included. */
    method Handle(e: Event)
      requires Valid()
      modifies this
      ensures Valid() && View() == Step(old(View()), e)
    {
      match e {
        case OpenAsked(d, short, socket, id, sent) => var _ := OpenTunnel(d, short, socket, id, sent);
        case TimerFired(h) => if h in entries && entries[h].armed { OnTimeout(h); }
        case OpenedReply(d, id, ok) => HandleOpened(d, id, ok);
        case _ => HandleLoss(e);
      }
    }

    method HandleLoss(e: Event)
      requires Valid() && !e.OpenAsked? && !e.TimerFired? && !e.OpenedReply?
      modifies this
      ensures Valid() && View() == Step(old(View()), e)
    {
      match e {
        case CloseAsked(id, expected) => CloseTunnel(id, expected);
        case DataArrived(d, id, destroyed, over) => HandleData(d, id, destroyed, over);
        case ClosedByPeer(d, id) => HandleClosed(d, id);
        case DaemonGone(d) => CloseAllForDaemon(d);
        case RouteGone(short) => CloseAllForShortId(short);
      }
    }
  }

  /** A registry driven by any sequence of calls is in the state that the theorems below speak about. */
  method Drive(max: nat, events: seq<Event>) returns (r: TunnelRegistry)
    requires max > 0
    ensures fresh(r) && r.Valid() && r.View() == After(max, events)
  {
    r := new TunnelRegistry(max);
    for i := 0 to |events|
      invariant fresh(r) && r.Valid() && r.View() == After(max, events[..i])
    {
      assert events[..i + 1][..i] == events[..i];
      r.Handle(events[i]);
    }
    assert events[..|events|] == events;
  }

  // ---------------------------------------------------------------- main results

  /**
   Every accepted open settles its ready result at most once; it is unsettled exactly while the entry is connecting, is
   in the table and has its timer armed, so something still settles it. The result is true exactly for active entries.
   */
  lemma {:induction false} SettledExactlyOnce(max: nat, events: seq<Event>, h: Handle)
    requires h < After(max, events).next
    ensures var r := After(max, events);
            && h in r.entries
            && var e := r.entries[h];
            && e.settles == (if e.state.Connecting? then 0 else 1)
            && (e.state.Connecting? <==> e.armed) && (e.state.Connecting? ==> InTable(r, h))
            && (e.ready <==> e.state.Active?)
  {
    Always(max, events);
    assert EntryInv(After(max, events).entries[h], InTable(After(max, events), h));
  }

  /** Live entries never exceed the capacity. */
  lemma {:induction false} WithinCapacity(max: nat, events: seq<Event>)
    ensures |After(max, events).conns| <= max
  {
    Always(max, events);
  }

  /** The event that the tunnel of `x` ends with, said about its own connection, daemon, socket and route. */
  predicate Ends(x: Entry, e: Event) {
    match e
    case OpenAsked(d, short, socket, id, sent) =>
      !sent && d == x.daemon && short == x.shortId && socket == x.socket && id == Some(x.conn)
    case TimerFired(_) => false
    case CloseAsked(conn, expected) => conn == x.conn && (expected.None? || expected == Some(x.socket))
    case DataArrived(d, conn, destroyed, over) => d == x.daemon && conn == x.conn && !destroyed && over
    case OpenedReply(d, conn, _) => d == x.daemon && conn == x.conn && x.state.TimedOut?
    case ClosedByPeer(d, conn) => d == x.daemon && conn == x.conn
    case DaemonGone(d) => d == x.daemon
    case RouteGone(short) => short == x.shortId
  }

  /** What the daemon is told about a tunnel that ends with `e`. */
  function Told(e: Event): seq<Message> {
    match e
    case OpenAsked(_, _, _, _, _) => []
    case CloseAsked(_, _) => [ProxyOpen, ProxyClose]
    case DataArrived(_, _, _, _) => [ProxyOpen, ProxyClose]
    case OpenedReply(_, _, ok) => if ok then [ProxyOpen, ProxyClose] else [ProxyOpen]
    case RouteGone(_) => [ProxyOpen, ProxyClose]
    case ClosedByPeer(_, _) => [ProxyOpen]
    case DaemonGone(_) => [ProxyOpen]
    case TimerFired(_) => [ProxyOpen]
  }

  predicate SameTunnel(x: Entry, y: Entry) {
    x.conn == y.conn && x.daemon == y.daemon && x.shortId == y.shortId && x.socket == y.socket
  }

  /** A step leaves a departed entry alone and keeps a present one, or ends it. */
  ghost predicate Follows(r: Registry, t: Registry, e: Event, h: Handle) {
    h in t.entries ==>
      if h in r.entries && (!InTable(r, h) || InTable(t, h)) then
        SameTunnel(r.entries[h], t.entries[h]) && (InTable(t, h) <==> InTable(r, h))
        && (!InTable(r, h) ==> t.entries[h] == r.entries[h])
      else InTable(t, h) || (Ends(t.entries[h], e) && t.entries[h].wire == Told(e))
  }

  lemma DropFollows(r: Registry, e: Event, id: ConnId, tell: bool, h: Handle)
    requires Inv(r) && id in r.conns && h in r.entries
    requires Ends(r.entries[r.conns[id]], e) && Told(e) == (if tell then [ProxyOpen, ProxyClose] else [ProxyOpen])
    requires !e.OpenedReply?
    ensures Follows(r, Drop(r, id, tell), e, h)
  {
    assert InTable(r, r.conns[id]);
    assert EntryInv(r.entries[h], InTable(r, h));
  }

  lemma DropAllFollows(r: Registry, e: Event, ids: set<ConnId>, tell: bool, h: Handle)
    requires Inv(r) && h in r.entries && !e.OpenedReply?
    requires r.entries[h].conn in ids && InTable(r, h) ==> Ends(r.entries[h], e)
    requires Told(e) == (if tell then [ProxyOpen, ProxyClose] else [ProxyOpen])
    ensures Follows(r, DropAll(r, ids, tell), e, h)
  {
    DropAllIndex(r, ids, tell, h);
    assert EntryInv(r.entries[h], InTable(r, h));
  }

  lemma OpenFollows(r: Registry, e: Event, h: Handle)
    requires Indexed(r) && e.OpenAsked?
    ensures Follows(r, Step(r, e), e, h)
  {
    if !Refused(r, e.id) && !e.sent { ThrownLeaves(r, Opening(e.id.value, e.daemon, e.shortId, e.socket, false)); }
  }

  lemma TimerFollows(r: Registry, x: Handle, h: Handle)
    requires Inv(r)
    ensures Follows(r, Expire(r, x), TimerFired(x), h)
  {
    if h in r.entries { assert EntryInv(r.entries[h], InTable(r, h)); }
  }

  lemma ReplyFollows(r: Registry, d: DaemonId, id: ConnId, ok: bool, h: Handle)
    requires Indexed(r) && h in r.entries && EntryInv(r.entries[h], InTable(r, h))
    ensures Follows(r, Opened(r, d, id, ok), OpenedReply(d, id, ok), h)
  {
  }

  lemma StepFollows(r: Registry, e: Event, h: Handle)
    requires Inv(r)
    ensures Follows(r, Step(r, e), e, h)
  {
    match e {
      case OpenAsked(_, _, _, _, _) => OpenFollows(r, e, h);
      case TimerFired(x) => TimerFollows(r, x, h);
      case OpenedReply(d, id, ok) => if h in r.entries { ReplyFollows(r, d, id, ok, h); }
      case CloseAsked(id, expected) =>
        if OfSocket(r, id, expected) && h in r.entries { DropFollows(r, e, id, true, h); }
      case DataArrived(d, id, destroyed, over) =>
        if OfDaemon(r, id, d) && !destroyed && over && h in r.entries { DropFollows(r, e, id, true, h); }
      case ClosedByPeer(d, id) => if OfDaemon(r, id, d) && h in r.entries { DropFollows(r, e, id, false, h); }
      case DaemonGone(d) => if h in r.entries { DropAllFollows(r, e, DaemonConns(r, d), false, h); }
      case RouteGone(short) => if h in r.entries { DropAllFollows(r, e, RouteConns(r, short), true, h); }
    }
  }

  /** Event k took the tunnel out of the table, for good. */
  ghost predicate EndedBy(max: nat, events: seq<Event>, h: Handle, k: nat) {
    && k < |events| && h in After(max, events).entries
    && (InTable(After(max, events[..k]), h) <==> !events[k].OpenAsked?)
    && Ends(After(max, events).entries[h], events[k])
    && After(max, events).entries[h].wire == Told(events[k])
  }

  /**
   Conservation over every run. An accepted open is in the table, with its proxyOpen sent and no proxyClose; or it left
   the table exactly once, by an event of the run about this very tunnel: its open whose send threw (nothing was sent),
   its daemon closing it, failing it after the timeout or disappearing (the proxyOpen alone), or a close of its socket,
   an overfull socket, a late success or the end of its route (the proxyOpen and exactly one proxyClose).
   */
  lemma {:induction false} TunnelsConserved(max: nat, events: seq<Event>, h: Handle)
    requires h < After(max, events).next
    ensures var r := After(max, events);
            && h in r.entries
            && r.entries[h].removals == (if InTable(r, h) then 0 else 1)
            && (InTable(r, h) ==> r.entries[h].wire == [ProxyOpen])
            && (!InTable(r, h) ==> exists k :: EndedBy(max, events, h, k))
  {
    Always(max, events);
    var r := After(max, events);
    assert EntryInv(r.entries[h], InTable(r, h));
    if !InTable(r, h) {
      var k := EndOf(max, events, h);
    }
  }

  /** The event that a departed tunnel ended with. */
  lemma {:induction false} EndOf(max: nat, events: seq<Event>, h: Handle) returns (k: nat)
    requires h in After(max, events).entries && !InTable(After(max, events), h)
    ensures EndedBy(max, events, h, k)
    decreases |events|
  {
    var n := |events| - 1;
    var before := After(max, events[..n]);
    Always(max, events[..n]);
    if h in before.entries && !InTable(before, h) {
      k := EndOf(max, events[..n], h);
      StaysEnded(before, events[n], h);
      StillEnded(max, events, h, k);
    } else {
      k := n;
      EndsHere(before, events[n], h);
    }
  }

  lemma {:induction false} StillEnded(max: nat, events: seq<Event>, h: Handle, k: nat)
    requires events != [] && EndedBy(max, events[..|events| - 1], h, k) && h in After(max, events).entries
    requires After(max, events).entries[h] == After(max, events[..|events| - 1]).entries[h]
    ensures EndedBy(max, events, h, k)
  {
    assert events[..|events| - 1][..k] == events[..k];
  }

  lemma StaysEnded(r: Registry, e: Event, h: Handle)
    requires Inv(r) && h in r.entries && !InTable(r, h)
    ensures h in Step(r, e).entries && Step(r, e).entries[h] == r.entries[h]
  {
    StepFollows(r, e, h);
    EntriesStay(r, e, h);
  }

  lemma EntriesStay(r: Registry, e: Event, h: Handle)
    requires h in r.entries
    ensures h in Step(r, e).entries
  {
  }

  /** A tunnel that ends in this step was in the table before, or was opened by this step. */
  lemma EndsHere(r: Registry, e: Event, h: Handle)
    requires Inv(r) && h in Step(r, e).entries && !InTable(Step(r, e), h) && (h in r.entries ==> InTable(r, h))
    ensures InTable(r, h) <==> !e.OpenAsked?
    ensures Ends(Step(r, e).entries[h], e) && Step(r, e).entries[h].wire == Told(e)
  {
    StepFollows(r, e, h);
    if !e.OpenAsked? { OnlyOpensAdd(r, e, h); }
  }

  lemma OnlyOpensAdd(r: Registry, e: Event, h: Handle)
    requires !e.OpenAsked? && h in Step(r, e).entries
    ensures h in r.entries
  {
  }
}
