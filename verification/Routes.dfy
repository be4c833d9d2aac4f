/**
 The preview route table: short id to route, and session and port to short id. A daemon's report replaces the ports of
 its sessions. The source keeps a map of ports per session; here one map is keyed by the pair.
 */
module Routes {
  import opened Store

  type ShortId = nat
  type Port = int
  type DeviceName = nat

  datatype Key = Key(session: SessionId, port: Port)

  /** Whose a session is. */
  datatype Owner = Owner(daemon: DaemonId, account: AccountId, task: TaskId)

  datatype Route = Route(shortId: ShortId, owner: Owner, key: Key)

  /** The three candidate labels: device and port, then with the daemon's prefix, then with the session's prefix. */
  datatype Candidate = Plain(device: DeviceName, port: Port)
                     | WithDaemon(device: DeviceName, port: Port, daemon: DaemonId)
                     | WithSession(device: DeviceName, port: Port, session: SessionId)

  /** How candidates are spelled; different candidates may be spelled alike. */
  type Spelling = Candidate -> ShortId

  datatype Table = Table(byShort: map<ShortId, Route>, bySession: map<Key, ShortId>, meta: map<SessionId, Owner>)

  const EMPTY: Table := Table(map[], map[], map[])

  function Choose(spell: Spelling, t: Table, device: DeviceName, d: DaemonId, k: Key): ShortId {
    if spell(Plain(device, k.port)) !in t.byShort then spell(Plain(device, k.port))
    else if spell(WithDaemon(device, k.port, d)) !in t.byShort then spell(WithDaemon(device, k.port, d))
    else spell(WithSession(device, k.port, k.session))
  }

  function Ensure(spell: Spelling, t: Table, device: DeviceName, o: Owner, k: Key): Table {
    if k in t.bySession then t
    else
      var name := Choose(spell, t, device, o.daemon, k);
      t.(byShort := t.byShort[name := Route(name, o, k)], bySession := t.bySession[k := name])
  }

  function EnsureAll(spell: Spelling, t: Table, device: DeviceName, o: Owner, s: SessionId, ports: seq<Port>): Table {
    if ports == [] then t
    else Ensure(spell, EnsureAll(spell, t, device, o, s, ports[..|ports| - 1]), device, o, Key(s, ports[|ports| - 1]))
  }

  function KeysOf(t: Table, s: SessionId): set<Key> { set k | k in t.bySession && k.session == s }

  function NamesOf(t: Table, keys: set<Key>): set<ShortId> { set k | k in keys && k in t.bySession :: t.bySession[k] }

  /** Takes keys out of both maps. */
  function Without(t: Table, keys: set<Key>): Table {
    t.(byShort := t.byShort - NamesOf(t, keys), bySession := t.bySession - keys)
  }

  function Vanished(t: Table, s: SessionId, ports: seq<Port>): set<Key> {
    set k | k in t.bySession && k.session == s && k.port !in ports
  }

  /** The table without the vanished ports. */
  function Trimmed(t: Table, s: SessionId, o: Owner, ports: seq<Port>): Table {
    Without(t, Vanished(t, s, ports)).(meta := t.meta[s := o])
  }

  function Reconcile(spell: Spelling, t: Table, s: SessionId, o: Owner, device: DeviceName, ports: seq<Port>): Table {
    EnsureAll(spell, Trimmed(t, s, o, ports), device, o, s, ports)
  }

  function Release(t: Table, s: SessionId): Table {
    if s in t.meta then Without(t, KeysOf(t, s)).(meta := t.meta - {s}) else t
  }

  function ReleaseAll(t: Table, ss: seq<SessionId>): Table {
    if ss == [] then t else Release(ReleaseAll(t, ss[..|ss| - 1]), ss[|ss| - 1])
  }

  // ---------------------------------------------------------------- the two maps

  /** Every route is the one its own session's map names. */
  ghost predicate Grounded(t: Table) {
    forall name :: name in t.byShort ==>
      t.byShort[name].shortId == name && t.byShort[name].key in t.bySession && t.bySession[t.byShort[name].key] == name
  }

  /** Every port of a session has its own route. */
  ghost predicate Routed(t: Table) {
    forall k :: k in t.bySession ==> t.bySession[k] in t.byShort && t.byShort[t.bySession[k]].key == k
  }

  lemma WithoutGrounded(t: Table, keys: set<Key>)
    requires Grounded(t)
    ensures Grounded(Without(t, keys))
  {
  }

  lemma WithoutRouted(t: Table, keys: set<Key>)
    requires Routed(t)
    ensures Routed(Without(t, keys))
  {
  }

  lemma EnsureGrounded(spell: Spelling, t: Table, device: DeviceName, o: Owner, k: Key)
    requires Grounded(t)
    ensures Grounded(Ensure(spell, t, device, o, k))
  {
  }

  /** The port is known, or one of its three candidate labels is not in use. */
  predicate Free(spell: Spelling, t: Table, device: DeviceName, d: DaemonId, k: Key) {
    || k in t.bySession || spell(Plain(device, k.port)) !in t.byShort
    || spell(WithDaemon(device, k.port, d)) !in t.byShort || spell(WithSession(device, k.port, k.session)) !in t.byShort
  }

  /** One port: the maps stay inverse exactly when it is known or one of its candidate labels is free. */
  lemma EnsureExact(spell: Spelling, t: Table, device: DeviceName, o: Owner, k: Key)
    requires Grounded(t) && Routed(t)
    ensures Routed(Ensure(spell, t, device, o, k)) <==> Free(spell, t, device, o.daemon, k)
  {
    var u, name := Ensure(spell, t, device, o, k), Choose(spell, t, device, o.daemon, k);
    if k !in t.bySession && name in t.byShort {
      var other := t.byShort[name].key;
      assert other in u.bySession && u.bySession[other] == name && u.byShort[name].key == k;
    }
  }

  /** A port whose route belongs to another key. */
  ghost predicate Broken(t: Table, k: Key) {
    k in t.bySession && (t.bySession[k] in t.byShort ==> t.byShort[t.bySession[k]].key != k)
  }

  lemma {:induction false} EnsureAllKeys(
      spell: Spelling, t: Table, device: DeviceName, o: Owner, s: SessionId, ports: seq<Port>)
    ensures var u := EnsureAll(spell, t, device, o, s, ports);
            && u.meta == t.meta
            && (forall k :: k in u.bySession <==> k in t.bySession || (k.session == s && k.port in ports))
            && (forall k :: k in t.bySession ==> u.bySession[k] == t.bySession[k])
    decreases |ports|
  {
    if ports != [] {
      var n := |ports| - 1;
      EnsureAllKeys(spell, t, device, o, s, ports[..n]);
      assert forall p :: p in ports <==> p in ports[..n] || p == ports[n];
    }
  }

  /** A route of the new table is an old one or belongs to the session. */
  ghost predicate Grown(t: Table, u: Table, o: Owner, s: SessionId) {
    forall name :: name in u.byShort ==>
      (u.byShort[name].owner == o && u.byShort[name].key.session == s)
          || (name in t.byShort && u.byShort[name] == t.byShort[name])
  }

  lemma {:induction false} EnsureAllGrows(
      spell: Spelling, t: Table, device: DeviceName, o: Owner, s: SessionId, ports: seq<Port>)
    ensures Grown(t, EnsureAll(spell, t, device, o, s, ports), o, s)
    ensures Grounded(t) ==> Grounded(EnsureAll(spell, t, device, o, s, ports))
    decreases |ports|
  {
    if ports != [] {
      var n := |ports| - 1;
      EnsureAllGrows(spell, t, device, o, s, ports[..n]);
      var before := EnsureAll(spell, t, device, o, s, ports[..n]);
      if Grounded(before) { EnsureGrounded(spell, before, device, o, Key(s, ports[n])); }
    }
  }

  lemma BrokenStep(spell: Spelling, t: Table, device: DeviceName, o: Owner, k: Key)
    requires !Routed(t)
    ensures !Routed(Ensure(spell, t, device, o, k))
  {
    var b :| b in t.bySession && Broken(t, b);
    var u := Ensure(spell, t, device, o, k);
    if k !in t.bySession {
      var name, mine := Choose(spell, t, device, o.daemon, k), t.bySession[b];
      assert b != k && u.bySession[b] == mine;
      if mine != name && mine in u.byShort {
        assert Broken(t, b) && mine in t.byShort;
        assert t.byShort[mine].key != b;
        assert u.byShort[mine] == t.byShort[mine];
      }
    }
    assert Broken(u, b);
  }

  /** Port i finds a free label when its turn comes. */
  ghost predicate FreeAt(
    spell: Spelling, t: Table, device: DeviceName, o: Owner, s: SessionId, ports: seq<Port>, i: nat)
    requires i < |ports|
  {
    Free(spell, EnsureAll(spell, t, device, o, s, ports[..i]), device, o.daemon, Key(s, ports[i]))
  }

  ghost predicate AllFree(spell: Spelling, t: Table, device: DeviceName, o: Owner, s: SessionId, ports: seq<Port>) {
    forall i :: 0 <= i < |ports| ==> FreeAt(spell, t, device, o, s, ports, i)
  }

  lemma FreeAtPrefix(
    spell: Spelling, t: Table, device: DeviceName, o: Owner, s: SessionId, ports: seq<Port>, n: nat, i: nat)
    requires i < n <= |ports|
    ensures FreeAt(spell, t, device, o, s, ports[..n], i) <==> FreeAt(spell, t, device, o, s, ports, i)
  {
    assert ports[..n][..i] == ports[..i];
  }

  lemma AllFreeNext(spell: Spelling, t: Table, device: DeviceName, o: Owner, s: SessionId, ports: seq<Port>)
    requires ports != []
    ensures AllFree(spell, t, device, o, s, ports) <==>
              && AllFree(spell, t, device, o, s, ports[..|ports| - 1])
              && FreeAt(spell, t, device, o, s, ports, |ports| - 1)
  {
    var n := |ports| - 1;
    forall i | 0 <= i < n
      ensures FreeAt(spell, t, device, o, s, ports[..n], i) <==> FreeAt(spell, t, device, o, s, ports, i)
    {
      FreeAtPrefix(spell, t, device, o, s, ports, n, i);
    }
  }

  lemma {:induction false} EnsureAllExact(
      spell: Spelling, t: Table, device: DeviceName, o: Owner, s: SessionId, ports: seq<Port>)
    requires Grounded(t) && Routed(t)
    ensures Routed(EnsureAll(spell, t, device, o, s, ports)) <==> AllFree(spell, t, device, o, s, ports)
    decreases |ports|
  {
    if ports != [] {
      var n := |ports| - 1;
      AllFreeNext(spell, t, device, o, s, ports);
      EnsureAllExact(spell, t, device, o, s, ports[..n]);
      EnsureAllGrows(spell, t, device, o, s, ports[..n]);
      var before := EnsureAll(spell, t, device, o, s, ports[..n]);
      if Routed(before) { EnsureExact(spell, before, device, o, Key(s, ports[n])); }
      else { BrokenStep(spell, before, device, o, Key(s, ports[n])); }
    }
  }

  /**
   A report yields exactly the reported ports, a kept port keeps its short id, other sessions keep all of theirs, and
   the two maps stay inverse exactly when each new port finds one of its candidate labels free in its turn.
   */
  lemma ReconcileExact(spell: Spelling, t: Table, s: SessionId, o: Owner, device: DeviceName, ports: seq<Port>)
    requires Grounded(t)
    ensures var u := Reconcile(spell, t, s, o, device, ports);
            && (forall p :: Key(s, p) in u.bySession <==> p in ports)
            && (forall p :: p in ports && Key(s, p) in t.bySession ==> u.bySession[Key(s, p)] == t.bySession[Key(s, p)])
            && (forall k: Key :: k.session != s ==>
                (k in u.bySession <==> k in t.bySession) && (k in t.bySession ==> u.bySession[k] == t.bySession[k]))
            && u.meta == t.meta[s := o] && Grounded(u)
            && (Routed(t) ==> (Routed(u) <==> AllFree(spell, Trimmed(t, s, o, ports), device, o, s, ports)))
  {
    var gone := Vanished(t, s, ports);
    var base := Trimmed(t, s, o, ports);
    WithoutGrounded(t, gone);
    EnsureAllKeys(spell, base, device, o, s, ports);
    EnsureAllGrows(spell, base, device, o, s, ports);
    if Routed(t) {
      WithoutRouted(t, gone);
      EnsureAllExact(spell, base, device, o, s, ports);
    }
  }

  // ---------------------------------------------------------------- the table object

  lemma {:induction false} WithoutNone(t: Table)
    ensures Without(t, {}) == t
  {
    assert t.bySession - {} == t.bySession;
    assert NamesOf(t, {}) == {};
    assert t.byShort - {} == t.byShort;
  }

  lemma WithoutNext(t: Table, keys: set<Key>, k: Key)
    requires k in t.bySession && k !in keys
    ensures Without(t, keys + {k}) == Without(t, keys).(byShort := Without(t, keys).byShort - {t.bySession[k]},
        bySession := Without(t, keys).bySession - {k})
  {
    var some, more := NamesOf(t, keys), NamesOf(t, keys + {k});
    assert more == some + {t.bySession[k]};
    assert t.byShort - more == t.byShort - some - {t.bySession[k]};
    assert t.bySession - (keys + {k}) == t.bySession - keys - {k};
  }

  /** What the caller learns about a released session. */
  datatype Released = Released(task: TaskId, names: seq<ShortId>)

  ghost predicate Describes(r: Released, t: Table, s: SessionId) {
    s in t.meta && r.task == t.meta[s].task && forall name :: name in r.names <==> name in NamesOf(t, KeysOf(t, s))
  }

  /** The listed sessions that the table knows, each once, in order. */
  function ReleasedBy(t: Table, ss: seq<SessionId>): seq<SessionId> {
    if ss == [] then []
    else
      var n := |ss| - 1;
      var before := ReleasedBy(t, ss[..n]);
      if ss[n] in t.meta && ss[n] !in ss[..n] then before + [ss[n]] else before
  }

  lemma {:induction false} ReleaseAllSessions(t: Table, ss: seq<SessionId>, s: SessionId)
    ensures s in ReleaseAll(t, ss).meta <==> s in t.meta && s !in ss
    ensures s in ReleaseAll(t, ss).meta ==> ReleaseAll(t, ss).meta[s] == t.meta[s]
    ensures s !in ss ==> KeysOf(ReleaseAll(t, ss), s) == KeysOf(t, s)
    ensures s !in ss ==> NamesOf(ReleaseAll(t, ss), KeysOf(t, s)) == NamesOf(t, KeysOf(t, s))
    decreases |ss|
  {
    if ss != [] {
      var n := |ss| - 1;
      ReleaseAllSessions(t, ss[..n], s);
      assert ss == ss[..n] + [ss[n]];
      if s !in ss {
        var before := ReleaseAll(t, ss[..n]);
        assert forall k :: k in KeysOf(t, s) ==> k in before.bySession && k !in KeysOf(before, ss[n]);
        assert KeysOf(ReleaseAll(t, ss), s) == KeysOf(before, s);
      }
    }
  }

  lemma ReleasedNext(t: Table, ss: seq<SessionId>, s: SessionId)
    ensures (ss + [s])[..|ss|] == ss
    ensures s in ReleaseAll(t, ss).meta <==> s in t.meta && s !in ss
    ensures s in ReleaseAll(t, ss).meta ==> forall r :: Describes(r, ReleaseAll(t, ss), s) ==> Describes(r, t, s)
  {
    assert (ss + [s])[..|ss|] == ss;
    ReleaseAllSessions(t, ss, s);
  }

  class ProxyRouteTable {
    var byShort: map<ShortId, Route>
    var bySession: map<Key, ShortId>
    var meta: map<SessionId, Owner>

    ghost function View(): Table
      reads this
    {
      Table(byShort, bySession, meta)
    }

    ghost predicate Valid()
      reads this
    {
      Grounded(View())
    }

    constructor ()
      ensures Valid() && View() == EMPTY
    {
      byShort, bySession, meta := map[], map[], map[];
    }

    method EnsurePort(spell: Spelling, device: DeviceName, o: Owner, k: Key)
      requires Valid()
      modifies this
      ensures Valid() && View() == Ensure(spell, old(View()), device, o, k)
      ensures k in bySession && (k in old(bySession) ==> bySession[k] == old(bySession)[k])
      ensures old(Routed(View())) ==> (Routed(View()) <==> Free(spell, old(View()), device, o.daemon, k))
    {
      EnsureGrounded(spell, View(), device, o, k);
      if Routed(View()) { EnsureExact(spell, View(), device, o, k); }
      if k in bySession { return; }
      var name := spell(Plain(device, k.port));
      if name in byShort { name := spell(WithDaemon(device, k.port, o.daemon)); }
      if name in byShort { name := spell(WithSession(device, k.port, k.session)); }
      byShort := byShort[name := Route(name, o, k)];
      bySession := bySession[k := name];
    }

    /** Takes out the routes of `keys` and lists their short ids. */
    method Discard(keys: set<Key>) returns (removed: seq<ShortId>)
      requires Valid() && keys <= bySession.Keys
      modifies this
      ensures Valid() && View() == Without(old(View()), keys)
      ensures forall name :: name in removed <==> exists k :: k in keys && old(bySession)[k] == name
    {
      removed := [];
      var left := keys;
      ghost var was := View();
      WithoutNone(was);
      WithoutGrounded(was, keys);
      while left != {}
        invariant left <= keys && View() == Without(was, keys - left)
        invariant forall name :: name in removed <==> exists k :: k in keys - left && was.bySession[k] == name
      {
        var k :| k in left;
        WithoutNext(was, keys - left, k);
        assert keys - (left - {k}) == keys - left + {k};
        var name := bySession[k];
        byShort, bySession := byShort - {name}, bySession - {k};
        removed := removed + [name];
        left := left - {k};
      }
      assert keys - left == keys;
    }

    method ReconcileSession(spell: Spelling, s: SessionId, o: Owner, device: DeviceName, ports: seq<Port>)
      returns (removed: seq<ShortId>)
      requires Valid()
      modifies this
      ensures Valid() && View() == Reconcile(spell, old(View()), s, o, device, ports)
      ensures forall name :: name in removed <==> name in NamesOf(old(View()), Vanished(old(View()), s, ports))
    {
      removed := Discard(set k | k in bySession && k.session == s && k.port !in ports);
      meta := meta[s := o];
      ghost var base := View();
      var i := 0;
      while i < |ports|
        invariant i <= |ports| && Valid() && View() == EnsureAll(spell, base, device, o, s, ports[..i])
      {
        EnsurePort(spell, device, o, Key(s, ports[i]));
        i := i + 1;
        assert ports[..i][..i - 1] == ports[..i - 1];
      }
      assert ports[..i] == ports;
    }

    /** Nothing for a session the table does not know; otherwise its task and the short ids it had. */
    method ReleaseSession(s: SessionId) returns (released: Option<Released>)
      requires Valid()
      modifies this
      ensures Valid() && View() == Release(old(View()), s)
      ensures released.Some? <==> s in old(meta)
      ensures released.Some? ==> Describes(released.value, old(View()), s)
    {
      if s !in meta { return None; }
      var task := meta[s].task;
      var names := Discard(set k | k in bySession && k.session == s);
      meta := meta - {s};
      return Some(Released(task, names));
    }

    /** releaseDaemon, over the sessions listed for the daemon. */
    method ReleaseSessions(ss: seq<SessionId>) returns (out: seq<Released>)
      requires Valid()
      modifies this
      ensures Valid() && View() == ReleaseAll(old(View()), ss)
      ensures |out| == |ReleasedBy(old(View()), ss)|
      ensures forall j :: 0 <= j < |out| ==> Describes(out[j], old(View()), ReleasedBy(old(View()), ss)[j])
    {
      out := [];
      var i := 0;
      while i < |ss|
        invariant i <= |ss| && Valid() && View() == ReleaseAll(old(View()), ss[..i])
        invariant |out| == |ReleasedBy(old(View()), ss[..i])|
        invariant forall j :: 0 <= j < |out| ==> Describes(out[j], old(View()), ReleasedBy(old(View()), ss[..i])[j])
      {
        assert ss[..i + 1][..i] == ss[..i];
        ReleasedNext(old(View()), ss[..i], ss[i]);
        assert ss[..i + 1] == ss[..i] + [ss[i]];
        var released := ReleaseSession(ss[i]);
        if released.Some? { out := out + [released.value]; }
        i := i + 1;
      }
      assert ss[..i] == ss;
    }
  }

  // ---------------------------------------------------------------- the hub around it

  datatype Entry = Entry(session: SessionId, ports: seq<Port>)

  /** Ports outside 1..65535 are dropped and repetitions removed, first occurrences first. */
  function ValidPorts(ports: seq<Port>): (r: seq<Port>)
    ensures forall p :: p in r <==> p in ports && 0 < p < 65536
    ensures forall i, j :: 0 <= i < j < |r| ==> r[i] != r[j]
  {
    if ports == [] then []
    else
      var before := ValidPorts(ports[..|ports| - 1]);
      var p := ports[|ports| - 1];
      assert ports == ports[..|ports| - 1] + [p];
      if 0 < p < 65536 && p !in before then before + [p] else before
  }

  datatype Hub = Hub(table: Table, sessions: map<SessionId, Owner>)

  datatype Event =
    | Install(session: SessionId, owner: Owner)
    | DropSession(session: SessionId)
    /** `others` lists the daemon's sessions known to the table, in any order. */
    | PortsUpdate(daemon: DaemonId, device: DeviceName, reported: seq<Entry>, others: seq<SessionId>)
    | DaemonLost(daemon: DaemonId, others: seq<SessionId>)

  predicate Owns(h: Hub, d: DaemonId, s: SessionId) { s in h.sessions && h.sessions[s].daemon == d }

  function Drop(h: Hub, s: SessionId): Hub { Hub(Release(h.table, s), h.sessions - {s}) }

  function InstallSession(h: Hub, s: SessionId, o: Owner): Hub {
    if s in h.sessions && (h.sessions[s].account != o.account || h.sessions[s].daemon != o.daemon) then h
    else
      var cleared := if s in h.sessions && h.sessions[s].task != o.task then Drop(h, s) else h;
      cleared.(sessions := cleared.sessions[s := o])
  }

  function Report(spell: Spelling, h: Hub, d: DaemonId, device: DeviceName, reported: seq<Entry>): Hub {
    if reported == [] then h
    else
      var before := Report(spell, h, d, device, reported[..|reported| - 1]);
      var e := reported[|reported| - 1];
      if Owns(before, d, e.session)
      then before.(table := Reconcile(spell, before.table, e.session, before.sessions[e.session], device,
          ValidPorts(e.ports)))
      else before
  }

  /** The ports of the last report entry about `s`. */
  function Reported(reported: seq<Entry>, s: SessionId): Option<seq<Port>> {
    if reported == [] then None
    else if reported[|reported| - 1].session == s then Some(ValidPorts(reported[|reported| - 1].ports))
    else Reported(reported[..|reported| - 1], s)
  }

  predicate Lists(t: Table, d: DaemonId, ss: seq<SessionId>) {
    && (forall s :: s in ss ==> s in t.meta && t.meta[s].daemon == d)
    && (forall s :: s in t.meta && t.meta[s].daemon == d ==> s in ss)
  }

  function Untouched(h: Hub, d: DaemonId, reported: seq<Entry>, others: seq<SessionId>): seq<SessionId> {
    if others == [] then []
    else
      var s := others[|others| - 1];
      var before := Untouched(h, d, reported, others[..|others| - 1]);
      if Owns(h, d, s) && Reported(reported, s).Some? then before else before + [s]
  }

  function Step(spell: Spelling, h: Hub, e: Event): Hub {
    match e
    case Install(s, o) => InstallSession(h, s, o)
    case DropSession(s) => Drop(h, s)
    case PortsUpdate(d, device, reported, others) =>
      var r := Report(spell, h, d, device, reported);
      if Lists(r.table, d, others) then r.(table := ReleaseAll(r.table, Untouched(h, d, reported, others))) else h
    case DaemonLost(d, others) => if Lists(h.table, d, others) then h.(table := ReleaseAll(h.table, others)) else h
  }

  function After(spell: Spelling, events: seq<Event>): Hub {
    if events == [] then Hub(EMPTY, map[])
    else Step(spell, After(spell, events[..|events| - 1]), events[|events| - 1])
  }

  /** Routes, ports and table sessions belong to live sessions and carry their identity. */
  ghost predicate Owned(h: Hub) {
    && (forall name :: name in h.table.byShort ==> var r := h.table.byShort[name];
          r.key.session in h.sessions && r.owner == h.sessions[r.key.session])
    && (forall k :: k in h.table.bySession ==> k.session in h.table.meta)
    && (forall s :: s in h.table.meta ==> s in h.sessions && h.table.meta[s] == h.sessions[s])
  }

  ghost predicate Inv(h: Hub) { Grounded(h.table) && Owned(h) }

  lemma ReleaseKeeps(h: Hub, s: SessionId)
    requires Inv(h)
    ensures Inv(h.(table := Release(h.table, s)))
    ensures forall k :: k in Release(h.table, s).bySession <==> k in h.table.bySession && k.session != s
    ensures forall k :: k in Release(h.table, s).bySession ==> Release(h.table, s).bySession[k] == h.table.bySession[k]
  {
    WithoutGrounded(h.table, KeysOf(h.table, s));
  }

  lemma {:induction false} ReleaseAllKeeps(h: Hub, ss: seq<SessionId>)
    requires Inv(h)
    ensures Inv(h.(table := ReleaseAll(h.table, ss)))
    ensures forall k :: k in ReleaseAll(h.table, ss).bySession <==> k in h.table.bySession && k.session !in ss
    decreases |ss|
  {
    if ss != [] {
      var n := |ss| - 1;
      ReleaseAllKeeps(h, ss[..n]);
      ReleaseKeeps(h.(table := ReleaseAll(h.table, ss[..n])), ss[n]);
      assert forall s :: s in ss <==> s in ss[..n] || s == ss[n];
    }
  }

  lemma ReconcileKeeps(spell: Spelling, h: Hub, s: SessionId, device: DeviceName, ports: seq<Port>)
    requires Inv(h) && s in h.sessions
    ensures Inv(h.(table := Reconcile(spell, h.table, s, h.sessions[s], device, ports)))
  {
    var o := h.sessions[s];
    ReconcileExact(spell, h.table, s, o, device, ports);
    var base := Trimmed(h.table, s, o, ports);
    EnsureAllGrows(spell, base, device, o, s, ports);
    EnsureAllKeys(spell, base, device, o, s, ports);
  }

  lemma {:induction false} ReportKeeps(spell: Spelling, h: Hub, d: DaemonId, device: DeviceName, reported: seq<Entry>)
    requires Inv(h)
    ensures var r := Report(spell, h, d, device, reported);
            && Inv(r) && r.sessions == h.sessions
            && (forall s, p :: Owns(h, d, s) && Reported(reported, s).Some? ==>
                (Key(s, p) in r.table.bySession <==> p in Reported(reported, s).value))
            && (forall k: Key :: !Owns(h, d, k.session) ==> (k in r.table.bySession <==> k in h.table.bySession))
    decreases |reported|
  {
    if reported != [] {
      var n := |reported| - 1;
      ReportKeeps(spell, h, d, device, reported[..n]);
      var before := Report(spell, h, d, device, reported[..n]);
      var e := reported[n];
      if Owns(before, d, e.session) {
        ReconcileKeeps(spell, before, e.session, device, ValidPorts(e.ports));
        ReconcileExact(spell, before.table, e.session, before.sessions[e.session], device, ValidPorts(e.ports));
      }
    }
  }

  lemma {:induction false} UntouchedExactly(
      h: Hub, d: DaemonId, reported: seq<Entry>, others: seq<SessionId>, s: SessionId)
    ensures s in Untouched(h, d, reported, others) <==> s in others && !(Owns(h, d, s) && Reported(reported, s).Some?)
    decreases |others|
  {
    if others != [] {
      var n := |others| - 1;
      UntouchedExactly(h, d, reported, others[..n], s);
      assert others == others[..n] + [others[n]];
    }
  }

  lemma StepKeeps(spell: Spelling, h: Hub, e: Event)
    requires Inv(h)
    ensures Inv(Step(spell, h, e))
  {
    match e {
      case Install(s, o) => ReleaseKeeps(h, s);
      case DropSession(s) => ReleaseKeeps(h, s);
      case PortsUpdate(d, device, reported, others) =>
        ReportKeeps(spell, h, d, device, reported);
        ReleaseAllKeeps(Report(spell, h, d, device, reported), Untouched(h, d, reported, others));
      case DaemonLost(d, others) => ReleaseAllKeeps(h, others);
    }
  }

  lemma {:induction false} Always(spell: Spelling, events: seq<Event>)
    ensures Inv(After(spell, events))
    decreases |events|
  {
    if events != [] {
      Always(spell, events[..|events| - 1]);
      StepKeeps(spell, After(spell, events[..|events| - 1]), events[|events| - 1]);
    }
  }

  // ---------------------------------------------------------------- main results

  /** Whatever labels clash, every route is named by its own session's map and carries the live session's identity. */
  lemma {:induction false} RoutesCarryLiveIdentity(spell: Spelling, events: seq<Event>, name: ShortId)
    requires name in After(spell, events).table.byShort
    ensures var h := After(spell, events);
            var r := h.table.byShort[name];
            && r.shortId == name && r.key in h.table.bySession && h.table.bySession[r.key] == name
            && r.key.session in h.sessions && r.owner == h.sessions[r.key.session]
  {
    Always(spell, events);
  }

  /** What a caller can check before a report: every port of every accepted entry finds a free label in its turn. */
  ghost predicate FreeReport(spell: Spelling, h: Hub, d: DaemonId, device: DeviceName, reported: seq<Entry>) {
    forall i :: 0 <= i < |reported| && Owns(h, d, reported[i].session) ==> FreeEntry(spell, h, d, device, reported, i)
  }

  ghost predicate FreeEntry(spell: Spelling, h: Hub, d: DaemonId, device: DeviceName, reported: seq<Entry>, i: nat)
    requires i < |reported|
  {
    reported[i].session in h.sessions ==>
      var s, ports := reported[i].session, ValidPorts(reported[i].ports);
      var o, t := h.sessions[s], Report(spell, h, d, device, reported[..i]).table;
      AllFree(spell, Trimmed(t, s, o, ports), device, o, s, ports)
  }

  /** The maps are inverse after every entry of the report. */
  ghost predicate RoutedThroughout(spell: Spelling, h: Hub, d: DaemonId, device: DeviceName, reported: seq<Entry>) {
    forall i :: 0 <= i <= |reported| ==> Routed(Report(spell, h, d, device, reported[..i]).table)
  }

  lemma EntryExact(spell: Spelling, h: Hub, d: DaemonId, device: DeviceName, reported: seq<Entry>, i: nat)
    requires Inv(h) && i < |reported| && Routed(Report(spell, h, d, device, reported[..i]).table)
    ensures Routed(Report(spell, h, d, device, reported[..i + 1]).table)
       <==> (Owns(h, d, reported[i].session) ==> FreeEntry(spell, h, d, device, reported, i))
  {
    ReportKeeps(spell, h, d, device, reported[..i]);
    var before := Report(spell, h, d, device, reported[..i]);
    assert reported[..i + 1][..i] == reported[..i];
    var e := reported[i];
    if Owns(before, d, e.session) {
      ReconcileExact(spell, before.table, e.session, before.sessions[e.session], device, ValidPorts(e.ports));
    }
  }

  lemma {:induction false} FreeStaysRouted(
      spell: Spelling, h: Hub, d: DaemonId, device: DeviceName, reported: seq<Entry>, i: nat)
    requires Inv(h) && Routed(h.table) && FreeReport(spell, h, d, device, reported) && i <= |reported|
    ensures Routed(Report(spell, h, d, device, reported[..i]).table)
    decreases i
  {
    if i > 0 {
      FreeStaysRouted(spell, h, d, device, reported, i - 1);
      EntryExact(spell, h, d, device, reported, i - 1);
    }
  }

  /** One report: the maps are inverse after each of its entries exactly when it is free. */
  lemma ReportExact(spell: Spelling, h: Hub, d: DaemonId, device: DeviceName, reported: seq<Entry>)
    requires Inv(h) && Routed(h.table)
    ensures RoutedThroughout(spell, h, d, device, reported) <==> FreeReport(spell, h, d, device, reported)
  {
    if FreeReport(spell, h, d, device, reported) {
      forall i | 0 <= i <= |reported| ensures Routed(Report(spell, h, d, device, reported[..i]).table) {
        FreeStaysRouted(spell, h, d, device, reported, i);
      }
    }
    if RoutedThroughout(spell, h, d, device, reported) {
      forall i | 0 <= i < |reported| && Owns(h, d, reported[i].session)
        ensures FreeEntry(spell, h, d, device, reported, i)
      {
        assert Routed(Report(spell, h, d, device, reported[..i]).table);
        assert Routed(Report(spell, h, d, device, reported[..i + 1]).table);
        EntryExact(spell, h, d, device, reported, i);
      }
    }
  }

  ghost predicate Inverse(spell: Spelling, h: Hub, e: Event) {
    && Routed(h.table) && Routed(Step(spell, h, e).table)
    && (e.PortsUpdate? ==> RoutedThroughout(spell, h, e.daemon, e.device, e.reported))
  }

  ghost predicate FreeStep(spell: Spelling, h: Hub, e: Event) {
    e.PortsUpdate? ==> FreeReport(spell, h, e.daemon, e.device, e.reported)
  }

  lemma ReleaseRouted(t: Table, s: SessionId)
    requires Routed(t)
    ensures Routed(Release(t, s))
  {
    WithoutRouted(t, KeysOf(t, s));
  }

  lemma {:induction false} ReleaseAllRouted(t: Table, ss: seq<SessionId>)
    requires Routed(t)
    ensures Routed(ReleaseAll(t, ss))
    decreases |ss|
  {
    if ss != [] {
      ReleaseAllRouted(t, ss[..|ss| - 1]);
      ReleaseRouted(ReleaseAll(t, ss[..|ss| - 1]), ss[|ss| - 1]);
    }
  }

  lemma StepExact(spell: Spelling, h: Hub, e: Event)
    requires Inv(h) && Routed(h.table)
    ensures Inverse(spell, h, e) <==> FreeStep(spell, h, e)
  {
    match e {
      case Install(s, o) => ReleaseRouted(h.table, s);
      case DropSession(s) => ReleaseRouted(h.table, s);
      case DaemonLost(d, others) => ReleaseAllRouted(h.table, others);
      case PortsUpdate(d, device, reported, others) =>
        ReportExact(spell, h, d, device, reported);
        if FreeReport(spell, h, d, device, reported) {
          assert reported[..|reported|] == reported;
          ReleaseAllRouted(Report(spell, h, d, device, reported).table, Untouched(h, d, reported, others));
        }
    }
  }

  lemma {:induction false} FreeRunsRouted(spell: Spelling, events: seq<Event>)
    requires forall k :: 0 <= k < |events| ==> FreeStep(spell, After(spell, events[..k]), events[k])
    ensures Routed(After(spell, events).table)
    decreases |events|
  {
    if events != [] {
      var n := |events| - 1;
      forall k | 0 <= k < n ensures FreeStep(spell, After(spell, events[..n][..k]), events[..n][k]) {
        assert events[..n][..k] == events[..k];
        assert FreeStep(spell, After(spell, events[..k]), events[k]);
      }
      FreeRunsRouted(spell, events[..n]);
      Always(spell, events[..n]);
      assert FreeStep(spell, After(spell, events[..n]), events[n]);
      StepExact(spell, After(spell, events[..n]), events[n]);
    }
  }

  /**
   Over any run the two maps are inverse at every moment exactly when every report of it, as it arrives, finds a free
   label for each of its new ports.
   */
  lemma {:induction false} MapsAreInverse(spell: Spelling, events: seq<Event>)
    ensures (forall k :: 0 <= k < |events| ==> Inverse(spell, After(spell, events[..k]), events[k]))
       <==> (forall k :: 0 <= k < |events| ==> FreeStep(spell, After(spell, events[..k]), events[k]))
  {
    if forall k :: 0 <= k < |events| ==> FreeStep(spell, After(spell, events[..k]), events[k]) {
      forall k | 0 <= k < |events| ensures Inverse(spell, After(spell, events[..k]), events[k]) {
        FreePrefix(spell, events, k);
        FreeRunsRouted(spell, events[..k]);
        Always(spell, events[..k]);
        assert FreeStep(spell, After(spell, events[..k]), events[k]);
        StepExact(spell, After(spell, events[..k]), events[k]);
      }
    } else if forall k :: 0 <= k < |events| ==> Inverse(spell, After(spell, events[..k]), events[k]) {
      forall k | 0 <= k < |events| ensures FreeStep(spell, After(spell, events[..k]), events[k]) {
        assert Inverse(spell, After(spell, events[..k]), events[k]);
        Always(spell, events[..k]);
        StepExact(spell, After(spell, events[..k]), events[k]);
      }
    }
  }

  lemma {:induction false} FreePrefix(spell: Spelling, events: seq<Event>, n: nat)
    requires n <= |events| && forall k :: 0 <= k < |events| ==> FreeStep(spell, After(spell, events[..k]), events[k])
    ensures forall k :: 0 <= k < n ==> FreeStep(spell, After(spell, events[..n][..k]), events[..n][k])
  {
    forall k | 0 <= k < n ensures FreeStep(spell, After(spell, events[..n][..k]), events[..n][k]) {
      assert events[..n][..k] == events[..k];
      assert FreeStep(spell, After(spell, events[..k]), events[k]);
    }
  }

  /** After a daemon's report its sessions have exactly the ports last reported for them, the unreported ones none. */
  lemma {:induction false} ReportIsComplete(
      spell: Spelling, events: seq<Event>, d: DaemonId, device: DeviceName, reported: seq<Entry>,
      others: seq<SessionId>, s: SessionId, p: Port)
    requires var h := After(spell, events);
             Owns(h, d, s) && Lists(Report(spell, h, d, device, reported).table, d, others)
    ensures Key(s, p) in Step(spell, After(spell, events), PortsUpdate(d, device, reported, others)).table.bySession
       <==> Reported(reported, s).Some? && p in Reported(reported, s).value
  {
    var h := After(spell, events);
    var r := Report(spell, h, d, device, reported);
    Always(spell, events);
    ReportKeeps(spell, h, d, device, reported);
    ReleaseAllKeeps(r, Untouched(h, d, reported, others));
    UntouchedExactly(h, d, reported, others, s);
  }

  // ---------------------------------------------------------------- the clash happens

  /** Sessions 1000 to 1999 share their prefix, as session ids with the same first six characters do. */
  function Prefixes(c: Candidate): ShortId {
    match c
    case Plain(_, p) => if p >= 0 then p else 0
    case WithDaemon(_, p, d) => 100_000 + if p >= 0 then p else 0
    case WithSession(_, p, s) => 200_000 + s / 1000
  }

  function Shares(t: Table, s: SessionId): Table { Reconcile(Prefixes, t, s, Owner(1, 1, 1), 7, [80]) }

  lemma SharesEnsures(t: Table, s: SessionId)
    requires forall k :: k in t.bySession ==> k.session != s
    ensures Shares(t, s) == Ensure(Prefixes, t.(meta := t.meta[s := Owner(1, 1, 1)]), 7, Owner(1, 1, 1), Key(s, 80))
  {
    assert Vanished(t, s, [80]) == {};
    WithoutNone(t);
    assert [80][..0] == [];
    var u := t.(meta := t.meta[s := Owner(1, 1, 1)]);
    assert EnsureAll(Prefixes, u, 7, Owner(1, 1, 1), s, [80][..0]) == u;
  }

  lemma SharesNext(t: Table, s: SessionId, name: ShortId)
    requires forall k :: k in t.bySession ==> k.session < s
    requires name == Choose(Prefixes, t, 7, 1, Key(s, 80))
    ensures forall k :: k in Shares(t, s).bySession ==> k.session < s + 1
    ensures Shares(t, s).byShort == t.byShort[name := Route(name, Owner(1, 1, 1), Key(s, 80))]
    ensures Shares(t, s).bySession == t.bySession[Key(s, 80) := name] && Shares(t, s).meta == t.meta[s := OWNER]
  {
    SharesEnsures(t, s);
  }

  const OWNER: Owner := Owner(1, 1, 1)

  lemma {:induction false} Then(spell: Spelling, events: seq<Event>, e: Event)
    ensures After(spell, events + [e]) == Step(spell, After(spell, events), e)
  {
    assert (events + [e])[..|events|] == events;
  }

  lemma {:induction false} InstallNext(events: seq<Event>, sessions: map<SessionId, Owner>, s: SessionId)
    returns (more: seq<Event>)
    requires After(Prefixes, events) == Hub(EMPTY, sessions) && s !in sessions
    ensures After(Prefixes, more) == Hub(EMPTY, sessions[s := OWNER])
  {
    more := events + [Install(s, OWNER)];
    Then(Prefixes, events, Install(s, OWNER));
  }

  const SHARERS: map<SessionId, Owner> := map[1000 := OWNER, 1001 := OWNER, 1002 := OWNER, 1003 := OWNER]

  lemma FourInstalled() returns (events: seq<Event>)
    ensures After(Prefixes, events) == Hub(EMPTY, SHARERS)
  {
    events := [];
    events := InstallNext(events, map[], 1000);
    events := InstallNext(events, map[1000 := OWNER], 1001);
    events := InstallNext(events, map[1000 := OWNER, 1001 := OWNER], 1002);
    events := InstallNext(events, map[1000 := OWNER, 1001 := OWNER, 1002 := OWNER], 1003);
  }

  lemma ReportNext(h: Hub, reported: seq<Entry>, s: SessionId, t: Table)
    requires h.sessions == SHARERS && s in SHARERS && reported != [] && reported[|reported| - 1] == Entry(s, [80])
    requires Report(Prefixes, h, 1, 7, reported[..|reported| - 1]).table == t
    ensures Report(Prefixes, h, 1, 7, reported).table == Shares(t, s)
  {
    ReportSessions(Prefixes, h, 1, 7, reported[..|reported| - 1]);
    assert [80][..0] == [] && ValidPorts([80]) == [80];
  }

  const SHARED: seq<Entry> := [Entry(1000, [80]), Entry(1001, [80]), Entry(1002, [80]), Entry(1003, [80])]

  lemma SharedHalf(h: Hub)
    requires h == Hub(EMPTY, SHARERS)
    ensures Report(Prefixes, h, 1, 7, SHARED[..2]).table == Shares(Shares(EMPTY, 1000), 1001)
  {
    assert SHARED[..1][..0] == [] && SHARED[..2][..1] == SHARED[..1];
    ReportNext(h, SHARED[..1], 1000, EMPTY);
    ReportNext(h, SHARED[..2], 1001, Shares(EMPTY, 1000));
  }

  lemma SharedReport(h: Hub)
    requires h == Hub(EMPTY, SHARERS)
    ensures Report(Prefixes, h, 1, 7, SHARED).table == Shares(Shares(Shares(Shares(EMPTY, 1000), 1001), 1002), 1003)
  {
    SharedHalf(h);
    assert SHARED[..3][..2] == SHARED[..2];
    ReportNext(h, SHARED[..3], 1002, Shares(Shares(EMPTY, 1000), 1001));
    ReportNext(h, SHARED, 1003, Shares(Shares(Shares(EMPTY, 1000), 1001), 1002));
  }

  /** Sharing one port, the third session ends with a label that leads to the fourth. */
  lemma SharesClash()
    ensures var t := Shares(Shares(Shares(Shares(EMPTY, 1000), 1001), 1002), 1003);
            t.meta == SHARERS && !Routed(t)
  {
    var t0 := EMPTY;
    SharesNext(t0, 1000, 80);
    var t1 := Shares(t0, 1000);
    SharesNext(t1, 1001, 100_080);
    var t2 := Shares(t1, 1001);
    SharesNext(t2, 1002, 200_001);
    var t3 := Shares(t2, 1002);
    SharesNext(t3, 1003, 200_001);
    var t4 := Shares(t3, 1003);
    assert t4.bySession[Key(1002, 80)] == 200_001 && t4.byShort[200_001].key == Key(1003, 80);
  }

  lemma {:induction false} ReportedSome(reported: seq<Entry>, i: nat)
    requires i < |reported|
    ensures Reported(reported, reported[i].session).Some?
    decreases |reported|
  {
    if i < |reported| - 1 { ReportedSome(reported[..|reported| - 1], i); }
  }

  lemma {:induction false} NoneUntouched(h: Hub, d: DaemonId, reported: seq<Entry>, others: seq<SessionId>)
    requires forall s :: s in others ==> Owns(h, d, s) && Reported(reported, s).Some?
    ensures Untouched(h, d, reported, others) == []
    decreases |others|
  {
    if others != [] { NoneUntouched(h, d, reported, others[..|others| - 1]); }
  }

  const ALL: seq<SessionId> := [1000, 1001, 1002, 1003]

  /** The report names all sessions of the daemon, so none is released. */
  lemma SharedStep(h: Hub)
    requires h.sessions == SHARERS && Report(Prefixes, h, 1, 7, SHARED).table.meta == SHARERS
    ensures Step(Prefixes, h, PortsUpdate(1, 7, SHARED, ALL)).table == Report(Prefixes, h, 1, 7, SHARED).table
  {
    assert Lists(Report(Prefixes, h, 1, 7, SHARED).table, 1, ALL);
    forall s | s in ALL ensures Owns(h, 1, s) && Reported(SHARED, s).Some? { ReportedSome(SHARED, s - 1000); }
    NoneUntouched(h, 1, SHARED, ALL);
  }

  /**
   Four sessions of one daemon report the same port; the last two also share a prefix, and the third one's label leads
   to the fourth.
   */
  lemma ClashHappens() returns (events: seq<Event>)
    ensures !Routed(After(Prefixes, events).table)
  {
    events := FourInstalled();
    SharedReport(After(Prefixes, events));
    SharesClash();
    SharedStep(After(Prefixes, events));
    Then(Prefixes, events, PortsUpdate(1, 7, SHARED, ALL));
    events := events + [PortsUpdate(1, 7, SHARED, ALL)];
  }

  // ---------------------------------------------------------------- the table in a run

  lemma {:induction false} ReportSessions(
      spell: Spelling, h: Hub, d: DaemonId, device: DeviceName, reported: seq<Entry>)
    ensures Report(spell, h, d, device, reported).sessions == h.sessions
    decreases |reported|
  {
    if reported != [] { ReportSessions(spell, h, d, device, reported[..|reported| - 1]); }
  }

  /** The loop over the reported sessions of the daemon itself. */
  method TakeReport(
      spell: Spelling, table: ProxyRouteTable, h: Hub, d: DaemonId, device: DeviceName, reported: seq<Entry>)
    requires table.Valid() && table.View() == h.table
    modifies table
    ensures table.Valid() && table.View() == Report(spell, h, d, device, reported).table
  {
    for i := 0 to |reported|
      invariant table.Valid() && table.View() == Report(spell, h, d, device, reported[..i]).table
    {
      assert reported[..i + 1][..i] == reported[..i];
      ReportSessions(spell, h, d, device, reported[..i]);
      var e := reported[i];
      if Owns(h, d, e.session) {
        var _ := table.ReconcileSession(spell, e.session, h.sessions[e.session], device, ValidPorts(e.ports));
      }
    }
    assert reported[..|reported|] == reported;
  }

  method Follow(spell: Spelling, table: ProxyRouteTable, h: Hub, e: Event)
    requires table.Valid() && table.View() == h.table
    modifies table
    ensures table.Valid() && table.View() == Step(spell, h, e).table
  {
    match e {
      case Install(s, o) =>
        if s in h.sessions && h.sessions[s].account == o.account && h.sessions[s].daemon == o.daemon
           && h.sessions[s].task != o.task { var _ := table.ReleaseSession(s); }
      case DropSession(s) => var _ := table.ReleaseSession(s);
      case PortsUpdate(d, device, reported, others) =>
        if Lists(Report(spell, h, d, device, reported).table, d, others) {
          TakeReport(spell, table, h, d, device, reported);
          var _ := table.ReleaseSessions(Untouched(h, d, reported, others));
        }
      case DaemonLost(d, others) => if Lists(h.table, d, others) { var _ := table.ReleaseSessions(others); }
    }
  }

  /** A route table driven through any run is the one that the theorems above speak about. */
  method Drive(spell: Spelling, events: seq<Event>) returns (table: ProxyRouteTable)
    ensures fresh(table) && table.Valid() && table.View() == After(spell, events).table
  {
    table := new ProxyRouteTable();
    var h := Hub(EMPTY, map[]);
    for i := 0 to |events|
      invariant fresh(table) && table.Valid() && h == After(spell, events[..i]) && table.View() == h.table
    {
      assert events[..i + 1][..i] == events[..i];
      Follow(spell, table, h, events[i]);
      h := Step(spell, h, events[i]);
    }
    assert events[..|events|] == events;
  }
}
