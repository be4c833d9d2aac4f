/**
 A subscribing client: broadcasts are held in a backlog while the snapshot's tables are read one by one, then the
 snapshot is sent and the backlog replayed. An entity's state is named by its version, the number of its commits.
 */
module Subscription {
  import opened Store

  /** The seven queries of the snapshot (the device list reads the online devices at once and the rest by query),
      and the tables held in memory, which are read in the segment that sends the snapshot. */
  datatype Table = Online | Devices | Projects | Workspaces | Tasks | Checkpoints | Inbox | AgentSettings | InMemory

  const QUERIED: set<Table> := {Devices, Projects, Workspaces, Tasks, Checkpoints, Inbox, AgentSettings}

  datatype Entity = Entity(table: Table, id: nat)

  type Versions = map<Entity, nat>

  function At(versions: Versions, e: Entity): nat { if e in versions then versions[e] else 0 }

  datatype Frame = Update(entity: Entity, version: nat, size: nat) | Snapshot(versions: Versions, size: nat)

  datatype Backlog = Backlog(frames: seq<Frame>, bytes: nat, overflowed: bool)

  /**
   One client connection. `working` is how many sends still work before the socket's send throws, if it ever does;
   `buffered` is what the socket still holds and `delivered` what it was handed; `lost` remembers that a throwing send
   dropped a frame on the open connection.
   */
  datatype Conn = Conn(
    limit: nat, open: bool, working: Option<nat>, buffered: nat, subscribed: bool, backlog: Option<Backlog>,
    delivered: seq<Frame>, lost: bool)

  function NewConn(limit: nat): Conn { Conn(limit, true, None, 0, false, None, [], false) }

  const MAX_SNAPSHOT_BACKLOG_MESSAGES: nat := 4096

  predicate HasRoom(c: Conn, f: Frame) { f.size <= c.limit && c.buffered <= c.limit - f.size }

  predicate Accepts(c: Conn, f: Frame) { c.open && HasRoom(c, f) && c.working != Some(0) }

  predicate Throws(c: Conn, f: Frame) { c.open && HasRoom(c, f) && c.working == Some(0) }

  function OneLess(working: Option<nat>): Option<nat> {
    if working.Some? && working.value > 0 then Some(working.value - 1) else working
  }

  /** A frame that would pass the send buffer's limit closes the connection; one whose send throws is dropped. */
  function SendWs(c: Conn, f: Frame): Conn {
    if !c.open then c
    else if !HasRoom(c, f) then c.(open := false)
    else if c.working == Some(0) then c.(lost := true)
    else c.(buffered := c.buffered + f.size, delivered := c.delivered + [f], working := OneLess(c.working))
  }

  predicate Fits(c: Conn, b: Backlog, f: Frame) {
    |b.frames| < MAX_SNAPSHOT_BACKLOG_MESSAGES && f.size <= c.limit - b.bytes
  }

  function SendClient(c: Conn, f: Frame): Conn {
    if !c.open then c
    else if c.backlog.None? then SendWs(c, f)
    else
      var b := c.backlog.value;
      if b.overflowed then c
      else if Fits(c, b, f) then c.(backlog := Some(b.(frames := b.frames + [f], bytes := b.bytes + f.size)))
      else c.(backlog := Some(Backlog([], 0, true)), open := false)
  }

  /** Frames in order, stopping at the first the socket refuses. */
  function Replay(c: Conn, frames: seq<Frame>): Conn
    decreases |frames|
  {
    if frames == [] then c
    else if Accepts(c, frames[0]) then Replay(SendWs(c, frames[0]), frames[1..])
    else SendWs(c, frames[0])
  }

  /** The frames that the replay does not hand to the socket: the refused one and all behind it. */
  function Unsent(c: Conn, frames: seq<Frame>): seq<Frame>
    decreases |frames|
  {
    if frames == [] then []
    else if Accepts(c, frames[0]) then Unsent(SendWs(c, frames[0]), frames[1..])
    else frames
  }

  // ---------------------------------------------------------------- the system around one client

  datatype State = State(
    commits: Versions, announced: Versions, conn: Conn, read: set<Table>, marks: Versions, snapshotSent: bool)

  function Initial(limit: nat): State {
    State(map[], map[], NewConn(limit), {}, map[], false)
  }

  datatype Event =
    | Commit(entity: Entity)
    /** A broadcast shows some commit later than the entity's broadcasts before it. */
    | Broadcast(entity: Entity, version: nat, size: nat)
    | Subscribe
    | ReadTable(table: Table)
    | SendSnapshot(size: nat)
    | FinishSubscribe
    | FailSubscribe
    | Drain(bytes: nat)
    /** The socket's send works so many times from now on and then throws, or never throws. */
    | Fault(working: Option<nat>)
    | Close

  function Observe(s: State, table: Table): State {
    s.(read := s.read + {table},
       marks := map e | e in s.marks.Keys + s.commits.Keys :: if e.table == table then At(s.commits, e)
           else At(s.marks, e))
  }

  predicate SendsSnapshot(s: State) {
    s.conn.backlog.Some? && !s.snapshotSent && QUERIED <= s.read && !s.conn.backlog.value.overflowed
  }

  predicate Finishes(s: State) { s.conn.backlog.Some? && s.snapshotSent && !s.conn.backlog.value.overflowed }

  function Step(s: State, e: Event): State {
    match e
    case Commit(x) => s.(commits := s.commits[x := At(s.commits, x) + 1])
    case Broadcast(x, v, size) =>
      if !(At(s.announced, x) < v <= At(s.commits, x)) then s
      else s.(announced := s.announced[x := v],
              conn := if s.conn.subscribed then SendClient(s.conn, Update(x, v, size)) else s.conn)
    case Subscribe =>
      if s.conn.subscribed || !s.conn.open then s
      else
        var conn := s.conn.(subscribed := true, backlog := Some(Backlog([], 0, false)));
        Observe(State(s.commits, s.announced, conn, {}, map[], false), Online)
    case ReadTable(t) =>
      if s.conn.backlog.Some? && !s.snapshotSent && t in QUERIED && t !in s.read then Observe(s, t) else s
    case SendSnapshot(size) =>
      if SendsSnapshot(s) then
        var o := Observe(s, InMemory);
        o.(conn := SendWs(s.conn, Snapshot(o.marks, size)), snapshotSent := true)
      else s
    case FinishSubscribe =>
      if Finishes(s) then s.(conn := Replay(s.conn.(backlog := None), s.conn.backlog.value.frames)) else s
    case FailSubscribe =>
      if s.conn.backlog.Some? then s.(conn := s.conn.(backlog := None, subscribed := false, open := false)) else s
    case Drain(n) => s.(conn := s.conn.(buffered := if n <= s.conn.buffered then s.conn.buffered - n else 0))
    case Fault(working) => s.(conn := s.conn.(working := working))
    case Close => s.(conn := s.conn.(open := false, backlog := None, subscribed := false))
  }

  function After(limit: nat, events: seq<Event>): State {
    if events == [] then Initial(limit) else Step(After(limit, events[..|events| - 1]), events[|events| - 1])
  }

  /** What the client shows: the last snapshot, overwritten by each update after it. */
  function Shown(delivered: seq<Frame>): Versions {
    if delivered == [] then map[]
    else
      var before := Shown(delivered[..|delivered| - 1]);
      match delivered[|delivered| - 1]
      case Update(e, v, _) => before[e := v]
      case Snapshot(versions, _) => versions
  }

  // ---------------------------------------------------------------- proofs

  function TotalBytes(frames: seq<Frame>): nat {
    if frames == [] then 0 else TotalBytes(frames[..|frames| - 1]) + frames[|frames| - 1].size
  }

  /** The last update of `e` in `frames`. */
  function Latest(frames: seq<Frame>, e: Entity): Option<nat> {
    if frames == [] then None
    else
      var f := frames[|frames| - 1];
      if f.Update? && f.entity == e then Some(f.version) else Latest(frames[..|frames| - 1], e)
  }

  ghost predicate AllUpdates(frames: seq<Frame>) {
    forall i :: 0 <= i < |frames| ==> frames[i].Update?
  }

  /** `versions` with every update of `frames` laid over it. */
  function Overlay(versions: Versions, frames: seq<Frame>): Versions {
    if frames == [] then versions
    else
      var before := Overlay(versions, frames[..|frames| - 1]);
      var f := frames[|frames| - 1];
      if f.Update? then before[f.entity := f.version] else before
  }

  // ---------------------------------------------------------------- what throwing sends dropped

  predicate Announces(s: State, x: Entity, v: nat) { At(s.announced, x) < v <= At(s.commits, x) }

  /** A throwing broadcast drops its update, a throwing snapshot all that was announced, a throwing replay its rest. */
  function NextDropped(s: State, d: Versions, e: Event): Versions {
    match e
    case Broadcast(x, v, size) =>
      if Announces(s, x, v) && s.conn.subscribed && s.conn.backlog.None? && Throws(s.conn, Update(x, v, size))
      then d[x := v] else d
    case SendSnapshot(size) =>
      if SendsSnapshot(s) && Throws(s.conn, Snapshot(Observe(s, InMemory).marks, size)) then s.announced else d
    case FinishSubscribe =>
      if Finishes(s) then
        var c, frames := s.conn.(backlog := None), s.conn.backlog.value.frames;
        if Replay(c, frames).open then Overlay(d, Unsent(c, frames)) else d
      else d
    case _ => d
  }

  /** The versions last dropped by a throwing send in the run. */
  function Dropped(limit: nat, events: seq<Event>): Versions {
    if events == [] then map[]
    else
      var before := events[..|events| - 1];
      NextDropped(After(limit, before), Dropped(limit, before), events[|events| - 1])
  }

  // ---------------------------------------------------------------- the invariant

  ghost predicate Covered(s: State, d: Versions, e: Entity) {
    At(s.announced, e) <= At(Shown(s.conn.delivered), e) || At(s.announced, e) <= At(d, e)
  }

  ghost predicate EntityInv(s: State, d: Versions, e: Entity) {
    if s.conn.backlog.Some? then
      var latest := Latest(s.conn.backlog.value.frames, e);
      && (latest.Some? ==> latest.value == At(s.announced, e))
      && (latest.None? && e.table in s.read ==> At(s.announced, e) <= At(s.marks, e))
      && (latest.None? && s.snapshotSent ==> Covered(s, d, e))
    else Covered(s, d, e)
  }

  ghost predicate BacklogInv(c: Conn) {
    c.backlog.Some? ==>
      var b := c.backlog.value;
      && c.subscribed && AllUpdates(b.frames)
      && b.bytes == TotalBytes(b.frames) <= c.limit && |b.frames| <= MAX_SNAPSHOT_BACKLOG_MESSAGES
      && (b.overflowed ==> b.frames == [] && !c.open)
  }

  /** Connected, and subscribing or subscribed. */
  predicate Listening(c: Conn) { c.open && c.subscribed }

  /** Listening, and no frame was dropped by a throwing send. */
  predicate Sees(c: Conn) { Listening(c) && !c.lost }

  ghost predicate AllCommitted(frames: seq<Frame>, commits: Versions) {
    forall i :: 0 <= i < |frames| && frames[i].Update? ==> frames[i].version <= At(commits, frames[i].entity)
  }

  ghost predicate Below(versions: Versions, bound: Versions) { forall e :: At(versions, e) <= At(bound, e) }

  ghost predicate TablesInv(s: State) {
    s.conn.backlog.Some? ==>
      Online in s.read && (s.snapshotSent ==> forall t: Table :: t in s.read)
  }

  /** Nothing announced, read, held or shown is ahead of the commits. */
  ghost predicate Committed(s: State) {
    && Below(s.announced, s.commits) && Below(s.marks, s.commits) && Below(Shown(s.conn.delivered), s.commits)
    && (s.conn.backlog.Some? ==> AllCommitted(s.conn.backlog.value.frames, s.commits))
  }

  ghost predicate DroppedInv(s: State, d: Versions) { Below(d, s.announced) && (!s.conn.lost ==> d == map[]) }

  ghost predicate EntitiesInv(s: State, d: Versions) { Listening(s.conn) ==> forall e :: EntityInv(s, d, e) }

  ghost predicate Inv(s: State, d: Versions) {
    Committed(s) && BacklogInv(s.conn) && TablesInv(s) && DroppedInv(s, d) && EntitiesInv(s, d)
  }

  // ---------------------------------------------------------------- frames

  lemma {:induction false} ReplayFrame(c: Conn, frames: seq<Frame>)
    ensures var t := Replay(c, frames);
            && t.limit == c.limit && t.subscribed == c.subscribed && t.backlog == c.backlog
            && (t.open ==> c.open) && (c.lost ==> t.lost)
    decreases |frames|
  {
    if frames != [] && Accepts(c, frames[0]) { ReplayFrame(SendWs(c, frames[0]), frames[1..]); }
  }

  /** A replay splits the frames into those handed over and the rest; on an open connection a rest means a loss. */
  lemma {:induction false} ReplaySplits(c: Conn, frames: seq<Frame>) returns (sent: seq<Frame>)
    ensures frames == sent + Unsent(c, frames) && Replay(c, frames).delivered == c.delivered + sent
    ensures Replay(c, frames).open && Unsent(c, frames) != [] ==> Replay(c, frames).lost
    decreases |frames|
  {
    if frames == [] || !Accepts(c, frames[0]) {
      sent := [];
    } else {
      var more := ReplaySplits(SendWs(c, frames[0]), frames[1..]);
      sent := [frames[0]] + more;
      assert frames == [frames[0]] + frames[1..];
      assert c.delivered + [frames[0]] + more == c.delivered + sent;
    }
  }

  lemma {:induction false} LatestSplits(a: seq<Frame>, b: seq<Frame>, e: Entity)
    ensures Latest(a + b, e) == if Latest(b, e).Some? then Latest(b, e) else Latest(a, e)
    decreases |b|
  {
    if b == [] {
      assert a + b == a;
    } else {
      LatestSplits(a, b[..|b| - 1], e);
      assert (a + b)[..|a + b| - 1] == a + b[..|b| - 1];
    }
  }

  lemma LatestGrows(frames: seq<Frame>, f: Frame, e: Entity)
    requires f.Update?
    ensures Latest(frames + [f], e) == if f.entity == e then Some(f.version) else Latest(frames, e)
    ensures TotalBytes(frames + [f]) == TotalBytes(frames) + f.size
  {
    assert (frames + [f])[..|frames|] == frames;
  }

  lemma {:induction false} LatestCommitted(frames: seq<Frame>, commits: Versions, e: Entity)
    requires AllCommitted(frames, commits)
    ensures Latest(frames, e).Some? ==> Latest(frames, e).value <= At(commits, e)
    decreases |frames|
  {
    if frames != [] { LatestCommitted(frames[..|frames| - 1], commits, e); }
  }

  lemma {:induction false} OverlayAt(versions: Versions, frames: seq<Frame>, e: Entity)
    ensures At(Overlay(versions, frames), e)
         == if Latest(frames, e).Some? then Latest(frames, e).value else At(versions, e)
    decreases |frames|
  {
    if frames != [] { OverlayAt(versions, frames[..|frames| - 1], e); }
  }

  lemma {:induction false} ShownOverlays(delivered: seq<Frame>, frames: seq<Frame>)
    requires AllUpdates(frames)
    ensures Shown(delivered + frames) == Overlay(Shown(delivered), frames)
    decreases |frames|
  {
    if frames == [] {
      assert delivered + frames == delivered;
    } else {
      var n := |frames| - 1;
      ShownOverlays(delivered, frames[..n]);
      assert (delivered + frames)[..|delivered| + n] == delivered + frames[..n];
    }
  }

  lemma ShownNext(delivered: seq<Frame>, f: Frame)
    ensures Shown(delivered + [f]) == match f
      case Update(e, v, _) => Shown(delivered)[e := v]
      case Snapshot(versions, _) => versions
  {
    assert (delivered + [f])[..|delivered|] == delivered;
  }

  // ---------------------------------------------------------------- broadcasts

  lemma LiveEntity(s: State, d: Versions, x: Entity, v: nat, size: nat, e: Entity)
    requires Announces(s, x, v) && Listening(s.conn) && s.conn.backlog.None? && Covered(s, d, e)
    requires HasRoom(s.conn, Update(x, v, size))
    ensures Covered(Step(s, Broadcast(x, v, size)), NextDropped(s, d, Broadcast(x, v, size)), e)
  {
    if Accepts(s.conn, Update(x, v, size)) { ShownNext(s.conn.delivered, Update(x, v, size)); }
  }

  lemma LiveCommitted(s: State, x: Entity, v: nat, size: nat)
    requires Committed(s) && Announces(s, x, v) && s.conn.subscribed && s.conn.backlog.None?
    ensures Committed(Step(s, Broadcast(x, v, size)))
  {
    if Accepts(s.conn, Update(x, v, size)) { ShownNext(s.conn.delivered, Update(x, v, size)); }
  }

  lemma LiveDropped(s: State, d: Versions, x: Entity, v: nat, size: nat)
    requires DroppedInv(s, d) && Announces(s, x, v) && s.conn.subscribed && s.conn.backlog.None?
    ensures var e := Broadcast(x, v, size); DroppedInv(Step(s, e), NextDropped(s, d, e))
  {
    forall e ensures At(NextDropped(s, d, Broadcast(x, v, size)), e) <= At(s.announced[x := v], e) {
      assert At(d, e) <= At(s.announced, e);
    }
  }

  lemma LiveBroadcastKeeps(s: State, d: Versions, x: Entity, v: nat, size: nat)
    requires Inv(s, d) && Announces(s, x, v) && s.conn.subscribed && s.conn.backlog.None?
    ensures Inv(Step(s, Broadcast(x, v, size)), NextDropped(s, d, Broadcast(x, v, size)))
  {
    var t, d' := Step(s, Broadcast(x, v, size)), NextDropped(s, d, Broadcast(x, v, size));
    LiveCommitted(s, x, v, size);
    LiveDropped(s, d, x, v, size);
    if Listening(t.conn) {
      forall e ensures EntityInv(t, d', e) {
        assert EntityInv(s, d, e);
        LiveEntity(s, d, x, v, size, e);
      }
    }
  }

  /** The state after a broadcast that the backlog takes. */
  function Held(s: State, x: Entity, v: nat, size: nat): State
    requires s.conn.backlog.Some?
  {
    var b := s.conn.backlog.value;
    var more := b.(frames := b.frames + [Update(x, v, size)], bytes := b.bytes + size);
    s.(announced := s.announced[x := v], conn := s.conn.(backlog := Some(more)))
  }

  lemma HeldEntity(s: State, d: Versions, x: Entity, v: nat, size: nat, e: Entity)
    requires s.conn.backlog.Some? && EntityInv(s, d, e)
    ensures EntityInv(Held(s, x, v, size), d, e)
  {
    var t, f := Held(s, x, v, size), Update(x, v, size);
    assert t.conn.backlog.value.frames == s.conn.backlog.value.frames + [f];
    LatestGrows(s.conn.backlog.value.frames, f, e);
    if e == x {
      assert Latest(t.conn.backlog.value.frames, e) == Some(v) && At(t.announced, e) == v;
    } else {
      assert Latest(t.conn.backlog.value.frames, e) == Latest(s.conn.backlog.value.frames, e);
      assert At(t.announced, e) == At(s.announced, e) && t.conn.delivered == s.conn.delivered;
    }
  }

  lemma HeldCommitted(s: State, d: Versions, x: Entity, v: nat, size: nat)
    requires Committed(s) && DroppedInv(s, d) && Announces(s, x, v) && s.conn.backlog.Some?
    ensures Committed(Held(s, x, v, size)) && DroppedInv(Held(s, x, v, size), d)
  {
  }

  lemma HeldKeeps(s: State, d: Versions, x: Entity, v: nat, size: nat)
    requires Inv(s, d) && Announces(s, x, v) && s.conn.backlog.Some? && Listening(s.conn)
    requires Fits(s.conn, s.conn.backlog.value, Update(x, v, size))
    ensures Inv(Held(s, x, v, size), d)
  {
    HeldCommitted(s, d, x, v, size);
    SendKeeps(s.conn, Update(x, v, size));
    forall e ensures EntityInv(Held(s, x, v, size), d, e) { HeldEntity(s, d, x, v, size, e); }
  }

  lemma OverflowKeeps(s: State, d: Versions, x: Entity, v: nat, conn: Conn)
    requires Inv(s, d) && Announces(s, x, v) && conn.delivered == s.conn.delivered && conn.lost == s.conn.lost
    requires !conn.open && BacklogInv(conn)
    requires conn.backlog == s.conn.backlog || conn.backlog == Some(Backlog([], 0, true))
    requires conn.backlog.Some? ==> s.conn.backlog.Some?
    ensures Inv(s.(announced := s.announced[x := v], conn := conn), d)
  {
  }

  lemma HeldBroadcastKeeps(s: State, d: Versions, x: Entity, v: nat, size: nat)
    requires Inv(s, d) && Announces(s, x, v) && s.conn.backlog.Some?
    ensures Inv(Step(s, Broadcast(x, v, size)), d)
  {
    var b := s.conn.backlog.value;
    if s.conn.open && Fits(s.conn, b, Update(x, v, size)) {
      HeldKeeps(s, d, x, v, size);
    } else {
      SendKeeps(s.conn, Update(x, v, size));
      OverflowKeeps(s, d, x, v, SendClient(s.conn, Update(x, v, size)));
    }
  }

  lemma BroadcastKeeps(s: State, d: Versions, x: Entity, v: nat, size: nat)
    requires Inv(s, d)
    ensures Inv(Step(s, Broadcast(x, v, size)), NextDropped(s, d, Broadcast(x, v, size)))
  {
    if Announces(s, x, v) && s.conn.subscribed {
      if s.conn.backlog.None? { LiveBroadcastKeeps(s, d, x, v, size); } else { HeldBroadcastKeeps(s, d, x, v, size); }
    }
  }

  // ---------------------------------------------------------------- the subscription

  lemma SnapshotEntity(s: State, d: Versions, size: nat, e: Entity)
    requires Inv(s, d) && SendsSnapshot(s) && Listening(Step(s, SendSnapshot(size)).conn)
    ensures EntityInv(Step(s, SendSnapshot(size)), NextDropped(s, d, SendSnapshot(size)), e)
  {
    assert EntityInv(s, d, e);
    ShownNext(s.conn.delivered, Snapshot(Observe(s, InMemory).marks, size));
    assert e.table == Online || e.table == InMemory || e.table in QUERIED;
  }

  lemma SnapshotCommitted(s: State, size: nat)
    requires Committed(s) && SendsSnapshot(s)
    ensures Committed(Step(s, SendSnapshot(size)))
  {
    ShownNext(s.conn.delivered, Snapshot(Observe(s, InMemory).marks, size));
  }

  lemma SnapshotDropped(s: State, d: Versions, size: nat)
    requires DroppedInv(s, d) && SendsSnapshot(s)
    ensures var e := SendSnapshot(size); DroppedInv(Step(s, e), NextDropped(s, d, e))
  {
  }

  lemma SnapshotTables(s: State, size: nat)
    requires TablesInv(s) && SendsSnapshot(s)
    ensures TablesInv(Step(s, SendSnapshot(size)))
  {
    forall table: Table ensures table in Step(s, SendSnapshot(size)).read {
      assert table == Online || table == InMemory || table in QUERIED;
    }
  }

  lemma SnapshotKeeps(s: State, d: Versions, size: nat)
    requires Inv(s, d)
    ensures Inv(Step(s, SendSnapshot(size)), NextDropped(s, d, SendSnapshot(size)))
  {
    var t, d' := Step(s, SendSnapshot(size)), NextDropped(s, d, SendSnapshot(size));
    if SendsSnapshot(s) {
      SnapshotCommitted(s, size);
      SnapshotDropped(s, d, size);
      SnapshotTables(s, size);
      if Listening(t.conn) {
        forall e ensures EntityInv(t, d', e) { SnapshotEntity(s, d, size, e); }
      }
    }
  }

  /** What a replay leaves of one entity: shown by what went out, or dropped with the rest. */
  lemma SplitCovers(sent: seq<Frame>, rest: seq<Frame>, shown: Versions, d: Versions, announced: nat, e: Entity)
    requires var latest := Latest(sent + rest, e);
             && At(d, e) <= announced
             && if latest.Some? then latest.value == announced else announced <= At(shown, e) || announced <= At(d, e)
    ensures announced <= At(Overlay(shown, sent), e) || announced <= At(Overlay(d, rest), e)
    ensures At(Overlay(d, rest), e) <= announced
  {
    OverlayAt(shown, sent, e);
    OverlayAt(d, rest, e);
    LatestSplits(sent, rest, e);
  }

  lemma FinishEntity(s: State, d: Versions, e: Entity)
    requires Inv(s, d) && Finishes(s) && Listening(Step(s, FinishSubscribe).conn)
    ensures var t, d' := Step(s, FinishSubscribe), NextDropped(s, d, FinishSubscribe);
            At(d', e) <= At(s.announced, e) && Covered(t, d', e)
  {
    var c, frames := s.conn.(backlog := None), s.conn.backlog.value.frames;
    ReplayFrame(c, frames);
    var sent := ReplaySplits(c, frames);
    assert forall i :: 0 <= i < |sent| ==> sent[i] == frames[i];
    ShownOverlays(c.delivered, sent);
    assert EntityInv(s, d, e);
    SplitCovers(sent, Unsent(c, frames), Shown(c.delivered), d, At(s.announced, e), e);
  }

  lemma FinishShown(s: State, e: Entity)
    requires Committed(s) && BacklogInv(s.conn) && Finishes(s)
    ensures At(Shown(Step(s, FinishSubscribe).conn.delivered), e) <= At(s.commits, e)
  {
    var c, frames := s.conn.(backlog := None), s.conn.backlog.value.frames;
    var sent := ReplaySplits(c, frames);
    assert forall i :: 0 <= i < |sent| ==> sent[i] == frames[i];
    ShownOverlays(c.delivered, sent);
    OverlayAt(Shown(c.delivered), sent, e);
    LatestCommitted(sent, s.commits, e);
  }

  lemma FinishKeeps(s: State, d: Versions)
    requires Inv(s, d)
    ensures Inv(Step(s, FinishSubscribe), NextDropped(s, d, FinishSubscribe))
  {
    var t, d' := Step(s, FinishSubscribe), NextDropped(s, d, FinishSubscribe);
    if Finishes(s) {
      var c, frames := s.conn.(backlog := None), s.conn.backlog.value.frames;
      ReplayFrame(c, frames);
      var sent := ReplaySplits(c, frames);
      forall e ensures At(Shown(t.conn.delivered), e) <= At(t.commits, e) { FinishShown(s, e); }
      if Listening(t.conn) {
        forall e ensures At(d', e) <= At(t.announced, e) && EntityInv(t, d', e) { FinishEntity(s, d, e); }
      }
    }
  }

  lemma ReadKeeps(s: State, d: Versions, table: Table)
    requires Inv(s, d)
    ensures Inv(Step(s, ReadTable(table)), d)
  {
    var t := Step(s, ReadTable(table));
    if Listening(t.conn) {
      forall x ensures EntityInv(t, d, x) { assert EntityInv(s, d, x); }
    }
  }

  lemma QuietKeeps(s: State, d: Versions, e: Event)
    requires Inv(s, d) && (e.Commit? || e.Drain? || e.Fault?)
    ensures Inv(Step(s, e), d)
  {
    var t := Step(s, e);
    if Listening(t.conn) {
      forall x ensures EntityInv(t, d, x) { assert EntityInv(s, d, x); }
    }
  }

  lemma SubscribeKeeps(s: State, d: Versions)
    requires Inv(s, d)
    ensures Inv(Step(s, Subscribe), d)
  {
    var t := Step(s, Subscribe);
    if t != s {
      forall x ensures EntityInv(t, d, x) { assert Latest([], x).None?; }
    }
  }

  lemma ClosedKeeps(s: State, d: Versions, e: Event)
    requires Inv(s, d) && (e.FailSubscribe? || e.Close?)
    ensures Inv(Step(s, e), d)
  {
  }

  lemma StepKeeps(s: State, d: Versions, e: Event)
    requires Inv(s, d)
    ensures Inv(Step(s, e), NextDropped(s, d, e))
  {
    match e {
      case Broadcast(x, v, size) => BroadcastKeeps(s, d, x, v, size);
      case SendSnapshot(size) => SnapshotKeeps(s, d, size);
      case FinishSubscribe => FinishKeeps(s, d);
      case Subscribe => SubscribeKeeps(s, d);
      case ReadTable(table) => ReadKeeps(s, d, table);
      case FailSubscribe => ClosedKeeps(s, d, e);
      case Close => ClosedKeeps(s, d, e);
      case _ => QuietKeeps(s, d, e);
    }
  }

  lemma LimitKept(s: State, e: Event)
    ensures Step(s, e).conn.limit == s.conn.limit
  {
    if e.FinishSubscribe? && s.conn.backlog.Some? {
      ReplayFrame(s.conn.(backlog := None), s.conn.backlog.value.frames);
    }
  }

  lemma {:induction false} Always(limit: nat, events: seq<Event>)
    ensures Inv(After(limit, events), Dropped(limit, events)) && After(limit, events).conn.limit == limit
    decreases |events|
  {
    if events != [] {
      var n := |events| - 1;
      var before := After(limit, events[..n]);
      Always(limit, events[..n]);
      StepKeeps(before, Dropped(limit, events[..n]), events[n]);
      LimitKept(before, events[n]);
      assert After(limit, events) == Step(before, events[n]);
    }
  }

  // ---------------------------------------------------------------- the connection object

  /** Everything handed to the connection, whether the socket has it or the backlog. */
  function Pipeline(c: Conn): seq<Frame> {
    c.delivered + if c.backlog.Some? then c.backlog.value.frames else []
  }

  lemma SendKeeps(c: Conn, f: Frame)
    requires BacklogInv(c) && f.Update?
    ensures BacklogInv(SendClient(c, f))
  {
    if c.backlog.Some? { LatestGrows(c.backlog.value.frames, f, f.entity); }
  }

  lemma SendAppends(c: Conn, f: Frame)
    requires BacklogInv(c)
    ensures var t := SendClient(c, f);
            || Pipeline(t) == Pipeline(c) + [f] || !t.open || (t.lost && Pipeline(t) == Pipeline(c))
  {
    if c.backlog.Some? && Fits(c, c.backlog.value, f) {
      assert c.delivered + (c.backlog.value.frames + [f]) == c.delivered + c.backlog.value.frames + [f];
    }
  }

  class Subscriber {
    const limit: nat
    var open: bool
    var working: Option<nat>
    var buffered: nat
    var subscribed: bool
    var backlog: Option<Backlog>
    var delivered: seq<Frame>
    ghost var lost: bool

    ghost function View(): Conn
      reads this
    {
      Conn(limit, open, working, buffered, subscribed, backlog, delivered, lost)
    }

    ghost predicate Valid()
      reads this
    {
      BacklogInv(View())
    }

    constructor (limit: nat)
      ensures Valid() && View() == NewConn(limit)
    {
      this.limit := limit;
      open, working, buffered, subscribed := true, None, 0, false;
      backlog, delivered, lost := None, [], false;
    }

    /** True exactly when the frame went out; false closes the connection or marks the frame as lost. */
    method SendSocket(f: Frame) returns (sent: bool)
      modifies this`open, this`working, this`buffered, this`delivered, this`lost
      ensures View() == SendWs(old(View()), f)
      ensures delivered == if sent then old(delivered) + [f] else old(delivered)
      ensures sent ==> open && buffered <= limit
      ensures !sent ==> !open || lost
      ensures sent == Accepts(old(View()), f)
    {
      if !open { return false; }
      if f.size > limit || buffered > limit - f.size {
        open := false;
        return false;
      }
      if working == Some(0) {
        lost := true;
        return false;
      }
      buffered, delivered, working := buffered + f.size, delivered + [f], OneLess(working);
      return true;
    }

    /** True exactly when the frame is now last in line; otherwise the connection is closed or the frame lost. */
    method Send(f: Frame) returns (sent: bool)
      requires Valid() && f.Update?
      modifies this
      ensures Valid() && View() == SendClient(old(View()), f)
      ensures sent ==> Pipeline(View()) == Pipeline(old(View())) + [f]
      ensures !sent ==> !open || (lost && Pipeline(View()) == Pipeline(old(View())))
    {
      SendKeeps(View(), f);
      SendAppends(View(), f);
      if !open { return false; }
      if backlog.Some? {
        var b := backlog.value;
        if b.overflowed { return false; }
        if |b.frames| >= MAX_SNAPSHOT_BACKLOG_MESSAGES || f.size > limit - b.bytes {
          backlog, open := Some(Backlog([], 0, true)), false;
          return false;
        }
        backlog := Some(b.(frames := b.frames + [f], bytes := b.bytes + f.size));
        return true;
      }
      sent := SendSocket(f);
    }

    method ReplayBacklog(frames: seq<Frame>)
      modifies this`open, this`working, this`buffered, this`delivered, this`lost
      ensures View() == Replay(old(View()), frames)
    {
      var i := 0;
      while i < |frames|
        invariant i <= |frames|
        invariant Replay(old(View()), frames) == Replay(View(), frames[i..])
      {
        var sent := SendSocket(frames[i]);
        if !sent { break; }
        assert frames[i..][1..] == frames[i + 1..];
        i := i + 1;
      }
    }

    method BeginSubscription()
      requires Valid()
      modifies this`subscribed, this`backlog
      ensures Valid() && subscribed && backlog == Some(Backlog([], 0, false))
    {
      subscribed, backlog := true, Some(Backlog([], 0, false));
    }

    /** The end of the subscription: from here on broadcasts go straight out. */
    method FinishSubscription()
      requires Valid() && backlog.Some?
      modifies this
      ensures Valid() && View() == Replay(old(View()).(backlog := None), old(backlog).value.frames)
    {
      var frames := backlog.value.frames;
      backlog := None;
      ReplayFrame(View(), frames);
      ReplayBacklog(frames);
    }

    method HangUp()
      requires Valid()
      modifies this
      ensures Valid() && View() == old(View()).(open := false, backlog := None, subscribed := false)
    {
      open, backlog, subscribed := false, None, false;
    }

    method Drained(n: nat)
      requires Valid()
      modifies this`buffered
      ensures Valid() && buffered == if n <= old(buffered) then old(buffered) - n else 0
    {
      buffered := if n <= buffered then buffered - n else 0;
    }

    method SetFault(left: Option<nat>)
      requires Valid()
      modifies this`working
      ensures Valid() && working == left
    {
      working := left;
    }

    /** What one event of the system does to this connection. */
    method Follow(s: State, e: Event)
      requires Valid() && View() == s.conn
      modifies this
      ensures Valid() && View() == Step(s, e).conn
    {
      match e {
        case Commit(_) =>
        case ReadTable(_) =>
        case Broadcast(x, v, size) =>
          if Announces(s, x, v) && subscribed { var _ := Send(Update(x, v, size)); }
        case Subscribe => if !subscribed && open { BeginSubscription(); }
        case SendSnapshot(size) =>
          if SendsSnapshot(s) { var _ := SendSocket(Snapshot(Observe(s, InMemory).marks, size)); }
        case FinishSubscribe => if Finishes(s) { FinishSubscription(); }
        case FailSubscribe => if backlog.Some? { HangUp(); }
        case Drain(n) => Drained(n);
        case Fault(left) => SetFault(left);
        case Close => HangUp();
      }
    }
  }

  /** A connection driven through any run is the one that the theorems below speak about. */
  method Drive(limit: nat, events: seq<Event>) returns (c: Subscriber)
    ensures fresh(c) && c.Valid() && c.View() == After(limit, events).conn
  {
    c := new Subscriber(limit);
    var s := Initial(limit);
    for i := 0 to |events|
      invariant fresh(c) && c.Valid() && c.View() == s.conn && s == After(limit, events[..i])
    {
      assert events[..i + 1][..i] == events[..i];
      c.Follow(s, events[i]);
      s := Step(s, events[i]);
    }
    assert events[..|events|] == events;
  }

  // ---------------------------------------------------------------- main results

  /**
   A client that is still connected when its subscription has finished, and to which no send threw, never shows less
   than was announced nor more than was committed; so once every commit of an entity has been announced it shows the
   last committed state.
   */
  lemma {:induction false} SubscriberConverges(limit: nat, events: seq<Event>, e: Entity)
    requires Sees(After(limit, events).conn) && After(limit, events).conn.backlog.None?
    ensures var s := After(limit, events);
            && At(s.announced, e) <= At(Shown(s.conn.delivered), e) <= At(s.commits, e)
            && (At(s.announced, e) == At(s.commits, e) ==> At(Shown(s.conn.delivered), e) == At(s.commits, e))
  {
    Always(limit, events);
    assert EntityInv(After(limit, events), Dropped(limit, events), e);
  }

  /**
   Whatever was dropped on the way - broadcasts, the snapshot, the rest of a replay, any number of times - a connected
   subscriber shows at least what was announced of an entity exactly when it shows at least what was last dropped of
   it; it never shows more than was committed, and nothing counts as dropped that was not announced.
   */
  lemma {:induction false} BehindExactly(limit: nat, events: seq<Event>, e: Entity)
    requires Listening(After(limit, events).conn) && After(limit, events).conn.backlog.None?
    ensures var s, dropped := After(limit, events), Dropped(limit, events);
            && (At(s.announced, e) <= At(Shown(s.conn.delivered), e) <==>
                At(dropped, e) <= At(Shown(s.conn.delivered), e))
            && At(Shown(s.conn.delivered), e) <= At(s.commits, e)
            && At(dropped, e) <= At(s.announced, e) && (!s.conn.lost ==> dropped == map[])
  {
    Always(limit, events);
    assert EntityInv(After(limit, events), Dropped(limit, events), e);
  }

  /** The backlog's byte count is the sum of its frames, both limits hold, and an overflow closes the connection. */
  lemma {:induction false} BacklogIsBounded(limit: nat, events: seq<Event>)
    requires After(limit, events).conn.backlog.Some?
    ensures var b := After(limit, events).conn.backlog.value;
            && b.bytes == TotalBytes(b.frames) <= limit && |b.frames| <= MAX_SNAPSHOT_BACKLOG_MESSAGES
            && (b.overflowed ==> b.frames == [] && !After(limit, events).conn.open)
  {
    Always(limit, events);
  }

  // ---------------------------------------------------------------- a frame is lost

  lemma {:induction false} Then(limit: nat, events: seq<Event>, e: Event)
    ensures After(limit, events + [e]) == Step(After(limit, events), e)
  {
    assert (events + [e])[..|events|] == events;
  }

  /** The state in which nothing was committed and these tables have been read. */
  function Reading(limit: nat, read: set<Table>): State {
    State(map[], map[], NewConn(limit).(subscribed := true, backlog := Some(Backlog([], 0, false))), read, map[], false)
  }

  lemma {:induction false} ReadMore(limit: nat, events: seq<Event>, read: set<Table>, t: Table)
    returns (more: seq<Event>)
    requires After(limit, events) == Reading(limit, read) && t in QUERIED && t !in read
    ensures After(limit, more) == Reading(limit, read + {t})
  {
    more := events + [ReadTable(t)];
    Then(limit, events, ReadTable(t));
    assert Observe(Reading(limit, read), t).marks == map[];
  }

  lemma Subscribed(limit: nat)
    ensures After(limit, [Subscribe]) == Reading(limit, {Online})
  {
    Then(limit, [], Subscribe);
    assert [] + [Subscribe] == [Subscribe];
    assert Observe(Reading(limit, {}), Online).marks == map[];
  }

  const FIRST: set<Table> := {Online, Devices, Projects, Workspaces}

  lemma FirstRead(limit: nat) returns (events: seq<Event>)
    ensures After(limit, events) == Reading(limit, FIRST)
  {
    events := [Subscribe];
    Subscribed(limit);
    events := ReadMore(limit, events, {Online}, Devices);
    events := ReadMore(limit, events, {Online} + {Devices}, Projects);
    events := ReadMore(limit, events, {Online} + {Devices} + {Projects}, Workspaces);
    assert {Online} + {Devices} + {Projects} + {Workspaces} == FIRST;
  }

  const SECOND: set<Table> := FIRST + {Tasks, Checkpoints}

  lemma SecondRead(limit: nat) returns (events: seq<Event>)
    ensures After(limit, events) == Reading(limit, SECOND)
  {
    events := FirstRead(limit);
    events := ReadMore(limit, events, FIRST, Tasks);
    events := ReadMore(limit, events, FIRST + {Tasks}, Checkpoints);
    assert FIRST + {Tasks} + {Checkpoints} == SECOND;
  }

  lemma AllRead(limit: nat) returns (events: seq<Event>)
    ensures After(limit, events) == Reading(limit, QUERIED + {Online})
  {
    events := SecondRead(limit);
    events := ReadMore(limit, events, SECOND, Inbox);
    events := ReadMore(limit, events, SECOND + {Inbox}, AgentSettings);
    assert SECOND + {Inbox} + {AgentSettings} == QUERIED + {Online};
  }

  /** A client subscribes to nothing and is live. */
  lemma LiveAndEmpty(limit: nat) returns (events: seq<Event>)
    ensures var s := After(limit, events);
            && s.commits == map[] && s.announced == map[]
            && s.conn == NewConn(limit).(subscribed := true, delivered := [Snapshot(map[], 0)])
  {
    events := AllRead(limit);
    var s := After(limit, events);
    assert Observe(s, InMemory).marks == map[];
    Then(limit, events, SendSnapshot(0));
    events := events + [SendSnapshot(0)];
    Then(limit, events, FinishSubscribe);
    events := events + [FinishSubscribe];
  }

  /** The failing run: the send of the first broadcast throws, and the connected subscriber shows an old state. */
  lemma FrameLostHappens(limit: nat) returns (events: seq<Event>)
    ensures var s, x := After(limit, events), Entity(Tasks, 1);
            && s.conn.open && s.conn.subscribed && s.conn.backlog.None?
            && At(s.announced, x) == At(s.commits, x) == 1 && At(Shown(s.conn.delivered), x) == 0
  {
    var x := Entity(Tasks, 1);
    events := LiveAndEmpty(limit);
    Then(limit, events, Commit(x));
    events := events + [Commit(x)];
    Then(limit, events, Fault(Some(0)));
    events := events + [Fault(Some(0))];
    Then(limit, events, Broadcast(x, 1, 0));
    events := events + [Broadcast(x, 1, 0)];
    assert [Snapshot(map[], 0)][..0] == [];
  }
}
