/**
 Native channels between a client and a daemon: asked for by the client, installed at the daemon, proved once to the
 client, then opened. A client that loses its control connection keeps its opened session channels for a grace period.
 */
module Rendezvous {
  import opened Sets
  import opened Store

  type ChannelId = nat
  type Handle = nat
  type Time = nat

  datatype Client = Client(id: nat, account: Option<AccountId>, token: nat)
  datatype Link = Link(id: nat, daemon: DaemonId, account: AccountId)
  datatype Endpoint = Endpoint(link: Link, addressed: bool)

  /** `armed` is the authorization timer; the last three fields count what was sent about this channel. */
  datatype Channel = Channel(
    id: ChannelId, client: Client, link: Link, expires: Time, elevated: bool, installed: bool, open: bool,
    armed: bool, proofs: nat, closes: nat, revokes: nat)

  /** `rows` keeps the channels that have been removed; `table` is the source's channel map. */
  datatype Board = Board(
    table: map<ChannelId, Handle>, rows: map<Handle, Channel>, next: Handle,
    closing: set<Client>, endpoints: map<DaemonId, Endpoint>)

  const MAX_CHANNELS: nat := 4096
  const GRANT_MS: nat := 30_000

  const EMPTY: Board := Board(map[], map[], 0, {}, map[])

  ghost predicate Indexed(b: Board) {
    && (forall id :: id in b.table ==> b.table[id] in b.rows && b.rows[b.table[id]].id == id)
    && (forall h :: h in b.rows ==> h < b.next)
  }

  predicate Live(b: Board, h: Handle) {
    h in b.rows && b.rows[h].id in b.table && b.table[b.rows[h].id] == h
  }

  /** Stops the timer and tells both ends once. */
  function Gone(c: Channel): Channel { c.(armed := false, closes := c.closes + 1, revokes := c.revokes + 1) }

  function Put(b: Board, h: Handle, c: Channel): Board { b.(rows := b.rows[h := c]) }

  function Remove(b: Board, id: ChannelId): Board {
    if id in b.table && b.table[id] in b.rows
    then Put(b, b.table[id], Gone(b.rows[b.table[id]])).(table := b.table - {id})
    else b
  }

  /** Removal of every channel in `ids` at once. */
  function RemoveAll(b: Board, ids: set<ChannelId>): Board {
    b.(table := b.table - ids,
       rows := map h | h in b.rows :: if Live(b, h) && b.rows[h].id in ids then Gone(b.rows[h]) else b.rows[h])
  }

  function ClientChannels(b: Board, c: Client): set<ChannelId> {
    set id | id in b.table && b.table[id] in b.rows && b.rows[b.table[id]].client == c
  }

  function Unkeepable(b: Board, c: Client): set<ChannelId> {
    set id | id in b.table && b.table[id] in b.rows && b.rows[b.table[id]].client == c
           && (!b.rows[b.table[id]].open || b.rows[b.table[id]].elevated)
  }

  function DaemonChannels(b: Board, d: DaemonId): set<ChannelId> {
    set id | id in b.table && b.table[id] in b.rows && b.rows[b.table[id]].link.daemon == d
  }

  function CloseClient(b: Board, c: Client, immediate: bool): Board {
    if immediate then RemoveAll(b, ClientChannels(b, c)).(closing := b.closing - {c})
    else RemoveAll(b, Unkeepable(b, c)).(closing := b.closing + {c})
  }

  function ClientsChannels(b: Board, cs: set<Client>): set<ChannelId> {
    set id | id in b.table && b.table[id] in b.rows && b.rows[b.table[id]].client in cs
  }

  /** Several clients closed at once. */
  function CloseClients(b: Board, cs: set<Client>): Board {
    RemoveAll(b, ClientsChannels(b, cs)).(closing := b.closing - cs)
  }

  predicate HoldsToken(b: Board, id: ChannelId, account: AccountId, token: nat) {
    id in b.table && b.table[id] in b.rows
    && b.rows[b.table[id]].client.account == Some(account) && b.rows[b.table[id]].client.token == token
  }

  function TokenClients(b: Board, account: AccountId, token: nat): set<Client> {
    set id | id in b.table && HoldsToken(b, id, account, token) :: b.rows[b.table[id]].client
  }

  function RemoveDaemon(b: Board, d: DaemonId): Board {
    RemoveAll(b, DaemonChannels(b, d)).(endpoints := b.endpoints - {d})
  }

  /** `current` is the daemon's registered link; `valid` stands for the checks of the request itself and its rate. */
  predicate Refused(b: Board, c: Client, id: ChannelId, d: DaemonId, current: Option<Link>, valid: bool) {
    || c.account.None? || c in b.closing || current.None? || c.account != Some(current.value.account)
    || d !in b.endpoints || b.endpoints[d].link != current.value || !b.endpoints[d].addressed
    || !valid || |b.table| >= MAX_CHANNELS || id in b.table
  }

  function Place(b: Board, c: Channel): Board {
    b.(rows := b.rows[b.next := c], table := b.table[c.id := b.next], next := b.next + 1)
  }

  function Asked(id: ChannelId, c: Client, link: Link, now: Time, elevated: bool): Channel {
    Channel(id, c, link, now + GRANT_MS, elevated, false, false, true, 0, 0, 0)
  }

  function Connect(
      b: Board, c: Client, id: ChannelId, d: DaemonId, current: Option<Link>, valid: bool, elevated: bool, sent: bool,
      now: Time): Board
  {
    if Refused(b, c, id, d, current, valid) then b
    else
      var placed := Place(b, Asked(id, c, current.value, now, elevated));
      if sent then placed else Remove(placed, id)
  }

  predicate Mine(b: Board, link: Link, id: ChannelId) {
    id in b.table && b.table[id] in b.rows && b.rows[b.table[id]].link == link
  }

  function InstallAnswer(b: Board, link: Link, id: ChannelId, ok: bool, now: Time): Board {
    if !Mine(b, link, id) || b.rows[b.table[id]].installed then b
    else
      var c := b.rows[b.table[id]];
      if !ok || c.expires <= now || c.client in b.closing then Remove(b, id)
      else Put(b, b.table[id], c.(installed := true, proofs := c.proofs + 1))
  }

  function OpenAnswer(b: Board, link: Link, id: ChannelId, now: Time): Board {
    if !Mine(b, link, id) then b
    else
      var c := b.rows[b.table[id]];
      if !c.installed || c.expires <= now || c.client in b.closing then Remove(b, id)
      else Put(b, b.table[id], c.(open := true, armed := false))
  }

  function FailedDial(b: Board, c: Client, id: ChannelId, current: Option<Link>): Board {
    if id in b.table && b.table[id] in b.rows
       && b.rows[b.table[id]].client == c && b.rows[b.table[id]].installed && !b.rows[b.table[id]].open
       && c !in b.closing
       && b.rows[b.table[id]].link.daemon in b.endpoints
       && b.endpoints[b.rows[b.table[id]].link.daemon].link == b.rows[b.table[id]].link
       && current == Some(b.rows[b.table[id]].link)
    then Remove(b, id) else b
  }

  // ---------------------------------------------------------------- removing many

  lemma RemoveNone(b: Board)
    ensures RemoveAll(b, {}) == b
  {
    assert RemoveAll(b, {}).rows == b.rows;
    assert RemoveAll(b, {}).table == b.table;
  }

  lemma RemoveNext(b: Board, ids: set<ChannelId>, id: ChannelId)
    requires Indexed(b) && id in b.table && id !in ids
    ensures Remove(RemoveAll(b, ids), id) == RemoveAll(b, ids + {id})
  {
    assert Live(b, b.table[id]);
    assert Remove(RemoveAll(b, ids), id).table == RemoveAll(b, ids + {id}).table;
    assert Remove(RemoveAll(b, ids), id).rows == RemoveAll(b, ids + {id}).rows;
  }

  /** Removing in two rounds is removing once. */
  lemma RemoveTwice(b: Board, first: set<ChannelId>, second: set<ChannelId>)
    requires Indexed(b)
    ensures RemoveAll(RemoveAll(b, first), second) == RemoveAll(b, first + second)
  {
    assert RemoveAll(RemoveAll(b, first), second).table == RemoveAll(b, first + second).table;
    assert RemoveAll(RemoveAll(b, first), second).rows == RemoveAll(b, first + second).rows;
  }

  lemma RemoveAllIndexed(b: Board, ids: set<ChannelId>)
    requires Indexed(b)
    ensures Indexed(RemoveAll(b, ids))
  {
  }

  /** Dropping what cannot be kept and then the rest is dropping everything. */
  lemma KeepThenDrop(b: Board, c: Client)
    requires Indexed(b)
    ensures var kept := RemoveAll(b, Unkeepable(b, c));
            RemoveAll(kept, ClientChannels(kept, c)) == RemoveAll(b, ClientChannels(b, c))
  {
    var rest := ClientChannels(RemoveAll(b, Unkeepable(b, c)), c);
    RemoveTwice(b, Unkeepable(b, c), rest);
    assert Unkeepable(b, c) + rest == ClientChannels(b, c);
  }

  lemma CloseOneMore(b: Board, cs: set<Client>, c: Client)
    requires Indexed(b)
    ensures CloseClient(CloseClients(b, cs), c, true) == CloseClients(b, cs + {c})
  {
    var ids, more := ClientsChannels(b, cs), ClientsChannels(b, cs + {c});
    var mid := CloseClients(b, cs);
    RemoveAllIndexed(b, ids);
    assert more == ids + ClientChannels(mid, c);
    RemoveTwice(b, ids, ClientChannels(mid, c));
    assert b.closing - cs - {c} == b.closing - (cs + {c});
  }

  /** After some clients were closed, the channels under a token are those of the others. */
  lemma TokenNext(b: Board, cs: set<Client>, id: ChannelId, account: AccountId, token: nat)
    requires Indexed(b) && id in b.table
    ensures var t := CloseClients(b, cs);
            if HoldsToken(t, id, account, token) then
              && HoldsToken(b, id, account, token) && b.rows[b.table[id]].client == t.rows[t.table[id]].client
              && CloseClient(t, b.rows[b.table[id]].client, true) == CloseClients(b, cs + {b.rows[b.table[id]].client})
            else HoldsToken(b, id, account, token) ==> b.rows[b.table[id]].client in cs
  {
    if HoldsToken(b, id, account, token) { CloseOneMore(b, cs, b.rows[b.table[id]].client); }
  }

  // ---------------------------------------------------------------- runs

  datatype Event =
    | ConnectAsked(client: Client, id: ChannelId, daemon: DaemonId, current: Option<Link>, valid: bool, elevated: bool,
        sent: bool, now: Time)
    | InstallReply(link: Link, id: ChannelId, ok: bool, now: Time)
    | OpenReport(link: Link, id: ChannelId, now: Time)
    | DialFailed(client: Client, id: ChannelId, current: Option<Link>)
    | ChannelClosed(client: Client, id: ChannelId)
    | GrantTimer(handle: Handle)
    /** The client reports itself online, offline, or revokes; a closed connection is the offline case. */
    | Online(client: Client)
    | Offline(client: Client)
    | HardRevoke(client: Client)
    | GraceTimer(client: Client)
    | TokenRevoked(account: AccountId, token: nat)
    | DaemonRemoved(daemon: DaemonId)
    /** A new helper identity: the daemon's channels go, its endpoint is replaced and gets an address later. */
    | Identity(link: Link)
    | Address(link: Link)
    | Shutdown

  function Step(b: Board, e: Event): Board {
    match e
    case ConnectAsked(c, id, d, current, valid, elevated, sent, now) =>
      Connect(b, c, id, d, current, valid, elevated, sent, now)
    case InstallReply(link, id, ok, now) => InstallAnswer(b, link, id, ok, now)
    case OpenReport(link, id, now) => OpenAnswer(b, link, id, now)
    case DialFailed(c, id, current) => FailedDial(b, c, id, current)
    case ChannelClosed(c, id) => if id in ClientChannels(b, c) then Remove(b, id) else b
    case GrantTimer(h) => if h in b.rows && b.rows[h].armed then Remove(b, b.rows[h].id) else b
    case Online(c) => b.(closing := b.closing - {c})
    case Offline(c) => CloseClient(b, c, false)
    case HardRevoke(c) => CloseClient(b, c, true)
    case GraceTimer(c) => if c in b.closing then CloseClient(b, c, true) else b
    case TokenRevoked(a, token) => CloseClients(b, TokenClients(b, a, token))
    case DaemonRemoved(d) => RemoveDaemon(b, d)
    case Identity(link) =>
      var r := RemoveDaemon(b, link.daemon); r.(endpoints := r.endpoints[link.daemon := Endpoint(link, false)])
    case Address(link) =>
      if link.daemon in b.endpoints && b.endpoints[link.daemon].link == link
      then b.(endpoints := b.endpoints[link.daemon := Endpoint(link, true)]) else b
    case Shutdown => RemoveAll(b, b.table.Keys).(closing := {}, endpoints := map[])
  }

  function After(events: seq<Event>): Board {
    if events == [] then EMPTY else Step(After(events[..|events| - 1]), events[|events| - 1])
  }

  ghost predicate RowInv(c: Channel, live: bool, closing: set<Client>) {
    && (c.open ==> c.installed)
    && (c.armed <==> live && !c.open)
    && c.proofs == (if c.installed then 1 else 0)
    && c.closes == (if live then 0 else 1) && c.revokes == (if live then 0 else 1)
    && (live && c.client in closing ==> c.open && !c.elevated)
  }

  ghost predicate RowsInv(b: Board) {
    forall h :: h in b.rows ==> RowInv(b.rows[h], Live(b, h), b.closing)
  }

  ghost predicate Inv(b: Board) {
    Indexed(b) && (forall h: Handle :: h < b.next ==> h in b.rows) && RowsInv(b) && |b.table| <= MAX_CHANNELS
  }

  lemma RemoveAllKeeps(b: Board, ids: set<ChannelId>)
    requires Inv(b)
    ensures Inv(RemoveAll(b, ids))
  {
    var t := RemoveAll(b, ids);
    SubsetSmaller(t.table.Keys, b.table.Keys);
    forall h | h in t.rows
      ensures RowInv(t.rows[h], Live(t, h), t.closing)
    {
      assert RowInv(b.rows[h], Live(b, h), b.closing);
    }
  }

  lemma RemoveKeeps(b: Board, id: ChannelId)
    requires Inv(b)
    ensures Inv(Remove(b, id))
  {
    if id in b.table {
      RemoveNone(b);
      RemoveNext(b, {}, id);
      RemoveAllKeeps(b, {id});
      assert {} + {id} == {id};
    }
  }

  lemma PlacedRow(b: Board, c: Channel, h: Handle)
    requires Inv(b) && c.id !in b.table && c.client !in b.closing && h in Place(b, c).rows
    requires !c.installed && !c.open && c.armed && c.proofs == c.closes == c.revokes == 0
    ensures var t := Place(b, c); RowInv(t.rows[h], Live(t, h), t.closing)
  {
    if h != b.next { assert RowInv(b.rows[h], Live(b, h), b.closing); }
  }

  lemma PlaceKeeps(b: Board, c: Channel)
    requires Inv(b) && c.id !in b.table && |b.table| < MAX_CHANNELS && c.client !in b.closing
    requires !c.installed && !c.open && c.armed && c.proofs == c.closes == c.revokes == 0
    ensures Inv(Place(b, c))
  {
    var t := Place(b, c);
    assert |t.table| == |b.table| + 1;
    forall h | h in t.rows ensures RowInv(t.rows[h], Live(t, h), t.closing) { PlacedRow(b, c, h); }
  }

  lemma PutKeeps(b: Board, h: Handle, c: Channel)
    requires Inv(b) && Live(b, h) && c.id == b.rows[h].id && RowInv(c, true, b.closing)
    ensures Inv(Put(b, h, c))
  {
    var t := Put(b, h, c);
    forall x | x in t.rows
      ensures RowInv(t.rows[x], Live(t, x), t.closing)
    {
      assert RowInv(b.rows[x], Live(b, x), b.closing);
    }
  }

  lemma ConnectKeeps(
      b: Board, c: Client, id: ChannelId, d: DaemonId, current: Option<Link>, valid: bool, elevated: bool, sent: bool,
      now: Time, t: Board)
    requires Inv(b) && t == Connect(b, c, id, d, current, valid, elevated, sent, now)
    ensures Inv(t)
  {
    if !Refused(b, c, id, d, current, valid) {
      var asked := Asked(id, c, current.value, now, elevated);
      PlaceKeeps(b, asked);
      RemoveKeeps(Place(b, asked), id);
    }
  }

  lemma InstalledKeeps(b: Board, link: Link, id: ChannelId, ok: bool, now: Time)
    requires Inv(b)
    ensures Inv(InstallAnswer(b, link, id, ok, now))
  {
    if Mine(b, link, id) && !b.rows[b.table[id]].installed {
      var h := b.table[id];
      var c := b.rows[h];
      assert RowInv(c, Live(b, h), b.closing);
      if !ok || c.expires <= now || c.client in b.closing { RemoveKeeps(b, id); }
      else { PutKeeps(b, h, c.(installed := true, proofs := c.proofs + 1)); }
    }
  }

  lemma OpenedKeeps(b: Board, link: Link, id: ChannelId, now: Time)
    requires Inv(b)
    ensures Inv(OpenAnswer(b, link, id, now))
  {
    if Mine(b, link, id) {
      var h := b.table[id];
      var c := b.rows[h];
      assert RowInv(c, Live(b, h), b.closing);
      if !c.installed || c.expires <= now || c.client in b.closing { RemoveKeeps(b, id); }
      else { PutKeeps(b, h, c.(open := true, armed := false)); }
    }
  }

  /** Leaving the grace period needs nothing; entering it needs the unkeepable channels gone. */
  lemma ClosingKeeps(b: Board, closing: set<Client>)
    requires Inv(b)
    requires forall h :: h in b.rows && Live(b, h) && b.rows[h].client in closing ==>
              b.rows[h].open && !b.rows[h].elevated
    ensures Inv(b.(closing := closing))
  {
    var t := b.(closing := closing);
    forall h | h in t.rows
      ensures RowInv(t.rows[h], Live(t, h), t.closing)
    {
      assert RowInv(b.rows[h], Live(b, h), b.closing);
    }
  }

  lemma FewerClosing(b: Board, cs: set<Client>)
    requires Inv(b)
    ensures Inv(b.(closing := b.closing - cs))
  {
    forall h | h in b.rows && Live(b, h) && b.rows[h].client in b.closing - cs
      ensures b.rows[h].open && !b.rows[h].elevated
    {
      assert RowInv(b.rows[h], Live(b, h), b.closing);
    }
    ClosingKeeps(b, b.closing - cs);
  }

  lemma OfflineKeeps(b: Board, c: Client)
    requires Inv(b)
    ensures Inv(CloseClient(b, c, false))
  {
    var r := RemoveAll(b, Unkeepable(b, c));
    RemoveAllKeeps(b, Unkeepable(b, c));
    forall h | h in r.rows && Live(r, h) && r.rows[h].client in b.closing + {c}
      ensures r.rows[h].open && !r.rows[h].elevated
    {
      assert RowInv(b.rows[h], Live(b, h), b.closing);
      if r.rows[h].client == c { assert r.rows[h].id !in Unkeepable(b, c); }
    }
    ClosingKeeps(r, b.closing + {c});
  }

  lemma CloseKeeps(b: Board, ids: set<ChannelId>, cs: set<Client>)
    requires Inv(b)
    ensures Inv(RemoveAll(b, ids).(closing := b.closing - cs))
  {
    RemoveAllKeeps(b, ids);
    FewerClosing(RemoveAll(b, ids), cs);
  }

  lemma EndpointsKeep(b: Board, endpoints: map<DaemonId, Endpoint>)
    requires Inv(b)
    ensures Inv(b.(endpoints := endpoints))
  {
    var t := b.(endpoints := endpoints);
    forall h | h in t.rows
      ensures RowInv(t.rows[h], Live(t, h), t.closing)
    {
      assert RowInv(b.rows[h], Live(b, h), b.closing);
    }
  }

  lemma IdentityKeeps(b: Board, d: DaemonId, endpoints: map<DaemonId, Endpoint>)
    requires Inv(b)
    ensures Inv(RemoveAll(b, DaemonChannels(b, d)).(endpoints := endpoints))
  {
    RemoveAllKeeps(b, DaemonChannels(b, d));
    EndpointsKeep(RemoveAll(b, DaemonChannels(b, d)), endpoints);
  }

  lemma ShutdownKeeps(b: Board)
    requires Inv(b)
    ensures Inv(Step(b, Shutdown))
  {
    CloseKeeps(b, b.table.Keys, b.closing);
    assert b.closing - b.closing == {};
    EndpointsKeep(RemoveAll(b, b.table.Keys).(closing := {}), map[]);
  }

  lemma ClientsKeep(b: Board, cs: set<Client>, t: Board)
    requires Inv(b) && t == CloseClients(b, cs)
    ensures Inv(t)
  {
    CloseKeeps(b, ClientsChannels(b, cs), cs);
  }

  lemma TokenKeeps(b: Board, account: AccountId, token: nat)
    requires Inv(b)
    ensures Inv(Step(b, TokenRevoked(account, token)))
  {
    ClientsKeep(b, TokenClients(b, account, token), Step(b, TokenRevoked(account, token)));
  }

  lemma OnlineKeeps(b: Board, c: Client)
    requires Inv(b)
    ensures Inv(Step(b, Online(c)))
  {
    FewerClosing(b, {c});
  }

  lemma GoneOfflineKeeps(b: Board, c: Client)
    requires Inv(b)
    ensures Inv(Step(b, Offline(c)))
  {
    CloseClientKeeps(b, c, false, Step(b, Offline(c)));
  }

  lemma RevokeKeeps(b: Board, c: Client)
    requires Inv(b)
    ensures Inv(Step(b, HardRevoke(c)))
  {
    HardKeeps(b, c);
  }

  lemma RemoveDaemonKeeps(b: Board, d: DaemonId)
    requires Inv(b)
    ensures Inv(RemoveDaemon(b, d))
  {
    IdentityKeeps(b, d, b.endpoints - {d});
  }

  lemma DaemonKeeps(b: Board, d: DaemonId)
    requires Inv(b)
    ensures Inv(Step(b, DaemonRemoved(d)))
  {
    RemoveDaemonKeeps(b, d);
    assert Step(b, DaemonRemoved(d)) == RemoveDaemon(b, d);
  }

  lemma HelperKeeps(b: Board, link: Link)
    requires Inv(b)
    ensures Inv(Step(b, Identity(link)))
  {
    IdentityKeeps(b, link.daemon, (b.endpoints - {link.daemon})[link.daemon := Endpoint(link, false)]);
  }

  lemma AddressKeeps(b: Board, link: Link)
    requires Inv(b)
    ensures Inv(Step(b, Address(link)))
  {
    EndpointsKeep(b, b.endpoints[link.daemon := Endpoint(link, true)]);
  }

  lemma HardKeeps(b: Board, c: Client)
    requires Inv(b)
    ensures Inv(CloseClient(b, c, true))
  {
    CloseKeeps(b, ClientChannels(b, c), {c});
  }

  lemma GraceKeeps(b: Board, c: Client)
    requires Inv(b)
    ensures Inv(Step(b, GraceTimer(c)))
  {
    if c in b.closing { HardKeeps(b, c); }
  }

  lemma ClosedKeeps(b: Board, c: Client, id: ChannelId)
    requires Inv(b)
    ensures Inv(Step(b, ChannelClosed(c, id)))
  {
    RemoveKeeps(b, id);
  }

  lemma DialKeeps(b: Board, c: Client, id: ChannelId, current: Option<Link>)
    requires Inv(b)
    ensures Inv(Step(b, DialFailed(c, id, current)))
  {
    RemoveKeeps(b, id);
  }

  lemma TimerKeeps(b: Board, h: Handle)
    requires Inv(b)
    ensures Inv(Step(b, GrantTimer(h)))
  {
    if h in b.rows { RemoveKeeps(b, b.rows[h].id); }
  }

  lemma ChannelKeeps(b: Board, e: Event)
    requires Inv(b) && OneChannel(e)
    ensures Inv(Step(b, e))
  {
    match e {
      case ConnectAsked(c, id, d, current, valid, elevated, sent, now) =>
        ConnectKeeps(b, c, id, d, current, valid, elevated, sent, now, Step(b, e));
      case InstallReply(link, id, ok, now) => InstalledKeeps(b, link, id, ok, now);
      case OpenReport(link, id, now) => OpenedKeeps(b, link, id, now);
      case DialFailed(c, id, current) => DialKeeps(b, c, id, current);
      case ChannelClosed(c, id) => ClosedKeeps(b, c, id);
      case GrantTimer(h) => TimerKeeps(b, h);
    }
  }

  lemma ClientKeeps(b: Board, e: Event)
    requires Inv(b) && (e.Online? || e.Offline? || e.HardRevoke? || e.GraceTimer?)
    ensures Inv(Step(b, e))
  {
    match e {
      case Online(c) => OnlineKeeps(b, c);
      case Offline(c) => GoneOfflineKeeps(b, c);
      case HardRevoke(c) => RevokeKeeps(b, c);
      case GraceTimer(c) => GraceKeeps(b, c);
    }
  }

  lemma StepKeeps(b: Board, e: Event)
    requires Inv(b)
    ensures Inv(Step(b, e))
  {
    match e {
      case TokenRevoked(a, token) => TokenKeeps(b, a, token);
      case DaemonRemoved(d) => DaemonKeeps(b, d);
      case Identity(link) => HelperKeeps(b, link);
      case Address(link) => AddressKeeps(b, link);
      case Shutdown => ShutdownKeeps(b);
      case _ =>
        if e.Online? || e.Offline? || e.HardRevoke? || e.GraceTimer? { ClientKeeps(b, e); } else { ChannelKeeps(b, e); }
    }
  }

  lemma {:induction false} Always(events: seq<Event>)
    ensures Inv(After(events))
    decreases |events|
  {
    if events != [] {
      Always(events[..|events| - 1]);
      StepKeeps(After(events[..|events| - 1]), events[|events| - 1]);
    }
  }

  // ---------------------------------------------------------------- the rendezvous object

  predicate OneChannel(e: Event) {
    e.ConnectAsked? || e.InstallReply? || e.OpenReport? || e.DialFailed? || e.ChannelClosed? || e.GrantTimer?
  }

  predicate OneClient(e: Event) { e.Online? || e.Offline? || e.HardRevoke? || e.GraceTimer? }

  lemma CloseClientKeeps(b: Board, c: Client, immediate: bool, t: Board)
    requires Inv(b) && t == CloseClient(b, c, immediate)
    ensures Inv(t)
  {
    if immediate { HardKeeps(b, c); } else { OfflineKeeps(b, c); }
  }

  class TailcatRendezvous {
    var table: map<ChannelId, Handle>
    var rows: map<Handle, Channel>
    var next: Handle
    var closing: set<Client>
    var endpoints: map<DaemonId, Endpoint>

    ghost function View(): Board
      reads this
    {
      Board(table, rows, next, closing, endpoints)
    }

    ghost predicate Valid()
      reads this
    {
      Inv(View())
    }

    constructor ()
      ensures Valid() && View() == EMPTY
    {
      table, rows, next, closing, endpoints := map[], map[], 0, {}, map[];
    }

    method RemoveChannel(id: ChannelId)
      requires id in table ==> table[id] in rows
      modifies this`table, this`rows
      ensures View() == Remove(old(View()), id)
    {
      if id !in table { return; }
      var h := table[id];
      table := table - {id};
      var c := rows[h];
      rows := rows[h := c.(armed := false, closes := c.closes + 1, revokes := c.revokes + 1)];
    }

    method RemoveChannels(ids: set<ChannelId>)
      requires Indexed(View()) && ids <= table.Keys
      modifies this`table, this`rows
      ensures View() == RemoveAll(old(View()), ids)
    {
      var left := ids;
      RemoveNone(View());
      while left != {}
        invariant left <= ids
        invariant View() == RemoveAll(old(View()), ids - left)
      {
        var id :| id in left;
        RemoveNext(old(View()), ids - left, id);
        assert ids - (left - {id}) == ids - left + {id};
        RemoveChannel(id);
        left := left - {id};
      }
      assert ids - left == ids;
    }

    method DropUnkeepable(c: Client)
      requires Indexed(View())
      modifies this`table, this`rows
      ensures View() == RemoveAll(old(View()), Unkeepable(old(View()), c))
    {
      var doomed := set id | id in table && table[id] in rows && rows[table[id]].client == c
          && (!rows[table[id]].open || rows[table[id]].elevated);
      assert doomed == Unkeepable(View(), c);
      RemoveChannels(doomed);
    }

    method DropClient(c: Client)
      requires Indexed(View())
      modifies this`table, this`rows
      ensures View() == RemoveAll(old(View()), ClientChannels(old(View()), c))
    {
      var doomed := set id | id in table && table[id] in rows && rows[table[id]].client == c;
      assert doomed == ClientChannels(View(), c);
      RemoveChannels(doomed);
    }

    method CloseFor(c: Client, immediate: bool)
      requires Valid()
      modifies this
      ensures Valid() && View() == CloseClient(old(View()), c, immediate)
    {
      EndClient(c, immediate);
      CloseClientKeeps(old(View()), c, immediate, View());
    }

    method EndClient(c: Client, immediate: bool)
      requires Indexed(View())
      modifies this`table, this`rows, this`closing
      ensures Indexed(View()) && View() == CloseClient(old(View()), c, immediate)
    {
      ghost var was := View();
      RemoveAllIndexed(was, Unkeepable(was, c));
      RemoveAllIndexed(was, ClientChannels(was, c));
      KeepThenDrop(was, c);
      DropUnkeepable(c);
      if !immediate {
        closing := closing + {c};
        return;
      }
      DropClient(c);
      closing := closing - {c};
    }

    method RevokeToken(account: AccountId, token: nat)
      requires Valid()
      modifies this
      ensures Valid() && View() == CloseClients(old(View()), TokenClients(old(View()), account, token))
    {
      EndToken(account, token);
      ClientsKeep(old(View()), TokenClients(old(View()), account, token), View());
    }

    method EndToken(account: AccountId, token: nat)
      requires Indexed(View())
      modifies this`table, this`rows, this`closing
      ensures View() == CloseClients(old(View()), TokenClients(old(View()), account, token))
    {
      var left := table.Keys;
      ghost var was := View();
      ghost var closed: set<Client> := {};
      RemoveNone(was);
      assert ClientsChannels(was, closed) == {};
      while left != {}
        invariant left <= was.table.Keys && closed <= TokenClients(was, account, token)
        invariant Indexed(View()) && View() == CloseClients(was, closed)
        invariant forall id ::
                    id in was.table && HoldsToken(was, id, account, token) && id !in left ==>
                      was.rows[was.table[id]].client in closed
      {
        var id :| id in left;
        left := left - {id};
        TokenNext(was, closed, id, account, token);
        if id in table && rows[table[id]].client.account == Some(account) && rows[table[id]].client.token == token {
          var c := rows[table[id]].client;
          closed := closed + {c};
          EndClient(c, true);
        }
      }
      assert closed == TokenClients(was, account, token);
    }

    method DropDaemon(d: DaemonId)
      requires Valid()
      modifies this
      ensures Valid() && View() == RemoveDaemon(old(View()), d)
    {
      RemoveDaemonKeeps(View(), d);
      DropDaemonChannels(d);
      endpoints := endpoints - {d};
    }

    method DropDaemonChannels(d: DaemonId)
      requires Indexed(View())
      modifies this`table, this`rows
      ensures View() == RemoveAll(old(View()), DaemonChannels(old(View()), d))
    {
      var doomed := set id | id in table && table[id] in rows && rows[table[id]].link.daemon == d;
      assert doomed == DaemonChannels(View(), d);
      RemoveChannels(doomed);
    }

    method Stop()
      requires Valid()
      modifies this
      ensures Valid() && View() == Step(old(View()), Shutdown) && table == map[]
    {
      ShutdownKeeps(View());
      RemoveChannels(table.Keys);
      closing, endpoints := {}, map[];
    }

    method Ask(
      c: Client, id: ChannelId, d: DaemonId, current: Option<Link>, valid: bool, elevated: bool, sent: bool, now: Time)
      requires Valid()
      modifies this
      ensures Valid() && View() == Connect(old(View()), c, id, d, current, valid, elevated, sent, now)
    {
      Grant(c, id, d, current, valid, elevated, sent, now);
      ConnectKeeps(old(View()), c, id, d, current, valid, elevated, sent, now, View());
    }

    method Grant(
      c: Client, id: ChannelId, d: DaemonId, current: Option<Link>, valid: bool, elevated: bool, sent: bool, now: Time)
      modifies this`table, this`rows, this`next
      ensures View() == Connect(old(View()), c, id, d, current, valid, elevated, sent, now)
    {
      if c.account.None? || c in closing || current.None? || c.account != Some(current.value.account) { return; }
      if d !in endpoints || endpoints[d].link != current.value || !endpoints[d].addressed { return; }
      if !valid { return; }
      if |table| >= MAX_CHANNELS || id in table { return; }
      rows := rows[next := Channel(id, c, current.value, now + GRANT_MS, elevated, false, false, true, 0, 0, 0)];
      table := table[id := next];
      next := next + 1;
      if !sent { RemoveChannel(id); }
    }

    method OnInstalled(link: Link, id: ChannelId, ok: bool, now: Time)
      requires Valid()
      modifies this
      ensures Valid() && View() == InstallAnswer(old(View()), link, id, ok, now)
    {
      InstalledKeeps(View(), link, id, ok, now);
      if id !in table || rows[table[id]].link != link || rows[table[id]].installed { return; }
      var c := rows[table[id]];
      if !ok || c.expires <= now || c.client in closing {
        RemoveChannel(id);
        return;
      }
      rows := rows[table[id] := c.(installed := true, proofs := c.proofs + 1)];
    }

    method OnOpened(link: Link, id: ChannelId, now: Time)
      requires Valid()
      modifies this
      ensures Valid() && View() == OpenAnswer(old(View()), link, id, now)
    {
      OpenedKeeps(View(), link, id, now);
      if id !in table || rows[table[id]].link != link { return; }
      var c := rows[table[id]];
      if !c.installed || c.expires <= now || c.client in closing {
        RemoveChannel(id);
        return;
      }
      rows := rows[table[id] := c.(open := true, armed := false)];
    }

    method OnDialFailed(c: Client, id: ChannelId, current: Option<Link>)
      requires Valid()
      modifies this
      ensures Valid() && View() == FailedDial(old(View()), c, id, current)
    {
      DialKeeps(View(), c, id, current);
      if id !in table || rows[table[id]].client != c || !rows[table[id]].installed { return; }
      if rows[table[id]].open || c in closing { return; }
      var link := rows[table[id]].link;
      if link.daemon !in endpoints || endpoints[link.daemon].link != link || current != Some(link) { return; }
      RemoveChannel(id);
    }

    method CloseChannel(c: Client, id: ChannelId)
      requires Valid()
      modifies this
      ensures Valid() && View() == Step(old(View()), ChannelClosed(c, id))
    {
      ClosedKeeps(View(), c, id);
      if id in table && rows[table[id]].client == c { RemoveChannel(id); }
    }

    /** The authorization timer's callback. */
    method OnGrantTimeout(h: Handle)
      requires Valid() && h in rows && rows[h].armed
      modifies this
      ensures Valid() && View() == Step(old(View()), GrantTimer(h))
    {
      TimerKeeps(View(), h);
      RemoveChannel(rows[h].id);
    }

    method Control(c: Client, online: bool, hard: bool)
      requires Valid()
      modifies this
      ensures Valid()
      ensures !hard && online ==> View() == old(View()).(closing := old(closing) - {c})
      ensures hard || !online ==> View() == CloseClient(old(View()), c, hard)
    {
      if hard { CloseFor(c, true); return; }
      if online { EndGrace(c); return; }
      CloseFor(c, false);
    }

    method GoOnline(c: Client)
      requires Valid()
      modifies this
      ensures Valid() && View() == Step(old(View()), Online(c))
    {
      Control(c, true, false);
    }

    method GoOffline(c: Client)
      requires Valid()
      modifies this
      ensures Valid() && View() == Step(old(View()), Offline(c))
    {
      Control(c, false, false);
    }

    method Revoke(c: Client)
      requires Valid()
      modifies this
      ensures Valid() && View() == Step(old(View()), HardRevoke(c))
    {
      Control(c, false, true);
    }

    method OnGraceTimeout(c: Client)
      requires Valid()
      modifies this
      ensures Valid() && View() == Step(old(View()), GraceTimer(c))
    {
      if c in closing { CloseFor(c, true); }
    }

    method EndGrace(c: Client)
      requires Valid()
      modifies this`closing
      ensures Valid() && closing == old(closing) - {c}
    {
      FewerClosing(View(), {c});
      closing := closing - {c};
    }

    /** A new helper identity of the current link. */
    method SetIdentity(link: Link)
      requires Valid()
      modifies this
      ensures Valid() && View() == Step(old(View()), Identity(link))
    {
      HelperKeeps(View(), link);
      DropDaemon(link.daemon);
      endpoints := endpoints[link.daemon := Endpoint(link, false)];
    }

    method SetAddress(link: Link)
      requires Valid()
      modifies this
      ensures Valid() && View() == Step(old(View()), Address(link))
    {
      AddressKeeps(View(), link);
      if link.daemon !in endpoints || endpoints[link.daemon].link != link { return; }
      endpoints := endpoints[link.daemon := Endpoint(link, true)];
    }

    /** Any call about one channel, its timer included. */
    method HandleChannel(e: Event)
      requires Valid() && OneChannel(e)
      modifies this
      ensures Valid() && View() == Step(old(View()), e)
    {
      match e {
        case ConnectAsked(c, id, d, current, valid, elevated, sent, now) =>
          Ask(c, id, d, current, valid, elevated, sent, now);
        case InstallReply(link, id, ok, now) => OnInstalled(link, id, ok, now);
        case OpenReport(link, id, now) => OnOpened(link, id, now);
        case DialFailed(c, id, current) => OnDialFailed(c, id, current);
        case ChannelClosed(c, id) => CloseChannel(c, id);
        case GrantTimer(h) => if h in rows && rows[h].armed { OnGrantTimeout(h); }
      }
    }

    /** Any call about one client's control connection, the grace timer included. */
    method HandleClient(e: Event)
      requires Valid() && OneClient(e)
      modifies this
      ensures Valid() && View() == Step(old(View()), e)
    {
      match e {
        case Online(c) => GoOnline(c);
        case Offline(c) => GoOffline(c);
        case HardRevoke(c) => Revoke(c);
        case GraceTimer(c) => OnGraceTimeout(c);
      }
    }

    method Handle(e: Event)
      requires Valid()
      modifies this
      ensures Valid() && View() == Step(old(View()), e)
    {
      if OneChannel(e) { HandleChannel(e); return; }
      if OneClient(e) { HandleClient(e); return; }
      match e {
        case TokenRevoked(a, token) => RevokeToken(a, token);
        case DaemonRemoved(d) => DropDaemon(d);
        case Identity(link) => SetIdentity(link);
        case Address(link) => SetAddress(link);
        case Shutdown => Stop();
      }
    }
  }

  /** A rendezvous driven by any sequence of calls is in the state that the theorems below speak about. */
  method Drive(events: seq<Event>) returns (r: TailcatRendezvous)
    ensures fresh(r) && r.Valid() && r.View() == After(events)
  {
    r := new TailcatRendezvous();
    for i := 0 to |events|
      invariant fresh(r) && r.Valid() && r.View() == After(events[..i])
    {
      assert events[..i + 1][..i] == events[..i];
      r.Handle(events[i]);
    }
    assert events[..|events|] == events;
  }

  // ---------------------------------------------------------------- main results

  /** In its grace period a client holds only opened, session-scoped channels. */
  lemma {:induction false} GraceHoldsOpenSessionsOnly(events: seq<Event>, id: ChannelId)
    requires id in After(events).table
    ensures var b := After(events);
            && b.table[id] in b.rows
            && (b.rows[b.table[id]].client in b.closing ==> b.rows[b.table[id]].open && !b.rows[b.table[id]].elevated)
  {
    Always(events);
    assert RowInv(After(events).rows[After(events).table[id]], Live(After(events), After(events).table[id]),
        After(events).closing);
  }

  /**
   Every accepted channel: opened means installed, its timer is armed exactly while it is live and unopened, it was
   proved to the client exactly if it was installed and then once, and it is live or was removed with exactly one Closed
   to the client and one Revoke to the daemon.
   */
  lemma {:induction false} ChannelAccount(events: seq<Event>, h: Handle)
    requires h < After(events).next
    ensures var b := After(events);
            && h in b.rows
            && var c := b.rows[h];
            && (c.open ==> c.installed)
            && (c.armed <==> Live(b, h) && !c.open)
            && c.proofs == (if c.installed then 1 else 0)
            && c.closes == (if Live(b, h) then 0 else 1) && c.revokes == (if Live(b, h) then 0 else 1)
  {
    Always(events);
    assert RowInv(After(events).rows[h], Live(After(events), h), After(events).closing);
  }

  lemma {:induction false} ChannelsBounded(events: seq<Event>)
    ensures |After(events).table| <= MAX_CHANNELS
  {
    Always(events);
  }
}
