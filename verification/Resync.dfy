/**
 Full live-session snapshots from a daemon: first the whole list is validated, then its owner and epoch must be newer
 than what was accepted before.
 */
module Resync {
  import opened Sets
  import opened Store

  const MAX_FRAME_ID_BYTES: nat := 255
  const MAX_CATALOG_ENTRIES: nat := 4096
  const MAX_RETAINED_CATALOG_BYTES: nat := 4 * 1024 * 1024
  const MAX_RETIRED_RESYNC_OWNERS: nat := 16

  // ---------------------------------------------------------------- validation

  function CharBytes(c: char): (n: nat)
    ensures 1 <= n <= 4
  {
    if c < '\U{80}' then 1 else if c < '\U{800}' then 2 else if c < '\U{10000}' then 3 else 4
  }

  function ByteLength(s: string): nat { if s == [] then 0 else CharBytes(s[0]) + ByteLength(s[1..]) }

  predicate ValidControlId(id: string) {
    0 < |id| && ByteLength(id) <= MAX_FRAME_ID_BYTES && forall i :: 0 <= i < |id| ==> id[i] >= ' ' && id[i] != '\U{7F}'
  }

  datatype Entry = Entry(session: string, task: string)

  predicate ValidEntry(e: Entry) { ValidControlId(e.session) && ValidControlId(e.task) }

  function EntryBytes(e: Entry): nat { ByteLength(e.session) + ByteLength(e.task) + 64 }

  /** No session has two tasks and no task two sessions. */
  ghost predicate OneToOne(alive: seq<Entry>) {
    forall i, j :: 0 <= i < |alive| && 0 <= j < |alive| ==>
        (alive[i].session == alive[j].session <==> alive[i].task == alive[j].task)
  }

  ghost predicate AllValid(alive: seq<Entry>) { forall i :: 0 <= i < |alive| ==> ValidEntry(alive[i]) }

  ghost predicate WellFormed(alive: seq<Entry>) {
    |alive| <= MAX_CATALOG_ENTRIES && AllValid(alive) && OneToOne(alive)
  }

  /** First occurrences, in order. */
  function Dedup(alive: seq<Entry>): seq<Entry> {
    if alive == [] then []
    else
      var n := |alive| - 1;
      if alive[n] in alive[..n] then Dedup(alive[..n]) else Dedup(alive[..n]) + [alive[n]]
  }

  lemma {:induction false} DedupKeepsEntries(alive: seq<Entry>)
    ensures forall e :: e in Dedup(alive) <==> e in alive
    ensures forall i, j :: 0 <= i < j < |Dedup(alive)| ==> Dedup(alive)[i] != Dedup(alive)[j]
    decreases |alive|
  {
    if alive != [] {
      var n := |alive| - 1;
      DedupKeepsEntries(alive[..n]);
      assert alive == alive[..n] + [alive[n]];
    }
  }

  predicate Holds(e: Entry, bySession: map<string, string>, byTask: map<string, string>) {
    e.session in bySession && bySession[e.session] == e.task && e.task in byTask && byTask[e.task] == e.session
  }

  /** What the two maps hold after the entries of `seen`: its relation, in both directions. */
  ghost predicate Tracks(seen: seq<Entry>, bySession: map<string, string>, byTask: map<string, string>) {
    && (forall i :: 0 <= i < |seen| ==> Holds(seen[i], bySession, byTask))
    && (forall s :: s in bySession ==> Entry(s, bySession[s]) in seen)
    && (forall t :: t in byTask ==> Entry(byTask[t], t) in seen)
  }

  lemma TracksOneToOne(seen: seq<Entry>, bySession: map<string, string>, byTask: map<string, string>)
    requires Tracks(seen, bySession, byTask)
    ensures OneToOne(seen)
  {
  }

  lemma TracksMore(seen: seq<Entry>, e: Entry, bySession: map<string, string>, byTask: map<string, string>)
    requires Tracks(seen, bySession, byTask)
    ensures e in seen ==> Tracks(seen + [e], bySession, byTask)
    ensures e.session !in bySession && e.task !in byTask ==>
              Tracks(seen + [e], bySession[e.session := e.task], byTask[e.task := e.session])
  {
    var more := seen + [e];
    assert forall x :: x in seen ==> x in more;
    assert more[|seen|] == e;
  }

  /** An entry that shares one side with an earlier one and not the other. */
  lemma Conflict(alive: seq<Entry>, i: nat, bySession: map<string, string>, byTask: map<string, string>)
    requires i < |alive| && Tracks(alive[..i], bySession, byTask)
    requires alive[i].session in bySession || alive[i].task in byTask
    ensures alive[i] in alive[..i] <==> Holds(alive[i], bySession, byTask)
    ensures alive[i] !in alive[..i] ==> !OneToOne(alive)
  {
    var e := alive[i];
    if e !in alive[..i] {
      var x := if e.session in bySession then Entry(e.session, bySession[e.session]) else Entry(byTask[e.task], e.task);
      assert x in alive[..i];
      var j :| 0 <= j < i && alive[j] == x;
      assert alive[j] != alive[i];
    }
  }

  function TotalBytes(alive: seq<Entry>): nat {
    if alive == [] then 0 else TotalBytes(alive[..|alive| - 1]) + EntryBytes(alive[|alive| - 1])
  }

  lemma {:induction false} TotalGrows(alive: seq<Entry>, i: nat)
    requires i <= |alive|
    ensures TotalBytes(alive[..i]) <= TotalBytes(alive)
    decreases |alive|
  {
    if i == |alive| {
      assert alive[..i] == alive;
    } else {
      TotalGrows(alive[..|alive| - 1], i);
      assert alive[..|alive| - 1][..i] == alive[..i];
    }
  }

  lemma {:induction false} TotalBounded(alive: seq<Entry>)
    requires AllValid(alive)
    ensures TotalBytes(alive) <= 574 * |alive|
    decreases |alive|
  {
    if alive != [] { TotalBounded(alive[..|alive| - 1]); }
  }

  /** The byte budget never decides: the count and id limits already keep every list within it. */
  lemma BudgetNeverBinds(alive: seq<Entry>)
    requires WellFormed(alive)
    ensures TotalBytes(alive) <= MAX_RETAINED_CATALOG_BYTES
  {
    TotalBounded(alive);
  }

  /** Succeeds exactly on a bounded one-to-one list of valid ids, and returns it without repetitions. */
  method Validate(alive: seq<Entry>) returns (r: Option<seq<Entry>>)
    ensures r.Some? <==> WellFormed(alive)
    ensures r.Some? ==> r.value == Dedup(alive)
  {
    r := ValidateWithin(alive);
    if |alive| <= MAX_CATALOG_ENTRIES && WellFormed(alive) { BudgetNeverBinds(alive); }
  }

  /** The loop's state after the entries of `seen`. */
  ghost predicate Progress(
      seen: seq<Entry>, bySession: map<string, string>, byTask: map<string, string>, valid: seq<Entry>, retained: nat)
  {
    && Tracks(seen, bySession, byTask) && AllValid(seen)
    && valid == Dedup(seen) && retained == TotalBytes(seen)
  }

  lemma RepeatedEntry(
      seen: seq<Entry>, e: Entry, bySession: map<string, string>, byTask: map<string, string>, valid: seq<Entry>,
      retained: nat)
    requires Progress(seen, bySession, byTask, valid, retained) && ValidEntry(e) && e in seen
    ensures Progress(seen + [e], bySession, byTask, valid, retained + EntryBytes(e))
  {
    TracksMore(seen, e, bySession, byTask);
    assert (seen + [e])[..|seen|] == seen;
  }

  lemma NewEntry(
      seen: seq<Entry>, e: Entry, bySession: map<string, string>, byTask: map<string, string>, valid: seq<Entry>,
      retained: nat)
    requires Progress(seen, bySession, byTask, valid, retained) && ValidEntry(e) && e.session !in bySession
    requires e.task !in byTask
    ensures Progress(seen + [e], bySession[e.session := e.task], byTask[e.task := e.session], valid + [e],
        retained + EntryBytes(e))
  {
    TracksMore(seen, e, bySession, byTask);
    assert (seen + [e])[..|seen|] == seen;
    assert e !in seen;
  }

  lemma OverBudget(alive: seq<Entry>, i: nat)
    requires i < |alive|
    ensures TotalBytes(alive[..i]) + EntryBytes(alive[i]) <= TotalBytes(alive)
  {
    TotalGrows(alive, i + 1);
    assert alive[..i + 1][..i] == alive[..i];
  }

  method ValidateWithin(alive: seq<Entry>) returns (r: Option<seq<Entry>>)
    ensures r.Some? <==> WellFormed(alive) && TotalBytes(alive) <= MAX_RETAINED_CATALOG_BYTES
    ensures r.Some? ==> r.value == Dedup(alive)
  {
    if |alive| > MAX_CATALOG_ENTRIES { return None; }
    var sessionToTask: map<string, string>, taskToSession: map<string, string>, valid: seq<Entry> := map[], map[], [];
    var retained: nat := 0;
    var i := 0;
    while i < |alive|
      invariant i <= |alive| && Progress(alive[..i], sessionToTask, taskToSession, valid, retained)
      invariant retained <= MAX_RETAINED_CATALOG_BYTES
    {
      var e := alive[i];
      if !ValidEntry(e) { return None; }
      OverBudget(alive, i);
      if retained > MAX_RETAINED_CATALOG_BYTES - EntryBytes(e) { return None; }
      assert alive[..i + 1] == alive[..i] + [e];
      if e.session in sessionToTask || e.task in taskToSession {
        Conflict(alive, i, sessionToTask, taskToSession);
        if !Holds(e, sessionToTask, taskToSession) { return None; }
        RepeatedEntry(alive[..i], e, sessionToTask, taskToSession, valid, retained);
      } else {
        NewEntry(alive[..i], e, sessionToTask, taskToSession, valid, retained);
        sessionToTask, taskToSession, valid := sessionToTask[e.session := e.task], taskToSession[e.task := e.session],
            valid + [e];
      }
      retained := retained + EntryBytes(e);
      i := i + 1;
    }
    assert alive[..i] == alive;
    TracksOneToOne(alive, sessionToTask, taskToSession);
    return Some(valid);
  }

  // ---------------------------------------------------------------- authority

  datatype Authority = Authority(owner: string, epoch: nat, retired: set<string>)

  predicate Legacy(owner: string, epoch: nat) { owner == "" && epoch == 0 }

  predicate Accepts(current: Option<Authority>, owner: string, epoch: nat) {
    if Legacy(owner, epoch) then current.None?
    else if !ValidControlId(owner) || epoch == 0 then false
    else if current.None? then true
    else if current.value.owner == owner then current.value.epoch < epoch
    else owner !in current.value.retired && |current.value.retired| < MAX_RETIRED_RESYNC_OWNERS
  }

  function Advance(current: Option<Authority>, owner: string, epoch: nat): Authority {
    if current.None? then Authority(owner, epoch, {})
    else if current.value.owner == owner then current.value.(epoch := epoch)
    else Authority(owner, epoch, current.value.retired + {current.value.owner})
  }

  // ---------------------------------------------------------------- runs of one device

  datatype Pair = Pair(owner: string, epoch: nat)

  /** `log` lists the accepted pairs; legacy snapshots have none. */
  datatype Source = Source(current: Option<Authority>, removed: bool, log: seq<Pair>)

  datatype Event = Snapshot(owner: string, epoch: nat, sessions: seq<Entry>) | DeviceRemoved

  /** A removed device is revoked for good, so none of its connections is current again. */
  ghost function Step(s: Source, e: Event): Source {
    match e
    case Snapshot(owner, epoch, sessions) =>
      if s.removed || !WellFormed(sessions) || !Accepts(s.current, owner, epoch) || Legacy(owner, epoch) then s
      else s.(current := Some(Advance(s.current, owner, epoch)), log := s.log + [Pair(owner, epoch)])
    case DeviceRemoved => s.(current := None, removed := true)
  }

  ghost function After(events: seq<Event>): Source {
    if events == [] then Source(None, false, []) else Step(After(events[..|events| - 1]), events[|events| - 1])
  }

  ghost function Owners(log: seq<Pair>): set<string> { set i | 0 <= i < |log| :: log[i].owner }

  /** Epochs of one owner rise strictly. */
  ghost predicate Rising(log: seq<Pair>) {
    forall i, j :: 0 <= i < j < |log| && log[i].owner == log[j].owner ==> log[i].epoch < log[j].epoch
  }

  /** An owner that was replaced does not come back. */
  ghost predicate NoReturn(log: seq<Pair>) {
    forall i, j, k :: 0 <= i < j < k < |log| && log[i].owner != log[j].owner ==> log[i].owner != log[k].owner
  }

  ghost predicate AuthorityInv(a: Authority, log: seq<Pair>) {
    && a.owner !in a.retired && |a.retired| <= MAX_RETIRED_RESYNC_OWNERS
    && log != [] && log[|log| - 1].owner == a.owner
    && (forall i :: 0 <= i < |log| ==>
        log[i].owner in a.retired || (log[i].owner == a.owner && log[i].epoch <= a.epoch))
    && (forall i, j :: 0 <= i < j < |log| && log[i].owner != log[j].owner ==> log[i].owner in a.retired)
  }

  ghost predicate Inv(s: Source) {
    && Rising(s.log) && NoReturn(s.log) && |Owners(s.log)| <= MAX_RETIRED_RESYNC_OWNERS + 1
    && (s.current.Some? ==> AuthorityInv(s.current.value, s.log))
    && (s.current.None? && !s.removed ==> s.log == [])
  }

  lemma OwnersBounded(a: Authority, log: seq<Pair>)
    requires AuthorityInv(a, log)
    ensures |Owners(log)| <= MAX_RETIRED_RESYNC_OWNERS + 1
  {
    SubsetSmaller(Owners(log), a.retired + {a.owner});
  }

  lemma LogGrows(a: Authority, log: seq<Pair>, x: Pair)
    requires Rising(log) && NoReturn(log) && AuthorityInv(a, log) && Accepts(Some(a), x.owner, x.epoch)
    ensures Rising(log + [x]) && NoReturn(log + [x])
  {
    var more := log + [x];
    forall i, j | 0 <= i < j < |more| && more[i].owner == more[j].owner ensures more[i].epoch < more[j].epoch {
      assert more[i] == log[i];
    }
    forall i, j, k | 0 <= i < j < k < |more| && more[i].owner != more[j].owner ensures more[i].owner != more[k].owner {
      assert more[i] == log[i] && more[j] == log[j];
    }
  }

  lemma AdvanceKeeps(a: Authority, log: seq<Pair>, x: Pair)
    requires AuthorityInv(a, log) && Accepts(Some(a), x.owner, x.epoch)
    ensures AuthorityInv(Advance(Some(a), x.owner, x.epoch), log + [x])
  {
    var more := log + [x];
    assert forall i :: 0 <= i < |log| ==> more[i] == log[i];
  }

  lemma FirstKeeps(x: Pair)
    ensures Rising([x]) && NoReturn([x]) && AuthorityInv(Authority(x.owner, x.epoch, {}), [x])
  {
  }

  lemma AcceptKeeps(s: Source, x: Pair)
    requires Inv(s) && !s.removed && Accepts(s.current, x.owner, x.epoch) && !Legacy(x.owner, x.epoch)
    ensures Inv(s.(current := Some(Advance(s.current, x.owner, x.epoch)), log := s.log + [x]))
  {
    if s.current.Some? {
      LogGrows(s.current.value, s.log, x);
      AdvanceKeeps(s.current.value, s.log, x);
    } else {
      FirstKeeps(x);
      assert s.log + [x] == [x];
    }
    OwnersBounded(Advance(s.current, x.owner, x.epoch), s.log + [x]);
  }

  lemma StepKeeps(s: Source, e: Event)
    requires Inv(s)
    ensures Inv(Step(s, e))
  {
    if e.Snapshot? && !s.removed && WellFormed(e.sessions) && Accepts(s.current, e.owner, e.epoch)
        && !Legacy(e.owner, e.epoch) {
      AcceptKeeps(s, Pair(e.owner, e.epoch));
    }
  }

  lemma {:induction false} Always(events: seq<Event>)
    ensures Inv(After(events))
    decreases |events|
  {
    if events != [] {
      Always(events[..|events| - 1]);
      StepKeeps(After(events[..|events| - 1]), events[|events| - 1]);
    }
  }

  // ---------------------------------------------------------------- the authority table

  ghost predicate Sane(a: Authority) {
    ValidControlId(a.owner) && a.epoch > 0 && a.owner !in a.retired && |a.retired| <= MAX_RETIRED_RESYNC_OWNERS
  }

  lemma AdvanceSane(current: Option<Authority>, owner: string, epoch: nat)
    requires (current.Some? ==> Sane(current.value)) && Accepts(current, owner, epoch) && !Legacy(owner, epoch)
    ensures Sane(Advance(current, owner, epoch))
  {
    if current.Some? && current.value.owner != owner {
      assert |current.value.retired + {current.value.owner}| == |current.value.retired| + 1;
    }
  }

  class ResyncAuthorities {
    var authorities: map<DaemonId, Authority>

    function Current(d: DaemonId): Option<Authority>
      reads this
    {
      if d in authorities then Some(authorities[d]) else None
    }

    ghost predicate Valid()
      reads this
    {
      forall d :: d in authorities ==> Sane(authorities[d])
    }

    constructor ()
      ensures Valid() && authorities == map[]
    {
      authorities := map[];
    }

    /** An accepted pair becomes the current one; the owner it replaces is retired and refused from then on. */
    method Accept(d: DaemonId, owner: string, epoch: nat) returns (ok: bool)
      requires Valid()
      modifies this
      ensures Valid() && ok == Accepts(old(Current(d)), owner, epoch)
      ensures authorities == if ok && !Legacy(owner, epoch)
                             then old(authorities)[d := Advance(old(Current(d)), owner, epoch)] else old(authorities)
      ensures ok && !Legacy(owner, epoch) ==> !Accepts(Current(d), owner, epoch)
      ensures ok && !Legacy(owner, epoch) && old(Current(d)).Some? && old(Current(d)).value.owner != owner ==>
                forall n :: !Accepts(Current(d), old(Current(d)).value.owner, n)
    {
      if Accepts(Current(d), owner, epoch) && !Legacy(owner, epoch) { AdvanceSane(Current(d), owner, epoch); }
      ok := Decide(d, owner, epoch);
    }

    method Decide(d: DaemonId, owner: string, epoch: nat) returns (ok: bool)
      modifies this
      ensures ok == Accepts(old(Current(d)), owner, epoch)
      ensures authorities == if ok && !Legacy(owner, epoch)
                             then old(authorities)[d := Advance(old(Current(d)), owner, epoch)] else old(authorities)
    {
      if owner == "" && epoch == 0 { return d !in authorities; }
      if !ValidControlId(owner) || epoch == 0 { return false; }
      if d !in authorities {
        authorities := authorities[d := Authority(owner, epoch, {})];
        return true;
      }
      var current := authorities[d];
      if current.owner == owner {
        if epoch <= current.epoch { return false; }
        authorities := authorities[d := current.(epoch := epoch)];
        return true;
      }
      if owner in current.retired { return false; }
      if |current.retired| >= MAX_RETIRED_RESYNC_OWNERS { return false; }
      authorities := authorities[d := Authority(owner, epoch, current.retired + {current.owner})];
      return true;
    }

    /** Validation comes first, so a malformed snapshot consumes nothing. */
    method OnResync(d: DaemonId, owner: string, epoch: nat, sessions: seq<Entry>) returns (relist: Option<seq<Entry>>)
      requires Valid()
      modifies this
      ensures Valid()
      ensures relist.Some? <==> WellFormed(sessions) && Accepts(old(Current(d)), owner, epoch)
      ensures relist.Some? ==> relist.value == Dedup(sessions)
      ensures authorities == if relist.Some? && !Legacy(owner, epoch)
                             then old(authorities)[d := Advance(old(Current(d)), owner, epoch)] else old(authorities)
    {
      var valid := Validate(sessions);
      if valid.None? { return None; }
      var ok := Accept(d, owner, epoch);
      return if ok then valid else None;
    }

    method Remove(d: DaemonId)
      requires Valid()
      modifies this
      ensures Valid() && authorities == old(authorities) - {d}
    {
      authorities := authorities - {d};
    }
  }

  /** The table driven by any sequence of one device's events holds the authority that the theorem speaks about. */
  method Drive(d: DaemonId, events: seq<Event>) returns (t: ResyncAuthorities)
    ensures fresh(t) && t.Valid() && t.Current(d) == After(events).current
  {
    t := new ResyncAuthorities();
    var removed := false;
    for i := 0 to |events|
      invariant fresh(t) && t.Valid() && t.Current(d) == After(events[..i]).current
      invariant removed == After(events[..i]).removed
    {
      assert events[..i + 1][..i] == events[..i];
      match events[i] {
        case Snapshot(owner, epoch, sessions) => if !removed { var _ := t.OnResync(d, owner, epoch, sessions); }
        case DeviceRemoved => t.Remove(d); removed := true;
      }
    }
    assert events[..|events|] == events;
  }

  // ---------------------------------------------------------------- main result

  /** Epochs rise strictly per owner, so no accepted pair repeats; a replaced owner never returns; at most 17 owners. */
  lemma {:induction false} SnapshotsAreMonotone(events: seq<Event>)
    ensures Rising(After(events).log) && NoReturn(After(events).log) && |Owners(After(events).log)| <= 17
    ensures forall i, j :: 0 <= i < j < |After(events).log| ==> After(events).log[i] != After(events).log[j]
  {
    Always(events);
  }
}
