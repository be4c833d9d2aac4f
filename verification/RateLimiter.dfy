/** The fixed-window limiter with a bounded set of keys; the map is ordered, the key used longest ago first. */
module RateLimiter {
  import opened Sets
  import opened Store

  type Key = nat
  type Time = int

  const MAX_RATE_LIMIT_KEYS: nat := 10_000

  /** One entry of the map; `used` is the number of the key's last call. */
  datatype Slot = Slot(key: Key, started: Time, count: nat, used: nat)

  /** The ordered map as the list of its entries, oldest first. */
  type Slots = seq<Slot>

  datatype Settings = Settings(limit: nat, length: nat, cap: nat)

  function Find(slots: Slots, k: Key): Option<Slot> {
    if slots == [] then None else if slots[0].key == k then Some(slots[0]) else Find(slots[1..], k)
  }

  function Without(slots: Slots, k: Key): Slots {
    if slots == [] then []
    else if slots[0].key == k then Without(slots[1..], k)
    else [slots[0]] + Without(slots[1..], k)
  }

  function Next(s: Settings, slots: Slots, k: Key, now: Time, call: nat): Slot {
    var previous := Find(slots, k);
    if previous.None? || now - previous.value.started >= s.length then Slot(k, now, 1, call)
    else Slot(k, previous.value.started, previous.value.count + 1, call)
  }

  function Use(s: Settings, slots: Slots, k: Key, now: Time, call: nat): Slots {
    Without(slots, k) + [Next(s, slots, k, now, call)]
  }

  function Trim(s: Settings, slots: Slots): Slots { if |slots| > s.cap then slots[1..] else slots }

  predicate Allowed(s: Settings, slots: Slots, k: Key, now: Time) { Next(s, slots, k, now, 0).count <= s.limit }

  // ---------------------------------------------------------------- runs

  datatype Call = Call(key: Key, now: Time)

  function After(s: Settings, calls: seq<Call>): Slots {
    if calls == [] then []
    else
      var n := |calls| - 1;
      Trim(s, Use(s, After(s, calls[..n]), calls[n].key, calls[n].now, n))
  }

  ghost predicate Monotone(calls: seq<Call>) { forall i, j :: 0 <= i <= j < |calls| ==> calls[i].now <= calls[j].now }

  ghost predicate AllowedAt(s: Settings, calls: seq<Call>, n: nat)
    requires n < |calls|
  {
    Allowed(s, After(s, calls[..n]), calls[n].key, calls[n].now)
  }

  /** How many of the calls i..j are calls of `k` that were allowed. */
  ghost function AllowedCount(s: Settings, calls: seq<Call>, k: Key, i: nat, j: nat): nat
    requires i <= j <= |calls|
  {
    if i == j then 0
    else AllowedCount(s, calls, k, i, j - 1) + (if calls[j - 1].key == k && AllowedAt(s, calls, j - 1) then 1 else 0)
  }

  /** Call n pushes `k` out of the table. */
  ghost predicate Evicts(s: Settings, calls: seq<Call>, n: nat, k: Key)
    requires n < |calls|
  {
    Find(After(s, calls[..n]), k).Some? && Find(After(s, calls[..n + 1]), k).None?
  }

  // ---------------------------------------------------------------- the table is ordered by last use

  ghost predicate Ordered(slots: Slots) {
    forall i, j :: 0 <= i < j < |slots| ==> slots[i].used < slots[j].used && slots[i].key != slots[j].key
  }

  ghost predicate Recent(slots: Slots, calls: seq<Call>) {
    forall i :: 0 <= i < |slots| ==> LastUse(calls, slots[i].key, slots[i].used)
  }

  ghost predicate LastUse(calls: seq<Call>, k: Key, n: nat) {
    n < |calls| && calls[n].key == k && forall m :: n < m < |calls| ==> calls[m].key != k
  }

  lemma {:induction false} FindExactly(slots: Slots, k: Key, x: Slot)
    requires Ordered(slots)
    ensures Find(slots, k) == Some(x) <==> x in slots && x.key == k
    decreases |slots|
  {
    if slots != [] {
      FindExactly(slots[1..], k, x);
      assert slots == [slots[0]] + slots[1..];
    }
  }

  lemma {:induction false} WithoutMembers(slots: Slots, k: Key)
    ensures forall x :: x in Without(slots, k) <==> x in slots && x.key != k
    decreases |slots|
  {
    if slots != [] {
      WithoutMembers(slots[1..], k);
      assert slots == [slots[0]] + slots[1..];
    }
  }

  lemma {:induction false} WithoutExactly(slots: Slots, k: Key)
    requires Ordered(slots)
    ensures Ordered(Without(slots, k)) && |Without(slots, k)| <= |slots|
    ensures forall x :: x in Without(slots, k) <==> x in slots && x.key != k
    decreases |slots|
  {
    WithoutMembers(slots, k);
    if slots != [] {
      WithoutExactly(slots[1..], k);
      var r := Without(slots[1..], k);
      forall i | 0 <= i < |r|
        ensures slots[0].used < r[i].used && slots[0].key != r[i].key
      {
        assert r[i] in r && r[i] in slots[1..];
      }
    }
  }

  lemma {:induction false} UseOrdered(s: Settings, slots: Slots, calls: seq<Call>, c: Call)
    requires Ordered(slots) && Recent(slots, calls)
    ensures var u := Use(s, slots, c.key, c.now, |calls|); Ordered(u) && Recent(u, calls + [c]) && |u| <= |slots| + 1
  {
    var r := Without(slots, c.key);
    var u := Use(s, slots, c.key, c.now, |calls|);
    WithoutExactly(slots, c.key);
    forall i | 0 <= i < |r|
      ensures LastUse(calls, r[i].key, r[i].used) && r[i].key != c.key
    {
      assert r[i] in r && r[i] in slots;
    }
    forall i | 0 <= i < |u| ensures LastUse(calls + [c], u[i].key, u[i].used) {
      if i < |r| { assert LastUse(calls, r[i].key, r[i].used); }
    }
  }

  lemma {:induction false} Always(s: Settings, calls: seq<Call>)
    requires s.cap > 0
    ensures Ordered(After(s, calls)) && Recent(After(s, calls), calls) && |After(s, calls)| <= s.cap
    decreases |calls|
  {
    if calls != [] {
      var n := |calls| - 1;
      Always(s, calls[..n]);
      UseOrdered(s, After(s, calls[..n]), calls[..n], calls[n]);
      assert calls[..n] + [calls[n]] == calls;
    }
  }

  // ---------------------------------------------------------------- eviction

  ghost function KeysUsed(calls: seq<Call>, from: nat): set<Key> { set n | from <= n < |calls| :: calls[n].key }

  ghost function KeysOf(slots: Slots): set<Key> { set i | 0 <= i < |slots| :: slots[i].key }

  lemma {:induction false} KeysOfSize(slots: Slots)
    requires Ordered(slots)
    ensures |KeysOf(slots)| == |slots|
    decreases |slots|
  {
    if slots == [] {
      assert KeysOf(slots) == {};
    } else {
      var n := |slots| - 1;
      KeysOfSize(slots[..n]);
      assert KeysOf(slots) == KeysOf(slots[..n]) + {slots[n].key};
    }
  }

  /** The tail of an ordered table was used after its head. */
  lemma {:induction false} TailIsYounger(slots: Slots, calls: seq<Call>)
    requires slots != [] && Ordered(slots) && Recent(slots, calls)
    ensures KeysOf(slots[1..]) <= KeysUsed(calls, slots[0].used + 1)
    ensures slots[0].key !in KeysUsed(calls, slots[0].used + 1)
  {
    forall k | k in KeysOf(slots[1..]) ensures k in KeysUsed(calls, slots[0].used + 1) {
      var i :| 0 <= i < |slots[1..]| && slots[1..][i].key == k;
      assert slots[1..][i] == slots[i + 1];
      assert LastUse(calls, slots[i + 1].key, slots[i + 1].used);
    }
    assert LastUse(calls, slots[0].key, slots[0].used);
  }

  lemma OnlyHeadLeaves(s: Settings, slots: Slots, k: Key)
    requires Ordered(slots) && Find(slots, k).Some? && Find(Trim(s, slots), k).None?
    ensures |slots| > s.cap && slots[0].key == k
  {
    var x := Find(slots, k).value;
    FindExactly(slots, k, x);
    if |slots| > s.cap {
      FindExactly(slots[1..], k, x);
      assert slots == [slots[0]] + slots[1..];
    }
  }

  /** When a key is pushed out, at least as many other keys as the table holds were used since its last use. */
  lemma {:induction false} EvictionNeedsFullTable(s: Settings, calls: seq<Call>, n: nat, k: Key)
    requires s.cap > 0 && n < |calls| && Evicts(s, calls, n, k)
    ensures exists u ::
              && 0 <= u < n && calls[u].key == k && k !in KeysUsed(calls[..n + 1], u + 1)
              && |KeysUsed(calls[..n + 1], u + 1)| >= s.cap
  {
    var before, c := After(s, calls[..n]), calls[n];
    Always(s, calls[..n]);
    var used := Use(s, before, c.key, c.now, n);
    assert calls[..n + 1] == calls[..n] + [c] && calls[..n + 1][..n] == calls[..n];
    UseOrdered(s, before, calls[..n], c);
    KeptByUse(s, before, calls[..n], c, k);
    OnlyHeadLeaves(s, used, k);
    TailIsYounger(used, calls[..n + 1]);
    KeysOfSize(used[1..]);
    SubsetSmaller(KeysOf(used[1..]), KeysUsed(calls[..n + 1], used[0].used + 1));
    assert LastUse(calls[..n + 1], used[0].key, used[0].used);
    HeadIsOld(s, before, calls[..n], c);
  }

  /** Using a key loses no other key. */
  lemma {:induction false} KeptByUse(s: Settings, slots: Slots, calls: seq<Call>, c: Call, k: Key)
    requires Ordered(slots) && Recent(slots, calls) && Find(slots, k).Some?
    ensures Find(Use(s, slots, c.key, c.now, |calls|), k).Some?
    ensures k != c.key ==> Find(Use(s, slots, c.key, c.now, |calls|), k) == Find(slots, k)
  {
    var u := Use(s, slots, c.key, c.now, |calls|);
    var x := Find(slots, k).value;
    FindExactly(slots, k, x);
    WithoutExactly(slots, c.key);
    UseOrdered(s, slots, calls, c);
    if k == c.key {
      assert u[|u| - 1].key == k;
      FindExactly(u, k, u[|u| - 1]);
    } else {
      assert x in Without(slots, c.key) && x in u;
      FindExactly(u, k, x);
    }
  }

  lemma {:induction false} HeadIsOld(s: Settings, slots: Slots, calls: seq<Call>, c: Call)
    requires Ordered(slots) && Recent(slots, calls)
    ensures var u := Use(s, slots, c.key, c.now, |calls|); |u| > 1 ==> u[0].used < |calls|
  {
    UseOrdered(s, slots, calls, c);
    var u := Use(s, slots, c.key, c.now, |calls|);
    assert u[|u| - 1].used == |calls|;
  }

  // ---------------------------------------------------------------- two windows

  function Min(a: int, b: int): int { if a <= b then a else b }

  /**
   What is known about `k` after the calls i..j, when its first call of them came no earlier than t: it is in its first
   window since then and every allowed call is counted in it, or in the second, which began after t.
   */
  ghost predicate Counted(s: Settings, slots: Slots, k: Key, t: Time, allowed: nat) {
    var x := Find(slots, k);
    && x.Some?
    && ((allowed <= Min(x.value.count, s.limit) && x.value.started + s.length > t)
        || (allowed <= s.limit + Min(x.value.count, s.limit) && x.value.started > t))
  }

  lemma FindLast(slots: Slots, x: Slot)
    requires Ordered(slots + [x])
    ensures Find(slots + [x], x.key) == Some(x)
  {
    assert (slots + [x])[|slots|] == x;
    FindExactly(slots + [x], x.key, x);
  }

  /** A call of `k` itself keeps the count, as long as it comes within `length` of t. */
  lemma {:induction false} OwnCallCounts(s: Settings, slots: Slots, calls: seq<Call>, c: Call, t: Time, allowed: nat)
    requires s.length > 0 && Ordered(slots) && Recent(slots, calls)
    requires t <= c.now <= t + s.length && (allowed == 0 || Counted(s, slots, c.key, t, allowed))
    ensures var more := allowed + if Allowed(s, slots, c.key, c.now) then 1 else 0;
            Counted(s, Use(s, slots, c.key, c.now, |calls|), c.key, t, more)
  {
    UseOrdered(s, slots, calls, c);
    FindLast(Without(slots, c.key), Next(s, slots, c.key, c.now, |calls|));
  }

  lemma TrimKeepsFound(s: Settings, slots: Slots, k: Key)
    requires Ordered(slots) && Find(Trim(s, slots), k).Some?
    ensures Find(slots, k) == Find(Trim(s, slots), k)
  {
    var x := Find(Trim(s, slots), k).value;
    FindExactly(Trim(s, slots), k, x);
    FindExactly(slots, k, x);
    if |slots| > s.cap { assert slots == [slots[0]] + slots[1..]; }
  }

  /** One call, of `k` or of another key, that does not push `k` out. */
  lemma {:induction false} CallCounts(
      s: Settings, slots: Slots, calls: seq<Call>, c: Call, k: Key, t: Time, allowed: nat)
    requires s.cap > 0 && s.length > 0 && Ordered(slots) && Recent(slots, calls)
    requires t <= c.now <= t + s.length && (allowed == 0 || Counted(s, slots, k, t, allowed))
    requires Find(slots, k).Some? ==> Find(Trim(s, Use(s, slots, c.key, c.now, |calls|)), k).Some?
    ensures var more := allowed + if c.key == k && Allowed(s, slots, c.key, c.now) then 1 else 0;
            more == 0 || Counted(s, Trim(s, Use(s, slots, c.key, c.now, |calls|)), k, t, more)
  {
    var used := Use(s, slots, c.key, c.now, |calls|);
    UseOrdered(s, slots, calls, c);
    if c.key == k {
      OwnCallCounts(s, slots, calls, c, t, allowed);
      OwnKeyStays(s, used, k);
    } else if allowed != 0 {
      KeptByUse(s, slots, calls, c, k);
      TrimKeepsFound(s, used, k);
    }
  }

  lemma {:induction false} CountedAlong(s: Settings, calls: seq<Call>, k: Key, i: nat, j: nat)
    requires s.cap > 0 && s.length > 0 && i < j <= |calls| && Monotone(calls)
    requires calls[j - 1].now <= calls[i].now + s.length
    requires forall n :: i <= n < j ==> !Evicts(s, calls, n, k)
    ensures AllowedCount(s, calls, k, i, j) == 0
        || Counted(s, After(s, calls[..j]), k, calls[i].now, AllowedCount(s, calls, k, i, j))
    decreases j
  {
    var n := j - 1;
    if i < n { CountedAlong(s, calls, k, i, n); }
    Always(s, calls[..n]);
    assert calls[..j][..n] == calls[..n];
    assert !Evicts(s, calls, n, k);
    CallCounts(s, After(s, calls[..n]), calls[..n], calls[n], k, calls[i].now, AllowedCount(s, calls, k, i, n));
  }

  /** The key just used is last, so it is not the one pushed out. */
  lemma OwnKeyStays(s: Settings, used: Slots, k: Key)
    requires s.cap > 0 && Ordered(used) && used != [] && used[|used| - 1].key == k
    ensures Find(Trim(s, used), k) == Find(used, k)
  {
    var x := used[|used| - 1];
    FindExactly(used, k, x);
    if |used| > s.cap {
      assert used[1..][|used| - 2] == x;
      FindExactly(used[1..], k, x);
    }
  }

  // ---------------------------------------------------------------- the limiter object

  /** The key just used is in the table with this window; every other key keeps its own, at most one excepted. */
  lemma UseThenTrim(s: Settings, slots: Slots, calls: seq<Call>, c: Call)
    requires s.cap > 0 && Ordered(slots) && Recent(slots, calls) && |slots| <= s.cap
    ensures var t := Trim(s, Use(s, slots, c.key, c.now, |calls|));
            && Ordered(t) && Recent(t, calls + [c]) && |t| <= s.cap
            && Find(t, c.key) == Some(Next(s, slots, c.key, c.now, |calls|))
  {
    UseOrdered(s, slots, calls, c);
    FindLast(Without(slots, c.key), Next(s, slots, c.key, c.now, |calls|));
    OwnKeyStays(s, Use(s, slots, c.key, c.now, |calls|), c.key);
  }

  class FixedWindowLimiter {
    const limit: nat
    const length: nat
    var windows: Slots
    ghost var calls: seq<Call>

    ghost function Config(): Settings { Settings(limit, length, MAX_RATE_LIMIT_KEYS) }

    ghost predicate Valid()
      reads this
    {
      windows == After(Config(), calls)
    }

    constructor (limit: nat, length: nat)
      ensures Valid() && calls == [] && this.limit == limit && this.length == length
    {
      this.limit, this.length, windows, calls := limit, length, [], [];
    }

    /**
     The answer is whether the key's window, counted with this call, is within the limit. The window is found again by
     the next call, and the table stays within its size. `call` numbers the calls; it only records history.
     */
    method Allow(k: Key, now: Time, call: nat) returns (ok: bool)
      requires Valid() && call == |calls|
      modifies this
      ensures Valid() && calls == old(calls) + [Call(k, now)] && |windows| <= MAX_RATE_LIMIT_KEYS
      ensures ok == AllowedAt(Config(), calls, call)
      ensures Find(windows, k) == Some(Next(Config(), old(windows), k, now, call))
    {
      Always(Config(), calls);
      UseThenTrim(Config(), windows, calls, Call(k, now));
      assert (calls + [Call(k, now)])[..|calls|] == calls;
      var previous := Find(windows, k);
      var entry := if previous.None? || now - previous.value.started >= length then Slot(k, now, 1, call)
                   else Slot(k, previous.value.started, previous.value.count + 1, call);
      windows := Without(windows, k);
      windows := windows + [entry];
      if |windows| > MAX_RATE_LIMIT_KEYS { windows := windows[1..]; }
      calls := calls + [Call(k, now)];
      return entry.count <= limit;
    }
  }

  /** A limiter driven by any sequence of calls answers as the theorems say. */
  method Drive(limit: nat, length: nat, calls: seq<Call>) returns (l: FixedWindowLimiter, answers: seq<bool>)
    ensures fresh(l) && l.windows == After(Settings(limit, length, MAX_RATE_LIMIT_KEYS), calls)
    ensures |answers| == |calls|
    ensures forall n :: 0 <= n < |calls| ==>
              answers[n] == AllowedAt(Settings(limit, length, MAX_RATE_LIMIT_KEYS), calls, n)
  {
    l := new FixedWindowLimiter(limit, length);
    answers := [];
    ghost var s := Settings(limit, length, MAX_RATE_LIMIT_KEYS);
    for i := 0 to |calls|
      invariant fresh(l) && l.Valid() && l.calls == calls[..i] && l.Config() == s && |answers| == i
      invariant forall n :: 0 <= n < i ==> answers[n] == AllowedAt(s, calls, n)
    {
      assert calls[..i + 1] == calls[..i] + [calls[i]] && calls[..i + 1][..i] == calls[..i];
      var ok := l.Allow(calls[i].key, calls[i].now, i);
      answers := answers + [ok];
    }
    assert calls[..|calls|] == calls;
  }

  // ---------------------------------------------------------------- main result

  /**
   With a monotone clock, a key that is not pushed out is allowed at most twice the limit in any stretch of calls whose
   first and last are at most one window apart.
   */
  lemma {:induction false} AtMostTwiceTheLimit(s: Settings, calls: seq<Call>, k: Key, i: nat, j: nat)
    requires s.cap > 0 && s.length > 0 && i < j <= |calls| && Monotone(calls)
    requires calls[j - 1].now <= calls[i].now + s.length
    requires forall n :: i <= n < j ==> !Evicts(s, calls, n, k)
    ensures AllowedCount(s, calls, k, i, j) <= 2 * s.limit
  {
    CountedAlong(s, calls, k, i, j);
  }

  // ---------------------------------------------------------------- the bound is reached

  /** One key at the end of a window and again at the start of the next. */
  function Burst(s: Settings): seq<Call> { seq(2 * s.limit, i => Call(0, if i < s.limit then 0 else s.length)) }

  function BurstSlots(s: Settings, n: nat): Slots {
    if n == 0 then []
    else if n <= s.limit then [Slot(0, 0, n, n - 1)]
    else [Slot(0, s.length, n - s.limit, n - 1)]
  }

  lemma BurstNext(s: Settings, n: nat)
    requires s.cap > 0 && s.length > 0 && n < 2 * s.limit
    ensures Trim(s, Use(s, BurstSlots(s, n), 0, Burst(s)[n].now, n)) == BurstSlots(s, n + 1)
    ensures Allowed(s, BurstSlots(s, n), 0, Burst(s)[n].now)
  {
    if n > 0 {
      var x := BurstSlots(s, n)[0];
      assert BurstSlots(s, n) == [x] && [x][1..] == [];
      assert Find([x], 0) == Some(x) && Without([x], 0) == [];
    }
  }

  lemma {:induction false} BurstState(s: Settings, n: nat)
    requires s.cap > 0 && s.length > 0 && n <= 2 * s.limit
    ensures After(s, Burst(s)[..n]) == BurstSlots(s, n) && AllowedCount(s, Burst(s), 0, 0, n) == n
  {
    if n > 0 {
      BurstState(s, n - 1);
      BurstNext(s, n - 1);
      assert Burst(s)[..n][..n - 1] == Burst(s)[..n - 1];
    }
  }

  /** Twice the limit is reached, for every limit and window length, by calls at most one window apart. */
  lemma TwiceTheLimitIsReached(s: Settings)
    requires s.cap > 0 && s.length > 0
    ensures Monotone(Burst(s)) && AllowedCount(s, Burst(s), 0, 0, 2 * s.limit) == 2 * s.limit
    ensures forall i, j :: 0 <= i <= j < 2 * s.limit ==> Burst(s)[j].now <= Burst(s)[i].now + s.length
  {
    BurstState(s, 2 * s.limit);
  }
}
