/**
 Native login requests: registered with a PKCE challenge (section 4.6 of RFC 7636), approved in a browser with a
 one-time code, and exchanged once for a grant. Hashing is a parameter, and so are time and randomness.
 */
module NativeLogin {
  import opened Sets
  import opened Store

  type RequestId = nat
  type Hash = nat
  type Grant = nat
  type Time = int

  // ---------------------------------------------------------------- codes

  const CODE_ALPHABET: string := "ABCDEFGHJKLMNPQRSTUVWXYZ23456789"
  const CODE_GROUPS: nat := 5
  const CODE_GROUP_LENGTH: nat := 4

  /** A dash, or what a regular expression's \s matches. */
  predicate Blank(c: char) {
    || c == '-' || '\t' <= c <= '\r' || c == ' ' || c == '\U{A0}' || c == '\U{1680}' || '\U{2000}' <= c <= '\U{200A}'
    || c == '\U{2028}' || c == '\U{2029}' || c == '\U{202F}' || c == '\U{205F}' || c == '\U{3000}' || c == '\U{FEFF}'
  }

  function Upper(c: char): char { if 'a' <= c <= 'z' then c - 'a' + 'A' else c }

  function Clean(c: char): string { if Blank(Upper(c)) then [] else [Upper(c)] }

  function Normalize(raw: string): string {
    if raw == [] then [] else Clean(raw[0]) + Normalize(raw[1..])
  }

  /** The letters a code stands for. */
  function Letters(
      bytes: seq<nat>): string { seq(|bytes|, i requires 0 <= i < |bytes| => CODE_ALPHABET[bytes[i] % 32]) }

  /** The letters in groups of four, joined with dashes. */
  function Grouped(letters: string): string {
    if |letters| <= CODE_GROUP_LENGTH then letters
    else letters[..CODE_GROUP_LENGTH] + "-" + Grouped(letters[CODE_GROUP_LENGTH..])
  }

  lemma {:induction false} NormalizeConcat(a: string, b: string)
    ensures Normalize(a + b) == Normalize(a) + Normalize(b)
    decreases |a|
  {
    if a == [] {
      assert a + b == b;
    } else {
      assert (a + b)[1..] == a[1..] + b && (a + b)[0] == a[0];
      NormalizeConcat(a[1..], b);
      assert Clean(a[0]) + (Normalize(a[1..]) + Normalize(b)) == Clean(a[0]) + Normalize(a[1..]) + Normalize(b);
    }
  }

  ghost predicate Plain(letters: string) { forall i :: 0 <= i < |letters| ==> letters[i] in CODE_ALPHABET }

  lemma AlphabetIsPlain(c: char)
    requires c in CODE_ALPHABET
    ensures !Blank(c) && Upper(c) == c
  {
  }

  lemma {:induction false} NormalizePlain(letters: string)
    requires Plain(letters)
    ensures Normalize(letters) == letters
    decreases |letters|
  {
    if letters != [] {
      AlphabetIsPlain(letters[0]);
      NormalizePlain(letters[1..]);
      assert letters == [letters[0]] + letters[1..];
    }
  }

  lemma NormalizeDash(rest: string)
    ensures Normalize("-" + rest) == Normalize(rest)
  {
    assert ("-" + rest)[1..] == rest;
  }

  lemma NormalizeGroup(head: string, rest: string)
    requires Plain(head)
    ensures Normalize(head + ("-" + rest)) == head + Normalize(rest)
  {
    NormalizePlain(head);
    NormalizeConcat(head, "-" + rest);
    NormalizeDash(rest);
  }

  /** What a person types back from the page normalizes to the letters that were hashed. */
  lemma {:induction false} NormalizeGrouped(letters: string)
    requires Plain(letters)
    ensures Normalize(Grouped(letters)) == letters
    decreases |letters|
  {
    if |letters| <= CODE_GROUP_LENGTH {
      NormalizePlain(letters);
    } else {
      var head, tail := letters[..CODE_GROUP_LENGTH], letters[CODE_GROUP_LENGTH..];
      NormalizeGrouped(tail);
      NormalizeGroup(head, Grouped(tail));
      assert head + ("-" + Grouped(tail)) == Grouped(letters);
      assert head + tail == letters;
    }
  }

  /** Cutting the last group off. */
  lemma {:induction false} GroupedGrows(letters: string, c: char)
    ensures Grouped(letters + [c])
         == Grouped(letters) + (if letters != [] && |letters| % CODE_GROUP_LENGTH == 0 then "-" else "") + [c]
    decreases |letters|
  {
    if |letters| < CODE_GROUP_LENGTH {
    } else if |letters| == CODE_GROUP_LENGTH {
      assert (letters + [c])[..CODE_GROUP_LENGTH] == letters && (letters + [c])[CODE_GROUP_LENGTH..] == [c];
      assert letters + "-" + [c] == Grouped(letters) + "-" + [c];
    } else {
      var head, tail := letters[..CODE_GROUP_LENGTH], letters[CODE_GROUP_LENGTH..];
      GroupedGrows(tail, c);
      assert (letters + [c])[..CODE_GROUP_LENGTH] == head && (letters + [c])[CODE_GROUP_LENGTH..] == tail + [c];
      assert head + "-" + (Grouped(tail) + [c]) == Grouped(letters) + [c];
      assert head + "-" + (Grouped(tail) + "-" + [c]) == Grouped(letters) + "-" + [c];
    }
  }

  method NewCode(bytes: seq<nat>) returns (out: string)
    ensures out == Grouped(Letters(bytes))
    ensures Normalize(out) == Letters(bytes)
  {
    out := "";
    var index := 0;
    while index < |bytes|
      invariant index <= |bytes| && out == Grouped(Letters(bytes)[..index])
    {
      if index > 0 && index % CODE_GROUP_LENGTH == 0 { out := out + "-"; }
      out := out + [CODE_ALPHABET[bytes[index] % |CODE_ALPHABET|]];
      GroupedGrows(Letters(bytes)[..index], Letters(bytes)[index]);
      assert Letters(bytes)[..index + 1] == Letters(bytes)[..index] + [Letters(bytes)[index]];
      index := index + 1;
    }
    assert Letters(bytes)[..index] == Letters(bytes);
    NormalizeGrouped(Letters(bytes));
  }

  // ---------------------------------------------------------------- the store

  datatype Redirect = Loopback(port: int) | Paste
  datatype Registration = Registration(host: string, redirect: Redirect, challenge: string, state: string)

  /** A request is approved exactly when it carries a code hash and a grant. */
  datatype Request = Request(challenge: string, redirect: Redirect, expires: Time, approval: Option<Approval>)
  datatype Approval = Approval(codeHash: Hash, grant: Grant)

  datatype Logins = Logins(ttl: nat, max: nat, requests: map<RequestId, Request>, byCode: map<Hash, RequestId>)

  predicate UrlSafe(c: char) { 'A' <= c <= 'Z' || 'a' <= c <= 'z' || '0' <= c <= '9' || c == '_' || c == '-' }

  predicate ValidVerifier(v: string) {
    43 <= |v| <= 128 && forall i :: 0 <= i < |v| ==> UrlSafe(v[i]) || v[i] == '.' || v[i] == '~'
  }

  /** `host` is the trimmed host. */
  predicate ValidRegistration(r: Registration) {
    && 0 < |r.host| <= 253 && (forall i :: 0 <= i < |r.host| ==> r.host[i] > '\U{1F}' && r.host[i] != '\U{7F}')
    && |r.challenge| == 43 && (forall i :: 0 <= i < |r.challenge| ==> UrlSafe(r.challenge[i]))
    && 16 <= |r.state| <= 128 && (forall i :: 0 <= i < |r.state| ==> UrlSafe(r.state[i]))
    && (r.redirect.Loopback? ==> 1024 <= r.redirect.port <= 65535)
  }

  function Hashes(s: Logins, ids: set<RequestId>): set<Hash> {
    set id | id in ids && id in s.requests && s.requests[id].approval.Some? :: s.requests[id].approval.value.codeHash
  }

  function RemoveAll(s: Logins, ids: set<RequestId>): Logins {
    s.(requests := s.requests - ids, byCode := s.byCode - Hashes(s, ids))
  }

  function Lapsed(s: Logins, now: Time): set<RequestId> { set id | id in s.requests && s.requests[id].expires <= now }

  function Sweep(s: Logins, now: Time): Logins { RemoveAll(s, Lapsed(s, now)) }

  /** Looking a request up removes it if it has expired. */
  function Touch(s: Logins, id: RequestId, now: Time): Logins {
    if id in s.requests && s.requests[id].expires <= now then RemoveAll(s, {id}) else s
  }

  predicate Pending(s: Logins, id: RequestId, now: Time) {
    id in s.requests && s.requests[id].expires > now && s.requests[id].approval.None?
  }

  predicate Registers(s: Logins, r: Registration, now: Time) {
    ValidRegistration(r) && |Sweep(s, now).requests| < s.max
  }

  function Register(s: Logins, r: Registration, id: RequestId, now: Time): Logins {
    if !ValidRegistration(r) then s
    else if !Registers(s, r, now) then Sweep(s, now)
    else Sweep(s, now).(requests := Sweep(s, now).requests[id := Request(r.challenge, r.redirect, now + s.ttl, None)])
  }

  function Approve(s: Logins, id: RequestId, h: Hash, grant: Grant, now: Time): Logins {
    if Pending(s, id, now)
    then s.(requests := s.requests[id := s.requests[id].(approval := Some(Approval(h, grant)))],
        byCode := s.byCode[h := id])
    else Touch(s, id, now)
  }

  function Fail(s: Logins, id: RequestId, now: Time): Logins {
    if Pending(s, id, now) && s.requests[id].redirect.Loopback? then RemoveAll(s, {id}) else Touch(s, id, now)
  }

  function Cancel(s: Logins, id: RequestId, now: Time): Logins {
    if Pending(s, id, now) then RemoveAll(s, {id}) else Touch(s, id, now)
  }

  type HashCode = string -> Hash
  type S256 = string -> string

  predicate Known(hash: HashCode, s: Logins, raw: string) {
    |Normalize(raw)| == CODE_GROUPS * CODE_GROUP_LENGTH && hash(Normalize(raw)) in s.byCode
  }

  /** A known code is spent before anything else is looked at. */
  function Burn(hash: HashCode, s: Logins, raw: string): Logins {
    if !Known(hash, s, raw) then s
    else
      var h := hash(Normalize(raw));
      var cut := s.(byCode := s.byCode - {h});
      if s.byCode[h] in s.requests then RemoveAll(cut, {s.byCode[h]}) else cut
  }

  function Exchange(hash: HashCode, s256: S256, s: Logins, raw: string, verifier: string, now: Time): Option<Grant> {
    if !Known(hash, s, raw) || s.byCode[hash(Normalize(raw))] !in s.requests then None
    else
      var r := s.requests[s.byCode[hash(Normalize(raw))]];
      if r.expires <= now || r.approval.None? || !ValidVerifier(verifier) || s256(verifier) != r.challenge then None
      else Some(r.approval.value.grant)
  }

  lemma RemoveNone(s: Logins)
    ensures RemoveAll(s, {}) == s
  {
    assert Hashes(s, {}) == {} && s.requests - {} == s.requests && s.byCode - {} == s.byCode;
  }

  lemma RemoveNext(s: Logins, ids: set<RequestId>, id: RequestId)
    requires id in s.requests && id !in ids
    ensures RemoveAll(RemoveAll(s, ids), {id}) == RemoveAll(s, ids + {id})
  {
    assert Hashes(s, ids + {id}) == Hashes(s, ids) + Hashes(RemoveAll(s, ids), {id});
    assert s.requests - ids - {id} == s.requests - (ids + {id});
    assert s.byCode - Hashes(s, ids) - Hashes(RemoveAll(s, ids), {id}) == s.byCode - Hashes(s, ids + {id});
  }

  // ---------------------------------------------------------------- runs

  datatype Event =
    /** `id` is a new token. */
    | Registered(registration: Registration, id: RequestId, now: Time)
    /** `bytes` is the code's randomness. */
    | Approved(id: RequestId, bytes: seq<nat>, grant: Grant, now: Time)
    | Failed(id: RequestId, now: Time)
    | Cancelled(id: RequestId, now: Time)
    | Exchanged(raw: string, verifier: string, now: Time)

  /** A grant handed out: the request it came from, as it was, and the verifier and time of the exchange. */
  datatype Handout = Handout(id: RequestId, request: Request, verifier: string, now: Time)

  datatype State = State(logins: Logins, used: set<RequestId>, handouts: seq<Handout>)

  /** The hash of a code, the S256 transformation, and the two settings of the store. */
  datatype Env = Env(hash: HashCode, s256: S256, ttl: nat, max: nat)

  function Step(env: Env, s: State, e: Event): State {
    match e
    case Registered(r, id, now) =>
      if id in s.used then s else s.(logins := Register(s.logins, r, id, now), used := s.used + {id})
    case Approved(id, bytes, grant, now) =>
      if |bytes| != CODE_GROUPS * CODE_GROUP_LENGTH then s
      else
        var h := env.hash(Letters(bytes));
        s.(logins := Approve(s.logins, id, h, grant, now))
    case Failed(id, now) => s.(logins := Fail(s.logins, id, now))
    case Cancelled(id, now) => s.(logins := Cancel(s.logins, id, now))
    case Exchanged(raw, verifier, now) =>
      var after := s.(logins := Burn(env.hash, s.logins, raw));
      if Exchange(env.hash, env.s256, s.logins, raw, verifier, now).Some? then
        var id := s.logins.byCode[env.hash(Normalize(raw))];
        after.(handouts := s.handouts + [Handout(id, s.logins.requests[id], verifier, now)])
      else after
  }

  function After(env: Env, events: seq<Event>): State {
    if events == [] then State(Logins(env.ttl, env.max, map[], map[]), {}, [])
    else Step(env, After(env, events[..|events| - 1]), events[|events| - 1])
  }

  ghost predicate HasHash(s: Logins, id: RequestId, h: Hash) {
    id in s.requests && s.requests[id].approval.Some? && s.requests[id].approval.value.codeHash == h
  }

  /** Every code leads to an approved request that carries it. */
  ghost predicate Grounded(s: Logins) { forall h :: h in s.byCode ==> HasHash(s, s.byCode[h], h) }

  /** Every approved request is found by its code. */
  ghost predicate Indexed(s: Logins) {
    forall id :: id in s.requests && s.requests[id].approval.Some? ==>
      s.requests[id].approval.value.codeHash in s.byCode && s.byCode[s.requests[id].approval.value.codeHash] == id
  }

  /** What every operation of the store keeps, whatever codes are drawn. */
  ghost predicate Kept(s: Logins) { Grounded(s) && |s.requests| <= s.max }

  ghost predicate Fair(env: Env, x: Handout) {
    x.request.approval.Some? && x.now < x.request.expires && ValidVerifier(x.verifier)
        && env.s256(x.verifier) == x.request.challenge
  }

  ghost predicate Inv(env: Env, s: State) {
    && Kept(s.logins) && s.logins.requests.Keys <= s.used
    && (forall i :: 0 <= i < |s.handouts| ==>
          Fair(env, s.handouts[i]) && s.handouts[i].id in s.used && s.handouts[i].id !in s.logins.requests)
    && (forall i, j :: 0 <= i < j < |s.handouts| ==> s.handouts[i].id != s.handouts[j].id)
  }

  lemma RemoveKeeps(s: Logins, ids: set<RequestId>)
    requires Grounded(s)
    ensures Grounded(RemoveAll(s, ids)) && |RemoveAll(s, ids).requests| <= |s.requests|
    ensures Indexed(s) ==> Indexed(RemoveAll(s, ids))
  {
    var t := RemoveAll(s, ids);
    SubsetSmaller(t.requests.Keys, s.requests.Keys);
    forall h | h in t.byCode ensures HasHash(t, t.byCode[h], h) {
      assert HasHash(s, s.byCode[h], h);
      assert s.byCode[h] in ids ==> h in Hashes(s, ids);
    }
  }

  /** An approval keeps codes and approved requests in bijection exactly when its code was not in use. */
  lemma ApproveExact(s: Logins, id: RequestId, h: Hash, grant: Grant, now: Time)
    requires Grounded(s) && Indexed(s) && Pending(s, id, now)
    ensures Grounded(Approve(s, id, h, grant, now))
    ensures Indexed(Approve(s, id, h, grant, now)) <==> h !in s.byCode
  {
    var t := Approve(s, id, h, grant, now);
    forall x | x in t.byCode ensures HasHash(t, t.byCode[x], x) { if x != h { assert HasHash(s, s.byCode[x], x); } }
    if h in s.byCode {
      assert HasHash(s, s.byCode[h], h);
      assert t.requests[s.byCode[h]] == s.requests[s.byCode[h]];
    }
  }

  lemma ApproveGrounded(s: Logins, id: RequestId, h: Hash, grant: Grant, now: Time)
    requires Grounded(s) && Pending(s, id, now)
    ensures Grounded(Approve(s, id, h, grant, now)) && |Approve(s, id, h, grant, now).requests| == |s.requests|
  {
    var t := Approve(s, id, h, grant, now);
    assert t.requests.Keys == s.requests.Keys;
    forall x | x in t.byCode ensures HasHash(t, t.byCode[x], x) { if x != h { assert HasHash(s, s.byCode[x], x); } }
  }

  /** Burning a known code removes its request and nothing else. */
  lemma BurnRemoves(hash: HashCode, s: Logins, raw: string)
    requires Grounded(s) && Known(hash, s, raw)
    ensures s.byCode[hash(Normalize(raw))] in s.requests
    ensures Burn(hash, s, raw) == RemoveAll(s, {s.byCode[hash(Normalize(raw))]})
  {
    var h := hash(Normalize(raw));
    var id := s.byCode[h];
    assert HasHash(s, id, h);
    assert Hashes(s, {id}) == {h} && Hashes(s.(byCode := s.byCode - {h}), {id}) == {h};
  }

  lemma RegisterKeeps(s: Logins, r: Registration, id: RequestId, now: Time, t: Logins)
    requires Kept(s) && id !in s.requests && t == Register(s, r, id, now)
    ensures Kept(t) && (Indexed(s) ==> Indexed(t))
  {
    RemoveKeeps(s, Lapsed(s, now));
    var w := Sweep(s, now);
    if Registers(s, r, now) {
      assert |t.requests| == |w.requests| + 1;
      forall h | h in t.byCode ensures HasHash(t, t.byCode[h], h) { assert HasHash(w, w.byCode[h], h); }
    }
  }

  lemma ApprovedKeeps(env: Env, s: State, id: RequestId, bytes: seq<nat>, grant: Grant, now: Time)
    requires Inv(env, s)
    ensures Inv(env, Step(env, s, Approved(id, bytes, grant, now)))
  {
    RemoveKeeps(s.logins, {id});
    var h := env.hash(Letters(bytes));
    if Pending(s.logins, id, now) {
      ApproveGrounded(s.logins, id, h, grant, now);
    }
  }

  lemma ExchangedKeeps(env: Env, s: State, raw: string, verifier: string, now: Time)
    requires Inv(env, s)
    ensures Inv(env, Step(env, s, Exchanged(raw, verifier, now)))
  {
    if Known(env.hash, s.logins, raw) {
      BurnRemoves(env.hash, s.logins, raw);
      RemoveKeeps(s.logins, {s.logins.byCode[env.hash(Normalize(raw))]});
    }
  }

  lemma RegisteredKeeps(env: Env, s: State, r: Registration, id: RequestId, now: Time)
    requires Inv(env, s)
    ensures Inv(env, Step(env, s, Registered(r, id, now)))
  {
    if id !in s.used { RegisterKeeps(s.logins, r, id, now, Register(s.logins, r, id, now)); }
  }

  lemma FailedKeeps(env: Env, s: State, id: RequestId, now: Time)
    requires Inv(env, s)
    ensures Inv(env, Step(env, s, Event.Failed(id, now)))
  {
    RemoveKeeps(s.logins, {id});
  }

  lemma CancelledKeeps(env: Env, s: State, id: RequestId, now: Time)
    requires Inv(env, s)
    ensures Inv(env, Step(env, s, Cancelled(id, now)))
  {
    RemoveKeeps(s.logins, {id});
  }

  lemma StepKeeps(env: Env, s: State, e: Event)
    requires Inv(env, s)
    ensures Inv(env, Step(env, s, e))
  {
    match e {
      case Registered(r, id, now) => RegisteredKeeps(env, s, r, id, now);
      case Approved(id, bytes, grant, now) => ApprovedKeeps(env, s, id, bytes, grant, now);
      case Failed(id, now) => FailedKeeps(env, s, id, now);
      case Cancelled(id, now) => CancelledKeeps(env, s, id, now);
      case Exchanged(raw, verifier, now) => ExchangedKeeps(env, s, raw, verifier, now);
    }
  }

  lemma {:induction false} Always(env: Env, events: seq<Event>)
    ensures Inv(env, After(env, events)) && After(env, events).logins.max == env.max
    decreases |events|
  {
    if events != [] {
      var n := |events| - 1;
      Always(env, events[..n]);
      StepKeeps(env, After(env, events[..n]), events[n]);
    }
  }

  // ---------------------------------------------------------------- the store object

  lemma ApproveKept(s: Logins, id: RequestId, h: Hash, grant: Grant, now: Time)
    requires Kept(s)
    ensures Kept(Approve(s, id, h, grant, now))
    ensures Pending(s, id, now) && Indexed(s) ==> (Indexed(Approve(s, id, h, grant, now)) <==> h !in s.byCode)
  {
    RemoveKeeps(s, {id});
    if Pending(s, id, now) {
      ApproveGrounded(s, id, h, grant, now);
      if Indexed(s) { ApproveExact(s, id, h, grant, now); }
    }
  }

  lemma BurnKeeps(hash: HashCode, s: Logins, raw: string)
    requires Kept(s)
    ensures Kept(Burn(hash, s, raw)) && !Known(hash, Burn(hash, s, raw), raw)
    ensures Indexed(s) ==> Indexed(Burn(hash, s, raw))
  {
    if Known(hash, s, raw) {
      BurnRemoves(hash, s, raw);
      RemoveKeeps(s, {s.byCode[hash(Normalize(raw))]});
    }
  }

  class NativeLoginStore {
    const ttl: nat
    const max: nat
    var requests: map<RequestId, Request>
    var byCode: map<Hash, RequestId>

    ghost function View(): Logins
      reads this
    {
      Logins(ttl, max, requests, byCode)
    }

    ghost predicate Valid()
      reads this
    {
      Kept(View())
    }

    constructor (ttl: nat, max: nat)
      requires ttl > 0 && max > 0
      ensures Valid() && View() == Logins(ttl, max, map[], map[])
    {
      this.ttl, this.max := ttl, max;
      requests, byCode := map[], map[];
    }

    method Remove(id: RequestId)
      requires id in requests
      modifies this
      ensures View() == RemoveAll(old(View()), {id})
    {
      var request := requests[id];
      requests := requests - {id};
      if request.approval.Some? { byCode := byCode - {request.approval.value.codeHash}; }
      assert Hashes(old(View()), {id}) == if request.approval.Some? then {request.approval.value.codeHash} else {};
    }

    method SweepExpired(now: Time)
      modifies this
      ensures View() == Sweep(old(View()), now)
    {
      var left := requests.Keys;
      ghost var was := View();
      ghost var done: set<RequestId> := {};
      RemoveNone(was);
      while left != {}
        invariant left <= was.requests.Keys && done <= Lapsed(was, now) && done !! left
        invariant View() == RemoveAll(was, done)
        invariant forall id :: id in Lapsed(was, now) ==> id in left || id in done
      {
        var id :| id in left;
        left := left - {id};
        if requests[id].expires <= now {
          RemoveNext(was, done, id);
          Remove(id);
          done := done + {id};
        }
      }
      assert done == Lapsed(was, now);
    }

    /** `id` is the newly generated token. */
    method RegisterRequest(r: Registration, id: RequestId, now: Time) returns (ok: bool)
      requires Valid() && id !in requests
      modifies this
      ensures Valid() && View() == Register(old(View()), r, id, now) && ok == Registers(old(View()), r, now)
    {
      ok := Enter(r, id, now);
      RegisterKeeps(old(View()), r, id, now, View());
    }

    method Enter(r: Registration, id: RequestId, now: Time) returns (ok: bool)
      modifies this
      ensures View() == Register(old(View()), r, id, now) && ok == Registers(old(View()), r, now)
    {
      if !ValidRegistration(r) { return false; }
      SweepExpired(now);
      if |requests| >= max { return false; }
      requests := requests[id := Request(r.challenge, r.redirect, now + ttl, None)];
      return true;
    }

    method Live(id: RequestId, now: Time) returns (request: Option<Request>)
      modifies this
      ensures View() == Touch(old(View()), id, now)
      ensures request.Some? <==> id in old(requests) && old(requests)[id].expires > now
      ensures request.Some? ==> request == Some(old(requests)[id])
    {
      if id !in requests { return None; }
      if requests[id].expires <= now {
        Remove(id);
        return None;
      }
      return Some(requests[id]);
    }

    method ApproveRequest(id: RequestId, h: Hash, grant: Grant, now: Time) returns (ok: bool)
      requires Valid()
      modifies this
      ensures Valid() && View() == Approve(old(View()), id, h, grant, now) && ok == Pending(old(View()), id, now)
      ensures ok && old(Indexed(View())) ==> (Indexed(View()) <==> h !in old(byCode))
    {
      ApproveKept(View(), id, h, grant, now);
      var request := Live(id, now);
      if request.None? || request.value.approval.Some? { return false; }
      requests := requests[id := request.value.(approval := Some(Approval(h, grant)))];
      byCode := byCode[h := id];
      return true;
    }

    method FailRequest(id: RequestId, now: Time)
      requires Valid()
      modifies this
      ensures Valid() && View() == Fail(old(View()), id, now)
      ensures old(Indexed(View())) ==> Indexed(View())
    {
      RemoveKeeps(View(), {id});
      var request := Live(id, now);
      if request.None? || request.value.approval.Some? || !request.value.redirect.Loopback? { return; }
      Remove(id);
    }

    method CancelRequest(id: RequestId, now: Time)
      requires Valid()
      modifies this
      ensures Valid() && View() == Cancel(old(View()), id, now)
      ensures old(Indexed(View())) ==> Indexed(View())
    {
      RemoveKeeps(View(), {id});
      var request := Live(id, now);
      if request.None? || request.value.approval.Some? { return; }
      Remove(id);
    }

    method ExchangeCode(hash: HashCode, s256: S256, raw: string, verifier: string, now: Time)
      returns (grant: Option<Grant>)
      requires Valid()
      modifies this
      ensures Valid() && View() == Burn(hash, old(View()), raw) && !Known(hash, View(), raw)
      ensures grant == Exchange(hash, s256, old(View()), raw, verifier, now)
    {
      BurnKeeps(hash, View(), raw);
      grant := Redeem(hash, s256, raw, verifier, now);
    }

    method Redeem(hash: HashCode, s256: S256, raw: string, verifier: string, now: Time) returns (grant: Option<Grant>)
      modifies this
      ensures View() == Burn(hash, old(View()), raw)
      ensures grant == Exchange(hash, s256, old(View()), raw, verifier, now)
    {
      var code := Normalize(raw);
      if |code| != CODE_GROUPS * CODE_GROUP_LENGTH { return None; }
      var h := hash(code);
      if h !in byCode { return None; }
      var id := byCode[h];
      byCode := byCode - {h};
      if id !in requests { return None; }
      var request := requests[id];
      Remove(id);
      if request.expires <= now || request.approval.None? { return None; }
      if !ValidVerifier(verifier) { return None; }
      if s256(verifier) != request.challenge { return None; }
      return Some(request.approval.value.grant);
    }

    /** One call; a token that was generated before is not generated again. */
    method Handle(env: Env, used: set<RequestId>, ghost s: State, e: Event)
      requires Valid() && View() == s.logins && requests.Keys <= used == s.used
      modifies this
      ensures Valid() && View() == Step(env, s, e).logins
    {
      match e {
        case Registered(r, id, now) => if id !in used { var _ := RegisterRequest(r, id, now); }
        case Approved(id, bytes, grant, now) =>
          if |bytes| == CODE_GROUPS * CODE_GROUP_LENGTH {
            var _ := ApproveRequest(id, env.hash(Letters(bytes)), grant, now);
          }
        case Failed(id, now) => FailRequest(id, now);
        case Cancelled(id, now) => CancelRequest(id, now);
        case Exchanged(raw, verifier, now) => var _ := ExchangeCode(env.hash, env.s256, raw, verifier, now);
      }
    }
  }

  lemma UsedGrows(env: Env, s: State, e: Event)
    ensures Step(env, s, e).used == if e.Registered? then s.used + {e.id} else s.used
  {
  }

  /** A store driven by any sequence of calls is in the state that the theorems below speak about. */
  method Drive(env: Env, events: seq<Event>) returns (store: NativeLoginStore)
    requires env.ttl > 0 && env.max > 0
    ensures fresh(store) && store.Valid() && store.View() == After(env, events).logins
  {
    store := new NativeLoginStore(env.ttl, env.max);
    var used: set<RequestId> := {};
    for i := 0 to |events|
      invariant fresh(store) && store.Valid() && store.View() == After(env, events[..i]).logins
      invariant used == After(env, events[..i]).used
    {
      assert events[..i + 1][..i] == events[..i];
      Always(env, events[..i]);
      UsedGrows(env, After(env, events[..i]), events[i]);
      store.Handle(env, used, After(env, events[..i]), events[i]);
      if events[i].Registered? { used := used + {events[i].id}; }
    }
    assert events[..|events|] == events;
  }

  // ---------------------------------------------------------------- main results

  /** What can be checked before an approval: the drawn code is not in use. */
  predicate FreshCode(env: Env, s: State, e: Event) {
    e.Approved? && |e.bytes| == CODE_GROUPS * CODE_GROUP_LENGTH && Pending(s.logins, e.id, e.now) ==>
      env.hash(Letters(e.bytes)) !in s.logins.byCode
  }

  lemma ApprovedExact(env: Env, s: State, id: RequestId, bytes: seq<nat>, grant: Grant, now: Time)
    requires Inv(env, s) && Indexed(s.logins)
    ensures var e := Approved(id, bytes, grant, now); Indexed(Step(env, s, e).logins) <==> FreshCode(env, s, e)
  {
    RemoveKeeps(s.logins, {id});
    ApproveKept(s.logins, id, env.hash(Letters(bytes)), grant, now);
  }

  lemma EndedIndexed(s: Logins, id: RequestId, now: Time)
    requires Kept(s) && Indexed(s)
    ensures Indexed(Fail(s, id, now)) && Indexed(Cancel(s, id, now))
  {
    RemoveKeeps(s, {id});
  }

  lemma OthersIndexed(env: Env, s: State, e: Event)
    requires Inv(env, s) && Indexed(s.logins) && !e.Approved?
    ensures Indexed(Step(env, s, e).logins)
  {
    match e {
      case Registered(r, id, now) =>
        if id !in s.used { RegisterKeeps(s.logins, r, id, now, Step(env, s, e).logins); }
      case Failed(id, now) => EndedIndexed(s.logins, id, now);
      case Cancelled(id, now) => EndedIndexed(s.logins, id, now);
      case Exchanged(raw, verifier, now) => BurnKeeps(env.hash, s.logins, raw);
    }
  }

  lemma StepExact(env: Env, s: State, e: Event)
    requires Inv(env, s) && Indexed(s.logins)
    ensures Indexed(Step(env, s, e).logins) <==> FreshCode(env, s, e)
  {
    if e.Approved? { ApprovedExact(env, s, e.id, e.bytes, e.grant, e.now); } else { OthersIndexed(env, s, e); }
  }

  ghost predicate FreshRun(env: Env, events: seq<Event>) {
    forall k :: 0 <= k < |events| ==> FreshCode(env, After(env, events[..k]), events[k])
  }

  lemma {:induction false} FreshPrefix(env: Env, events: seq<Event>, n: nat)
    requires FreshRun(env, events) && n <= |events|
    ensures FreshRun(env, events[..n])
  {
    forall k | 0 <= k < n ensures FreshCode(env, After(env, events[..n][..k]), events[..n][k]) {
      assert events[..n][..k] == events[..k];
      assert FreshCode(env, After(env, events[..k]), events[k]);
    }
  }

  lemma {:induction false} FreshRunsIndexed(env: Env, events: seq<Event>)
    requires FreshRun(env, events)
    ensures Indexed(After(env, events).logins)
    decreases |events|
  {
    if events != [] {
      var n := |events| - 1;
      FreshPrefix(env, events, n);
      FreshRunsIndexed(env, events[..n]);
      Always(env, events[..n]);
      assert FreshCode(env, After(env, events[..n]), events[n]);
      StepExact(env, After(env, events[..n]), events[n]);
    }
  }

  /**
   Over any calls: codes lead to approved requests within the cap. Codes and approved requests are in bijection all
   along exactly when every approval drew a code that was not in use.
   */
  lemma {:induction false} CodesAndApprovalsBiject(env: Env, events: seq<Event>)
    ensures Grounded(After(env, events).logins) && |After(env, events).logins.requests| <= env.max
    ensures (forall k :: 0 <= k <= |events| ==> Indexed(After(env, events[..k]).logins)) <==> FreshRun(env, events)
  {
    Always(env, events);
    if FreshRun(env, events) {
      forall k | 0 <= k <= |events| ensures Indexed(After(env, events[..k]).logins) {
        FreshPrefix(env, events, k);
        FreshRunsIndexed(env, events[..k]);
      }
    } else if forall k :: 0 <= k <= |events| ==> Indexed(After(env, events[..k]).logins) {
      forall k | 0 <= k < |events| ensures FreshCode(env, After(env, events[..k]), events[k]) {
        assert Indexed(After(env, events[..k]).logins) && Indexed(After(env, events[..k + 1]).logins);
        assert events[..k + 1][..k] == events[..k];
        Always(env, events[..k]);
        StepExact(env, After(env, events[..k]), events[k]);
      }
    }
  }

  /** A request yields its grant at most once, before its expiry and to a verifier that matches its challenge. */
  lemma {:induction false} GrantedOnceAndFairly(env: Env, events: seq<Event>, i: nat, j: nat)
    requires i < |After(env, events).handouts| && j < |After(env, events).handouts|
    ensures Fair(env, After(env, events).handouts[i])
    ensures i != j ==> After(env, events).handouts[i].id != After(env, events).handouts[j].id
  {
    Always(env, events);
  }

  /** Any attempt with a known code, right or wrong, burns it: the code and its request are gone. */
  lemma {:induction false} KnownCodeBurns(env: Env, events: seq<Event>, raw: string)
    requires Known(env.hash, After(env, events).logins, raw)
    ensures var s := After(env, events).logins;
            var t := Burn(env.hash, s, raw);
            && !Known(env.hash, t, raw) && s.byCode[env.hash(Normalize(raw))] !in t.requests
            && (forall id :: id in s.requests && id != s.byCode[env.hash(Normalize(raw))] ==>
                id in t.requests && t.requests[id] == s.requests[id])
  {
    Always(env, events);
    var s := After(env, events).logins;
    BurnRemoves(env.hash, s, raw);
    assert HasHash(s, s.byCode[env.hash(Normalize(raw))], env.hash(Normalize(raw)));
    assert env.hash(Normalize(raw)) in Hashes(s, {s.byCode[env.hash(Normalize(raw))]});
  }

  /** The request was approved under this code, has not expired and carries the verifier's challenge. */
  predicate Redeems(env: Env, r: Request, raw: string, verifier: string, now: Time, g: Grant) {
    && r.expires > now && r.challenge == env.s256(verifier)
    && r.approval == Some(Approval(env.hash(Normalize(raw)), g))
  }

  /**
   With fresh codes an exchange grants exactly when some live request was approved under this code, has not expired
   and carries the challenge of a well-formed verifier; the index never hides one.
   */
  lemma {:induction false} ExchangeExactly(
      env: Env, events: seq<Event>, raw: string, verifier: string, now: Time, g: Grant)
    requires FreshRun(env, events) && |Normalize(raw)| == CODE_GROUPS * CODE_GROUP_LENGTH
    ensures var s := After(env, events).logins;
            Exchange(env.hash, env.s256, s, raw, verifier, now) == Some(g)
            <==> ValidVerifier(verifier)
                 && exists id :: id in s.requests && Redeems(env, s.requests[id], raw, verifier, now, g)
  {
    Always(env, events);
    FreshRunsIndexed(env, events);
    var s := After(env, events).logins;
    var h := env.hash(Normalize(raw));
    if h in s.byCode { assert HasHash(s, s.byCode[h], h); }
  }

  /** The code shown for an approval, exchanged by the holder of the verifier in time, returns the approval's grant. */
  lemma ShownCodeRedeems(
      hash: HashCode, s256: S256, s: Logins, id: RequestId, bytes: seq<nat>, grant: Grant, at: Time, verifier: string,
      now: Time)
    requires Pending(s, id, at) && |bytes| == CODE_GROUPS * CODE_GROUP_LENGTH
    requires now < s.requests[id].expires && ValidVerifier(verifier) && s256(verifier) == s.requests[id].challenge
    ensures Exchange(hash, s256, Approve(s, id, hash(Letters(bytes)), grant, at), Grouped(Letters(bytes)), verifier,
        now) == Some(grant)
  {
    NormalizeGrouped(Letters(bytes));
  }

  // ---------------------------------------------------------------- the clash happens

  const SAMPLE: Registration := Registration("host", Paste, "AAAAAAAAAAAAAAAAAAAAAAAAAAAAAAAAAAAAAAAAAAA", STATE)
  const STATE: string := "AAAAAAAAAAAAAAAA"

  lemma StateIsValid()
    ensures |STATE| == 16 && forall i :: 0 <= i < |STATE| ==> UrlSafe(STATE[i])
  {
  }

  lemma SampleIsValid()
    ensures ValidRegistration(SAMPLE)
  {
    StateIsValid();
  }

  function Asked(env: Env, r: Registration): Request { Request(r.challenge, r.redirect, env.ttl, None) }

  lemma RegistersPlainly(env: Env, s: State, r: Registration, id: RequestId)
    requires ValidRegistration(r) && |s.logins.requests| < s.logins.max && id !in s.used
    requires forall x :: x in s.logins.requests ==> s.logins.requests[x].expires > 0
    ensures var asked := Request(r.challenge, r.redirect, s.logins.ttl, None);
            Step(env, s, Registered(r, id, 0))
            == s.(logins := s.logins.(requests := s.logins.requests[id := asked]), used := s.used + {id})
  {
    assert Lapsed(s.logins, 0) == {};
    RemoveNone(s.logins);
  }

  function Pair(env: Env, r: Registration): Logins {
    Logins(env.ttl, env.max, map[0 := Asked(env, r), 1 := Asked(env, r)], map[])
  }

  lemma OneRegistered(env: Env, r: Registration)
    requires env.ttl > 1 && env.max > 1 && ValidRegistration(r)
    ensures After(env, [Registered(r, 0, 0)])
         == State(Logins(env.ttl, env.max, map[0 := Asked(env, r)], map[]), {0}, [])
  {
    var none := State(Logins(env.ttl, env.max, map[], map[]), {}, []);
    assert After(env, []) == none && [Registered(r, 0, 0)][..0] == [];
    RegistersPlainly(env, none, r, 0);
  }

  lemma TwoRegistered(env: Env, r: Registration)
    requires env.ttl > 1 && env.max > 1 && ValidRegistration(r)
    ensures After(env, [Registered(r, 0, 0), Registered(r, 1, 0)]).logins == Pair(env, r)
  {
    var e0, e1 := Registered(r, 0, 0), Registered(r, 1, 0);
    OneRegistered(env, r);
    var one := State(Logins(env.ttl, env.max, map[0 := Asked(env, r)], map[]), {0}, []);
    RegistersPlainly(env, one, r, 1);
    assert After(env, [e0, e1]) == Step(env, one, e1) by { assert [e0, e1][..1] == [e0]; }
  }

  /** Two requests approved under the same code, whatever it is: the first is no longer found by it. */
  lemma SameCodeClashes(env: Env, bytes: seq<nat>)
    requires env.ttl > 1 && env.max > 1 && |bytes| == CODE_GROUPS * CODE_GROUP_LENGTH
    ensures !Indexed(After(env, [Registered(SAMPLE, 0, 0), Registered(SAMPLE, 1, 0),
                                 Approved(0, bytes, 7, 1), Approved(1, bytes, 8, 1)]).logins)
  {
    SampleIsValid();
    SameCodeBreaks(env, SAMPLE, bytes);
  }

  lemma SameCodeBreaks(env: Env, r: Registration, bytes: seq<nat>)
    requires env.ttl > 1 && env.max > 1 && |bytes| == CODE_GROUPS * CODE_GROUP_LENGTH && ValidRegistration(r)
    ensures !Indexed(After(env, [Registered(r, 0, 0), Registered(r, 1, 0),
                                 Approved(0, bytes, 7, 1), Approved(1, bytes, 8, 1)]).logins)
  {
    var e0, e1, e2, e3 := Registered(r, 0, 0), Registered(r, 1, 0), Approved(0, bytes, 7, 1), Approved(1, bytes, 8, 1);
    TwoRegistered(env, r);
    assert [e0, e1, e2, e3][..3] == [e0, e1, e2] && [e0, e1, e2][..2] == [e0, e1];
    var h := env.hash(Letters(bytes));
    var two := After(env, [e0, e1]).logins;
    var three := After(env, [e0, e1, e2]).logins;
    assert three == Approve(two, 0, h, 7, 1) && Pending(two, 0, 1) && Pending(three, 1, 1);
    var four := After(env, [e0, e1, e2, e3]).logins;
    assert four == Approve(three, 1, h, 8, 1);
    assert four.requests[0].approval == Some(Approval(h, 7)) && four.byCode[h] == 1;
  }
}
