/**
 Merging a settings patch into stored credentials. The map of keys lives encrypted in one column; a JavaScript object
 holds it meanwhile, and reading a name from it also finds what it inherits. Keys in a patch are trimmed already.
 */
module Credentials {
  import opened Store

  type ProviderId = string
  type CredentialMap = map<ProviderId, string>

  /** The names every plain object inherits. */
  const INHERITED: set<ProviderId> := {
    "constructor", "hasOwnProperty", "isPrototypeOf", "propertyIsEnumerable", "toLocaleString", "toString", "valueOf",
    "__proto__", "__defineGetter__", "__defineSetter__", "__lookupGetter__", "__lookupSetter__"}

  /** A plain object: its own entries, and whether its prototype was replaced by a credential. */
  datatype Object = Object(own: CredentialMap, swapped: bool)

  predicate Truthy(o: Object, id: ProviderId) {
    id in o.own || id in INHERITED || (o.swapped && (id == "type" || id == "key"))
  }

  function Assign(o: Object, id: ProviderId, key: string): Object {
    if id == "__proto__" then o.(swapped := true) else o.(own := o.own[id := key])
  }

  function Delete(o: Object, id: ProviderId): Object { o.(own := o.own - {id}) }

  // ---------------------------------------------------------------- stored form

  datatype Cipher = Blank | Sealed(box: nat)

  /** What decryption makes of a sealed box; None when the key is gone or the text was altered. */
  type Opener = nat -> Option<CredentialMap>

  /** Encryption with the current key; None when no key is configured. */
  type Sealer = CredentialMap -> Option<nat>

  datatype Decrypted = Decrypted(content: CredentialMap, error: bool)

  /** Parsing the plaintext assigns each entry to a plain object, so an entry named __proto__ is lost. */
  function Decrypt(open: Opener, c: Cipher): Decrypted {
    if c.Blank? then Decrypted(map[], false)
    else match open(c.box)
      case None => Decrypted(map[], true)
      case Some(content) => Decrypted(content - {"__proto__"}, false)
  }

  datatype Record = Record(customs: seq<ProviderId>, ids: seq<ProviderId>, cipher: Cipher, revision: nat)

  datatype Entry = Entry(id: ProviderId, key: string)

  /** The entries of an object have different names. */
  datatype Patch = Patch(customs: Option<seq<ProviderId>>, credentials: seq<Entry>)

  ghost predicate Valid(p: Patch) {
    forall i, j :: 0 <= i < j < |p.credentials| ==> p.credentials[i].id != p.credentials[j].id
  }

  function Before(previous: Option<Record>, open: Opener): Decrypted {
    if previous.Some? then Decrypt(open, previous.value.cipher) else Decrypted(map[], false)
  }

  function OldCustoms(
      previous: Option<Record>): seq<ProviderId> { if previous.Some? then previous.value.customs else [] }

  function NewCustoms(previous: Option<Record>, p: Patch): seq<ProviderId> {
    if p.customs.Some? then p.customs.value else OldCustoms(previous)
  }

  // ---------------------------------------------------------------- the plain-map meaning of a patch

  function Sets(es: seq<Entry>): set<ProviderId> { set e | e in es && e.key != "" :: e.id }
  function Clears(es: seq<Entry>): set<ProviderId> { set e | e in es && e.key == "" :: e.id }

  /** Set, clear or leave each id. */
  function Edited(m: CredentialMap, es: seq<Entry>): CredentialMap {
    if es == [] then m
    else
      var e := es[|es| - 1];
      var before := Edited(m, es[..|es| - 1]);
      if e.key == "" then before - {e.id} else before[e.id := e.key]
  }

  /** Custom providers that are gone take their key with them. */
  function DroppedIds(was: seq<ProviderId>, now: seq<ProviderId>): set<ProviderId> { set id | id in was && id !in now }

  function Target(m: CredentialMap, es: seq<Entry>, was: seq<ProviderId>, now: seq<ProviderId>): CredentialMap {
    Edited(m, es) - DroppedIds(was, now)
  }

  /** When the merge believes that some credential changed. */
  ghost predicate Changed(m: CredentialMap, es: seq<Entry>, was: seq<ProviderId>, now: seq<ProviderId>) {
    || Sets(es) != {}
    || (exists id :: id in Clears(es) && (id in m || id in INHERITED))
    || (exists id :: id in DroppedIds(was, now) && (id in Edited(m, es) || id in INHERITED))
  }

  // ---------------------------------------------------------------- sorted id lists

  predicate Less(a: string, b: string) {
    b != "" && (a == "" || a[0] < b[0] || (a[0] == b[0] && Less(a[1..], b[1..])))
  }

  ghost predicate Increasing(ids: seq<ProviderId>) { forall i, j :: 0 <= i < j < |ids| ==> Less(ids[i], ids[j]) }

  ghost predicate SortedKeys(ids: seq<ProviderId>, keys: set<ProviderId>) {
    Increasing(ids) && forall id :: id in ids <==> id in keys
  }

  lemma {:induction false} LessTrans(a: string, b: string, c: string)
    requires Less(a, b) && Less(b, c)
    ensures Less(a, c)
    decreases |a|
  {
    if a != "" && a[0] == b[0] == c[0] { LessTrans(a[1..], b[1..], c[1..]); }
  }

  lemma {:induction false} LessTotal(a: string, b: string)
    ensures a == b || Less(a, b) || Less(b, a)
    decreases |a|
  {
    if a != "" && b != "" && a[0] == b[0] {
      LessTotal(a[1..], b[1..]);
      assert a == [a[0]] + a[1..] && b == [b[0]] + b[1..];
    }
  }

  function Insert(ids: seq<ProviderId>, x: ProviderId): seq<ProviderId> {
    if ids == [] then [x] else if Less(x, ids[0]) then [x] + ids else [ids[0]] + Insert(ids[1..], x)
  }

  lemma {:induction false} InsertKeeps(ids: seq<ProviderId>, x: ProviderId)
    requires Increasing(ids) && x !in ids
    ensures Increasing(Insert(ids, x)) && forall id :: id in Insert(ids, x) <==> id in ids || id == x
    decreases |ids|
  {
    if ids != [] {
      LessTotal(x, ids[0]);
      if Less(x, ids[0]) {
        forall i | 0 <= i < |ids| ensures Less(x, ids[i]) { if i > 0 { LessTrans(x, ids[0], ids[i]); } }
      } else {
        InsertKeeps(ids[1..], x);
        var r := Insert(ids[1..], x);
        assert ids == [ids[0]] + ids[1..];
        forall i | 0 <= i < |r| ensures Less(ids[0], r[i]) { assert r[i] in r; }
      }
    }
  }

  method SortKeys(keys: set<ProviderId>) returns (ids: seq<ProviderId>)
    ensures SortedKeys(ids, keys)
  {
    ids := [];
    var left := keys;
    while left != {}
      invariant left <= keys && SortedKeys(ids, keys - left)
    {
      var x :| x in left;
      InsertKeeps(ids, x);
      ids := Insert(ids, x);
      left := left - {x};
    }
  }

  // ---------------------------------------------------------------- the merge

  /** The credentials after the merge: the plain-map result without an entry named __proto__. */
  function Content(open: Opener, previous: Option<Record>, p: Patch): CredentialMap {
    Target(Before(previous, open).content, p.credentials, OldCustoms(previous), NewCustoms(previous, p)) - {"__proto__"}
  }

  ghost predicate Touches(open: Opener, previous: Option<Record>, p: Patch) {
    Changed(Before(previous, open).content, p.credentials, OldCustoms(previous), NewCustoms(previous, p))
  }

  /** The two columns that hold credentials. */
  ghost predicate Stores(open: Opener, content: CredentialMap, ids: seq<ProviderId>, cipher: Cipher) {
    && SortedKeys(ids, content.Keys)
    && (if content == map[] then cipher == Blank else cipher.Sealed? && open(cipher.box) == Some(content))
  }

  /** What a successful merge writes. */
  ghost predicate Merges(open: Opener, previous: Option<Record>, p: Patch, r: Record, warned: bool) {
    && r.customs == NewCustoms(previous, p)
    && r.revision == (if previous.Some? then previous.value.revision else 0) + 1
    && (warned <==> Before(previous, open).error && Touches(open, previous, p))
    && (if previous.Some? && !Touches(open, previous, p)
        then r.cipher == previous.value.cipher && r.ids == previous.value.ids
        else Stores(open, Content(open, previous, p), r.ids, r.cipher))
  }

  /** The first loop's state after the entries of `es`. */
  ghost predicate Edits(o: Object, changed: bool, m: CredentialMap, es: seq<Entry>) {
    && o.own == Edited(m, es) - {"__proto__"}
    && (changed <==> Sets(es) != {} || exists id :: id in Clears(es) && (id in m || id in INHERITED))
    && (o.swapped ==> changed)
  }

  lemma {:induction false} EditedElsewhere(m: CredentialMap, es: seq<Entry>, id: ProviderId)
    requires forall i :: 0 <= i < |es| ==> es[i].id != id
    ensures id in Edited(m, es) <==> id in m
    decreases |es|
  {
    if es != [] { EditedElsewhere(m, es[..|es| - 1], id); }
  }

  lemma EntriesGrow(es: seq<Entry>, e: Entry)
    ensures Sets(es + [e]) == if e.key == "" then Sets(es) else Sets(es) + {e.id}
    ensures Clears(es + [e]) == if e.key == "" then Clears(es) + {e.id} else Clears(es)
  {
    assert forall x :: x in es + [e] <==> x in es || x == e;
  }

  lemma EditsNext(o: Object, changed: bool, m: CredentialMap, es: seq<Entry>, e: Entry)
    requires Edits(o, changed, m, es) && "__proto__" !in m && forall i :: 0 <= i < |es| ==> es[i].id != e.id
    ensures e.key == "" ==> Edits(Delete(o, e.id), changed || Truthy(o, e.id), m, es + [e])
    ensures e.key != "" ==> Edits(Assign(o, e.id, e.key), true, m, es + [e])
  {
    assert (es + [e])[..|es|] == es;
    if e.key == "" { ClearsNext(o, changed, m, es, e); } else { SetsNext(o, m, es, e); }
  }

  lemma ClearsNext(o: Object, changed: bool, m: CredentialMap, es: seq<Entry>, e: Entry)
    requires Edits(o, changed, m, es) && (forall i :: 0 <= i < |es| ==> es[i].id != e.id) && e.key == ""
    requires "__proto__" !in m && (es + [e])[..|es|] == es
    ensures Edits(Delete(o, e.id), changed || Truthy(o, e.id), m, es + [e])
  {
    EntriesGrow(es, e);
    EditedElsewhere(m, es, e.id);
    assert Delete(o, e.id).own == Edited(m, es + [e]) - {"__proto__"};
  }

  lemma SetsNext(o: Object, m: CredentialMap, es: seq<Entry>, e: Entry)
    requires o.own == Edited(m, es) - {"__proto__"} && e.key != "" && (es + [e])[..|es|] == es
    ensures Edits(Assign(o, e.id, e.key), true, m, es + [e])
  {
    EntriesGrow(es, e);
    assert e.id in Sets(es + [e]);
    AssignForgets(o, Edited(m, es), e);
  }

  lemma AssignForgets(o: Object, m: CredentialMap, e: Entry)
    requires o.own == m - {"__proto__"}
    ensures Assign(o, e.id, e.key).own == m[e.id := e.key] - {"__proto__"}
  {
  }

  /** Fails exactly when there is something to encrypt and no key to do it with. */
  method MergeSettings(open: Opener, seal: Sealer, previous: Option<Record>, p: Patch)
    returns (r: Option<Record>, warned: bool)
    requires Valid(p)
    requires forall m :: seal(m).Some? ==> open(seal(m).value) == Some(m)
    ensures r.Some? ==> Merges(open, previous, p, r.value, warned)
    ensures r.None?
       <==> && (previous.None? || Touches(open, previous, p))
            && Content(open, previous, p) != map[] && seal(Content(open, previous, p)).None?
  {
    var o, changed := MergeCredentials(open, previous, p);
    warned := Before(previous, open).error && changed;
    var revision := (if previous.Some? then previous.value.revision else 0) + 1;
    if previous.Some? && !changed {
      return Some(Record(NewCustoms(previous, p), previous.value.ids, previous.value.cipher, revision)), warned;
    }
    var ids := SortKeys(o.Keys);
    if o == map[] { return Some(Record(NewCustoms(previous, p), ids, Blank, revision)), warned; }
    var box := seal(o);
    if box.None? { return None, warned; }
    r := Some(Record(NewCustoms(previous, p), ids, Sealed(box.value), revision));
  }

  method MergeCredentials(open: Opener, previous: Option<Record>, p: Patch) returns (own: CredentialMap, changed: bool)
    requires Valid(p)
    ensures own == Content(open, previous, p) && (changed <==> Touches(open, previous, p))
  {
    var m := Before(previous, open).content;
    var o, touched := ApplyEntries(m, p.credentials);
    var was, now := OldCustoms(previous), NewCustoms(previous, p);
    var left, more := DropCustoms(o, touched, was, now);
    assert left.own == Content(open, previous, p);
    return left.own, more;
  }

  method ApplyEntries(m: CredentialMap, es: seq<Entry>) returns (o: Object, changed: bool)
    requires "__proto__" !in m && forall i, j :: 0 <= i < j < |es| ==> es[i].id != es[j].id
    ensures Edits(o, changed, m, es)
  {
    o, changed := Object(m, false), false;
    var i := 0;
    assert m - {"__proto__"} == m;
    while i < |es|
      invariant i <= |es| && Edits(o, changed, m, es[..i])
    {
      var e := es[i];
      assert es[..i + 1] == es[..i] + [e];
      EditsNext(o, changed, m, es[..i], e);
      if e.key == "" {
        if Truthy(o, e.id) { changed := true; }
        o := Delete(o, e.id);
      } else {
        o := Assign(o, e.id, e.key);
        changed := true;
      }
      i := i + 1;
    }
    assert es[..i] == es;
  }

  method DropCustoms(before: Object, touched: bool, was: seq<ProviderId>, now: seq<ProviderId>)
    returns (o: Object, changed: bool)
    requires before.swapped ==> touched
    ensures o.own == before.own - DroppedIds(was, now)
    ensures changed <==> touched || exists id :: id in DroppedIds(was, now) && (id in before.own || id in INHERITED)
  {
    o, changed := before, touched;
    var i := 0;
    assert before.own - DroppedIds([], now) == before.own;
    while i < |was|
      invariant i <= |was| && o.own == before.own - DroppedIds(was[..i], now) && o.swapped == before.swapped
      invariant changed
         <==> touched || exists id :: id in DroppedIds(was[..i], now) && (id in before.own || id in INHERITED)
    {
      var id := was[i];
      DroppedGrow(was[..i], id, now);
      assert was[..i + 1] == was[..i] + [id];
      if id !in now && Truthy(o, id) {
        o := Delete(o, id);
        changed := true;
        assert id in DroppedIds(was[..i + 1], now);
      }
      i := i + 1;
    }
    assert was[..i] == was;
  }

  lemma DroppedGrow(was: seq<ProviderId>, id: ProviderId, now: seq<ProviderId>)
    ensures DroppedIds(was + [id], now) == if id in now then DroppedIds(was, now) else DroppedIds(was, now) + {id}
  {
    assert forall x :: x in was + [id] <==> x in was || x == id;
  }

  // ---------------------------------------------------------------- main results

  /** What a record's credentials are. */
  function Held(open: Opener, r: Option<Record>): CredentialMap { Before(r, open).content }

  /** If nothing is believed to have changed, nothing has. */
  lemma {:induction false} EditedUntouched(m: CredentialMap, es: seq<Entry>)
    requires Sets(es) == {} && forall id :: id in Clears(es) ==> id !in m
    ensures Edited(m, es) == m
    decreases |es|
  {
    if es != [] {
      var n := |es| - 1;
      EntriesGrow(es[..n], es[n]);
      assert es == es[..n] + [es[n]];
      EditedUntouched(m, es[..n]);
      assert m - {es[n].id} == m;
    }
  }

  lemma UntouchedIsSame(open: Opener, previous: Option<Record>, p: Patch)
    requires !Touches(open, previous, p)
    ensures Content(open, previous, p) == Held(open, previous)
  {
    var m := Held(open, previous);
    EditedUntouched(m, p.credentials);
    assert m - DroppedIds(OldCustoms(previous), NewCustoms(previous, p)) == m;
    assert m - {"__proto__"} == m;
  }

  /** One merge on readable credentials holds exactly the plain-map result, and lists its keys in order. */
  lemma MergeRefinesMap(open: Opener, previous: Option<Record>, p: Patch, r: Record, warned: bool)
    requires Merges(open, previous, p, r, warned)
    requires previous.Some? ==> SortedKeys(previous.value.ids, Held(open, previous).Keys)
    ensures Held(open, Some(r)) == Content(open, previous, p) && SortedKeys(r.ids, Held(open, Some(r)).Keys)
    ensures !Before(previous, open).error ==> !Before(Some(r), open).error
  {
    if previous.Some? && !Touches(open, previous, p) {
      UntouchedIsSame(open, previous, p);
    } else {
      assert Content(open, previous, p) - {"__proto__"} == Content(open, previous, p);
    }
  }

  /** A plain map and the custom providers, folded over the patches. */
  datatype Model = Model(customs: seq<ProviderId>, keys: CredentialMap)

  function Fold(patches: seq<Patch>): Model {
    if patches == [] then Model([], map[])
    else
      var before := Fold(patches[..|patches| - 1]);
      var p := patches[|patches| - 1];
      var now := if p.customs.Some? then p.customs.value else before.customs;
      Model(now, Target(before.keys, p.credentials, before.customs, now))
  }

  /** The records left by merging the patches one after another. */
  ghost predicate Saved(open: Opener, patches: seq<Patch>, records: seq<Record>) {
    |records| == |patches| && forall i :: 0 <= i < |patches| ==> SavedAt(open, patches[i], records, i)
  }

  ghost predicate SavedAt(open: Opener, p: Patch, records: seq<Record>, i: nat)
    requires i < |records|
  {
    exists warned :: Merges(open, Nth(records, i), p, records[i], warned)
  }

  /** The record before patch i. */
  function Nth(records: seq<Record>, i: nat): Option<Record>
    requires i <= |records|
  {
    if i == 0 then None else Some(records[i - 1])
  }

  lemma {:induction false} EditedForgets(m: CredentialMap, es: seq<Entry>)
    ensures Edited(m - {"__proto__"}, es) - {"__proto__"} == Edited(m, es) - {"__proto__"}
    decreases |es|
  {
    if es != [] {
      var n := |es| - 1;
      EditedForgets(m, es[..n]);
      var a, b, e := Edited(m - {"__proto__"}, es[..n]), Edited(m, es[..n]), es[n];
      assert a - {"__proto__"} == b - {"__proto__"};
      forall id | id != "__proto__" ensures (id in a <==> id in b) && (id in a ==> a[id] == b[id]) {
        assert id in a <==> id in a - {"__proto__"};
        assert id in b <==> id in b - {"__proto__"};
      }
      assert Edited(m - {"__proto__"}, es) - {"__proto__"} == Edited(m, es) - {"__proto__"};
    }
  }

  lemma TargetForgets(m: CredentialMap, es: seq<Entry>, was: seq<ProviderId>, now: seq<ProviderId>)
    ensures Target(m - {"__proto__"}, es, was, now) - {"__proto__"} == Target(m, es, was, now) - {"__proto__"}
  {
    EditedForgets(m, es);
    var a, b, gone := Edited(m - {"__proto__"}, es), Edited(m, es), DroppedIds(was, now);
    assert (a - gone) - {"__proto__"} == (a - {"__proto__"}) - gone;
    assert (b - gone) - {"__proto__"} == (b - {"__proto__"}) - gone;
  }

  lemma {:induction false} SavedPrefix(open: Opener, patches: seq<Patch>, records: seq<Record>, n: nat)
    requires Saved(open, patches, records) && n <= |patches|
    ensures Saved(open, patches[..n], records[..n])
  {
    forall i | 0 <= i < n ensures SavedAt(open, patches[..n][i], records[..n], i) {
      assert SavedAt(open, patches[i], records, i);
      assert Nth(records[..n], i) == Nth(records, i);
    }
  }

  /** A record that stands for a model. */
  ghost predicate StandsFor(open: Opener, r: Option<Record>, m: Model) {
    && Held(open, r) == m.keys - {"__proto__"} && OldCustoms(r) == m.customs && !Before(r, open).error
    && (r.Some? ==> SortedKeys(r.value.ids, Held(open, r).Keys))
  }

  lemma MergeStandsFor(open: Opener, previous: Option<Record>, p: Patch, r: Record, warned: bool, m: Model)
    requires StandsFor(open, previous, m) && Merges(open, previous, p, r, warned)
    ensures var now := if p.customs.Some? then p.customs.value else m.customs;
            StandsFor(open, Some(r), Model(now, Target(m.keys, p.credentials, m.customs, now)))
  {
    MergeRefinesMap(open, previous, p, r, warned);
    TargetForgets(m.keys, p.credentials, OldCustoms(previous), NewCustoms(previous, p));
  }

  /**
   For any sequence of patches the decrypted credentials are the fold of set, clear and drop-removed-custom over a
   plain map, except that a provider named __proto__ never keeps a key; the stored list is the sorted key set.
   */
  lemma {:induction false} MergesRefineFold(open: Opener, patches: seq<Patch>, records: seq<Record>)
    requires Saved(open, patches, records)
    ensures StandsFor(open, Nth(records, |records|), Fold(patches))
    decreases |patches|
  {
    if patches != [] {
      var n := |patches| - 1;
      SavedPrefix(open, patches, records, n);
      MergesRefineFold(open, patches[..n], records[..n]);
      assert Nth(records[..n], n) == Nth(records, n);
      assert SavedAt(open, patches[n], records, n);
      var warned :| Merges(open, Nth(records, n), patches[n], records[n], warned);
      MergeStandsFor(open, Nth(records, n), patches[n], records[n], warned, Fold(patches[..n]));
    } else {
      assert Fold(patches).keys - {"__proto__"} == map[];
    }
  }

  /** The decrypted credentials are the plain fold exactly when the fold holds no key under the name __proto__. */
  lemma {:induction false} FoldExactly(open: Opener, patches: seq<Patch>, records: seq<Record>)
    requires Saved(open, patches, records)
    ensures Held(open, Nth(records, |records|)) == Fold(patches).keys <==> "__proto__" !in Fold(patches).keys
  {
    MergesRefineFold(open, patches, records);
    var keys := Fold(patches).keys;
    if "__proto__" !in keys { assert keys - {"__proto__"} == keys; }
    else { assert "__proto__" !in keys - {"__proto__"}; }
  }

  /** The failing input of the merge itself: a patch that sets a key for a provider named __proto__ stores nothing. */
  lemma ProtoKeyIsLost(open: Opener, r: Record, warned: bool)
    requires Merges(open, None, Patch(None, [Entry("__proto__", "k")]), r, warned)
    ensures r.cipher == Blank && Held(open, Some(r)) == map[]
    ensures Fold([Patch(None, [Entry("__proto__", "k")])]).keys == map["__proto__" := "k"]
  {
    var es := [Entry("__proto__", "k")];
    var p := Patch(None, es);
    assert es[..0] == [] && [p][..0] == [];
    assert Edited(map[], es) == map["__proto__" := "k"];
    assert DroppedIds([], []) == {};
    assert Target(map[], es, [], []) == map["__proto__" := "k"];
    assert Content(open, None, p) == map[];
  }

  /** A patch leaves every credential alone: it sets nothing, and clears or drops only names that are not inherited. */
  ghost predicate Harmless(previous: Record, p: Patch) {
    && Sets(p.credentials) == {}
    && Clears(p.credentials) !! INHERITED
    && DroppedIds(previous.customs, NewCustoms(Some(previous), p)) !! INHERITED
  }

  /** A ciphertext that cannot be read survives a merge byte for byte exactly when the patch is harmless. */
  lemma UnreadableSurvivesExactly(open: Opener, previous: Record, p: Patch, r: Record, warned: bool)
    requires previous.cipher.Sealed? && open(previous.cipher.box).None? && Merges(open, Some(previous), p, r, warned)
    ensures r.cipher == previous.cipher <==> Harmless(previous, p)
    ensures !Harmless(previous, p) <==> warned
  {
    if Sets(p.credentials) == {} { EditedUntouched(map[], p.credentials); }
  }

  /** Clearing a provider named constructor, which was never stored, loses an unreadable ciphertext. */
  lemma InheritedNameLosesCiphertext(open: Opener, r: Record, warned: bool)
    requires open(0).None?
    requires Merges(open, Some(Record([], ["openai"], Sealed(0), 1)), Patch(None, [Entry("constructor", "")]), r,
        warned)
    ensures r.cipher == Blank && warned
  {
    var es := [Entry("constructor", "")];
    assert es[0] in es;
    assert "constructor" in Clears(es) && "constructor" in INHERITED;
    assert Edited(map[], es) == map[];
    assert Content(open, Some(Record([], ["openai"], Sealed(0), 1)), Patch(None, es)) == map[];
  }
}
