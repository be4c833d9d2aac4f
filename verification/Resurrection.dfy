/** Handlers and removals racing over one task: once its removal is announced, it is never shown again. */
module Resurrection {
  import opened Store
  import opened TaskGuards

  /**
   A handler in flight for one task. `seen` says that its last statement hit the task's row with the right owner.
   The guarded ones are catalog, resync, sessionStarted, sessionExit, report, taskCreate, terminalCreate and
   terminalNew; locateAgentWorkspace, forgetAgentWorkspace and the account interface show a task without a guard.
   */
  datatype Handler = Handler(task: TaskId, account: AccountId, daemon: DaemonId, guarded: bool, seen: bool)

  /** A removal whose deletion has committed. */
  datatype Removal = Removal(tasks: set<TaskId>, account: AccountId, daemon: DaemonId, retired: bool)

  datatype Shown = Updated(task: TaskId) | Removed(task: TaskId)

  /** `rows` is the table; `owners` remembers every task id ever inserted. A handler's number is also its guard. */
  datatype State = State(
    rows: set<TaskId>, owners: map<TaskId, (AccountId, DaemonId)>, effects: Effects,
    handlers: map<GuardId, Handler>, used: set<GuardId>, removals: map<nat, Removal>,
    retired: set<TaskId>, shown: seq<Shown>)

  const EMPTY: State := State({}, map[], Effects(map[], {}, map[]), map[], {}, map[], {}, [])

  datatype Event =
    | Enter(handler: GuardId, task: TaskId, account: AccountId, daemon: DaemonId, guarded: bool)
    /** INSERT of a new task by the handler that made up its id. */
    | InsertRow(handler: GuardId)
    /** A SELECT or a conditional UPDATE ... RETURNING; `hit` is whether its other conditions held. */
    | TouchRow(handler: GuardId, hit: bool)
    /** The last segment: look at the guard, then install or drop a runtime and broadcast. */
    | Finish(handler: GuardId, install: Option<SessionId>, drop: Option<SessionId>, emit: bool)
    | CommitRemoval(removal: nat, tasks: set<TaskId>, account: AccountId, daemon: DaemonId)
    | RetireRemoval(removal: nat)
    /** The broadcasts of a removal that has retired its tasks; in removeDevice this is a later segment. */
    | Announce(removal: nat, order: seq<TaskId>)

  function Owned(s: State, tasks: set<TaskId>, account: AccountId, daemon: DaemonId): set<TaskId> {
    set t | t in tasks && t in s.rows && t in s.owners && s.owners[t] == (account, daemon)
  }

  function Show(s: State, h: Handler, emit: bool): seq<Shown> {
    if emit then s.shown + [Updated(h.task)] else s.shown
  }

  function FinishHandler(s: State, k: GuardId, install: Option<SessionId>, drop: Option<SessionId>, emit: bool): State
    requires k in s.handlers
  {
    var h := s.handlers[k];
    var gone := s.(handlers := s.handlers - {k});
    if !h.guarded then if h.seen then gone.(shown := Show(s, h, emit)) else gone
    else
      var released := gone.(effects := Unregister(s.effects, h.task, k));
      if !h.seen || k in s.effects.cancelled then released
      else
        var f := released.effects;
        var dropped := if drop.Some? && drop.value in f.sessions
            && f.sessions[drop.value] == RuntimeSession(h.task, h.account, h.daemon)
                       then DropSession(f, drop.value) else f;
        var installed := if install.Some?
            then InstallSession(dropped, install.value, RuntimeSession(h.task, h.account, h.daemon)) else dropped;
        released.(effects := installed, shown := Show(s, h, emit))
  }

  function Step(s: State, e: Event): State {
    match e
    case Enter(k, t, a, d, guarded) =>
      if k in s.used then s
      else s.(used := s.used + {k}, handlers := s.handlers[k := Handler(t, a, d, guarded, false)],
              effects := if guarded then Register(s.effects, t, k) else s.effects)
    case InsertRow(k) =>
      if k !in s.handlers || s.handlers[k].task in s.owners then s
      else
        var h := s.handlers[k];
        s.(rows := s.rows + {h.task}, owners := s.owners[h.task := (h.account, h.daemon)],
           handlers := s.handlers[k := h.(seen := true)])
    case TouchRow(k, hit) =>
      if k !in s.handlers then s
      else
        var h := s.handlers[k];
        s.(handlers := s.handlers[k := h.(seen := hit && h.task in Owned(s, {h.task}, h.account, h.daemon))])
    case Finish(k, install, drop, emit) => if k in s.handlers then FinishHandler(s, k, install, drop, emit) else s
    case CommitRemoval(r, tasks, a, d) =>
      if r in s.removals then s
      else
        var gone := Owned(s, tasks, a, d);
        s.(rows := s.rows - gone, removals := s.removals[r := Removal(gone, a, d, false)])
    case RetireRemoval(r) =>
      if r !in s.removals || s.removals[r].retired then s
      else
        var v := s.removals[r];
        s.(effects := Retire(s.effects, v.tasks, v.account, v.daemon), retired := s.retired + v.tasks,
           removals := s.removals[r := v.(retired := true)])
    case Announce(r, order) =>
      if r in s.removals && s.removals[r].retired && forall i :: 0 <= i < |order| ==> order[i] in s.removals[r].tasks
      then s.(shown := s.shown + seq(|order|, i requires 0 <= i < |order| => Removed(order[i])))
      else s
  }

  function After(events: seq<Event>): State {
    if events == [] then EMPTY else Step(After(events[..|events| - 1]), events[|events| - 1])
  }

  // ---------------------------------------------------------------- the property

  ghost predicate Resurrected(shown: seq<Shown>) {
    exists i, j, t :: 0 <= i < j < |shown| && shown[i] == Removed(t) && shown[j] == Updated(t)
  }

  /** An unguarded handler shows a task whose removal has been announced. */
  ghost predicate UnguardedShow(s: State, e: Event) {
    && e.Finish? && e.emit && e.handler in s.handlers && !s.handlers[e.handler].guarded && s.handlers[e.handler].seen
    && Removed(s.handlers[e.handler].task) in s.shown
  }

  // ---------------------------------------------------------------- invariant

  ghost predicate HandlerInv(s: State, k: GuardId) {
    k in s.handlers ==>
      var h := s.handlers[k];
      && k in s.used
      && (h.seen ==> h.task in s.owners && s.owners[h.task] == (h.account, h.daemon))
      && (h.guarded && k !in s.effects.cancelled ==> k in GuardsOf(s.effects, h.task))
      && (h.guarded && h.seen && h.task in s.retired ==> k in s.effects.cancelled)
  }

  ghost predicate SessionInv(s: State, x: SessionId) {
    x in s.effects.sessions ==>
      var r := s.effects.sessions[x];
      r.task in s.owners && s.owners[r.task] == (r.account, r.daemon) && r.task !in s.retired
  }

  ghost predicate RemovalInv(s: State, r: nat) {
    r in s.removals ==>
      && (s.removals[r].retired ==> s.removals[r].tasks <= s.retired)
      && forall t :: t in s.removals[r].tasks ==>
           t in s.owners && s.owners[t] == (s.removals[r].account, s.removals[r].daemon) && t !in s.rows
  }

  /** Holds in every run: guards, runtimes and rows agree about what is retired. */
  ghost predicate TableInv(s: State) {
    && s.rows <= s.owners.Keys && s.retired <= s.owners.Keys && s.rows !! s.retired
    && (forall k :: k in s.handlers ==> HandlerInv(s, k))
    && (forall x :: x in s.effects.sessions ==> SessionInv(s, x))
    && (forall r :: r in s.removals ==> RemovalInv(s, r))
    && (forall i :: 0 <= i < |s.shown| && s.shown[i].Removed? ==> s.shown[i].task in s.retired)
  }

  lemma RetireKeeps(s: State, r: nat)
    requires TableInv(s) && r in s.removals && !s.removals[r].retired
    ensures TableInv(Step(s, RetireRemoval(r)))
  {
    var v := s.removals[r];
    assert RemovalInv(s, r);
    var t := Step(s, RetireRemoval(r));
    forall k | k in t.handlers ensures HandlerInv(t, k) { assert HandlerInv(s, k); }
    forall x | x in t.effects.sessions ensures SessionInv(t, x) { assert SessionInv(s, x); }
    forall q | q in t.removals ensures RemovalInv(t, q) { assert RemovalInv(s, q); }
  }

  lemma FinishSessions(s: State, k: GuardId, install: Option<SessionId>, drop: Option<SessionId>, emit: bool)
    requires TableInv(s) && k in s.handlers
    ensures var t := FinishHandler(s, k, install, drop, emit); forall x :: x in t.effects.sessions ==> SessionInv(t, x)
  {
    var t := FinishHandler(s, k, install, drop, emit);
    assert HandlerInv(s, k);
    forall x | x in t.effects.sessions
      ensures SessionInv(t, x)
    {
      if x in s.effects.sessions { assert SessionInv(s, x); }
    }
  }

  lemma FinishHandlers(s: State, k: GuardId, install: Option<SessionId>, drop: Option<SessionId>, emit: bool)
    requires TableInv(s) && k in s.handlers
    ensures var t := FinishHandler(s, k, install, drop, emit); forall j :: j in t.handlers ==> HandlerInv(t, j)
  {
    var t := FinishHandler(s, k, install, drop, emit);
    forall j | j in t.handlers ensures HandlerInv(t, j) { assert HandlerInv(s, j); }
  }

  lemma FinishKeeps(s: State, k: GuardId, install: Option<SessionId>, drop: Option<SessionId>, emit: bool)
    requires TableInv(s) && k in s.handlers
    ensures TableInv(FinishHandler(s, k, install, drop, emit))
  {
    var t := FinishHandler(s, k, install, drop, emit);
    FinishHandlers(s, k, install, drop, emit);
    FinishSessions(s, k, install, drop, emit);
    forall q | q in t.removals ensures RemovalInv(t, q) { assert RemovalInv(s, q); }
  }

  lemma HandlerStepKeeps(s: State, e: Event)
    requires TableInv(s) && (e.Enter? || e.InsertRow? || e.TouchRow?)
    ensures TableInv(Step(s, e))
  {
    var t := Step(s, e);
    forall k | k in t.handlers ensures HandlerInv(t, k) { if k in s.handlers { assert HandlerInv(s, k); } }
    forall x | x in t.effects.sessions ensures SessionInv(t, x) { assert SessionInv(s, x); }
    forall q | q in t.removals ensures RemovalInv(t, q) { assert RemovalInv(s, q); }
  }

  lemma RemoverStepKeeps(s: State, e: Event)
    requires TableInv(s) && (e.CommitRemoval? || e.Announce?)
    ensures TableInv(Step(s, e))
  {
    var t := Step(s, e);
    forall k | k in t.handlers ensures HandlerInv(t, k) { assert HandlerInv(s, k); }
    forall x | x in t.effects.sessions ensures SessionInv(t, x) { assert SessionInv(s, x); }
    forall q | q in t.removals ensures RemovalInv(t, q) { if q in s.removals { assert RemovalInv(s, q); } }
  }

  lemma StepKeeps(s: State, e: Event)
    requires TableInv(s)
    ensures TableInv(Step(s, e))
  {
    match e {
      case RetireRemoval(r) => if r in s.removals && !s.removals[r].retired { RetireKeeps(s, r); }
      case Finish(k, install, drop, emit) => if k in s.handlers { FinishKeeps(s, k, install, drop, emit); }
      case Enter(_, _, _, _, _) | InsertRow(_) | TouchRow(_, _) => HandlerStepKeeps(s, e);
      case CommitRemoval(_, _, _, _) | Announce(_, _) => RemoverStepKeeps(s, e);
    }
  }

  lemma {:induction false} Always(events: seq<Event>)
    ensures TableInv(After(events))
    decreases |events|
  {
    if events != [] {
      Always(events[..|events| - 1]);
      StepKeeps(After(events[..|events| - 1]), events[|events| - 1]);
    }
  }

  /** No runtime session of a task survives, or comes back after, the announcement of its removal. */
  lemma {:induction false} NoRuntimeAfterRemoval(events: seq<Event>, t: TaskId, x: SessionId)
    requires Removed(t) in After(events).shown && x in After(events).effects.sessions
    ensures After(events).effects.sessions[x].task != t
  {
    Always(events);
    assert SessionInv(After(events), x);
  }

  /** One step resurrects a task only as an unguarded show. */
  lemma StepQuiet(s: State, e: Event)
    requires TableInv(s) && !Resurrected(s.shown) && !UnguardedShow(s, e)
    ensures !Resurrected(Step(s, e).shown)
  {
    var t := Step(s, e);
    if e.Finish? && e.handler in s.handlers { assert HandlerInv(s, e.handler); }
    forall i, j, k | 0 <= i < j < |t.shown| && t.shown[i] == Removed(k) ensures t.shown[j] != Updated(k) {
      if j < |s.shown| {
        assert t.shown[i] == s.shown[i] && t.shown[j] == s.shown[j];
      } else if e.Finish? {
        assert t.shown[i] == s.shown[i];
      }
    }
  }

  lemma {:induction false} GuardedRunsAreQuiet(events: seq<Event>)
    requires forall k :: 0 <= k < |events| ==> !UnguardedShow(After(events[..k]), events[k])
    ensures !Resurrected(After(events).shown)
    decreases |events|
  {
    if events != [] {
      var n := |events| - 1;
      forall k | 0 <= k < n ensures !UnguardedShow(After(events[..n][..k]), events[..n][k]) {
        assert events[..n][..k] == events[..k];
      }
      GuardedRunsAreQuiet(events[..n]);
      Always(events[..n]);
      assert !UnguardedShow(After(events[..n]), events[n]);
      StepQuiet(After(events[..n]), events[n]);
    }
  }

  lemma {:induction false} ShownGrows(events: seq<Event>, k: nat)
    requires k <= |events|
    ensures After(events[..k]).shown <= After(events).shown
    decreases |events|
  {
    if k < |events| {
      var n := |events| - 1;
      ShownGrows(events[..n], k);
      assert events[..n][..k] == events[..k];
      assert After(events[..n]).shown <= Step(After(events[..n]), events[n]).shown;
    } else {
      assert events[..k] == events;
    }
  }

  lemma UnguardedShowResurrects(s: State, e: Event)
    requires UnguardedShow(s, e)
    ensures Resurrected(Step(s, e).shown)
  {
    var t := s.handlers[e.handler].task;
    var i :| 0 <= i < |s.shown| && s.shown[i] == Removed(t);
    var shown := Step(s, e).shown;
    assert shown[i] == Removed(t) && shown[|s.shown|] == Updated(t);
  }

  /**
   After a task's removal has been announced it is shown again, in some run of all handlers, exactly when an
   unguarded handler does it: no interleaving of the guarded ones ever does.
   */
  lemma {:induction false} ResurrectedExactlyByUnguarded(events: seq<Event>)
    ensures Resurrected(After(events).shown)
       <==> exists k :: 0 <= k < |events| && UnguardedShow(After(events[..k]), events[k])
  {
    if k :| 0 <= k < |events| && UnguardedShow(After(events[..k]), events[k]) {
      UnguardedShowResurrects(After(events[..k]), events[k]);
      assert events[..k + 1][..k] == events[..k];
      ShownGrows(events, k + 1);
      var early, late := After(events[..k + 1]).shown, After(events).shown;
      var i, j, t :| 0 <= i < j < |early| && early[i] == Removed(t) && early[j] == Updated(t);
      assert late[i] == Removed(t) && late[j] == Updated(t);
    } else {
      GuardedRunsAreQuiet(events);
    }
  }

  lemma {:induction false} Then(events: seq<Event>, e: Event)
    ensures After(events + [e]) == Step(After(events), e)
  {
    assert (events + [e])[..|events|] == events;
  }

  /** A task is inserted and shown; an unguarded handler has read its row. */
  lemma UnguardedReads() returns (events: seq<Event>)
    ensures var s := After(events);
            && s.rows == {5} && s.owners == map[5 := (1, 1)] && s.removals == map[] && s.shown == [Updated(5)]
            && s.handlers == map[1 := Handler(5, 1, 1, false, true)]
  {
    events := [];
    Then(events, Enter(0, 5, 1, 1, true));
    events := events + [Enter(0, 5, 1, 1, true)];
    Then(events, InsertRow(0));
    events := events + [InsertRow(0)];
    Then(events, Finish(0, None, None, true));
    events := events + [Finish(0, None, None, true)];
    assert After(events).shown == [Updated(5)] && After(events).handlers == map[];
    Then(events, Enter(1, 5, 1, 1, false));
    events := events + [Enter(1, 5, 1, 1, false)];
    Then(events, TouchRow(1, true));
    events := events + [TouchRow(1, true)];
  }

  /** The failing run: the task is removed, its removal announced, and then the unguarded handler shows it again. */
  lemma ResurrectionHappens() returns (events: seq<Event>)
    ensures Resurrected(After(events).shown)
  {
    events := UnguardedReads();
    Then(events, CommitRemoval(0, {5}, 1, 1));
    assert Owned(After(events), {5}, 1, 1) == {5};
    events := events + [CommitRemoval(0, {5}, 1, 1)];
    Then(events, RetireRemoval(0));
    events := events + [RetireRemoval(0)];
    Then(events, Announce(0, [5]));
    events := events + [Announce(0, [5])];
    var s := After(events);
    assert s.shown == [Updated(5), Removed(5)];
    assert s.shown[1] == Removed(5);
    Then(events, Finish(1, None, None, true));
    UnguardedShowResurrects(s, Finish(1, None, None, true));
    events := events + [Finish(1, None, None, true)];
  }

  // ---------------------------------------------------------------- the guard table in these runs

  /** Guards are tidy, and every guard ever registered belongs to a handler that entered. */
  ghost predicate GuardInv(s: State) {
    && Tidy(s.effects) && s.effects.cancelled <= s.used
    && forall t :: t in s.effects.guards ==> s.effects.guards[t] <= s.used
  }

  lemma RetireGuards(s: State, r: nat)
    requires GuardInv(s)
    ensures GuardInv(Step(s, RetireRemoval(r)))
  {
    if r in s.removals && !s.removals[r].retired {
      var v := s.removals[r];
      RetireTidy(s.effects, v.tasks, v.account, v.daemon);
      forall g | g in Step(s, RetireRemoval(r)).effects.cancelled ensures g in s.used {
        if g !in s.effects.cancelled {
          var t :| t in v.tasks && g in GuardsOf(s.effects, t);
        }
      }
    }
  }

  lemma FinishGuards(s: State, k: GuardId, install: Option<SessionId>, drop: Option<SessionId>, emit: bool)
    requires GuardInv(s) && k in s.handlers
    ensures GuardInv(FinishHandler(s, k, install, drop, emit))
  {
    UnregisterTidy(s.effects, s.handlers[k].task, k);
    FinishEffects(s, k, install, drop, emit);
  }

  lemma FinishEffects(s: State, k: GuardId, install: Option<SessionId>, drop: Option<SessionId>, emit: bool)
    requires k in s.handlers
    ensures var f, t := Unregister(s.effects, s.handlers[k].task, k), FinishHandler(s, k, install, drop, emit);
            && t.effects.cancelled == s.effects.cancelled
            && t.effects.guards == if s.handlers[k].guarded then f.guards else s.effects.guards
  {
  }

  lemma EnterGuards(s: State, e: Event)
    requires GuardInv(s) && e.Enter?
    ensures GuardInv(Step(s, e))
  {
    if e.handler !in s.used && e.guarded { RegisterTidy(s.effects, e.task, e.handler); }
  }

  lemma GuardStep(s: State, e: Event)
    requires GuardInv(s)
    ensures GuardInv(Step(s, e))
  {
    match e {
      case Enter(_, _, _, _, _) => EnterGuards(s, e);
      case RetireRemoval(r) => RetireGuards(s, r);
      case Finish(k, install, drop, emit) => if k in s.handlers { FinishGuards(s, k, install, drop, emit); }
      case _ => assert Step(s, e).effects == s.effects && Step(s, e).used == s.used;
    }
  }

  lemma {:induction false} GuardsAlwaysTidy(events: seq<Event>)
    ensures GuardInv(After(events))
    decreases |events|
  {
    if events != [] {
      GuardsAlwaysTidy(events[..|events| - 1]);
      GuardStep(After(events[..|events| - 1]), events[|events| - 1]);
    }
  }

  /** What a finishing handler does to the table. */
  method Conclude(table: EffectTable, k: GuardId, h: Handler, install: Option<SessionId>, drop: Option<SessionId>)
    requires table.Valid() && h.guarded
    modifies table
    ensures table.Valid()
    ensures forall s: State ::
              s.effects == old(table.View()) && k in s.handlers && s.handlers[k] == h ==>
                table.View() == FinishHandler(s, k, install, drop, true).effects
  {
    table.Leave(h.task, k);
    if !h.seen || k in table.cancelled { return; }
    var own := RuntimeSession(h.task, h.account, h.daemon);
    if drop.Some? && drop.value in table.sessions && table.sessions[drop.value] == own { table.Drop(drop.value); }
    if install.Some? { table.Install(install.value, own); }
  }

  /** The guard table driven through any run holds the guards and runtimes that the theorems above speak about. */
  method Drive(events: seq<Event>) returns (table: EffectTable)
    ensures fresh(table) && table.Valid() && table.View() == After(events).effects
  {
    table := new EffectTable();
    var s := EMPTY;
    for i := 0 to |events|
      invariant fresh(table) && table.Valid() && table.View() == s.effects && s == After(events[..i])
    {
      assert events[..i + 1][..i] == events[..i];
      GuardsAlwaysTidy(events[..i]);
      match events[i] {
        case Enter(k, t, a, d, guarded) => if k !in s.used && guarded { table.Enter(t, k); }
        case Finish(k, install, drop, emit) =>
          if k in s.handlers && s.handlers[k].guarded {
            ghost var was := s;
            Conclude(table, k, s.handlers[k], install, drop);
            assert FinishHandler(was, k, install, drop, true).effects
                == FinishHandler(was, k, install, drop, emit).effects;
          }
        case RetireRemoval(r) =>
          if r in s.removals && !s.removals[r].retired {
            table.RetireTasks(s.removals[r].tasks, s.removals[r].account, s.removals[r].daemon);
          }
        case _ =>
      }
      s := Step(s, events[i]);
    }
    assert events[..|events|] == events;
  }
}
