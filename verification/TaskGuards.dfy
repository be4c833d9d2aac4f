/**
 The guards that stop a deleted task from reappearing. A handler registers a guard before it touches the
 database and looks at it again before it shows anything; a removal cancels the guards registered so far and
 drops the task's runtime sessions before it announces the removal.
 */
module TaskGuards {
  import opened Store

  type GuardId = nat

  datatype RuntimeSession = RuntimeSession(task: TaskId, account: AccountId, daemon: DaemonId)

  datatype Effects = Effects(
    guards: map<TaskId, set<GuardId>>, cancelled: set<GuardId>, sessions: map<SessionId, RuntimeSession>)

  function GuardsOf(f: Effects, t: TaskId): set<GuardId> {
    if t in f.guards then f.guards[t] else {}
  }

  function Register(f: Effects, t: TaskId, g: GuardId): Effects {
    f.(guards := f.guards[t := GuardsOf(f, t) + {g}])
  }

  /** The finally clause: a guard cancelled meanwhile is no longer in the registered set. */
  function Unregister(f: Effects, t: TaskId, g: GuardId): Effects {
    if t !in f.guards then f
    else if f.guards[t] - {g} == {} then f.(guards := f.guards - {t})
    else f.(guards := f.guards[t := f.guards[t] - {g}])
  }

  predicate BelongsTo(r: RuntimeSession, tasks: set<TaskId>, account: AccountId, daemon: DaemonId) {
    r.task in tasks && r.account == account && r.daemon == daemon
  }

  /** retireTaskRuntimes: first every guard of the whole batch, then every runtime of the batch's own identity. */
  function Retire(f: Effects, tasks: set<TaskId>, account: AccountId, daemon: DaemonId): Effects {
    Effects(
      f.guards - tasks,
      f.cancelled + (set t, g | t in tasks && g in GuardsOf(f, t) :: g),
      map s | s in f.sessions && !BelongsTo(f.sessions[s], tasks, account, daemon) :: f.sessions[s])
  }

  /** installSessionRuntime: another owner's session id is never taken over. */
  function InstallSession(f: Effects, s: SessionId, r: RuntimeSession): Effects {
    if s in f.sessions && (f.sessions[s].account != r.account || f.sessions[s].daemon != r.daemon) then f
    else f.(sessions := f.sessions[s := r])
  }

  function DropSession(f: Effects, s: SessionId): Effects {
    f.(sessions := f.sessions - {s})
  }

  /** No empty set is kept, a guard is registered once, and a cancelled guard is no longer registered. */
  ghost predicate Tidy(f: Effects) {
    && (forall t :: t in f.guards ==> f.guards[t] != {} && f.guards[t] !! f.cancelled)
    && (forall t, u :: t in f.guards && u in f.guards && t != u ==> f.guards[t] !! f.guards[u])
  }

  /** A guard that no handler has had before. */
  ghost predicate New(f: Effects, g: GuardId) {
    g !in f.cancelled && forall t :: t in f.guards ==> g !in f.guards[t]
  }

  lemma RegisterTidy(f: Effects, t: TaskId, g: GuardId)
    requires Tidy(f) && New(f, g)
    ensures Tidy(Register(f, t, g))
  {
  }

  lemma UnregisterTidy(f: Effects, t: TaskId, g: GuardId)
    requires Tidy(f)
    ensures Tidy(Unregister(f, t, g))
    ensures forall u :: u in Unregister(f, t, g).guards ==>
              u in f.guards && Unregister(f, t, g).guards[u] <= f.guards[u]
  {
  }

  lemma RetireTidy(f: Effects, tasks: set<TaskId>, account: AccountId, daemon: DaemonId)
    requires Tidy(f)
    ensures Tidy(Retire(f, tasks, account, daemon))
  {
    var r := Retire(f, tasks, account, daemon);
    forall t | t in r.guards ensures r.guards[t] != {} && r.guards[t] !! r.cancelled {
      forall g | g in r.guards[t] ensures g !in r.cancelled {
        assert forall u :: u in tasks ==> g !in GuardsOf(f, u);
      }
    }
  }

  class EffectTable {
    var guards: map<TaskId, set<GuardId>>
    var cancelled: set<GuardId>
    var sessions: map<SessionId, RuntimeSession>

    ghost function View(): Effects
      reads this
    {
      Effects(guards, cancelled, sessions)
    }

    ghost predicate Valid()
      reads this
    {
      Tidy(View())
    }

    constructor ()
      ensures Valid() && View() == Effects(map[], {}, map[])
    {
      guards, cancelled, sessions := map[], {}, map[];
    }

    method Enter(t: TaskId, g: GuardId)
      requires Valid() && New(View(), g)
      modifies this`guards
      ensures Valid() && View() == Register(old(View()), t, g)
    {
      RegisterTidy(View(), t, g);
      if t !in guards { guards := guards[t := {}]; }
      guards := guards[t := guards[t] + {g}];
    }

    /** Exactly this guard goes, whether it was cancelled meanwhile or not, and no empty set stays behind. */
    method Leave(t: TaskId, g: GuardId)
      requires Valid()
      modifies this`guards
      ensures Valid() && View() == Unregister(old(View()), t, g)
      ensures GuardsOf(View(), t) == GuardsOf(old(View()), t) - {g}
      ensures forall u :: u != t ==> GuardsOf(View(), u) == GuardsOf(old(View()), u)
    {
      if t in guards {
        var left := guards[t] - {g};
        if left == {} { guards := guards - {t}; } else { guards := guards[t := left]; }
      }
    }

    method CancelTask(t: TaskId)
      modifies this`guards, this`cancelled
      ensures guards == old(guards) - {t}
      ensures cancelled == old(cancelled) + GuardsOf(old(View()), t)
    {
      if t !in guards { return; }
      var registered := guards[t];
      guards := guards - {t};
      var left := registered;
      while left != {}
        invariant left <= registered && guards == old(guards) - {t}
        invariant cancelled == old(cancelled) + (registered - left)
      {
        var g :| g in left;
        cancelled := cancelled + {g};
        left := left - {g};
      }
      assert registered - left == registered;
    }

    method RetireTasks(tasks: set<TaskId>, account: AccountId, daemon: DaemonId)
      requires Valid()
      modifies this
      ensures Valid() && View() == Retire(old(View()), tasks, account, daemon)
    {
      RetireTidy(View(), tasks, account, daemon);
      CancelTasks(tasks);
      DropSessions(tasks, account, daemon);
    }

    method CancelTasks(tasks: set<TaskId>)
      modifies this`guards, this`cancelled
      ensures guards == old(guards) - tasks
      ensures cancelled == old(cancelled) + (set t, g | t in tasks && g in GuardsOf(old(View()), t) :: g)
    {
      var left := tasks;
      while left != {}
        invariant left <= tasks
        invariant guards == old(guards) - (tasks - left)
        invariant forall g ::
                    g in cancelled <==>
                      g in old(cancelled) || exists t :: t in tasks - left && g in GuardsOf(old(View()), t)
      {
        var t :| t in left;
        assert GuardsOf(View(), t) == GuardsOf(old(View()), t);
        CancelTask(t);
        left := left - {t};
      }
      assert tasks - left == tasks;
    }

    method DropSessions(tasks: set<TaskId>, account: AccountId, daemon: DaemonId)
      modifies this`sessions
      ensures sessions ==
                map s | s in old(sessions) && !BelongsTo(old(sessions)[s], tasks, account, daemon) :: old(sessions)[s]
    {
      var left := sessions.Keys;
      while left != {}
        invariant left <= sessions.Keys
        invariant forall s ::
                    s in sessions <==>
                      s in old(sessions) && (s in left || !BelongsTo(old(sessions)[s], tasks, account, daemon))
        invariant forall s :: s in sessions ==> sessions[s] == old(sessions)[s]
      {
        var s :| s in left;
        if BelongsTo(sessions[s], tasks, account, daemon) { sessions := sessions - {s}; }
        left := left - {s};
      }
    }

    method Drop(s: SessionId)
      modifies this`sessions
      ensures View() == DropSession(old(View()), s)
    {
      sessions := sessions - {s};
    }

    method Install(s: SessionId, r: RuntimeSession)
      modifies this`sessions
      ensures View() == InstallSession(old(View()), s, r)
    {
      if s in sessions && (sessions[s].account != r.account || sessions[s].daemon != r.daemon) { return; }
      if s in sessions && sessions[s].task != r.task { sessions := sessions - {s}; }
      sessions := sessions[s := r];
    }
  }
}
