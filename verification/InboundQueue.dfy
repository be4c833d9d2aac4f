/**
 One WebSocket connection's inbound side: frames are queued in wire order and drained by one asynchronous loop, and
 the close handler runs in that same loop. Each segment between two awaits is one step.
 */
module InboundQueue {
  import opened Store

  type Message = nat

  datatype Item = Item(msg: Message, bytes: nat)

  /** A handler call in flight. */
  datatype Job = Handle(msg: Message) | HandleClose(code: nat)

  datatype Mark = Started(job: Job) | Finished(job: Job)

  datatype Limits = Limits(maxMessages: nat, maxBytes: nat)

  /** `running` holds the handler calls in flight; `accepted`, `taken` and `log` record what happened. */
  datatype Queue = Queue(
    limits: Limits, ready: bool, pending: seq<Item>, pendingBytes: int, draining: bool, accepting: bool,
    closed: bool, closeHandled: bool, closeInfo: Option<nat>,
    running: seq<Job>, accepted: seq<Message>, taken: seq<Message>, log: seq<Mark>)

  function Initial(limits: Limits): Queue {
    Queue(limits, true, [], 0, false, true, false, false, None, [], [], [], [])
  }

  function Discard(q: Queue): Queue { q.(pending := [], pendingBytes := 0) }

  function Start(q: Queue, job: Job): Queue { q.(running := q.running + [job], log := q.log + [Started(job)]) }

  predicate Wanted(q: Queue) {
    (!q.closed && q.pending != []) || (q.closed && !q.closeHandled && q.closeInfo.Some?)
  }

  /** From the loop head to the next await, or to the end of the drain. */
  function Advance(q: Queue): Queue {
    if !q.closed && q.pending != [] then
      var item := q.pending[0];
      Start(q.(pending := q.pending[1..], pendingBytes := q.pendingBytes - item.bytes, taken := q.taken + [item.msg]),
          Handle(item.msg))
    else if q.closed && !q.closeHandled && q.closeInfo.Some?
    then Start(q.(closeHandled := true), HandleClose(q.closeInfo.value))
    else q.(draining := false)
  }

  function Drain(q: Queue): Queue { if q.draining then q else Advance(q.(draining := true)) }

  function Receive(q: Queue, msg: Message, bytes: nat): Queue {
    if !q.accepting then q
    else if |q.pending| >= q.limits.maxMessages || bytes > q.limits.maxBytes - q.pendingBytes
    then Discard(q.(accepting := false, ready := false))
    else Drain(q.(pending := q.pending + [Item(msg, bytes)], pendingBytes := q.pendingBytes + bytes,
        accepted := q.accepted + [msg]))
  }

  function Close(q: Queue, code: nat): Queue {
    Drain(Discard(q.(ready := false, accepting := false, closed := true, closeInfo := Some(code))))
  }

  function Finish(q: Queue, i: nat): Queue
    requires i < |q.running|
  {
    q.(running := q.running[..i] + q.running[i + 1..], log := q.log + [Finished(q.running[i])])
  }

  /** A message handler returned or threw: stop taking frames if the socket is no longer open, then loop. */
  function HandlerDone(q: Queue, i: nat): Queue
    requires i < |q.running|
  {
    var f := Finish(q, i);
    Advance(if f.ready then f else Discard(f.(accepting := false)))
  }

  /** The close handler returned: the drain ends, and starts again if there is anything left to do. */
  function CloseDone(q: Queue, i: nat): Queue
    requires i < |q.running|
  {
    var f := Finish(q, i).(draining := false);
    if Wanted(f) then Drain(f) else f
  }

  datatype Event = Frame(msg: Message, bytes: nat) | SocketClosing | CloseFrame(code: nat) | Done(at: nat)

  function Step(q: Queue, e: Event): Queue {
    match e
    case Frame(msg, bytes) => Receive(q, msg, bytes)
    case SocketClosing => q.(ready := false)
    case CloseFrame(code) => Close(q, code)
    case Done(i) =>
      if i >= |q.running| then q else if q.running[i].Handle? then HandlerDone(q, i) else CloseDone(q, i)
  }

  function After(limits: Limits, events: seq<Event>): Queue {
    if events == [] then Initial(limits) else Step(After(limits, events[..|events| - 1]), events[|events| - 1])
  }

  // ---------------------------------------------------------------- invariant

  function Bytes(items: seq<Item>): nat {
    if items == [] then 0 else items[0].bytes + Bytes(items[1..])
  }

  function Messages(items: seq<Item>): seq<Message> {
    seq(|items|, i requires 0 <= i < |items| => items[i].msg)
  }

  /** What may come after a mark: its own finish after a start, a start after a finish. */
  ghost predicate Follows(a: Mark, b: Mark) { if a.Started? then b == Finished(a.job) else b.Started? }

  /** One job at a time: the log is start, its finish, start, its finish and so on. */
  ghost predicate Alternates(log: seq<Mark>) {
    && (log != [] ==> log[0].Started?)
    && (forall i :: 0 <= i < |log| - 1 ==> Follows(log[i], log[i + 1]))
  }

  ghost predicate Busy(log: seq<Mark>) { log != [] && log[|log| - 1].Started? }

  /** The close handler is the last job. */
  ghost predicate CloseIsLast(q: Queue) {
    && (forall i :: 0 <= i < |q.log| && q.log[i].Started? && q.log[i].job.HandleClose? ==> |q.log| <= i + 2)
    && (q.closeHandled <==> exists i :: 0 <= i < |q.log| && q.log[i].Started? && q.log[i].job.HandleClose?)
  }

  ghost predicate Inv(q: Queue) {
    && q.pendingBytes == Bytes(q.pending) <= q.limits.maxBytes && |q.pending| <= q.limits.maxMessages
    && (q.accepting ==> !q.closed && q.accepted == q.taken + Messages(q.pending))
    && (!q.accepting ==> q.pending == [] && q.taken <= q.accepted)
    && (q.closed <==> q.closeInfo.Some?) && (q.closeHandled ==> q.closed)
    && (q.draining <==> q.running != []) && |q.running| <= 1
    && Alternates(q.log) && (Busy(q.log) <==> q.draining)
    && (q.draining ==> q.log[|q.log| - 1] == Started(q.running[0]))
    && (!q.draining ==> !Wanted(q))
    && CloseIsLast(q)
  }

  /** The state at the loop head: as Inv, but with the loop's own wakeup still to be decided. */
  ghost predicate AtHead(q: Queue) {
    && q.pendingBytes == Bytes(q.pending) <= q.limits.maxBytes && |q.pending| <= q.limits.maxMessages
    && (q.accepting ==> !q.closed && q.accepted == q.taken + Messages(q.pending))
    && (!q.accepting ==> q.pending == [] && q.taken <= q.accepted)
    && (q.closed <==> q.closeInfo.Some?) && (q.closeHandled ==> q.closed)
    && q.draining && q.running == []
    && Alternates(q.log) && !Busy(q.log)
    && CloseIsLast(q)
  }

  lemma {:induction false} BytesPush(items: seq<Item>, x: Item)
    ensures Bytes(items + [x]) == Bytes(items) + x.bytes
    decreases |items|
  {
    if items == [] {
      assert items + [x] == [x] && [x][1..] == [];
    } else {
      assert (items + [x])[1..] == items[1..] + [x];
      BytesPush(items[1..], x);
    }
  }

  lemma LogGrows(log: seq<Mark>, mark: Mark)
    requires Alternates(log) && (if log == [] then mark.Started? else Follows(log[|log| - 1], mark))
    ensures Alternates(log + [mark])
  {
    var to := log + [mark];
    forall i | 0 <= i < |to| - 1 ensures Follows(to[i], to[i + 1]) { assert to[i] == log[i]; }
  }

  lemma StartKeeps(q: Queue, job: Job)
    requires Alternates(q.log) && !Busy(q.log) && CloseIsLast(q) && !q.closeHandled
    ensures Alternates(Start(q, job).log)
    ensures job.Handle? ==> CloseIsLast(Start(q, job))
    ensures job.HandleClose? ==> CloseIsLast(Start(q, job).(closeHandled := true))
  {
    LogGrows(q.log, Started(job));
    if job.HandleClose? { assert Start(q, job).log[|q.log|] == Started(job); }
  }

  lemma AdvanceKeeps(q: Queue)
    requires AtHead(q)
    ensures Inv(Advance(q))
  {
    if !q.closed && q.pending != [] {
      var item := q.pending[0];
      StartKeeps(q, Handle(item.msg));
      assert Messages(q.pending) == [item.msg] + Messages(q.pending[1..]);
    } else if q.closed && !q.closeHandled && q.closeInfo.Some? {
      StartKeeps(q, HandleClose(q.closeInfo.value));
    }
  }

  lemma ReceiveKeeps(q: Queue, msg: Message, bytes: nat)
    requires Inv(q)
    ensures Inv(Receive(q, msg, bytes))
  {
    if q.accepting && !(|q.pending| >= q.limits.maxMessages || bytes > q.limits.maxBytes - q.pendingBytes) {
      var p := q.(pending := q.pending + [Item(msg, bytes)], pendingBytes := q.pendingBytes + bytes,
          accepted := q.accepted + [msg]);
      BytesPush(q.pending, Item(msg, bytes));
      assert Messages(p.pending) == Messages(q.pending) + [msg];
      if !q.draining { AdvanceKeeps(p.(draining := true)); }
    }
  }

  lemma CloseKeeps(q: Queue, code: nat)
    requires Inv(q)
    ensures Inv(Close(q, code))
  {
    if !q.draining {
      AdvanceKeeps(Discard(q.(ready := false, accepting := false, closed := true, closeInfo := Some(code),
          draining := true)));
    }
  }

  lemma FinishKeeps(q: Queue)
    requires Inv(q) && q.running != []
    ensures Finish(q, 0).running == [] && Alternates(Finish(q, 0).log) && !Busy(Finish(q, 0).log)
    ensures CloseIsLast(Finish(q, 0))
  {
    LogGrows(q.log, Finished(q.running[0]));
    if q.closeHandled {
      var i :| 0 <= i < |q.log| && q.log[i].Started? && q.log[i].job.HandleClose?;
      assert Finish(q, 0).log[i] == q.log[i];
    }
  }

  lemma DoneKeeps(q: Queue, i: nat)
    requires Inv(q) && i < |q.running|
    ensures Inv(Step(q, Done(i)))
  {
    FinishKeeps(q);
    var f := Finish(q, 0);
    if q.running[0].Handle? {
      AdvanceKeeps(if f.ready then f else Discard(f.(accepting := false)));
    } else {
      assert q.log[|q.log| - 1].job.HandleClose?;
    }
  }

  lemma StepKeeps(q: Queue, e: Event)
    requires Inv(q)
    ensures Inv(Step(q, e)) && Step(q, e).limits == q.limits
  {
    match e {
      case Frame(msg, bytes) => ReceiveKeeps(q, msg, bytes);
      case SocketClosing =>
      case CloseFrame(code) => CloseKeeps(q, code);
      case Done(i) => if i < |q.running| { DoneKeeps(q, i); }
    }
  }

  lemma {:induction false} Always(limits: Limits, events: seq<Event>)
    ensures Inv(After(limits, events)) && After(limits, events).limits == limits
    decreases |events|
  {
    if events == [] {
      assert After(limits, events) == Initial(limits);
    } else {
      var before := After(limits, events[..|events| - 1]);
      Always(limits, events[..|events| - 1]);
      StepKeeps(before, events[|events| - 1]);
      assert After(limits, events) == Step(before, events[|events| - 1]);
    }
  }

  /** A frame either is accepted, with a handler running, or ends the taking of frames with nothing left queued. */
  lemma ReceiveTakes(q: Queue, msg: Message, bytes: nat)
    requires Inv(q)
    ensures var t := Receive(q, msg, bytes);
            if t.accepting then t.accepted == q.accepted + [msg] && t.running != []
            else t.accepted == q.accepted && t.pending == []
  {
  }

  /** After a close nothing is queued or taken, and the close is handled or something runs that will get to it. */
  lemma CloseEnds(q: Queue, code: nat)
    requires Inv(q)
    ensures var t := Close(q, code); t.pending == [] && !t.accepting && (t.closeHandled || t.running != [])
  {
  }

  // ---------------------------------------------------------------- the endpoint object

  class Endpoint {
    const limits: Limits
    var ready: bool
    var pending: seq<Item>
    var pendingBytes: int
    var draining: bool
    var accepting: bool
    var closed: bool
    var closeHandled: bool
    var closeInfo: Option<nat>
    var running: seq<Job>
    ghost var accepted: seq<Message>
    ghost var taken: seq<Message>
    ghost var log: seq<Mark>

    ghost function View(): Queue
      reads this
    {
      Queue(limits, ready, pending, pendingBytes, draining, accepting, closed, closeHandled, closeInfo, running,
            accepted, taken, log)
    }

    ghost predicate Valid()
      reads this
    {
      Inv(View())
    }

    constructor (limits: Limits)
      ensures Valid() && View() == Initial(limits)
    {
      this.limits := limits;
      ready, pending, pendingBytes, draining, accepting := true, [], 0, false, true;
      closed, closeHandled, closeInfo := false, false, None;
      running, accepted, taken, log := [], [], [], [];
    }

    method DiscardPending()
      modifies this`pending, this`pendingBytes
      ensures pending == [] && pendingBytes == 0
    {
      pending, pendingBytes := [], 0;
    }

    /** From the loop head on; the loop was entered with nothing running and leaves a valid queue. */
    method LoopHead()
      modifies this
      ensures View() == Advance(old(View()))
    {
      if !closed && |pending| > 0 {
        var item := pending[0];
        pending := pending[1..];
        pendingBytes := pendingBytes - item.bytes;
        running := running + [Handle(item.msg)];
        taken, log := taken + [item.msg], log + [Started(Handle(item.msg))];
        return;
      }
      if closed && !closeHandled && closeInfo.Some? {
        closeHandled := true;
        running := running + [HandleClose(closeInfo.value)];
        log := log + [Started(HandleClose(closeInfo.value))];
        return;
      }
      draining := false;
    }

    method DrainQueue()
      modifies this
      ensures View() == Drain(old(View()))
    {
      if draining { return; }
      draining := true;
      LoopHead();
    }

    method OnMessage(msg: Message, bytes: nat)
      requires Valid()
      modifies this
      ensures Valid() && View() == Receive(old(View()), msg, bytes)
      ensures accepting ==> accepted == old(accepted) + [msg] && running != []
      ensures !accepting ==> accepted == old(accepted) && pending == []
    {
      ReceiveKeeps(View(), msg, bytes);
      ReceiveTakes(View(), msg, bytes);
      Enqueue(msg, bytes);
    }

    method Enqueue(msg: Message, bytes: nat)
      modifies this
      ensures View() == Receive(old(View()), msg, bytes)
    {
      if !accepting { return; }
      if |pending| >= limits.maxMessages || bytes > limits.maxBytes - pendingBytes {
        accepting := false;
        DiscardPending();
        ready := false;
        return;
      }
      pending, pendingBytes, accepted := pending + [Item(msg, bytes)], pendingBytes + bytes, accepted + [msg];
      assert View() == old(View()).(pending := pending, pendingBytes := pendingBytes, accepted := accepted);
      DrainQueue();
    }

    method OnClose(code: nat)
      requires Valid()
      modifies this
      ensures Valid() && View() == Close(old(View()), code)
      ensures pending == [] && !accepting && (closeHandled || running != [])
    {
      CloseKeeps(View(), code);
      CloseEnds(View(), code);
      EndInput(code);
    }

    method EndInput(code: nat)
      modifies this
      ensures View() == Close(old(View()), code)
    {
      ready, accepting, closed, closeInfo := false, false, true, Some(code);
      DiscardPending();
      ghost var ended := old(View()).(ready := false, accepting := false, closed := true, closeInfo := Some(code));
      assert View() == Discard(ended);
      DrainQueue();
    }

    method OnHandlerDone(i: nat)
      requires Valid() && i < |running| && running[i].Handle?
      modifies this
      ensures Valid() && View() == HandlerDone(old(View()), i)
    {
      DoneKeeps(View(), i);
      Resume(i);
    }

    method FinishJob(i: nat)
      requires i < |running|
      modifies this`running, this`log
      ensures View() == Finish(old(View()), i)
    {
      log := log + [Finished(running[i])];
      running := running[..i] + running[i + 1..];
    }

    /** The rest of the loop's body after its await. */
    method Resume(i: nat)
      requires i < |running|
      modifies this
      ensures View() == HandlerDone(old(View()), i)
    {
      FinishJob(i);
      if !ready {
        accepting := false;
        DiscardPending();
      }
      LoopHead();
    }

    method OnCloseDone(i: nat)
      requires Valid() && i < |running| && running[i].HandleClose?
      modifies this
      ensures Valid() && View() == CloseDone(old(View()), i)
    {
      DoneKeeps(View(), i);
      EndDrain(i);
    }

    /** The finally clause, with its second look for work. */
    method EndDrain(i: nat)
      requires i < |running|
      modifies this
      ensures View() == CloseDone(old(View()), i)
    {
      FinishJob(i);
      draining := false;
      if (!closed && |pending| > 0) || (closed && !closeHandled && closeInfo.Some?) { DrainQueue(); }
    }

    /** Whatever the socket or a handler does next. */
    method React(e: Event)
      requires Valid()
      modifies this
      ensures Valid() && View() == Step(old(View()), e)
    {
      match e {
        case Frame(msg, bytes) => OnMessage(msg, bytes);
        case SocketClosing => ready := false;
        case CloseFrame(code) => OnClose(code);
        case Done(i) =>
          if i < |running| {
            if running[i].Handle? { OnHandlerDone(i); } else { OnCloseDone(i); }
          }
      }
    }
  }

  /** An endpoint driven by any sequence of events is in the state that the theorems below speak about. */
  method Drive(limits: Limits, events: seq<Event>) returns (q: Endpoint)
    ensures fresh(q) && q.Valid() && q.View() == After(limits, events)
  {
    q := new Endpoint(limits);
    for i := 0 to |events|
      invariant fresh(q) && q.Valid() && q.View() == After(limits, events[..i])
    {
      assert events[..i + 1][..i] == events[..i];
      q.React(events[i]);
    }
    assert events[..|events|] == events;
  }

  // ---------------------------------------------------------------- main results

  /** Handled messages are a prefix of the accepted ones in wire order; while frames are taken, nothing is missing. */
  lemma {:induction false} HandledInWireOrder(limits: Limits, events: seq<Event>)
    ensures var q := After(limits, events);
            q.taken <= q.accepted && (q.accepting ==> q.accepted == q.taken + Messages(q.pending))
  {
    Always(limits, events);
  }

  /** At most one handler is in flight, and the log is a sequence of start/finish pairs. */
  lemma {:induction false} OneHandlerAtATime(limits: Limits, events: seq<Event>)
    ensures var q := After(limits, events); |q.running| <= 1 && Alternates(q.log)
  {
    Always(limits, events);
  }

  /** The byte count is exactly that of the queued frames, and both limits hold. */
  lemma {:induction false} QueueIsBounded(limits: Limits, events: seq<Event>)
    ensures var q := After(limits, events);
            q.pendingBytes == Bytes(q.pending) && q.pendingBytes <= limits.maxBytes && |q.pending| <= limits.maxMessages
  {
    Always(limits, events);
  }

  /** No wakeup is lost: when no handler runs nothing is queued and a close has been handled. */
  lemma {:induction false} NoLostWakeup(limits: Limits, events: seq<Event>)
    requires After(limits, events).running == []
    ensures var q := After(limits, events); q.pending == [] && (q.closed ==> q.closeHandled) && !q.draining
  {
    Always(limits, events);
  }

  /** The close handler runs at most once, and no handler starts after it. */
  lemma {:induction false} CloseHandledOnceAndLast(limits: Limits, events: seq<Event>, i: nat, j: nat)
    requires i < j < |After(limits, events).log|
    requires After(limits, events).log[i].Started? && After(limits, events).log[i].job.HandleClose?
    ensures After(limits, events).log[j] == Finished(After(limits, events).log[i].job)
  {
    Always(limits, events);
    assert Follows(After(limits, events).log[i], After(limits, events).log[i + 1]);
  }

  /** The second look at the end of a drain never finds work: the loop had nothing left when it stopped. */
  lemma {:induction false} RestartNeverNeeded(limits: Limits, events: seq<Event>, i: nat)
    requires i < |After(limits, events).running| && After(limits, events).running[i].HandleClose?
    ensures !Wanted(Finish(After(limits, events), i).(draining := false))
  {
    Always(limits, events);
    var q := After(limits, events);
    assert q.log[|q.log| - 1].job.HandleClose?;
  }
}
