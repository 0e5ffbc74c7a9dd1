/**
 * The worker `RequestQueue::spawn` starts (`ferri-main/src/federation/request_queue.rs`): it
 * takes the messages of its queue one at a time, in the order they were queued, logs a
 * heartbeat, hands an inbound request to the inbox handler and an outbound one to the outbox
 * handler, and ends once every sender is gone and the queue is drained. A handler that
 * panics ends the worker's task, so its queue's later sends panic too.
 */
module Worker {
  import opened Wrappers
  import Http
  import opened Store
  import Oracle
  import Queue
  import FedInbox
  import FedOutbox

  /** What the two handlers read from outside. */
  datatype Env = Env(inbox: FedInbox.Env, outbox: FedOutbox.Env)

  /**
   * Everything a message can change: the store and the id generator, the requests on the wire,
   * and the outbound queue an inbound Follow sends its Accept to (its waiting messages and
   * whether its worker has ended).
   */
  datatype World = World(state: FedInbox.State, sent: seq<Http.Request>,
                         outbound: seq<Queue.QueueMessage>, outboundGone: bool)

  /** One message, dispatched on its tag; the outcome says whether the worker goes on. */
  function Step(env: Env, src: nat -> string, w: World, msg: Queue.QueueMessage)
    : (r: (World, FedInbox.Outcome))
  {
    match msg
    case Heartbeat => (w, FedInbox.Done)
    case Inbound(req) =>
      var e := FedInbox.InboxEffect(env.inbox, src, w.state, req);
      var o := FedInbox.OutcomeOf(e, w.outboundGone, |w.outbound|);
      (World(e.state, w.sent + FedInbox.Fetches(env.inbox.crypto, FedInbox.RequestKey(req), e.gets, env.inbox.now),
             if o == FedInbox.Done && e.message.Some? then w.outbound + [e.message.value] else w.outbound,
             w.outboundGone),
       o)
    case Outbound(req) =>
      var e := FedOutbox.OutboxEffect(env.outbox, src, w.state, req);
      (World(e.state, w.sent + e.posts, w.outbound, w.outboundGone),
       if e.finished then FedInbox.Done else FedInbox.Panic)
  }

  /** Where a run of the worker stands: the world it leaves, how many messages it took, how the last one ended. */
  datatype Progress = Progress(world: World, handled: nat, last: FedInbox.Outcome)

  /** The worker's step for given surroundings, as the function a run is taken over. */
  function StepOf(env: Env, src: nat -> string): (World, Queue.QueueMessage) -> (World, FedInbox.Outcome) {
    (w, msg) => Step(env, src, w, msg)
  }

  /**
   * The messages handled in order by `step`, until one does not end normally (that one is
   * taken and counted too): a panic ends the worker, a blocked send leaves it waiting.
   */
  function Drain(step: (World, Queue.QueueMessage) -> (World, FedInbox.Outcome), w: World,
                 msgs: seq<Queue.QueueMessage>): (r: Progress)
    ensures r.handled <= |msgs|
    ensures r.last == FedInbox.Done ==> r.handled == |msgs|
    ensures r.last != FedInbox.Done ==> r.handled > 0
    decreases |msgs|
  {
    if |msgs| == 0 then Progress(w, 0, FedInbox.Done)
    else
      var (w1, o) := step(w, msgs[0]);
      if o != FedInbox.Done then Progress(w1, 1, o)
      else
        var r := Drain(step, w1, msgs[1..]);
        Progress(r.world, r.handled + 1, r.last)
  }

  /** A run either stops at its first message or goes on from the world that message leaves. */
  lemma DrainFirst(step: (World, Queue.QueueMessage) -> (World, FedInbox.Outcome), w: World,
                   msgs: seq<Queue.QueueMessage>)
    requires |msgs| > 0
    ensures var st := step(w, msgs[0]);
      var d := Drain(step, w, msgs);
      && (st.1 != FedInbox.Done ==> d.world == st.0 && d.handled == 1 && d.last == st.1)
      && (st.1 == FedInbox.Done ==>
            var r := Drain(step, st.0, msgs[1..]);
            d.world == r.world && d.handled == r.handled + 1 && d.last == r.last)
  {
  }

  /**
   * Part way through a run over `msgs`: `k` messages handled, all normally, leaving `w`; the
   * whole run is what the rest of it does from `w`, with `k` more messages counted.
   */
  ghost predicate Resumes(step: (World, Queue.QueueMessage) -> (World, FedInbox.Outcome), w0: World,
                          msgs: seq<Queue.QueueMessage>, k: nat, w: World)
    requires k <= |msgs|
  {
    var d := Drain(step, w0, msgs);
    var rest := Drain(step, w, msgs[k..]);
    d.world == rest.world && d.handled == rest.handled + k && d.last == rest.last
  }

  /** One more message handled: either the run goes on from where it leaves, or it stops there. */
  lemma DrainAdvance(step: (World, Queue.QueueMessage) -> (World, FedInbox.Outcome), w0: World,
                     msgs: seq<Queue.QueueMessage>, k: nat, w: World)
    requires k < |msgs| && Resumes(step, w0, msgs, k, w)
    ensures var st := step(w, msgs[k]);
      var d := Drain(step, w0, msgs);
      && (st.1 == FedInbox.Done ==> Resumes(step, w0, msgs, k + 1, st.0))
      && (st.1 != FedInbox.Done ==> d.world == st.0 && d.handled == k + 1 && d.last == st.1)
  {
    DrainFirst(step, w, msgs[k..]);
    assert msgs[k..][0] == msgs[k];
    assert msgs[k..][1..] == msgs[k + 1..];
  }

  /** The world the worker sees through its handles. */
  function Current(conn: Connection, ids: Oracle.Ids, client: Http.HttpClient, outbound: Queue.Channel): World
    reads conn, ids, client, outbound
  {
    World(FedInbox.State(conn.tables, ids.next), client.sent, outbound.buffer, outbound.receiverGone)
  }

  /** One message, handled by the handler its tag names. */
  method Dispatch(outbound: Queue.Channel, conn: Connection, ids: Oracle.Ids, client: Http.HttpClient,
                  env: Env, msg: Queue.QueueMessage) returns (o: FedInbox.Outcome)
    requires outbound.Valid()
    modifies outbound, conn, ids, client
    ensures outbound.Valid()
    ensures var r := StepOf(env, ids.source)(old(Current(conn, ids, client, outbound)), msg);
      Current(conn, ids, client, outbound) == r.0 && o == r.1
    ensures outbound.taken == old(outbound.taken) && outbound.sendersGone == old(outbound.sendersGone)
  {
    match msg {
      case Heartbeat =>
        o := FedInbox.Done;
      case Inbound(req) =>
        o := FedInbox.Handle(conn, ids, client, outbound, env.inbox, req);
      case Outbound(req) =>
        var ok := FedOutbox.Handle(conn, ids, client, env.outbox, req);
        o := if ok then FedInbox.Done else FedInbox.Panic;
    }
  }

  /** How `run` leaves the worker: its queue is drained and closed, it waits for more, it died, or it waits for room. */
  datatype Stop = Drained | Idle | Panicked | Stalled

  /** The next waiting message, taken and handled. */
  method TakeOne(queue: Queue.Channel, outbound: Queue.Channel, conn: Connection, ids: Oracle.Ids,
                 client: Http.HttpClient, env: Env) returns (o: FedInbox.Outcome)
    requires queue != outbound && queue.Valid() && outbound.Valid() && queue.buffer != []
    modifies queue, outbound, conn, ids, client
    ensures queue.Valid() && outbound.Valid()
    ensures var r := StepOf(env, ids.source)(old(Current(conn, ids, client, outbound)), old(queue.buffer)[0]);
      Current(conn, ids, client, outbound) == r.0 && o == r.1
    ensures queue.buffer == old(queue.buffer)[1..] && queue.taken == old(queue.taken) + [old(queue.buffer)[0]]
    ensures queue.sent == old(queue.sent) && queue.sendersGone == old(queue.sendersGone)
    ensures queue.receiverGone == old(queue.receiverGone)
    ensures outbound.taken == old(outbound.taken) && outbound.sendersGone == old(outbound.sendersGone)
  {
    var msg := queue.Take();
    o := Dispatch(outbound, conn, ids, client, env, msg);
  }

  /**
   * The worker's loop over the messages waiting in `queue`, sending to `outbound`: the
   * messages taken are the ones the run handles, and the outcome is how the last one ended.
   */
  method TakeAll(queue: Queue.Channel, outbound: Queue.Channel, conn: Connection, ids: Oracle.Ids,
                 client: Http.HttpClient, env: Env) returns (last: FedInbox.Outcome)
    requires queue != outbound && queue.Valid() && outbound.Valid()
    modifies queue, outbound, conn, ids, client
    ensures queue.Valid() && outbound.Valid()
    ensures var d := Drain(StepOf(env, ids.source), old(Current(conn, ids, client, outbound)), old(queue.buffer));
      && Current(conn, ids, client, outbound) == d.world && last == d.last
      && queue.buffer == old(queue.buffer)[d.handled..]
      && queue.taken == old(queue.taken) + old(queue.buffer)[..d.handled]
    ensures queue.sent == old(queue.sent) && queue.sendersGone == old(queue.sendersGone)
    ensures queue.receiverGone == old(queue.receiverGone)
    ensures outbound.taken == old(outbound.taken) && outbound.sendersGone == old(outbound.sendersGone)
  {
    ghost var w0 := Current(conn, ids, client, outbound);
    ghost var msgs := queue.buffer;
    ghost var k := 0;
    last := FedInbox.Done;
    while queue.buffer != []
      invariant queue.Valid() && outbound.Valid() && last == FedInbox.Done
      invariant k <= |msgs| && queue.buffer == msgs[k..] && queue.taken == old(queue.taken) + msgs[..k]
      invariant Resumes(StepOf(env, ids.source), w0, msgs, k, Current(conn, ids, client, outbound))
      invariant queue.sent == old(queue.sent) && queue.sendersGone == old(queue.sendersGone)
      invariant queue.receiverGone == old(queue.receiverGone)
      invariant outbound.taken == old(outbound.taken) && outbound.sendersGone == old(outbound.sendersGone)
      decreases |queue.buffer|
    {
      DrainAdvance(StepOf(env, ids.source), w0, msgs, k, Current(conn, ids, client, outbound));
      assert msgs[..k + 1] == msgs[..k] + [msgs[k]];
      last := TakeOne(queue, outbound, conn, ids, client, env);
      k := k + 1;
      if last != FedInbox.Done {
        return;
      }
    }
  }

  /**
   * `run`: the worker drains its queue. Without concurrency nothing arrives while it runs:
   * with the queue empty it ends if every sender is gone and otherwise waits (`Idle`); a
   * handler that panics ends it and drops its receiving end.
   */
  method Run(queue: Queue.Channel, outbound: Queue.Channel, conn: Connection, ids: Oracle.Ids,
             client: Http.HttpClient, env: Env) returns (stop: Stop)
    requires queue != outbound && queue.Valid() && outbound.Valid()
    modifies queue, outbound, conn, ids, client
    ensures queue.Valid() && outbound.Valid()
    ensures var d := Drain(StepOf(env, ids.source), old(Current(conn, ids, client, outbound)), old(queue.buffer));
      && Current(conn, ids, client, outbound) == d.world
      && queue.buffer == old(queue.buffer)[d.handled..]
      && queue.taken == old(queue.taken) + old(queue.buffer)[..d.handled]
      && (stop == Drained <==> d.last == FedInbox.Done && queue.sendersGone)
      && (stop == Idle <==> d.last == FedInbox.Done && !queue.sendersGone)
      && (stop == Panicked <==> d.last == FedInbox.Panic)
      && (stop == Stalled <==> d.last == FedInbox.Blocked)
      && queue.receiverGone == (old(queue.receiverGone) || stop == Panicked)
    ensures queue.sent == old(queue.sent) && queue.sendersGone == old(queue.sendersGone)
    ensures outbound.taken == old(outbound.taken) && outbound.sendersGone == old(outbound.sendersGone)
  {
    var last := TakeAll(queue, outbound, conn, ids, client, env);
    if last == FedInbox.Panic {
      queue.DropReceiver();
      stop := Panicked;
    } else if last == FedInbox.Blocked {
      stop := Stalled;
    } else {
      stop := if queue.sendersGone then Drained else Idle;
    }
  }

  // ------------------------------------------------------------ properties

  /**
   * Messages are handled one after another in queue order: a run over `a + b` that gets
   * through `a` is the run over `a` followed by a run over `b` from where it left off.
   */
  lemma {:induction false} DrainAppend(step: (World, Queue.QueueMessage) -> (World, FedInbox.Outcome), w: World,
                                       a: seq<Queue.QueueMessage>, b: seq<Queue.QueueMessage>)
    requires Drain(step, w, a).last == FedInbox.Done
    ensures var d := Drain(step, w, a + b);
      var r := Drain(step, Drain(step, w, a).world, b);
      d.world == r.world && d.handled == |a| + r.handled && d.last == r.last
    decreases |a|
  {
    if |a| > 0 {
      DrainFirst(step, w, a);
      DrainFirst(step, w, a + b);
      assert (a + b)[0] == a[0] && (a + b)[1..] == a[1..] + b;
      DrainAppend(step, step(w, a[0]).0, a[1..], b);
    } else {
      assert a + b == b;
    }
  }

  /** A run that stops inside `a` never looks at what is queued after it. */
  lemma {:induction false} DrainStops(step: (World, Queue.QueueMessage) -> (World, FedInbox.Outcome), w: World,
                                      a: seq<Queue.QueueMessage>, b: seq<Queue.QueueMessage>)
    requires Drain(step, w, a).last != FedInbox.Done
    ensures var d := Drain(step, w, a + b);
      var r := Drain(step, w, a);
      d.world == r.world && d.handled == r.handled && d.last == r.last
    decreases |a|
  {
    DrainFirst(step, w, a);
    DrainFirst(step, w, a + b);
    assert (a + b)[0] == a[0] && (a + b)[1..] == a[1..] + b;
    if step(w, a[0]).1 == FedInbox.Done {
      DrainStops(step, step(w, a[0]).0, a[1..], b);
    }
  }

  /** A heartbeat only logs: dropping it from the queue changes nothing but the count. */
  lemma HeartbeatOnlyLogs(env: Env, src: nat -> string, w: World,
                          a: seq<Queue.QueueMessage>, b: seq<Queue.QueueMessage>)
    requires Drain(StepOf(env, src), w, a).last == FedInbox.Done
    ensures var d := Drain(StepOf(env, src), w, a + [Queue.Heartbeat] + b);
      var r := Drain(StepOf(env, src), w, a + b);
      d.world == r.world && d.handled == r.handled + 1 && d.last == r.last
  {
    var wa := Drain(StepOf(env, src), w, a).world;
    DrainAppend(StepOf(env, src), w, a, [Queue.Heartbeat] + b);
    DrainAppend(StepOf(env, src), w, a, b);
    DrainFirst(StepOf(env, src), wa, [Queue.Heartbeat] + b);
    assert ([Queue.Heartbeat] + b)[1..] == b;
    assert a + [Queue.Heartbeat] + b == a + ([Queue.Heartbeat] + b);
  }

  /** One message keeps the store's key invariant. */
  lemma StepKeepsValid(env: Env, src: nat -> string, w: World, msg: Queue.QueueMessage)
    requires Valid(w.state.tables)
    ensures Valid(Step(env, src, w, msg).0.state.tables)
  {
    match msg
    case Heartbeat =>
    case Inbound(req) =>
      FedInbox.HandlersKeepValid(env.inbox, src, w.state, req);
    case Outbound(req) =>
      FedOutbox.OutboxKeepsValid(env.outbox, src, w.state, req);
  }

  /** No run of the worker breaks the store's key invariant. */
  lemma {:induction false} DrainKeepsValid(env: Env, src: nat -> string, w: World, msgs: seq<Queue.QueueMessage>)
    requires Valid(w.state.tables)
    ensures Valid(Drain(StepOf(env, src), w, msgs).world.state.tables)
    decreases |msgs|
  {
    if |msgs| > 0 {
      DrainFirst(StepOf(env, src), w, msgs);
      StepKeepsValid(env, src, w, msgs[0]);
      if Step(env, src, w, msgs[0]).1 == FedInbox.Done {
        DrainKeepsValid(env, src, Step(env, src, w, msgs[0]).0, msgs[1..]);
      }
    }
  }

  /**
   * What one message adds to the outbound queue: nothing, or (for an inbound Follow) one
   * Accept, and never past the queue's capacity. The wire only grows.
   */
  predicate Grows(w: World, w2: World, n: nat) {
    && w.outbound <= w2.outbound && |w2.outbound| <= |w.outbound| + n
    && (forall i :: |w.outbound| <= i < |w2.outbound| ==>
          w2.outbound[i].Outbound? && w2.outbound[i].outbound.Accept?)
    && (|w.outbound| <= Queue.CAPACITY ==> |w2.outbound| <= Queue.CAPACITY)
    && w.sent <= w2.sent && w2.outboundGone == w.outboundGone
  }

  lemma StepGrows(env: Env, src: nat -> string, w: World, msg: Queue.QueueMessage)
    ensures Grows(w, Step(env, src, w, msg).0, 1)
  {
    var w2 := Step(env, src, w, msg).0;
    match msg
    case Heartbeat =>
      AppendGrows(w, w2, []);
    case Inbound(req) =>
      var e := FedInbox.InboxEffect(env.inbox, src, w.state, req);
      FedInbox.OnlyFollowQueues(env.inbox, src, w.state, req);
      InboundGrows(w, w2, e, FedInbox.OutcomeOf(e, w.outboundGone, |w.outbound|));
    case Outbound(req) =>
      AppendGrows(w, w2, []);
  }

  /** An inbound message queues its Accept only when it ends normally. */
  lemma InboundGrows(w: World, w2: World, e: FedInbox.Effect, o: FedInbox.Outcome)
    requires e.message.Some? ==> e.message.value.Outbound? && e.message.value.outbound.Accept?
    requires o == FedInbox.OutcomeOf(e, w.outboundGone, |w.outbound|)
    requires w2.outbound == if o == FedInbox.Done && e.message.Some? then w.outbound + [e.message.value] else w.outbound
    requires w.sent <= w2.sent && w2.outboundGone == w.outboundGone
    ensures Grows(w, w2, 1)
  {
    if o == FedInbox.Done && e.message.Some? {
      AppendGrows(w, w2, [e.message.value]);
    } else {
      AppendGrows(w, w2, []);
    }
  }

  /** Appending at most one Accept, while there is room for it, is growth by one. */
  lemma AppendGrows(w: World, w2: World, extra: seq<Queue.QueueMessage>)
    requires w2.outbound == w.outbound + extra && |extra| <= 1
    requires forall m | m in extra :: m.Outbound? && m.outbound.Accept?
    requires |extra| == 1 ==> |w.outbound| != Queue.CAPACITY
    requires w.sent <= w2.sent && w2.outboundGone == w.outboundGone
    ensures Grows(w, w2, 1)
  {
    forall i | |w.outbound| <= i < |w2.outbound|
      ensures w2.outbound[i].Outbound? && w2.outbound[i].outbound.Accept?
    {
      assert w2.outbound[i] in extra;
    }
  }

  /** Growth over two stretches adds up. */
  lemma GrowsTrans(w1: World, w2: World, w3: World, m: nat, n: nat)
    requires Grows(w1, w2, m) && Grows(w2, w3, n)
    ensures Grows(w1, w3, m + n)
  {
    forall i | |w1.outbound| <= i < |w3.outbound|
      ensures w3.outbound[i].Outbound? && w3.outbound[i].outbound.Accept?
    {
      if i < |w2.outbound| {
        assert w3.outbound[i] == w2.outbound[i];
      }
    }
  }

  /**
   * A run only appends to the outbound queue, at most one Accept per message it handles, and
   * never fills the queue past its capacity; it only appends to the wire.
   */
  lemma {:induction false} DrainGrows(env: Env, src: nat -> string, w: World, msgs: seq<Queue.QueueMessage>)
    ensures var d := Drain(StepOf(env, src), w, msgs); Grows(w, d.world, d.handled)
    decreases |msgs|
  {
    if |msgs| > 0 {
      DrainFirst(StepOf(env, src), w, msgs);
      var w1 := Step(env, src, w, msgs[0]).0;
      StepGrows(env, src, w, msgs[0]);
      if Step(env, src, w, msgs[0]).1 == FedInbox.Done {
        DrainGrows(env, src, w1, msgs[1..]);
        GrowsTrans(w, w1, Drain(StepOf(env, src), w1, msgs[1..]).world, 1, Drain(StepOf(env, src), w1, msgs[1..]).handled);
      }
    }
  }
}
