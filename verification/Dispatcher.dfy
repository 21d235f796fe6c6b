/**
 RequestDispatcher as the source runs it: fields updated in place, erase loops, a drain loop
 and handlers that call back into the same object (src/protocol/dispatcher.cpp).
 */
module Dispatcher {
  import opened Wrappers
  import opened Sequences
  import opened Errors
  import opened OrderedMap
  import opened JsonValues
  import opened Messages
  import opened Link
  import opened DispatcherState
  import Ops = DispatcherOps
  import Replies = DispatcherReplies
  import opened OutletObject

  lemma {:induction false} LiveQueueSnoc(q: seq<Waiting>, w: Waiting, now: int)
    ensures LiveQueue(q + [w], now) == LiveQueue(q, now) + (if w.deadline > now then [w] else [])
  {
    if q == [] {
      assert q + [w] == [w];
    } else {
      assert (q + [w])[1..] == q[1..] + [w];
      LiveQueueSnoc(q[1..], w, now);
      Regroup(if q[0].deadline > now then [q[0]] else [], LiveQueue(q[1..], now), if w.deadline > now then [w] else []);
    }
  }

  lemma {:induction false} QueueTimeoutsSnoc(q: seq<Waiting>, w: Waiting, now: int)
    ensures QueueTimeouts(q + [w], now) ==
            QueueTimeouts(q, now) + (if w.deadline > now then [] else CallsOf(w.tickets, TimedOut, now))
  {
    if q == [] {
      assert q + [w] == [w];
    } else {
      assert (q + [w])[1..] == q[1..] + [w];
      QueueTimeoutsSnoc(q[1..], w, now);
      Regroup(if q[0].deadline > now then [] else CallsOf(q[0].tickets, TimedOut, now), QueueTimeouts(q[1..], now),
              if w.deadline > now then [] else CallsOf(w.tickets, TimedOut, now));
    }
  }

  lemma {:induction false} LivePendingSnoc(p: Entries<Pending>, x: (string, Pending), now: int)
    ensures LivePending(p + [x], now) == LivePending(p, now) + (if x.1.deadline > now then [x] else [])
  {
    if p == [] {
      assert p + [x] == [x];
    } else {
      assert (p + [x])[1..] == p[1..] + [x];
      LivePendingSnoc(p[1..], x, now);
      Regroup(if p[0].1.deadline > now then [p[0]] else [], LivePending(p[1..], now), if x.1.deadline > now then [x] else []);
    }
  }

  lemma {:induction false} PendingTimeoutsSnoc(p: Entries<Pending>, x: (string, Pending), now: int)
    ensures PendingTimeouts(p + [x], now) ==
            PendingTimeouts(p, now) + (if x.1.deadline > now then [] else CallsOf(x.1.tickets, TimedOut, now))
  {
    if p == [] {
      assert p + [x] == [x];
    } else {
      assert (p + [x])[1..] == p[1..] + [x];
      PendingTimeoutsSnoc(p[1..], x, now);
      Regroup(if p[0].1.deadline > now then [] else CallsOf(p[0].1.tickets, TimedOut, now), PendingTimeouts(p[1..], now),
              if x.1.deadline > now then [] else CallsOf(x.1.tickets, TimedOut, now));
    }
  }

  /** One turn of an erase loop over all: the scanned survivors, then what is still to be scanned. */
  lemma ScanTurn<T>(live: seq<T>, all: seq<T>, k: nat)
    requires k < |all|
    ensures (live + all[k..])[|live|] == all[k]
    ensures (live + all[k..])[..|live|] + (live + all[k..])[|live| + 1..] == live + all[k + 1..]
    ensures live + all[k..] == live + [all[k]] + all[k + 1..]
  {
  }

  lemma LiveQueueTurn(q: seq<Waiting>, k: nat, now: int)
    requires k < |q|
    ensures LiveQueue(q[..k + 1], now) == LiveQueue(q[..k], now) + (if q[k].deadline > now then [q[k]] else [])
    ensures QueueTimeouts(q[..k + 1], now) ==
            QueueTimeouts(q[..k], now) + (if q[k].deadline > now then [] else CallsOf(q[k].tickets, TimedOut, now))
  {
    LiveQueueSnoc(q[..k], q[k], now);
    QueueTimeoutsSnoc(q[..k], q[k], now);
    assert q[..k] + [q[k]] == q[..k + 1];
  }

  lemma LivePendingTurn(p: Entries<Pending>, k: nat, now: int)
    requires k < |p|
    ensures LivePending(p[..k + 1], now) == LivePending(p[..k], now) + (if p[k].1.deadline > now then [p[k]] else [])
    ensures PendingTimeouts(p[..k + 1], now) ==
            PendingTimeouts(p[..k], now) + (if p[k].1.deadline > now then [] else CallsOf(p[k].1.tickets, TimedOut, now))
  {
    LivePendingSnoc(p[..k], p[k], now);
    PendingTimeoutsSnoc(p[..k], p[k], now);
    assert p[..k] + [p[k]] == p[..k + 1];
  }

  /** The erase loop has passed the first k entries of q0 and stands at position i of what is left. */
  ghost predicate QueueScanned(q0: seq<Waiting>, c0: seq<Call>, m0: Metrics, k: nat, i: nat,
                               queue: seq<Waiting>, called: seq<Call>, metrics: Metrics, now: int)
    requires k <= |q0|
  {
    && i == |LiveQueue(q0[..k], now)| && i <= k
    && queue == LiveQueue(q0[..k], now) + q0[k..] && called == c0 + QueueTimeouts(q0[..k], now)
    && metrics == m0.(timeouts := m0.timeouts + k - i)
  }

  lemma QueueScanTurn(q0: seq<Waiting>, c0: seq<Call>, m0: Metrics, k: nat, i: nat,
                      queue: seq<Waiting>, called: seq<Call>, metrics: Metrics, now: int)
    requires k <= |q0| && QueueScanned(q0, c0, m0, k, i, queue, called, metrics, now) && i < |queue|
    ensures k < |q0| && queue[i] == q0[k]
    ensures queue[i].deadline > now ==> QueueScanned(q0, c0, m0, k + 1, i + 1, queue, called, metrics, now)
    ensures queue[i].deadline <= now ==>
              QueueScanned(q0, c0, m0, k + 1, i, queue[..i] + queue[i + 1..],
                           called + CallsOf(queue[i].tickets, TimedOut, now),
                           metrics.(timeouts := metrics.timeouts + 1), now)
  {
    LiveQueueTurn(q0, k, now);
    ScanTurn(LiveQueue(q0[..k], now), q0, k);
    Regroup(c0, QueueTimeouts(q0[..k], now), CallsOf(q0[k].tickets, TimedOut, now));
    hide LiveQueue, QueueTimeouts;
  }

  ghost predicate PendingScanned(p0: Entries<Pending>, c0: seq<Call>, m0: Metrics, k: nat, i: nat,
                                 pending: Entries<Pending>, called: seq<Call>, metrics: Metrics, now: int)
    requires k <= |p0|
  {
    && i == |LivePending(p0[..k], now)| && i <= k
    && pending == LivePending(p0[..k], now) + p0[k..] && called == c0 + PendingTimeouts(p0[..k], now)
    && metrics == m0.(timeouts := m0.timeouts + k - i)
  }

  lemma PendingScanTurn(p0: Entries<Pending>, c0: seq<Call>, m0: Metrics, k: nat, i: nat,
                        pending: Entries<Pending>, called: seq<Call>, metrics: Metrics, now: int)
    requires k <= |p0| && PendingScanned(p0, c0, m0, k, i, pending, called, metrics, now) && i < |pending|
    ensures k < |p0| && pending[i] == p0[k]
    ensures pending[i].1.deadline > now ==> PendingScanned(p0, c0, m0, k + 1, i + 1, pending, called, metrics, now)
    ensures pending[i].1.deadline <= now ==>
              PendingScanned(p0, c0, m0, k + 1, i, pending[..i] + pending[i + 1..],
                             called + CallsOf(pending[i].1.tickets, TimedOut, now),
                             metrics.(timeouts := metrics.timeouts + 1), now)
  {
    LivePendingTurn(p0, k, now);
    ScanTurn(LivePending(p0[..k], now), p0, k);
    Regroup(c0, PendingTimeouts(p0[..k], now), CallsOf(p0[k].1.tickets, TimedOut, now));
    hide LivePending, PendingTimeouts;
  }

  class RequestDispatcher {
    const env: Env
    const outlet: Outlet
    var queue: seq<Waiting>
    var pending: Entries<Pending>
    var sequence: nat
    var tokens: real
    var lastRefill: int
    var refillInitialised: bool
    var sendingEnabled: bool
    var draining: bool
    var metrics: Metrics

    ghost var submitted: multiset<Ticket>
    ghost var calling: multiset<Ticket>
    ghost var called: seq<Call>
    ghost var sent: seq<Sent>
    ghost var epoch: nat

    ghost function View(): Core
      reads this, outlet
    {
      Core(outlet.View(), queue, pending, sequence, tokens, lastRefill, refillInitialised, sendingEnabled,
           draining, metrics, submitted, calling, called, sent, epoch)
    }

    /** The parts belong together; they are never replaced. */
    ghost predicate Valid() {
      outlet.env == env
    }

    constructor (env: Env, outlet: Outlet)
      requires outlet.env == env
      ensures this.env == env && this.outlet == outlet && Valid()
      ensures View() == Fresh(env, outlet.View())
    {
      this.env, this.outlet := env, outlet;
      queue, pending, sequence := [], [], 0;
      tokens, lastRefill, refillInitialised := env.budget.burst, 0, false;
      sendingEnabled, draining := false, false;
      metrics := Metrics(0, 0, 0, 0, 0, 0, 0, 0, 0);
      submitted, calling, called, sent, epoch := multiset{}, multiset{}, [], [], 0;
    }

    method Refill(now: int)
      requires Valid()
      modifies this`tokens, this`lastRefill, this`refillInitialised
      ensures View() == DispatcherState.Refill(env, old(View()), now)
    {
      if !refillInitialised {
        lastRefill := now;
        refillInitialised := true;
        return;
      }
      if now <= lastRefill {
        return;
      }
      tokens := tokens + Accrued(env.budget, now - lastRefill);
      if tokens >= env.budget.burst {
        tokens := env.budget.burst;
      }
      lastRefill := now;
    }

    /** complete() with a timeout: none of these handlers submits again. */
    method ReportTimeouts(ts: seq<Ticket>, now: int)
      modifies this`called
      ensures called == old(called) + CallsOf(ts, TimedOut, now)
    {
      called := called + CallsOf(ts, TimedOut, now);
    }

    method ExpireQueue(now: int)
      modifies this`queue, this`metrics, this`called
      ensures View() == DispatcherState.ExpireQueue(old(View()), now)
    {
      EraseExpiredQueue(now);
    }

    method EraseExpiredQueue(now: int)
      modifies this`queue, this`metrics, this`called
      ensures queue == LiveQueue(old(queue), now) && |queue| <= |old(queue)|
      ensures called == old(called) + QueueTimeouts(old(queue), now)
      ensures metrics == old(metrics).(timeouts := old(metrics).timeouts + |old(queue)| - |queue|)
    {
      ghost var q0, c0, m0, k := queue, called, metrics, 0;
      var i := 0;
      assert q0[0..] == q0 && c0 + [] == c0;
      while i < |queue|
        invariant k <= |q0| && QueueScanned(q0, c0, m0, k, i, queue, called, metrics, now)
        decreases |q0| - k
      {
        QueueScanTurn(q0, c0, m0, k, i, queue, called, metrics, now);
        if queue[i].deadline <= now {
          var tickets := queue[i].tickets;
          metrics := metrics.(timeouts := metrics.timeouts + 1);
          queue := queue[..i] + queue[i + 1..];
          ReportTimeouts(tickets, now);
        } else {
          i := i + 1;
        }
        k := k + 1;
      }
      assert q0[..k] == q0 && q0[k..] == [] && LiveQueue(q0, now) + [] == LiveQueue(q0, now);
    }

    method ExpirePending(now: int)
      modifies this`pending, this`metrics, this`called
      ensures View() == DispatcherState.ExpirePending(old(View()), now)
    {
      EraseExpiredPending(now);
    }

    method EraseExpiredPending(now: int)
      modifies this`pending, this`metrics, this`called
      ensures pending == LivePending(old(pending), now) && |pending| <= |old(pending)|
      ensures called == old(called) + PendingTimeouts(old(pending), now)
      ensures metrics == old(metrics).(timeouts := old(metrics).timeouts + |old(pending)| - |pending|)
    {
      ghost var p0, c0, m0, k := pending, called, metrics, 0;
      var i := 0;
      assert p0[0..] == p0 && c0 + [] == c0;
      while i < |pending|
        invariant k <= |p0| && PendingScanned(p0, c0, m0, k, i, pending, called, metrics, now)
        decreases |p0| - k
      {
        PendingScanTurn(p0, c0, m0, k, i, pending, called, metrics, now);
        if pending[i].1.deadline <= now {
          var tickets := pending[i].1.tickets;
          metrics := metrics.(timeouts := metrics.timeouts + 1);
          pending := pending[..i] + pending[i + 1..];
          ReportTimeouts(tickets, now);
        } else {
          i := i + 1;
        }
        k := k + 1;
      }
      assert p0[..k] == p0 && p0[k..] == [] && LivePending(p0, now) + [] == LivePending(p0, now);
    }

    method Submit(req: Request, now: int)
      requires Valid() && Ops.Ready(env, View(), now)
      modifies this, outlet
      ensures Valid() && View() == Ops.Submit(env, old(View()), req, now)
      decreases if draining then 0 else 1, 0, 2, 0
    {
      var t := TicketFor(env, req, now);
      var joined := TryJoin(req.spec, t);
      if !joined {
        Ops.AppendSteps(env, View(), req.spec, t, now);
        Append(req.spec, t);
        Tick(now);
      }
    }

    /** Attach to a waiting request with the same key, if there is one. */
    method TryJoin(spec: RequestSpec, t: Ticket) returns (joined: bool)
      modifies this`queue, this`metrics, this`submitted
      ensures joined <==> Joins(old(View()), spec)
      ensures View() == if joined then Joined(old(View()), spec, t) else old(View())
    {
      if spec.coalesceKey == "" {
        return false;
      }
      var i := FindKey(spec.coalesceKey);
      if i == |queue| {
        return false;
      }
      queue := queue[i := JoinedEntry(queue[i], spec, t)];
      metrics := metrics.(submitted := metrics.submitted + 1, coalesced := metrics.coalesced + 1);
      submitted := submitted + multiset{t};
      return true;
    }

    method Append(spec: RequestSpec, t: Ticket)
      modifies this`queue, this`metrics, this`submitted, this`sequence
      ensures View() == Appended(old(View()), spec, t)
    {
      metrics := metrics.(submitted := metrics.submitted + 1);
      submitted := submitted + multiset{t};
      sequence := sequence + 1;
      queue := queue + [Waiting(spec, [t], t.due, sequence)];
    }

    method FindKey(key: string) returns (i: nat)
      ensures i == KeyIndex(queue, key)
    {
      i := 0;
      while i < |queue| && queue[i].spec.coalesceKey != key
        invariant i <= |queue|
        invariant KeyIndex(queue, key) == i + KeyIndex(queue[i..], key)
      {
        i := i + 1;
      }
    }

    method Tick(now: int)
      requires Valid() && Ops.Ready(env, View(), now)
      modifies this, outlet
      ensures Valid() && View() == Ops.Tick(env, old(View()), now)
      decreases if draining then 0 else 1, 0, 1, 0
    {
      Ops.ExpireSteps(env, View(), now);
      RefillAndExpire(now);
      Drain(now);
    }

    method RefillAndExpire(now: int)
      requires Valid()
      modifies this
      ensures Valid() && View() == Ops.Expire(env, old(View()), now)
    {
      Refill(now);
      ExpireQueue(now);
      ExpirePending(now);
    }

    method MinElement() returns (i: nat)
      requires queue != []
      ensures i == MinIndex(queue)
    {
      i := |queue| - 1;
      var j := |queue| - 1;
      while j > 0
        invariant 0 <= j <= i < |queue|
        invariant i == j + MinIndex(queue[j..])
      {
        j := j - 1;
        assert queue[j..][1..] == queue[j + 1..];
        if !Precedes(queue[i], queue[j]) {
          i := j;
        }
      }
      assert queue[0..] == queue;
    }

    method Drain(now: int)
      requires Valid() && Ops.Ready(env, View(), now) && refillInitialised && lastRefill == now
      modifies this, outlet
      ensures Valid() && View() == Ops.Drain(env, old(View()), now)
      decreases if draining then 0 else 1, 0, 0, 0
    {
      if !sendingEnabled || draining {
        return;
      }
      Ops.FlagSteps(env, View(), true, now);
      draining := true;
      ghost var start := View();
      while queue != [] && |pending| < env.budget.maxInFlight
        invariant Valid() && Ops.Draining(env, View(), now)
        invariant Ops.DrainLoop(env, View(), now) == Ops.DrainLoop(env, start, now)
        decreases Ops.QueueLoad(queue)
      {
        if tokens < 1.0 {
          metrics := metrics.(deferrals := metrics.deferrals + 1);
          draining := false;
          return;
        }
        SendNext(now);
      }
      draining := false;
    }

    /** One turn of the drain loop: the most urgent request goes out or fails. */
    method SendNext(now: int)
      requires Valid() && Ops.Draining(env, View(), now) && Ops.MaySend(env, View())
      modifies this, outlet
      ensures Valid() && Ops.Draining(env, View(), now)
      ensures Ops.DrainLoop(env, View(), now) == Ops.DrainLoop(env, old(View()), now)
      ensures Ops.QueueLoad(queue) < Ops.QueueLoad(old(queue))
      decreases 0, 0, 8, 0
    {
      ghost var start := View();
      var i := MinElement();
      var waiting := queue[i];
      queue := queue[..i] + queue[i + 1..];
      var result := outlet.EncodeAndSend(waiting.spec, now);
      match result {
        case Failure(error) => NoteFailure(start, waiting, error, now);
        case Success(id) => NoteSuccess(start, waiting, id, now);
      }
    }

    method NoteFailure(ghost start: Core, waiting: Waiting, error: Error, now: int)
      requires Valid() && Ops.Draining(env, start, now) && Ops.MaySend(env, start)
      requires waiting == start.queue[MinIndex(start.queue)]
      requires EncodeAndSend(env, start.link, waiting.spec, now) == (outlet.View(), Failure(error))
      requires View() == start.(link := outlet.View(), queue := Without(start.queue, MinIndex(start.queue)))
      modifies this, outlet
      ensures Valid() && Ops.Draining(env, View(), now)
      ensures Ops.DrainLoop(env, View(), now) == Ops.DrainLoop(env, start, now)
      ensures Ops.QueueLoad(queue) < Ops.QueueLoad(start.queue)
      decreases 0, 0, 7, 0
    {
      ghost var link := outlet.View();
      ghost var taken := TakenFailed(start, MinIndex(start.queue), link);
      metrics := metrics.(sendFailures := metrics.sendFailures + 1);
      calling := calling + multiset(waiting.tickets);
      assert View() == taken;
      Ops.FailureTurn(env, start, now, link, error);
      Complete(waiting.tickets, Failed(error), now);
    }

    method NoteSuccess(ghost start: Core, waiting: Waiting, id: string, now: int)
      requires Valid() && Ops.Draining(env, start, now) && Ops.MaySend(env, start)
      requires waiting == start.queue[MinIndex(start.queue)]
      requires EncodeAndSend(env, start.link, waiting.spec, now) == (outlet.View(), Success(id))
      requires View() == start.(link := outlet.View(), queue := Without(start.queue, MinIndex(start.queue)))
      modifies this
      ensures Valid() && Ops.Draining(env, View(), now)
      ensures Ops.DrainLoop(env, View(), now) == Ops.DrainLoop(env, start, now)
      ensures Ops.QueueLoad(queue) < Ops.QueueLoad(start.queue)
    {
      ghost var link := outlet.View();
      tokens := tokens - 1.0;
      metrics := metrics.(sent := metrics.sent + 1);
      pending := Emplace(pending, id, Pending(waiting.spec.kind, waiting.tickets, waiting.deadline));
      sent := sent + [Sent(id, waiting, now)];
      assert View() == TakenSent(start, MinIndex(start.queue), link, id, now);
      Ops.SuccessTurn(env, start, now, link, id);
    }

    method Complete(ts: seq<Ticket>, outcome: Outcome, now: int)
      requires Valid() && Ops.MayComplete(env, View(), ts, outcome, now)
      modifies this, outlet
      ensures Valid() && View() == Ops.Complete(env, old(View()), ts, outcome, now)
      decreases if draining then 0 else 1, 0, 6, 0
    {
      ghost var final, nested := Ops.Complete(env, View(), ts, outcome, now), draining;
      var rest := ts;
      while rest != []
        invariant Valid() && draining == nested
        invariant Ops.MayComplete(env, View(), rest, outcome, now)
        invariant Ops.Complete(env, View(), rest, outcome, now) == final
      {
        CompleteFirst(rest, outcome, now);
        rest := rest[1..];
      }
    }

    method CompleteFirst(ts: seq<Ticket>, outcome: Outcome, now: int)
      requires Valid() && Ops.MayComplete(env, View(), ts, outcome, now) && ts != []
      modifies this, outlet
      ensures Valid() && draining == old(draining)
      ensures Ops.MayComplete(env, View(), ts[1..], outcome, now)
      ensures Ops.Complete(env, View(), ts[1..], outcome, now) == Ops.Complete(env, old(View()), ts, outcome, now)
      decreases if draining then 0 else 1, 0, 5, 0
    {
      Ops.CompleteTurn(env, View(), ts, outcome, now);
      CallHandler(ts[0], outcome, now);
    }

    /** handler(result), and whatever the handler submits from within the call. */
    method CallHandler(t: Ticket, outcome: Outcome, now: int)
      requires Valid() && Ops.Ready(env, Logged(View(), t, outcome, now), now)
      modifies this, outlet
      ensures Valid()
      ensures View() == Ops.SubmitAll(env, Logged(old(View()), t, outcome, now), t.handler.followUps, now)
      decreases if draining then 0 else 1, 0, 4, 0
    {
      calling := calling - multiset{t};
      called := called + [Call(t, outcome, now)];
      assert View() == Logged(old(View()), t, outcome, now);
      SubmitEach(t.handler.followUps, now);
    }

    method SubmitEach(requests: seq<Request>, now: int)
      requires Valid() && Ops.Ready(env, View(), now)
      modifies this, outlet
      ensures Valid() && View() == Ops.SubmitAll(env, old(View()), requests, now)
      decreases if draining then 0 else 1, 0, 3, 0
    {
      ghost var final, nested := Ops.SubmitAll(env, View(), requests, now), draining;
      var rest := requests;
      while rest != []
        invariant Valid() && Ops.Ready(env, View(), now) && draining == nested
        invariant Ops.SubmitAll(env, View(), rest, now) == final
      {
        Ops.SubmitTurn(env, View(), rest, now);
        Submit(rest[0], now);
        rest := rest[1..];
      }
    }

    method OnMessage(message: Json, now: int) returns (consumed: bool)
      requires Valid() && Ops.Ready(env, View(), now)
      modifies this, outlet
      ensures Valid() && (View(), consumed) == Replies.OnMessage(env, old(View()), message, now)
    {
      hide Ops.Complete, Ops.Ready;
      var id := message.StringAt("in_reply_to");
      if id == "" {
        return false;
      }
      if !Has(pending, id) {
        return true;
      }
      TakeReply(message, now);
      return true;
    }

    /** The open request leaves, and its handlers are called. */
    method TakeReply(message: Json, now: int)
      requires Valid() && Ops.Ready(env, View(), now) && Has(pending, message.StringAt("in_reply_to"))
      requires message.StringAt("in_reply_to") != ""
      modifies this, outlet
      ensures Valid() && View() == Replies.OnMessage(env, old(View()), message, now).0
    {
      hide Ops.Complete, Ops.Ready;
      var id, kind := message.StringAt("in_reply_to"), message.StringAt("type");
      var p := Find(pending, id).value;
      Replies.ReplySteps(env, View(), message, now);
      pending := Remove(pending, id);
      calling := calling + multiset(p.tickets);
      if ResponseAllowed(p.kind, kind) {
        metrics := metrics.(completed := metrics.completed + 1);
        assert View() == TakenReply(old(View()), id, true);
        Complete(p.tickets, Answered(message), now);
      } else {
        metrics := metrics.(unexpected := metrics.unexpected + 1);
        assert View() == TakenReply(old(View()), id, false);
        Complete(p.tickets, Failed(Error(Protocol, UnexpectedResponseType)), now);
      }
    }

    method FailAll(error: Error, now: int)
      requires Valid() && Replies.Closing(env, View(), now)
      modifies this, outlet
      ensures Valid() && View() == Replies.FailAll(env, old(View()), error, now)
    {
      hide Replies.FailGroups, Ops.Ready;
      var takenPending, takenQueue := pending, queue;
      pending, queue := [], [];
      metrics := metrics.(disconnectFailures := metrics.disconnectFailures + |takenPending| + |takenQueue|);
      calling := calling + PendingTickets(takenPending) + QueueTickets(takenQueue);
      assert View() == TakenAll(old(View()));
      Replies.GroupTicketsOfPending(takenPending);
      Replies.GroupTicketsOfQueue(takenQueue);
      FailEach(Replies.PendingGroups(takenPending), error, now);
      FailEach(Replies.QueueGroups(takenQueue), error, now);
    }

    /** complete() on each handler list in turn. */
    method FailEach(gs: seq<seq<Ticket>>, error: Error, now: int)
      requires Valid() && Ops.Ready(env, View(), now) && Replies.GroupTickets(gs) <= calling
      modifies this, outlet
      ensures Valid() && View() == Replies.FailGroups(env, old(View()), gs, error, now)
    {
      ghost var start := View();
      assert gs[0..] == gs;
      for i := 0 to |gs|
        invariant Valid() && Ops.Ready(env, View(), now) && Replies.GroupTickets(gs[i..]) <= calling
        invariant Replies.FailGroups(env, View(), gs[i..], error, now) == Replies.FailGroups(env, start, gs, error, now)
      {
        assert gs[i..][1..] == gs[i + 1..];
        Replies.FirstGroup(gs[i..], calling);
        Complete(gs[i], Failed(error), now);
      }
    }
  }
}
