/**
 The dispatcher's operations as functions of its state: submit, tick, drain, on_message and
 fail_all, with handlers that submit again from within their callback. Each carries the
 invariant through; `draining` stops a nested drain exactly as the source's flag does.
 */
module DispatcherOps {
  import opened Wrappers
  import opened Errors
  import opened OrderedMap
  import opened Messages
  import opened Link
  import opened DispatcherState
  import opened DispatcherInvariants
  import opened DispatcherSteps

  // ---------------------------------------------------------------- work still to come

  function HandlerLoad(h: Handler): nat { 1 + RequestsLoad(h.followUps) }

  function RequestsLoad(rs: seq<Request>): nat {
    if rs == [] then 0 else 1 + RequestLoad(rs[0]) + RequestsLoad(rs[1..])
  }

  function RequestLoad(r: Request): nat { HandlerLoad(r.handler) }

  function TicketsLoad(ts: seq<Ticket>): nat {
    if ts == [] then 0 else HandlerLoad(ts[0].handler) + TicketsLoad(ts[1..])
  }

  /** Queue entries and every request their handlers can ever submit. */
  function QueueLoad(q: seq<Waiting>): nat {
    if q == [] then 0 else 1 + TicketsLoad(q[0].tickets) + QueueLoad(q[1..])
  }

  lemma {:induction false} TicketsLoadConcat(a: seq<Ticket>, b: seq<Ticket>)
    ensures TicketsLoad(a + b) == TicketsLoad(a) + TicketsLoad(b)
  {
    if a == [] {
      assert a + b == b;
    } else {
      assert (a + b)[1..] == a[1..] + b;
      TicketsLoadConcat(a[1..], b);
    }
  }

  lemma {:induction false} QueueLoadConcat(a: seq<Waiting>, b: seq<Waiting>)
    ensures QueueLoad(a + b) == QueueLoad(a) + QueueLoad(b)
  {
    if a == [] {
      assert a + b == b;
    } else {
      assert (a + b)[1..] == a[1..] + b;
      QueueLoadConcat(a[1..], b);
    }
  }

  lemma QueueLoadAt(q: seq<Waiting>, i: nat)
    requires i < |q|
    ensures QueueLoad(q) == QueueLoad(Without(q, i)) + 1 + TicketsLoad(q[i].tickets)
  {
    hide QueueLoad;
    assert q == q[..i] + ([q[i]] + q[i + 1..]);
    QueueLoadConcat(q[..i], [q[i]] + q[i + 1..]);
    QueueLoadConcat(q[..i], q[i + 1..]);
    QueueLoadHead(q[i], q[i + 1..]);
  }

  lemma QueueLoadHead(w: Waiting, q: seq<Waiting>)
    ensures QueueLoad([w] + q) == QueueLoad(q) + 1 + TicketsLoad(w.tickets)
  {
    assert ([w] + q)[1..] == q;
  }

  lemma {:induction false} LiveQueueLoad(q: seq<Waiting>, now: int)
    ensures QueueLoad(LiveQueue(q, now)) <= QueueLoad(q)
  {
    if q != [] {
      LiveQueueLoad(q[1..], now);
      if q[0].deadline > now {
        assert LiveQueue(q, now)[1..] == LiveQueue(q[1..], now);
      } else {
        assert LiveQueue(q, now) == LiveQueue(q[1..], now);
      }
    }
  }

  lemma JoinedLoad(s: Core, spec: RequestSpec, t: Ticket)
    requires Joins(s, spec)
    ensures QueueLoad(Joined(s, spec, t).queue) == QueueLoad(s.queue) + HandlerLoad(t.handler)
  {
    var i := KeyIndex(s.queue, spec.coalesceKey);
    var w := JoinedEntry(s.queue[i], spec, t);
    QueueLoadAt(s.queue, i);
    QueueLoadAt(s.queue[i := w], i);
    assert Without(s.queue[i := w], i) == Without(s.queue, i);
    TicketsLoadConcat(s.queue[i].tickets, [t]);
    assert [t][1..] == [];
  }

  lemma AppendedLoad(s: Core, spec: RequestSpec, t: Ticket)
    ensures QueueLoad(Appended(s, spec, t).queue) == QueueLoad(s.queue) + 1 + HandlerLoad(t.handler)
  {
    var w := Waiting(spec, [t], t.due, s.sequence + 1);
    QueueLoadConcat(s.queue, [w]);
    assert [w][1..] == [] && [t][1..] == [];
    assert TicketsLoad([t]) == HandlerLoad(t.handler);
  }

  // ---------------------------------------------------------------- how states follow each other

  /**
   Ready and Follows are long; most proofs only pass them on. Both are sealed under a trivial
   predicate that appears in their trigger: a proof that needs the content mentions it.
   */
  predicate OpenReady(k: nat) { true }
  predicate OpenFollows(k: nat) { true }

  /** The invariant, at a time the clock has reached. */
  ghost predicate Ready(e: Env, s: Core, now: int) {
    forall k: nat {:trigger OpenReady(k)} :: OpenReady(k) ==>
      Inv(e, s) && (s.refillInitialised ==> s.lastRefill <= now) && QueueSeen(s.queue, now)
  }

  /** Unsealing Ready, and sealing it. */
  lemma ReadyHolds(e: Env, s: Core, now: int)
    requires Ready(e, s, now)
    ensures Inv(e, s) && (s.refillInitialised ==> s.lastRefill <= now) && QueueSeen(s.queue, now)
  {
    assert OpenReady(0);
  }

  lemma IsReady(e: Env, s: Core, now: int)
    requires Inv(e, s) && (s.refillInitialised ==> s.lastRefill <= now) && QueueSeen(s.queue, now)
    ensures Ready(e, s, now)
  {
  }

  ghost predicate Live(s: Core, now: int) { QueueLive(s.queue, now) && PendingLive(s.pending, now) }

  /** r comes after s by steps at time now: histories grow, and frames go out at that time only. */
  ghost predicate Follows(e: Env, s: Core, r: Core, now: int) {
    forall k: nat {:trigger OpenFollows(k)} :: OpenFollows(k) ==>
      && r.epoch == s.epoch && r.link.state == s.link.state
      && s.called <= r.called && s.sent <= r.sent && Signs(e.crypto, s.link, r.link)
      && |r.link.wire| - |s.link.wire| == |r.sent| - |s.sent|
      && r.link.lastTx == (if |r.sent| > |s.sent| then now else s.link.lastTx)
      && (forall i :: |s.sent| <= i < |r.sent| ==> r.sent[i].at == now)
      && s.submitted <= r.submitted && UrgentFirst(s, r) && OpensOnlyNew(s, r)
      && (Live(s, now) ==> Live(r, now))
  }

  /** Entry i of s.queue is entry j of r.queue, by now at least as urgent, and no frame sent in between was less so. */
  ghost predicate StillWaits(s: Core, r: Core, i: nat, j: nat)
    requires i < |s.queue| && j < |r.queue|
  {
    && s.queue[i].sequence == r.queue[j].sequence
    && r.queue[j].spec.priority.Rank() <= s.queue[i].spec.priority.Rank()
    && (forall k :: |s.sent| <= k < |r.sent| ==> !Precedes(s.queue[i], r.sent[k].request))
  }

  /** Strict priority: whatever waited in s and still waits in r was overtaken by nothing less urgent. */
  ghost predicate UrgentFirst(s: Core, r: Core) {
    && s.sequence <= r.sequence
    && (forall j :: 0 <= j < |r.queue| && r.queue[j].sequence <= s.sequence ==>
          exists i :: 0 <= i < |s.queue| && StillWaits(s, r, i, j))
  }

  /** A request that is open in r was open in s, or is one of the frames sent in between. */
  ghost predicate OpensOnlyNew(s: Core, r: Core) {
    forall id :: Has(r.pending, id) ==>
      Has(s.pending, id) || (exists k :: |s.sent| <= k < |r.sent| && r.sent[k].id == id)
  }

  lemma OpensOnlyNewTrans(a: Core, b: Core, c: Core)
    requires OpensOnlyNew(a, b) && OpensOnlyNew(b, c) && a.sent <= b.sent <= c.sent
    ensures OpensOnlyNew(a, c)
  {
    forall id | Has(c.pending, id) && !Has(a.pending, id)
      ensures exists k :: |a.sent| <= k < |c.sent| && c.sent[k].id == id
    {
      if Has(b.pending, id) {
        var k :| |a.sent| <= k < |b.sent| && b.sent[k].id == id;
        assert c.sent[k].id == id;
      }
    }
  }

  lemma {:induction false} LivePendingHas(p: Entries<Pending>, now: int, id: string)
    ensures Has(LivePending(p, now), id) ==> Has(p, id)
  {
    if p != [] {
      LivePendingHas(p[1..], now, id);
      if p[0].1.deadline > now {
        assert LivePending(p, now)[1..] == LivePending(p[1..], now);
      } else {
        assert LivePending(p, now) == LivePending(p[1..], now);
      }
    }
  }

  lemma SentOpensOnlyNew(s: Core, i: nat, link: Link, id: string, now: int)
    requires i < |s.queue|
    ensures OpensOnlyNew(s, TakenSent(s, i, link, id, now))
  {
    var r := TakenSent(s, i, link, id, now);
    var p := Pending(s.queue[i].spec.kind, s.queue[i].tickets, s.queue[i].deadline);
    forall q | Has(r.pending, q) && !Has(s.pending, q)
      ensures exists k :: |s.sent| <= k < |r.sent| && r.sent[k].id == q
    {
      FindAfterPut(s.pending, id, p, q);
      assert r.sent[|s.sent|].id == q;
    }
  }

  lemma UrgentFirstTrans(a: Core, b: Core, c: Core)
    requires UrgentFirst(a, b) && UrgentFirst(b, c) && a.sent <= b.sent <= c.sent
    ensures UrgentFirst(a, c)
  {
    forall j | 0 <= j < |c.queue| && c.queue[j].sequence <= a.sequence
      ensures exists i :: 0 <= i < |a.queue| && StillWaits(a, c, i, j)
    {
      var m :| 0 <= m < |b.queue| && StillWaits(b, c, m, j);
      var i :| 0 <= i < |a.queue| && StillWaits(a, b, i, m);
      forall k | |a.sent| <= k < |c.sent| ensures !Precedes(a.queue[i], c.sent[k].request) {
        if k < |b.sent| { assert c.sent[k] == b.sent[k]; }
      }
      assert StillWaits(a, c, i, j);
    }
  }

  /** Steps that send nothing and leave every waiting request as it is, or drop it, keep the order. */
  lemma ShorterQueueUrgentFirst(s: Core, r: Core)
    requires r.sent == s.sent && s.sequence <= r.sequence
    requires forall j :: 0 <= j < |r.queue| && r.queue[j].sequence <= s.sequence ==> r.queue[j] in s.queue
    ensures UrgentFirst(s, r)
  {
    forall j | 0 <= j < |r.queue| && r.queue[j].sequence <= s.sequence
      ensures exists i :: 0 <= i < |s.queue| && StillWaits(s, r, i, j)
    {
      var i :| 0 <= i < |s.queue| && s.queue[i] == r.queue[j];
      assert StillWaits(s, r, i, j);
    }
  }

  lemma JoinedUrgentFirst(s: Core, spec: RequestSpec, t: Ticket)
    requires Joins(s, spec)
    ensures UrgentFirst(s, Joined(s, spec, t))
  {
    var r := Joined(s, spec, t);
    forall j | 0 <= j < |r.queue| && r.queue[j].sequence <= s.sequence
      ensures exists i :: 0 <= i < |s.queue| && StillWaits(s, r, i, j)
    {
      assert StillWaits(s, r, j, j);
    }
  }

  lemma SentUrgentFirst(s: Core, i: nat, link: Link, id: string, now: int)
    requires i < |s.queue|
    requires forall j :: 0 <= j < |s.queue| ==> !Precedes(s.queue[j], s.queue[i])
    ensures UrgentFirst(s, TakenSent(s, i, link, id, now))
  {
    var r := TakenSent(s, i, link, id, now);
    WithoutIsShorter(s.queue, i);
    forall j | 0 <= j < |r.queue| && r.queue[j].sequence <= s.sequence
      ensures exists m :: 0 <= m < |s.queue| && StillWaits(s, r, m, j)
    {
      assert StillWaits(s, r, if j < i then j else j + 1, j);
    }
  }

  /** While a drain is under way, nothing nested in it sends. */
  ghost predicate Idles(e: Env, s: Core, r: Core) {
    && r.link == s.link && r.sent == s.sent && |r.pending| <= |s.pending|
    && (e.budget.rate >= 0.0 ==> s.tokens <= r.tokens)
  }

  ghost predicate Steady(s: Core, r: Core, now: int) {
    && r.draining == s.draining && r.sendingEnabled == s.sendingEnabled
    && (s.refillInitialised && s.lastRefill == now ==> r.refillInitialised && r.lastRefill == now)
  }

  /** The contract of the operations below: the invariant, the histories, and the work left. */
  ghost predicate Advances(e: Env, s: Core, r: Core, now: int, work: nat) {
    && Ready(e, r, now) && Follows(e, s, r, now) && Steady(s, r, now)
    && QueueLoad(r.queue) <= QueueLoad(s.queue) + work
  }

  lemma FollowsTrans(e: Env, a: Core, b: Core, c: Core, now: int)
    requires Follows(e, a, b, now) && Follows(e, b, c, now)
    ensures Follows(e, a, c, now)
  {
    assert OpenFollows(0);
    SignsTrans(e.crypto, a.link, b.link, c.link);
    UrgentFirstTrans(a, b, c);
    OpensOnlyNewTrans(a, b, c);
  }

  lemma FollowsSelf(e: Env, s: Core, now: int)
    ensures Follows(e, s, s, now)
  {
    ShorterQueueUrgentFirst(s, s);
  }

  // ---------------------------------------------------------------- the elementary steps, sealed

  /** tick up to its call of drain. */
  function Expire(e: Env, s: Core, now: int): Core {
    ExpirePending(ExpireQueue(Refill(e, s, now), now), now)
  }

  lemma ExpireKeepsInv(e: Env, s: Core, now: int)
    requires Inv(e, s) && (s.refillInitialised ==> s.lastRefill <= now)
    ensures Inv(e, Expire(e, s, now)) && Live(Expire(e, s, now), now)
    ensures Expire(e, s, now).refillInitialised && Expire(e, s, now).lastRefill == now
  {
    RefillKeepsInv(e, s, now);
    ExpireQueueKeepsInv(e, Refill(e, s, now), now);
    ExpirePendingKeepsInv(e, ExpireQueue(Refill(e, s, now), now), now);
  }

  lemma LiveQueueSeen(q: seq<Waiting>, now: int)
    requires QueueSeen(q, now)
    ensures QueueSeen(LiveQueue(q, now), now)
  {
    LiveQueueKeeps(q, now);
  }

  lemma ExpiredQueue(e: Env, s: Core, now: int)
    ensures Expire(e, s, now).queue == LiveQueue(s.queue, now)
  {
  }

  lemma ExpireReady(e: Env, s: Core, now: int)
    requires Ready(e, s, now)
    ensures Ready(e, Expire(e, s, now), now) && Live(Expire(e, s, now), now)
  {
    hide Inv;
    ReadyHolds(e, s, now);
    ExpireKeepsInv(e, s, now);
    LiveQueueSeen(s.queue, now);
    ExpiredQueue(e, s, now);
    IsReady(e, Expire(e, s, now), now);
  }

  lemma RefillAddsTokens(e: Env, s: Core, now: int)
    requires s.tokens <= e.budget.burst && e.budget.rate >= 0.0
    ensures Refill(e, s, now).tokens >= s.tokens
  {
  }

  lemma ExpireIdles(e: Env, s: Core, now: int)
    requires s.tokens <= e.budget.burst
    ensures Idles(e, s, Expire(e, s, now))
  {
    LivePendingShorter(s.pending, now);
    if e.budget.rate >= 0.0 {
      RefillAddsTokens(e, s, now);
    }
  }

  lemma ExpireSteps(e: Env, s: Core, now: int)
    requires Ready(e, s, now)
    ensures var r := Expire(e, s, now);
            && Advances(e, s, r, now, 0) && Idles(e, s, r)
            && r.calling == s.calling && r.refillInitialised && r.lastRefill == now && Live(r, now)
  {
    assert s.tokens <= e.budget.burst && (s.refillInitialised ==> s.lastRefill <= now) by {
      assert OpenReady(0);
    }
    ExpireReady(e, s, now);
    ExpireIdles(e, s, now);
    LiveQueueLoad(s.queue, now);
    ExpireFollows(e, s, now);
  }

  lemma ExpireOpensNothing(e: Env, s: Core, now: int)
    ensures OpensOnlyNew(s, Expire(e, s, now))
  {
    forall id | Has(Expire(e, s, now).pending, id) ensures Has(s.pending, id) {
      LivePendingHas(s.pending, now, id);
    }
  }

  /** Steps that send nothing. */
  lemma QuietFollows(e: Env, s: Core, r: Core, now: int)
    requires r.link == s.link && r.sent == s.sent && r.epoch == s.epoch
    requires s.called <= r.called && s.submitted <= r.submitted
    requires UrgentFirst(s, r) && OpensOnlyNew(s, r) && (Live(s, now) ==> Live(r, now))
    ensures Follows(e, s, r, now)
  {
  }

  lemma ExpireFollows(e: Env, s: Core, now: int)
    requires Live(Expire(e, s, now), now)
    ensures Follows(e, s, Expire(e, s, now), now)
  {
    LiveQueueKeeps(s.queue, now);
    ShorterQueueUrgentFirst(s, Expire(e, s, now));
    ExpireOpensNothing(e, s, now);
    QuietFollows(e, s, Expire(e, s, now), now);
  }

  lemma JoinLives(e: Env, s: Core, spec: RequestSpec, t: Ticket, now: int)
    requires Joins(s, spec)
    ensures Follows(e, s, Joined(s, spec, t), now)
  {
    JoinedUrgentFirst(s, spec, t);
  }

  lemma JoinSteps(e: Env, s: Core, spec: RequestSpec, t: Ticket, now: int)
    requires Ready(e, s, now) && Joins(s, spec) && t.at == now && MadeFor(t, spec)
    ensures Advances(e, s, Joined(s, spec, t), now, 1 + HandlerLoad(t.handler))
  {
    JoinLives(e, s, spec, t, now);
    JoinedLoad(s, spec, t);
    JoinReady(e, s, spec, t, now);
  }

  lemma JoinReady(e: Env, s: Core, spec: RequestSpec, t: Ticket, now: int)
    requires Ready(e, s, now) && Joins(s, spec) && t.at == now && MadeFor(t, spec)
    ensures Ready(e, Joined(s, spec, t), now)
  {
    ReadyHolds(e, s, now);
    JoinedKeepsInv(e, s, spec, t);
    JoinedSeen(s, spec, t, now);
    IsReady(e, Joined(s, spec, t), now);
  }

  lemma JoinedSeen(s: Core, spec: RequestSpec, t: Ticket, now: int)
    requires QueueSeen(s.queue, now) && Joins(s, spec) && t.at == now
    ensures QueueSeen(Joined(s, spec, t).queue, now)
  {
  }

  lemma AppendSteps(e: Env, s: Core, spec: RequestSpec, t: Ticket, now: int)
    requires Ready(e, s, now) && t.at == now && MadeFor(t, spec)
    ensures Ready(e, Appended(s, spec, t), now)
    ensures QueueLoad(Appended(s, spec, t).queue) == QueueLoad(s.queue) + 1 + HandlerLoad(t.handler)
  {
    AppendedLoad(s, spec, t);
    ReadyHolds(e, s, now);
    AppendedKeepsInv(e, s, spec, t);
    AppendedSeen(s, spec, t, now);
    IsReady(e, Appended(s, spec, t), now);
  }

  lemma AppendedSeen(s: Core, spec: RequestSpec, t: Ticket, now: int)
    requires QueueSeen(s.queue, now) && t.at == now
    ensures QueueSeen(Appended(s, spec, t).queue, now)
  {
  }

  /** Queueing and then ticking: what the tick leaves is live whatever was queued. */
  lemma AppendThenTick(e: Env, s: Core, spec: RequestSpec, t: Ticket, r: Core, now: int)
    requires Follows(e, Appended(s, spec, t), r, now) && Live(r, now)
    ensures Follows(e, s, r, now)
  {
    assert OpenFollows(0);
    ShorterQueueUrgentFirst(s, Appended(s, spec, t));
    UrgentFirstTrans(s, Appended(s, spec, t), r);
    OpensOnlyNewTrans(s, Appended(s, spec, t), r);
  }

  lemma LogReady(e: Env, s: Core, t: Ticket, outcome: Outcome, now: int)
    requires Ready(e, s, now) && t in s.calling && !outcome.TimedOut? && Justified(s.sent, t, outcome)
    ensures Ready(e, Logged(s, t, outcome, now), now)
  {
    assert OpenReady(0);
    LoggedKeepsInv(e, s, t, outcome, now);
  }

  lemma LogFollows(e: Env, s: Core, t: Ticket, outcome: Outcome, now: int)
    ensures Follows(e, s, Logged(s, t, outcome, now), now)
  {
    ShorterQueueUrgentFirst(s, Logged(s, t, outcome, now));
  }

  lemma LogSteps(e: Env, s: Core, t: Ticket, outcome: Outcome, now: int)
    requires Ready(e, s, now) && t in s.calling && !outcome.TimedOut? && Justified(s.sent, t, outcome)
    ensures Advances(e, s, Logged(s, t, outcome, now), now, 0)
  {
    LogReady(e, s, t, outcome, now);
    LogFollows(e, s, t, outcome, now);
  }

  ghost predicate AllJustified(sent: seq<Sent>, ts: seq<Ticket>, outcome: Outcome) {
    forall i :: 0 <= i < |ts| ==> Justified(sent, ts[i], outcome)
  }

  lemma JustifiedStays(e: Env, s: Core, r: Core, ts: seq<Ticket>, outcome: Outcome, now: int)
    requires Follows(e, s, r, now) && AllJustified(s.sent, ts, outcome)
    ensures AllJustified(r.sent, ts, outcome)
  {
    assert OpenFollows(0);
    forall i | 0 <= i < |ts| ensures Justified(r.sent, ts[i], outcome) {
      assert Justified(s.sent, ts[i], outcome);
      if outcome.Answered? {
        var k :| 0 <= k < |s.sent| && Answers(s.sent[k], ts[i], outcome.message);
        assert Answers(r.sent[k], ts[i], outcome.message);
      }
    }
  }

  lemma FailFollows(e: Env, s: Core, i: nat, link: Link, now: int)
    requires i < |s.queue| && link.state == s.link.state && link.auth == s.link.auth
    requires link.wire == s.link.wire && link.lastTx == s.link.lastTx && Signs(e.crypto, s.link, link)
    ensures Follows(e, s, TakenFailed(s, i, link), now)
  {
    WithoutIsShorter(s.queue, i);
    ShorterQueueUrgentFirst(s, TakenFailed(s, i, link));
  }

  lemma WithoutSeen(q: seq<Waiting>, i: nat, now: int)
    requires i < |q| && QueueSeen(q, now)
    ensures QueueSeen(Without(q, i), now)
  {
    WithoutIsShorter(q, i);
  }

  lemma FailReady(e: Env, s: Core, i: nat, link: Link, now: int)
    requires Ready(e, s, now) && i < |s.queue| && link.state == s.link.state && s.link.msgSeq <= link.msgSeq
    requires link.lastTx == s.link.lastTx
    ensures Ready(e, TakenFailed(s, i, link), now)
  {
    ReadyHolds(e, s, now);
    TakenFailedKeepsInv(e, s, i, link);
    WithoutSeen(s.queue, i, now);
    IsReady(e, TakenFailed(s, i, link), now);
  }

  lemma FailSteps(e: Env, s: Core, i: nat, link: Link, now: int)
    requires Ready(e, s, now) && i < |s.queue|
    requires link.state == s.link.state && link.auth == s.link.auth && s.link.msgSeq <= link.msgSeq
    requires link.wire == s.link.wire && link.lastTx == s.link.lastTx && Signs(e.crypto, s.link, link)
    ensures Ready(e, TakenFailed(s, i, link), now) && Follows(e, s, TakenFailed(s, i, link), now)
    ensures QueueLoad(TakenFailed(s, i, link).queue) + 1 + TicketsLoad(s.queue[i].tickets) == QueueLoad(s.queue)
  {
    QueueLoadAt(s.queue, i);
    FailFollows(e, s, i, link, now);
    FailReady(e, s, i, link, now);
  }

  lemma SendSteps(e: Env, s: Core, i: nat, link: Link, now: int)
    requires Ready(e, s, now) && i < |s.queue| && s.tokens >= 1.0 && |s.pending| < e.budget.maxInFlight
    requires forall j :: 0 <= j < |s.queue| ==> !Precedes(s.queue[j], s.queue[i])
    requires s.refillInitialised && s.lastRefill == now
    requires link.state == s.link.state == Running && link.msgSeq == s.link.msgSeq + 1 && link.auth == s.link.auth
    requires Signs(e.crypto, s.link, link) && |link.wire| == |s.link.wire| + 1 && link.lastTx == now
    requires FindMeta(s.queue[i].spec.kind).Some?
    ensures Ready(e, TakenSent(s, i, link, MsgId(link.msgSeq), now), now)
    ensures Follows(e, s, TakenSent(s, i, link, MsgId(link.msgSeq), now), now)
    ensures QueueLoad(TakenSent(s, i, link, MsgId(link.msgSeq), now).queue) < QueueLoad(s.queue)
  {
    QueueLoadAt(s.queue, i);
    SentStaysLive(s, i, link, MsgId(link.msgSeq), now);
    SentUrgentFirst(s, i, link, MsgId(link.msgSeq), now);
    SentOpensOnlyNew(s, i, link, MsgId(link.msgSeq), now);
    SendReady(e, s, i, link, now);
  }

  lemma SendReady(e: Env, s: Core, i: nat, link: Link, now: int)
    requires Ready(e, s, now) && i < |s.queue| && s.tokens >= 1.0 && |s.pending| < e.budget.maxInFlight
    requires forall j :: 0 <= j < |s.queue| ==> !Precedes(s.queue[j], s.queue[i])
    requires s.refillInitialised && s.lastRefill == now
    requires link.state == s.link.state == Running && link.msgSeq == s.link.msgSeq + 1 && link.lastTx == now
    requires FindMeta(s.queue[i].spec.kind).Some?
    ensures Ready(e, TakenSent(s, i, link, MsgId(link.msgSeq), now), now)
  {
    ReadyHolds(e, s, now);
    TakenSentKeepsInv(e, s, i, link, now);
    WithoutSeen(s.queue, i, now);
    IsReady(e, TakenSent(s, i, link, MsgId(link.msgSeq), now), now);
  }

  lemma SentStaysLive(s: Core, i: nat, link: Link, id: string, now: int)
    requires i < |s.queue|
    ensures Live(s, now) ==> Live(TakenSent(s, i, link, id, now), now)
  {
    var w := s.queue[i];
    var p := Pending(w.spec.kind, w.tickets, w.deadline);
    if Live(s, now) {
      forall q | Has(Emplace(s.pending, id, p), q) ensures Find(Emplace(s.pending, id, p), q).value.deadline > now {
        FindAfterPut(s.pending, id, p, q);
        assert Has(s.pending, q) || q == id;
      }
    }
  }

  /** A step that touches neither entries nor histories. */
  lemma SideStep(e: Env, s: Core, r: Core, now: int)
    requires r.queue == s.queue && r.pending == s.pending && r.sequence == s.sequence && r.link == s.link
    requires r.called == s.called && r.sent == s.sent && r.submitted == s.submitted && r.epoch == s.epoch
    ensures Follows(e, s, r, now)
  {
    ShorterQueueUrgentFirst(s, r);
  }

  lemma DeferSteps(e: Env, s: Core, now: int)
    requires Ready(e, s, now)
    ensures Ready(e, Deferred(s), now) && Follows(e, s, Deferred(s), now)
  {
    SideStep(e, s, Deferred(s), now);
    assert Ready(e, Deferred(s), now) by {
      assert OpenReady(0);
    }
  }

  lemma FlagSteps(e: Env, s: Core, flag: bool, now: int)
    requires Ready(e, s, now)
    ensures Ready(e, s.(draining := flag), now) && Follows(e, s, s.(draining := flag), now)
  {
    SideStep(e, s, s.(draining := flag), now);
    assert Ready(e, s.(draining := flag), now) by {
      assert OpenReady(0);
    }
  }

  // ---------------------------------------------------------------- the operations

  /**
   submit: join the first waiting request with the same key, or queue a new one and tick.
   */
  function Submit(e: Env, s: Core, req: Request, now: int): (r: Core)
    requires Ready(e, s, now)
    ensures Advances(e, s, r, now, 1 + HandlerLoad(req.handler)) && r.calling == s.calling
    ensures s.draining ==> Idles(e, s, r)
    decreases if s.draining then 0 else 1, 0, 2, 0
  {
    var t := TicketFor(e, req, now);
    if Joins(s, req.spec) then
      JoinSteps(e, s, req.spec, t, now);
      Joined(s, req.spec, t)
    else
      AppendSteps(e, s, req.spec, t, now);
      var r := Tick(e, Appended(s, req.spec, t), now);
      AppendThenTick(e, s, req.spec, t, r, now);
      r
  }

  function Tick(e: Env, s: Core, now: int): (r: Core)
    requires Ready(e, s, now)
    ensures Advances(e, s, r, now, 0) && Live(r, now) && r.calling == s.calling
    ensures s.draining ==> Idles(e, s, r)
    decreases if s.draining then 0 else 1, 0, 1, 0
  {
    var a := Expire(e, s, now);
    ExpireSteps(e, s, now);
    var r := Drain(e, a, now);
    FollowsTrans(e, s, a, r, now);
    LiveStays(e, a, r, now);
    r
  }

  lemma LiveStays(e: Env, s: Core, r: Core, now: int)
    requires Follows(e, s, r, now) && Live(s, now)
    ensures Live(r, now)
  {
    assert OpenFollows(0);
  }

  function Drain(e: Env, s: Core, now: int): (r: Core)
    requires Ready(e, s, now) && s.refillInitialised && s.lastRefill == now
    ensures Advances(e, s, r, now, 0) && r.calling == s.calling
    ensures s.draining ==> Idles(e, s, r)
    decreases if s.draining then 0 else 1, 0, 0, 0
  {
    FollowsSelf(e, s, now);
    if !s.sendingEnabled || s.draining then s
    else
      var a := s.(draining := true);
      FlagSteps(e, s, true, now);
      var b := DrainLoop(e, a, now);
      FlagSteps(e, b, false, now);
      var r := b.(draining := false);
      FollowsTrans(e, s, a, b, now);
      FollowsTrans(e, s, b, r, now);
      r
  }

  /** The loop of drain. Only this sends. */
  function DrainLoop(e: Env, s: Core, now: int): (r: Core)
    requires Ready(e, s, now) && s.refillInitialised && s.lastRefill == now
    requires s.draining && s.sendingEnabled
    ensures Advances(e, s, r, now, 0) && r.calling == s.calling
    decreases 0, QueueLoad(s.queue), 6, 0
  {
    FollowsSelf(e, s, now);
    if s.queue == [] || |s.pending| >= e.budget.maxInFlight then s
    else if s.tokens < 1.0 then
      DeferSteps(e, s, now);
      Deferred(s)
    else
      var i := MinIndex(s.queue);
      var (link, result) := EncodeAndSend(e, s.link, s.queue[i].spec, now);
      EncodeAndSendSigns(e, s.link, s.queue[i].spec, now);
      match result
      case Failure(error) =>
        FailSteps(e, s, i, link, now);
        var a := TakenFailed(s, i, link);
        var b := Complete(e, a, s.queue[i].tickets, Failed(error), now);
        FollowsTrans(e, s, a, b, now);
        var r := DrainLoop(e, b, now);
        FollowsTrans(e, s, b, r, now);
        r
      case Success(id) =>
        SendSteps(e, s, i, link, now);
        var a := TakenSent(s, i, link, id, now);
        var r := DrainLoop(e, a, now);
        FollowsTrans(e, s, a, r, now);
        r
  }

  lemma HeadTicket(ts: seq<Ticket>, calling: multiset<Ticket>)
    requires ts != [] && multiset(ts) <= calling
    ensures ts[0] in calling && multiset(ts[1..]) <= calling - multiset{ts[0]}
    ensures calling - multiset{ts[0]} - multiset(ts[1..]) == calling - multiset(ts)
  {
    assert ts == [ts[0]] + ts[1..];
  }

  /** complete: call each handler in turn; a handler may submit again at once. */
  function Complete(e: Env, s: Core, ts: seq<Ticket>, outcome: Outcome, now: int): (r: Core)
    requires Ready(e, s, now) && multiset(ts) <= s.calling
    requires !outcome.TimedOut? && AllJustified(s.sent, ts, outcome)
    ensures Advances(e, s, r, now, TicketsLoad(ts)) && r.calling == s.calling - multiset(ts)
    ensures s.draining ==> Idles(e, s, r)
    decreases if s.draining then 0 else 1, 0, 5, |ts|
  {
    FollowsSelf(e, s, now);
    if ts == [] then s
    else
      HeadTicket(ts, s.calling);
      LogSteps(e, s, ts[0], outcome, now);
      var a := Logged(s, ts[0], outcome, now);
      var b := SubmitAll(e, a, ts[0].handler.followUps, now);
      FollowsTrans(e, s, a, b, now);
      JustifiedStays(e, s, b, ts, outcome, now);
      var r := Complete(e, b, ts[1..], outcome, now);
      FollowsTrans(e, s, b, r, now);
      r
  }

  function SubmitAll(e: Env, s: Core, rs: seq<Request>, now: int): (r: Core)
    requires Ready(e, s, now)
    ensures Advances(e, s, r, now, RequestsLoad(rs)) && r.calling == s.calling
    ensures s.draining ==> Idles(e, s, r)
    decreases if s.draining then 0 else 1, 0, 3, |rs|
  {
    FollowsSelf(e, s, now);
    if rs == [] then s
    else
      var a := Submit(e, s, rs[0], now);
      var r := SubmitAll(e, a, rs[1..], now);
      FollowsTrans(e, s, a, r, now);
      r
  }

  // ---------------------------------------------------------------- one turn at a time

  /** These tickets were taken out and may be completed with this outcome. */
  ghost predicate MayComplete(e: Env, s: Core, ts: seq<Ticket>, outcome: Outcome, now: int) {
    && Ready(e, s, now) && multiset(ts) <= s.calling
    && !outcome.TimedOut? && AllJustified(s.sent, ts, outcome)
  }

  /** A turn of complete: call the first handler, then go on with the rest. */
  lemma CompleteTurn(e: Env, s: Core, ts: seq<Ticket>, outcome: Outcome, now: int)
    requires MayComplete(e, s, ts, outcome, now) && ts != []
    ensures ts[0] in s.calling && Justified(s.sent, ts[0], outcome)
    ensures Ready(e, Logged(s, ts[0], outcome, now), now)
    ensures var r := SubmitAll(e, Logged(s, ts[0], outcome, now), ts[0].handler.followUps, now);
            && r.draining == s.draining && MayComplete(e, r, ts[1..], outcome, now)
            && Complete(e, s, ts, outcome, now) == Complete(e, r, ts[1..], outcome, now)
  {
    HeadTicket(ts, s.calling);
    LogSteps(e, s, ts[0], outcome, now);
    var a := Logged(s, ts[0], outcome, now);
    var b := SubmitAll(e, a, ts[0].handler.followUps, now);
    FollowsTrans(e, s, a, b, now);
    JustifiedStays(e, s, b, ts, outcome, now);
  }

  /** A turn of the loop over a handler's follow-ups. */
  lemma SubmitTurn(e: Env, s: Core, rs: seq<Request>, now: int)
    requires Ready(e, s, now) && rs != []
    ensures var r := Submit(e, s, rs[0], now);
            && Ready(e, r, now) && r.draining == s.draining
            && SubmitAll(e, s, rs, now) == SubmitAll(e, r, rs[1..], now)
  {
  }

  ghost predicate Draining(e: Env, s: Core, now: int) {
    && Ready(e, s, now) && s.refillInitialised && s.lastRefill == now
    && s.draining && s.sendingEnabled
  }

  /** The loop of drain goes on. */
  predicate MaySend(e: Env, s: Core) {
    s.queue != [] && |s.pending| < e.budget.maxInFlight && s.tokens >= 1.0
  }

  lemma FailureTurn(e: Env, s: Core, now: int, link: Link, error: Error)
    requires Draining(e, s, now) && MaySend(e, s)
    requires EncodeAndSend(e, s.link, s.queue[MinIndex(s.queue)].spec, now) == (link, Failure(error))
    ensures var i := MinIndex(s.queue);
            var a, ts := TakenFailed(s, i, link), s.queue[i].tickets;
            && MayComplete(e, a, ts, Failed(error), now)
            && var r := Complete(e, a, ts, Failed(error), now);
               && Draining(e, r, now) && QueueLoad(r.queue) < QueueLoad(s.queue)
               && DrainLoop(e, s, now) == DrainLoop(e, r, now)
  {
    var i := MinIndex(s.queue);
    EncodeAndSendSigns(e, s.link, s.queue[i].spec, now);
    FailSteps(e, s, i, link, now);
  }

  lemma SuccessTurn(e: Env, s: Core, now: int, link: Link, id: string)
    requires Draining(e, s, now) && MaySend(e, s)
    requires EncodeAndSend(e, s.link, s.queue[MinIndex(s.queue)].spec, now) == (link, Success(id))
    ensures var r := TakenSent(s, MinIndex(s.queue), link, id, now);
            && Draining(e, r, now) && QueueLoad(r.queue) < QueueLoad(s.queue)
            && DrainLoop(e, s, now) == DrainLoop(e, r, now)
  {
    var i := MinIndex(s.queue);
    EncodeAndSendSigns(e, s.link, s.queue[i].spec, now);
    SendSteps(e, s, i, link, now);
  }
}
