/**
 The dispatcher's invariant, one predicate per promise, each over just the fields it is
 about, and the proof that every elementary step keeps it.
 */
module DispatcherInvariants {
  import opened OrderedMap
  import opened JsonValues
  import opened Messages
  import opened Link
  import opened DispatcherState

  // ---------------------------------------------------------------- the invariant

  /** Every submitted handler is in exactly one place. */
  ghost predicate Conserved(submitted: multiset<Ticket>, queue: seq<Waiting>, pending: Entries<Pending>,
                            calling: multiset<Ticket>, called: seq<Call>)
  {
    submitted == QueueTickets(queue) + PendingTickets(pending) + calling + CalledTickets(called)
  }

  /** The accounting identity of the metrics. */
  ghost predicate Balanced(m: Metrics, queued: nat, inFlight: nat, sent: nat) {
    && m.submitted == m.coalesced + queued + inFlight + m.completed + m.timeouts + m.sendFailures
                    + m.disconnectFailures + m.unexpected
    && m.sent == sent
  }

  /** Requests are open on a running connection only, and never more than the cap. */
  ghost predicate Gated(b: RateBudget, state: SessionState, enabled: bool, pending: Entries<Pending>) {
    && (enabled <==> state.Running?)
    && (pending != [] ==> state.Running?)
    && |pending| <= b.maxInFlight
  }

  ghost predicate Issued(id: string, n: nat) {
    exists k: nat :: k <= n && id == MsgId(k)
  }

  /** Open requests have ids the session has issued. */
  ghost predicate PendingIssued(pending: Entries<Pending>, n: nat) {
    Ascending(pending) && forall id :: Has(pending, id) ==> Issued(id, n)
  }

  /** So have this connection's frames, and no two of them share an id. */
  ghost predicate FramesIssued(sent: seq<Sent>, epoch: nat, n: nat) {
    && epoch <= |sent|
    && (forall k :: epoch <= k < |sent| ==> Issued(sent[k].id, n))
    && (forall j, k :: epoch <= j < k < |sent| ==> sent[j].id != sent[k].id)
  }

  /** The token bucket bounds what was sent in any stretch of time. */
  ghost predicate Metered(b: RateBudget, sent: seq<Sent>, tokens: real, lastRefill: int, initialised: bool) {
    && tokens <= b.burst
    && (sent != [] ==> initialised)
    && (forall i :: 0 <= i < |sent| ==> sent[i].at <= lastRefill)
    && (forall i, j :: 0 <= i <= j < |sent| ==> sent[i].at <= sent[j].at)
    && (forall i :: 0 <= i < |sent| ==>
          (|sent| - i) as real + tokens <= b.burst + Accrued(b, lastRefill - sent[i].at))
    && (forall i, j :: 0 <= i <= j < |sent| ==>
          (j - i + 1) as real <= b.burst + Accrued(b, sent[j].at - sent[i].at))
  }

  function Min(x: real, y: real): real { if x < y then x else y }

  /** Since the last frame the bucket has gained what the rate gives, up to its size. */
  ghost predicate Charged(b: RateBudget, tokens: real, lastRefill: int, lastTx: int, initialised: bool) {
    b.rate >= 0.0 && b.burst >= 0.0 ==>
      && tokens >= 0.0
      && tokens >= Min(b.burst, Accrued(b, lastRefill - lastTx))
      && (!initialised ==> tokens == b.burst)
  }

  predicate SameRank(a: Waiting, b: Waiting) { a.spec.priority.Rank() == b.spec.priority.Rank() }

  ghost predicate QueueOrdered(queue: seq<Waiting>, sequence: nat) {
    && (forall i, j :: 0 <= i < j < |queue| ==> queue[i].sequence < queue[j].sequence)
    && (forall i :: 0 <= i < |queue| ==> queue[i].sequence <= sequence && queue[i].tickets != [])
  }

  /** A request that was never joined leaves after every earlier one of its priority. */
  ghost predicate LeavesInOrder(f: Sent, w: Waiting) {
    |w.tickets| == 1 && SameRank(f.request, w) ==> f.request.sequence < w.sequence
  }

  ghost predicate FramesOrdered(queue: seq<Waiting>, sent: seq<Sent>, sequence: nat) {
    && (forall k :: 0 <= k < |sent| ==> sent[k].request.sequence <= sequence)
    && (forall k, i :: 0 <= k < |sent| && 0 <= i < |queue| ==> LeavesInOrder(sent[k], queue[i]))
    && (forall j, k :: 0 <= j < k < |sent| ==> LeavesInOrder(sent[j], sent[k].request))
  }

  ghost predicate AllBefore(ts: seq<Ticket>, t: int) { forall i :: 0 <= i < |ts| ==> ts[i].at <= t }

  /** What went out was submitted by then; and nothing went out after the last frame on the wire. */
  ghost predicate FramesSeen(sent: seq<Sent>, lastTx: int) {
    forall k :: 0 <= k < |sent| ==> sent[k].at <= lastTx && AllBefore(sent[k].request.tickets, sent[k].at)
  }

  /** The first submission made the request; the others joined it by its key. */
  ghost predicate Keyed(w: Waiting) {
    && w.tickets != [] && w.tickets[0].kind == w.spec.kind
    && (forall i :: 0 <= i < |w.tickets| ==> w.tickets[i].key == w.spec.coalesceKey)
    && (|w.tickets| > 1 ==> w.spec.coalesceKey != "")
  }

  ghost predicate QueueKeyed(queue: seq<Waiting>) { forall i :: 0 <= i < |queue| ==> Keyed(queue[i]) }

  ghost predicate AllIn(ts: seq<Ticket>, submitted: multiset<Ticket>) {
    forall i :: 0 <= i < |ts| ==> ts[i] in submitted
  }

  ghost predicate FramesKeyed(sent: seq<Sent>, submitted: multiset<Ticket>) {
    forall k :: 0 <= k < |sent| ==>
      Keyed(sent[k].request) && AllIn(sent[k].request.tickets, submitted) && FindMeta(sent[k].request.spec.kind).Some?
  }

  /** What waits was submitted by now. */
  ghost predicate QueueSeen(queue: seq<Waiting>, now: int) {
    forall i :: 0 <= i < |queue| ==> AllBefore(queue[i].tickets, now)
  }

  /** d is the largest of the tickets' own deadlines. */
  ghost predicate LatestDue(ts: seq<Ticket>, d: int) {
    && (forall i :: 0 <= i < |ts| ==> ts[i].due <= d)
    && (exists i :: 0 <= i < |ts| && ts[i].due == d)
  }

  ghost predicate QueueTimely(queue: seq<Waiting>) {
    forall i :: 0 <= i < |queue| ==> LatestDue(queue[i].tickets, queue[i].deadline)
  }

  ghost predicate PendingTimely(pending: Entries<Pending>) {
    forall id :: Has(pending, id) ==> LatestDue(Find(pending, id).value.tickets, Find(pending, id).value.deadline)
  }

  /** A timeout is reported no earlier than the submission's own deadline. */
  ghost predicate NotEarly(c: Call) { c.outcome.TimedOut? ==> c.ticket.due <= c.at }

  ghost predicate CallsTimely(called: seq<Call>) {
    forall i :: 0 <= i < |called| ==> NotEarly(called[i])
  }

  ghost predicate IsOf(f: Sent, id: string, p: Pending) {
    && f.id == id && f.request.tickets == p.tickets && f.request.spec.kind == p.kind
    && f.request.deadline == p.deadline
  }

  /** Every open request is a frame of this connection. */
  ghost predicate PendingSent(pending: Entries<Pending>, sent: seq<Sent>, epoch: nat) {
    forall id :: Has(pending, id) ==>
      exists k :: epoch <= k < |sent| && IsOf(sent[k], id, Find(pending, id).value)
  }

  ghost predicate Answers(f: Sent, t: Ticket, message: Json) {
    && f.id == message.StringAt("in_reply_to")
    && t in f.request.tickets
    && ResponseAllowed(f.request.spec.kind, message.StringAt("type"))
  }

  /** A handler that gets a message gets the answer to a frame that carried its submission. */
  ghost predicate Justified(sent: seq<Sent>, t: Ticket, outcome: Outcome) {
    outcome.Answered? ==> exists k :: 0 <= k < |sent| && Answers(sent[k], t, outcome.message)
  }

  ghost predicate CallsJustified(called: seq<Call>, sent: seq<Sent>) {
    forall i :: 0 <= i < |called| ==> Justified(sent, called[i].ticket, called[i].outcome)
  }

  ghost predicate Inv(e: Env, s: Core) {
    && Conserved(s.submitted, s.queue, s.pending, s.calling, s.called)
    && Balanced(s.metrics, |s.queue|, |s.pending|, |s.sent|)
    && Gated(e.budget, s.link.state, s.sendingEnabled, s.pending)
    && PendingIssued(s.pending, s.link.msgSeq)
    && FramesIssued(s.sent, s.epoch, s.link.msgSeq)
    && Metered(e.budget, s.sent, s.tokens, s.lastRefill, s.refillInitialised)
    && Charged(e.budget, s.tokens, s.lastRefill, s.link.lastTx, s.refillInitialised)
    && QueueOrdered(s.queue, s.sequence)
    && FramesOrdered(s.queue, s.sent, s.sequence)
    && QueueTimely(s.queue)
    && PendingTimely(s.pending)
    && CallsTimely(s.called)
    && PendingSent(s.pending, s.sent, s.epoch)
    && CallsJustified(s.called, s.sent)
    && FramesSeen(s.sent, s.link.lastTx)
    && QueueKeyed(s.queue)
    && FramesKeyed(s.sent, s.submitted)
  }

  ghost predicate QueueLive(queue: seq<Waiting>, now: int) {
    forall i :: 0 <= i < |queue| ==> queue[i].deadline > now
  }

  ghost predicate PendingLive(pending: Entries<Pending>, now: int) {
    forall id :: Has(pending, id) ==> Find(pending, id).value.deadline > now
  }

  // ---------------------------------------------------------------- refill

  lemma AccruedAdds(b: RateBudget, x: int, y: int)
    ensures Accrued(b, x) + Accrued(b, y) == Accrued(b, x + y)
  {
  }

  lemma RefillKeepsMetered(e: Env, s: Core, now: int)
    requires Metered(e.budget, s.sent, s.tokens, s.lastRefill, s.refillInitialised)
    requires s.refillInitialised && s.lastRefill < now
    ensures Metered(e.budget, s.sent, Refill(e, s, now).tokens, now, true)
  {
    var r := Refill(e, s, now);
    forall i | 0 <= i < |s.sent|
      ensures (|s.sent| - i) as real + r.tokens <= e.budget.burst + Accrued(e.budget, now - s.sent[i].at)
    {
      AccruedAdds(e.budget, s.lastRefill - s.sent[i].at, now - s.lastRefill);
    }
  }

  lemma AccruedGrows(b: RateBudget, x: int, y: int)
    requires b.rate >= 0.0 && x <= y
    ensures Accrued(b, x) <= Accrued(b, y)
  {
    assert b.rate * (x as real) <= b.rate * (y as real);
  }

  lemma RefillKeepsCharged(e: Env, s: Core, now: int)
    requires Charged(e.budget, s.tokens, s.lastRefill, s.link.lastTx, s.refillInitialised)
    requires s.refillInitialised ==> s.lastRefill <= now
    ensures Charged(e.budget, Refill(e, s, now).tokens, now, s.link.lastTx, true)
  {
    if e.budget.rate >= 0.0 && e.budget.burst >= 0.0 && s.refillInitialised {
      AccruedAdds(e.budget, s.lastRefill - s.link.lastTx, now - s.lastRefill);
      AccruedGrows(e.budget, 0, now - s.lastRefill);
      assert Accrued(e.budget, 0) == 0.0;
    }
  }

  lemma RefillKeepsInv(e: Env, s: Core, now: int)
    requires Inv(e, s) && (s.refillInitialised ==> s.lastRefill <= now)
    ensures Inv(e, Refill(e, s, now))
    ensures Refill(e, s, now).refillInitialised && Refill(e, s, now).lastRefill == now
  {
    RefillKeepsCharged(e, s, now);
    if s.refillInitialised && s.lastRefill < now {
      RefillKeepsMetered(e, s, now);
    }
  }

  // ---------------------------------------------------------------- expiry of the queue

  lemma {:induction false} LiveQueueConserves(q: seq<Waiting>, now: int)
    ensures QueueTickets(q) == QueueTickets(LiveQueue(q, now)) + CalledTickets(QueueTimeouts(q, now))
  {
    if q != [] {
      LiveQueueConserves(q[1..], now);
      if q[0].deadline > now {
        assert LiveQueue(q, now)[1..] == LiveQueue(q[1..], now);
        assert QueueTimeouts(q, now) == QueueTimeouts(q[1..], now);
      } else {
        CalledTicketsOf(q[0].tickets, TimedOut, now);
        CalledTicketsConcat(CallsOf(q[0].tickets, TimedOut, now), QueueTimeouts(q[1..], now));
        assert LiveQueue(q, now) == LiveQueue(q[1..], now);
      }
    }
  }

  /** The survivors keep their order: each comes from a position at or after its own. */
  lemma {:induction false} LiveQueueKeeps(q: seq<Waiting>, now: int)
    ensures |LiveQueue(q, now)| <= |q|
    ensures forall i :: 0 <= i < |LiveQueue(q, now)| ==> LiveQueue(q, now)[i] in q && LiveQueue(q, now)[i].deadline > now
  {
    if q != [] {
      LiveQueueKeeps(q[1..], now);
    }
  }

  lemma {:induction false} LiveQueueOrdered(q: seq<Waiting>, now: int, sequence: nat)
    requires QueueOrdered(q, sequence)
    ensures QueueOrdered(LiveQueue(q, now), sequence)
  {
    if q != [] {
      LiveQueueOrdered(q[1..], now, sequence);
      LiveQueueKeeps(q[1..], now);
      var more := LiveQueue(q[1..], now);
      forall j | 0 <= j < |more| ensures q[0].sequence < more[j].sequence {
        assert more[j] in q[1..];
      }
    }
  }

  lemma {:induction false} QueueTimeoutsAreDue(q: seq<Waiting>, now: int)
    requires QueueTimely(q)
    ensures CallsTimely(QueueTimeouts(q, now))
    ensures forall i :: 0 <= i < |QueueTimeouts(q, now)| ==> QueueTimeouts(q, now)[i].outcome.TimedOut?
  {
    if q != [] {
      QueueTimeoutsAreDue(q[1..], now);
    }
  }

  lemma ExpireQueueConserves(s: Core, now: int)
    requires Conserved(s.submitted, s.queue, s.pending, s.calling, s.called)
    ensures Conserved(s.submitted, LiveQueue(s.queue, now), s.pending, s.calling, s.called + QueueTimeouts(s.queue, now))
  {
    LiveQueueConserves(s.queue, now);
    CalledTicketsConcat(s.called, QueueTimeouts(s.queue, now));
  }

  lemma ShorterQueueKeepsFramesOrdered(q: seq<Waiting>, r: seq<Waiting>, sent: seq<Sent>, sequence: nat)
    requires FramesOrdered(q, sent, sequence)
    requires forall i :: 0 <= i < |r| ==> r[i] in q
    ensures FramesOrdered(r, sent, sequence)
  {
    forall k, i | 0 <= k < |sent| && 0 <= i < |r| ensures LeavesInOrder(sent[k], r[i]) {
      var j :| 0 <= j < |q| && q[j] == r[i];
    }
  }

  lemma ShorterQueueStaysTimely(q: seq<Waiting>, r: seq<Waiting>)
    requires QueueTimely(q)
    requires forall i :: 0 <= i < |r| ==> r[i] in q
    ensures QueueTimely(r)
  {
    forall i | 0 <= i < |r| ensures LatestDue(r[i].tickets, r[i].deadline) {
      var j :| 0 <= j < |q| && q[j] == r[i];
    }
  }

  lemma MoreCalls(called: seq<Call>, more: seq<Call>, sent: seq<Sent>)
    requires CallsTimely(called) && CallsJustified(called, sent)
    requires CallsTimely(more) && CallsJustified(more, sent)
    ensures CallsTimely(called + more) && CallsJustified(called + more, sent)
  {
  }

  lemma ExpireQueueKeepsInv(e: Env, s: Core, now: int)
    requires Inv(e, s)
    ensures Inv(e, ExpireQueue(s, now))
    ensures QueueLive(ExpireQueue(s, now).queue, now)
  {
    LiveQueueKeeps(s.queue, now);
    LiveQueueOrdered(s.queue, now, s.sequence);
    ExpireQueueConserves(s, now);
    ShorterQueueKeepsFramesOrdered(s.queue, LiveQueue(s.queue, now), s.sent, s.sequence);
    ShorterQueueStaysTimely(s.queue, LiveQueue(s.queue, now));
    QueueTimeoutsAreDue(s.queue, now);
    MoreCalls(s.called, QueueTimeouts(s.queue, now), s.sent);
  }

  // ---------------------------------------------------------------- expiry of open requests

  lemma {:induction false} LivePendingShorter(p: Entries<Pending>, now: int)
    ensures |LivePending(p, now)| <= |p|
  {
    if p != [] {
      LivePendingShorter(p[1..], now);
    }
  }

  lemma {:induction false} LivePendingConserves(p: Entries<Pending>, now: int)
    ensures PendingTickets(p) == PendingTickets(LivePending(p, now)) + CalledTickets(PendingTimeouts(p, now))
  {
    if p != [] {
      LivePendingConserves(p[1..], now);
      if p[0].1.deadline > now {
        assert LivePending(p, now)[1..] == LivePending(p[1..], now);
        assert PendingTimeouts(p, now) == PendingTimeouts(p[1..], now);
      } else {
        CalledTicketsOf(p[0].1.tickets, TimedOut, now);
        CalledTicketsConcat(CallsOf(p[0].1.tickets, TimedOut, now), PendingTimeouts(p[1..], now));
        assert LivePending(p, now) == LivePending(p[1..], now);
      }
    }
  }

  lemma {:induction false} LivePendingAscends(p: Entries<Pending>, now: int)
    requires Ascending(p)
    ensures Ascending(LivePending(p, now))
    ensures LivePending(p, now) != [] ==> p != [] && (LivePending(p, now)[0].0 == p[0].0 || Less(p[0].0, LivePending(p, now)[0].0))
  {
    if p != [] {
      LivePendingAscends(p[1..], now);
      var more := LivePending(p[1..], now);
      if more != [] && more[0].0 != p[1].0 {
        LessIsTransitive(p[0].0, p[1].0, more[0].0);
      }
      if p[0].1.deadline > now {
        assert LivePending(p, now)[1..] == more;
      } else {
        assert LivePending(p, now) == more;
      }
    }
  }

  lemma {:induction false} LivePendingFind(p: Entries<Pending>, now: int, id: string)
    requires Ascending(p)
    ensures Has(LivePending(p, now), id) ==>
              Has(p, id) && Find(p, id) == Find(LivePending(p, now), id) && Find(p, id).value.deadline > now
  {
    if p != [] {
      LivePendingFind(p[1..], now, id);
      TailLacksHead(p);
      if p[0].1.deadline > now {
        assert LivePending(p, now)[1..] == LivePending(p[1..], now);
      } else {
        assert LivePending(p, now) == LivePending(p[1..], now);
      }
    }
  }

  lemma {:induction false} PendingTimeoutsAreDue(p: Entries<Pending>, now: int)
    requires Ascending(p) && PendingTimely(p)
    ensures CallsTimely(PendingTimeouts(p, now))
    ensures forall i :: 0 <= i < |PendingTimeouts(p, now)| ==> PendingTimeouts(p, now)[i].outcome.TimedOut?
  {
    if p != [] {
      assert Has(p, p[0].0);
      forall id | Has(p[1..], id) ensures LatestDue(Find(p[1..], id).value.tickets, Find(p[1..], id).value.deadline) {
        TailLacksHead(p);
        assert Has(p, id);
      }
      PendingTimeoutsAreDue(p[1..], now);
    }
  }

  lemma ExpirePendingConserves(s: Core, now: int)
    requires Conserved(s.submitted, s.queue, s.pending, s.calling, s.called)
    ensures Conserved(s.submitted, s.queue, LivePending(s.pending, now), s.calling, s.called + PendingTimeouts(s.pending, now))
  {
    LivePendingConserves(s.pending, now);
    CalledTicketsConcat(s.called, PendingTimeouts(s.pending, now));
  }

  /** Dropping entries of pending keeps what is said of each of them. */
  lemma FewerPending(p: Entries<Pending>, r: Entries<Pending>, sent: seq<Sent>, epoch: nat, n: nat)
    requires PendingIssued(p, n) && PendingTimely(p) && PendingSent(p, sent, epoch)
    requires Ascending(r)
    requires forall id :: Has(r, id) ==> Has(p, id) && Find(p, id) == Find(r, id)
    ensures PendingIssued(r, n) && PendingTimely(r) && PendingSent(r, sent, epoch)
  {
  }

  lemma ExpirePendingKeepsInv(e: Env, s: Core, now: int)
    requires Inv(e, s)
    ensures Inv(e, ExpirePending(s, now))
    ensures PendingLive(ExpirePending(s, now).pending, now)
  {
    var live := LivePending(s.pending, now);
    forall id | Has(live, id)
      ensures Has(s.pending, id) && Find(s.pending, id) == Find(live, id) && Find(live, id).value.deadline > now
    {
      LivePendingFind(s.pending, now, id);
    }
    LivePendingAscends(s.pending, now);
    FewerPending(s.pending, live, s.sent, s.epoch, s.link.msgSeq);
    ExpirePendingConserves(s, now);
    LivePendingShorter(s.pending, now);
    PendingTimeoutsAreDue(s.pending, now);
    MoreCalls(s.called, PendingTimeouts(s.pending, now), s.sent);
  }
}
