/** The remaining elementary steps keep the invariant: submission, sending, replies, failure. */
module DispatcherSteps {
  import opened OrderedMap
  import opened Messages
  import opened Link
  import opened DispatcherState
  import opened DispatcherInvariants

  // ---------------------------------------------------------------- submission

  lemma UpdatedQueueTickets(q: seq<Waiting>, i: nat, w: Waiting, t: Ticket)
    requires i < |q| && w.tickets == q[i].tickets + [t]
    ensures QueueTickets(q[i := w]) == QueueTickets(q) + multiset{t}
  {
    QueueTicketsAt(q, i);
    QueueTicketsAt(q[i := w], i);
    assert q[i := w][..i] + q[i := w][i + 1..] == q[..i] + q[i + 1..];
  }

  lemma JoinedIsTimely(w: Waiting, spec: RequestSpec, t: Ticket)
    requires LatestDue(w.tickets, w.deadline)
    ensures LatestDue(JoinedEntry(w, spec, t).tickets, JoinedEntry(w, spec, t).deadline)
  {
    var ts, d := JoinedEntry(w, spec, t).tickets, JoinedEntry(w, spec, t).deadline;
    var i :| 0 <= i < |w.tickets| && w.tickets[i].due == w.deadline;
    assert ts[i].due == w.deadline && ts[|w.tickets|] == t;
    assert ts[if d == t.due then |w.tickets| else i].due == d;
  }

  lemma JoinedKeepsOrder(q: seq<Waiting>, i: nat, w: Waiting, sent: seq<Sent>, sequence: nat)
    requires i < |q| && |w.tickets| > 1 && w.sequence == q[i].sequence
    requires QueueOrdered(q, sequence) && FramesOrdered(q, sent, sequence)
    ensures QueueOrdered(q[i := w], sequence) && FramesOrdered(q[i := w], sent, sequence)
  {
  }

  /** A ticket made for a request with this specification. */
  predicate MadeFor(t: Ticket, spec: RequestSpec) { t.kind == spec.kind && t.key == spec.coalesceKey }

  lemma MoreSubmitted(sent: seq<Sent>, submitted: multiset<Ticket>, t: Ticket)
    requires FramesKeyed(sent, submitted)
    ensures FramesKeyed(sent, submitted + multiset{t})
  {
  }

  lemma JoinedIsKeyed(q: seq<Waiting>, i: nat, spec: RequestSpec, t: Ticket)
    requires i < |q| && QueueKeyed(q) && MadeFor(t, spec) && spec.coalesceKey != ""
    requires q[i].spec.coalesceKey == spec.coalesceKey
    ensures QueueKeyed(q[i := JoinedEntry(q[i], spec, t)])
  {
    assert Keyed(JoinedEntry(q[i], spec, t));
  }

  lemma JoinedKeepsInv(e: Env, s: Core, spec: RequestSpec, t: Ticket)
    requires Inv(e, s) && Joins(s, spec) && MadeFor(t, spec)
    ensures Inv(e, Joined(s, spec, t))
  {
    var i := KeyIndex(s.queue, spec.coalesceKey);
    var w := JoinedEntry(s.queue[i], spec, t);
    UpdatedQueueTickets(s.queue, i, w, t);
    JoinedIsTimely(s.queue[i], spec, t);
    JoinedKeepsOrder(s.queue, i, w, s.sent, s.sequence);
    JoinedIsKeyed(s.queue, i, spec, t);
    MoreSubmitted(s.sent, s.submitted, t);
    assert QueueTimely(s.queue[i := w]);
  }

  lemma AppendedKeepsOrder(q: seq<Waiting>, w: Waiting, sent: seq<Sent>, sequence: nat)
    requires QueueOrdered(q, sequence) && FramesOrdered(q, sent, sequence)
    requires w.sequence == sequence + 1 && w.tickets != []
    ensures QueueOrdered(q + [w], sequence + 1) && FramesOrdered(q + [w], sent, sequence + 1)
  {
  }

  lemma AppendedIsTimely(q: seq<Waiting>, w: Waiting, t: Ticket)
    requires QueueTimely(q) && w.tickets == [t] && w.deadline == t.due
    ensures QueueTimely(q + [w])
  {
    assert w.tickets[0].due == w.deadline;
    assert LatestDue(w.tickets, w.deadline);
  }

  lemma AppendedTickets(q: seq<Waiting>, w: Waiting, t: Ticket)
    requires w.tickets == [t]
    ensures QueueTickets(q + [w]) == QueueTickets(q) + multiset{t}
  {
    QueueTicketsConcat(q, [w]);
    assert [w][1..] == [];
  }

  lemma AppendedIsKeyed(q: seq<Waiting>, w: Waiting, t: Ticket)
    requires QueueKeyed(q) && w.tickets == [t] && MadeFor(t, w.spec)
    ensures QueueKeyed(q + [w])
  {
  }

  lemma AppendedKeepsInv(e: Env, s: Core, spec: RequestSpec, t: Ticket)
    requires Inv(e, s) && MadeFor(t, spec)
    ensures Inv(e, Appended(s, spec, t))
  {
    hide Metered, Charged, PendingSent, PendingTimely, FramesIssued, PendingIssued, CallsJustified, CallsTimely, Gated;
    var w := Waiting(spec, [t], t.due, s.sequence + 1);
    AppendedTickets(s.queue, w, t);
    AppendedKeepsOrder(s.queue, w, s.sent, s.sequence);
    AppendedIsTimely(s.queue, w, t);
    AppendedIsKeyed(s.queue, w, t);
    MoreSubmitted(s.sent, s.submitted, t);
  }

  // ---------------------------------------------------------------- calling a handler

  lemma LoggedConserves(s: Core, c: Call)
    requires Conserved(s.submitted, s.queue, s.pending, s.calling, s.called) && c.ticket in s.calling
    ensures Conserved(s.submitted, s.queue, s.pending, s.calling - multiset{c.ticket}, s.called + [c])
  {
    CalledTicketsConcat(s.called, [c]);
    assert [c][1..] == [];
    assert s.calling == (s.calling - multiset{c.ticket}) + multiset{c.ticket};
  }

  lemma OneMoreCall(called: seq<Call>, c: Call, sent: seq<Sent>)
    requires CallsTimely(called) && CallsJustified(called, sent)
    requires NotEarly(c) && Justified(sent, c.ticket, c.outcome)
    ensures CallsTimely(called + [c]) && CallsJustified(called + [c], sent)
  {
  }

  lemma LoggedKeepsInv(e: Env, s: Core, t: Ticket, outcome: Outcome, now: int)
    requires Inv(e, s) && t in s.calling && !outcome.TimedOut? && Justified(s.sent, t, outcome)
    ensures Inv(e, Logged(s, t, outcome, now))
  {
    var c := Call(t, outcome, now);
    LoggedConserves(s, c);
    OneMoreCall(s.called, c, s.sent);
  }

  // ---------------------------------------------------------------- leaving the queue

  lemma WithoutIsShorter(q: seq<Waiting>, i: nat)
    requires i < |q|
    ensures forall j :: 0 <= j < |Without(q, i)| ==> Without(q, i)[j] == q[if j < i then j else j + 1]
    ensures forall j :: 0 <= j < |Without(q, i)| ==> Without(q, i)[j] in q
  {
  }

  lemma WithoutKeepsOrder(q: seq<Waiting>, i: nat, sequence: nat)
    requires i < |q| && QueueOrdered(q, sequence)
    ensures QueueOrdered(Without(q, i), sequence)
  {
    WithoutIsShorter(q, i);
  }

  lemma IssuedStaysIssued(pending: Entries<Pending>, sent: seq<Sent>, epoch: nat, n: nat, m: nat)
    requires n <= m && PendingIssued(pending, n) && FramesIssued(sent, epoch, n)
    ensures PendingIssued(pending, m) && FramesIssued(sent, epoch, m)
  {
    forall id | Has(pending, id) ensures Issued(id, m) {
      var k: nat :| k <= n && id == MsgId(k);
    }
    forall k | epoch <= k < |sent| ensures Issued(sent[k].id, m) {
      var j: nat :| j <= n && sent[k].id == MsgId(j);
    }
  }

  lemma ShorterQueueIsKeyed(q: seq<Waiting>, r: seq<Waiting>)
    requires QueueKeyed(q) && forall j :: 0 <= j < |r| ==> r[j] in q
    ensures QueueKeyed(r)
  {
  }

  lemma TakenFailedKeepsInv(e: Env, s: Core, i: nat, link: Link)
    requires Inv(e, s) && i < |s.queue| && link.state == s.link.state && s.link.msgSeq <= link.msgSeq
    requires link.lastTx == s.link.lastTx
    ensures Inv(e, TakenFailed(s, i, link))
  {
    QueueTicketsAt(s.queue, i);
    WithoutIsShorter(s.queue, i);
    WithoutKeepsOrder(s.queue, i, s.sequence);
    ShorterQueueKeepsFramesOrdered(s.queue, Without(s.queue, i), s.sent, s.sequence);
    ShorterQueueStaysTimely(s.queue, Without(s.queue, i));
    ShorterQueueIsKeyed(s.queue, Without(s.queue, i));
    IssuedStaysIssued(s.pending, s.sent, s.epoch, s.link.msgSeq, link.msgSeq);
  }

  lemma NewIdIsFresh(pending: Entries<Pending>, sent: seq<Sent>, epoch: nat, n: nat)
    requires PendingIssued(pending, n) && FramesIssued(sent, epoch, n)
    ensures !Has(pending, MsgId(n + 1))
    ensures forall k :: epoch <= k < |sent| ==> sent[k].id != MsgId(n + 1)
  {
    if Has(pending, MsgId(n + 1)) {
      var k: nat :| k <= n && MsgId(n + 1) == MsgId(k);
      MsgIdInjective(n + 1, k);
    }
    forall k | epoch <= k < |sent| ensures sent[k].id != MsgId(n + 1) {
      var j: nat :| j <= n && sent[k].id == MsgId(j);
      if j != n + 1 && MsgId(j) == MsgId(n + 1) { MsgIdInjective(j, n + 1); }
    }
  }

  lemma SentKeepsMetered(b: RateBudget, sent: seq<Sent>, f: Sent, tokens: real, now: int)
    requires Metered(b, sent, tokens, now, true) && tokens >= 1.0 && f.at == now
    ensures Metered(b, sent + [f], tokens - 1.0, now, true)
  {
    var more := sent + [f];
    assert forall i :: 0 <= i < |sent| ==> more[i] == sent[i];
    assert Accrued(b, now - f.at) == 0.0;
    forall i | 0 <= i < |more|
      ensures (|more| - i) as real + (tokens - 1.0) <= b.burst + Accrued(b, now - more[i].at)
    {
    }
  }

  lemma SentKeepsOrder(q: seq<Waiting>, i: nat, sent: seq<Sent>, f: Sent, sequence: nat)
    requires i < |q| && f.request == q[i]
    requires forall j :: 0 <= j < |q| ==> !Precedes(q[j], q[i])
    requires QueueOrdered(q, sequence) && FramesOrdered(q, sent, sequence)
    ensures FramesOrdered(Without(q, i), sent + [f], sequence)
  {
    var more, rest := sent + [f], Without(q, i);
    WithoutIsShorter(q, i);
    ShorterQueueKeepsFramesOrdered(q, rest, sent, sequence);
    forall j | 0 <= j < |rest| ensures LeavesInOrder(f, rest[j]) {
      var k := if j < i then j else j + 1;
      assert rest[j] == q[k] && !Precedes(q[k], q[i]);
    }
    forall k | 0 <= k < |sent| ensures LeavesInOrder(sent[k], f.request) {}
  }

  lemma PutPendingKeeps(pending: Entries<Pending>, sent: seq<Sent>, epoch: nat, f: Sent, p: Pending, n: nat)
    requires PendingIssued(pending, n) && PendingTimely(pending) && PendingSent(pending, sent, epoch)
    requires epoch <= |sent| && IsOf(f, MsgId(n + 1), p) && LatestDue(p.tickets, p.deadline)
    ensures PendingIssued(Put(pending, MsgId(n + 1), p), n + 1)
    ensures PendingTimely(Put(pending, MsgId(n + 1), p))
    ensures PendingSent(Put(pending, MsgId(n + 1), p), sent + [f], epoch)
  {
    var id, r, more := MsgId(n + 1), Put(pending, MsgId(n + 1), p), sent + [f];
    PutKeepsAscending(pending, id, p);
    forall q | Has(r, q)
      ensures Issued(q, n + 1)
      ensures LatestDue(Find(r, q).value.tickets, Find(r, q).value.deadline)
      ensures exists k :: epoch <= k < |more| && IsOf(more[k], q, Find(r, q).value)
    {
      FindAfterPut(pending, id, p, q);
      if q == id {
        assert IsOf(more[|sent|], q, Find(r, q).value);
      } else {
        assert Has(pending, q);
        var j: nat :| j <= n && q == MsgId(j);
        var k :| epoch <= k < |sent| && IsOf(sent[k], q, Find(pending, q).value);
        assert IsOf(more[k], q, Find(r, q).value);
      }
    }
  }

  lemma SentKeepsFrames(sent: seq<Sent>, epoch: nat, f: Sent, n: nat)
    requires FramesIssued(sent, epoch, n) && f.id == MsgId(n + 1)
    requires forall k :: epoch <= k < |sent| ==> sent[k].id != f.id
    ensures FramesIssued(sent + [f], epoch, n + 1)
  {
    var more := sent + [f];
    forall k | epoch <= k < |more| ensures Issued(more[k].id, n + 1) {
      if k < |sent| {
        var j: nat :| j <= n && sent[k].id == MsgId(j);
      }
    }
  }

  lemma MoreFramesJustify(called: seq<Call>, sent: seq<Sent>, f: Sent)
    requires CallsJustified(called, sent)
    ensures CallsJustified(called, sent + [f])
  {
    forall i | 0 <= i < |called| ensures Justified(sent + [f], called[i].ticket, called[i].outcome) {
      assert Justified(sent, called[i].ticket, called[i].outcome);
      if called[i].outcome.Answered? {
        var k :| 0 <= k < |sent| && Answers(sent[k], called[i].ticket, called[i].outcome.message);
        assert Answers((sent + [f])[k], called[i].ticket, called[i].outcome.message);
      }
    }
  }

  lemma SentConserves(s: Core, i: nat, id: string, p: Pending)
    requires i < |s.queue| && !Has(s.pending, id) && p.tickets == s.queue[i].tickets
    requires Conserved(s.submitted, s.queue, s.pending, s.calling, s.called)
    ensures Conserved(s.submitted, Without(s.queue, i), Put(s.pending, id, p), s.calling, s.called)
    ensures |Put(s.pending, id, p)| == |s.pending| + 1
  {
    QueueTicketsAt(s.queue, i);
    PendingTicketsPut(s.pending, id, p);
  }

  lemma SentKeepsSeen(sent: seq<Sent>, f: Sent, lastTx: int, now: int)
    requires FramesSeen(sent, lastTx) && f.at == now && AllBefore(f.request.tickets, now)
    requires forall k :: 0 <= k < |sent| ==> sent[k].at <= now
    ensures FramesSeen(sent + [f], now)
  {
  }

  lemma SentIsKeyed(s: Core, i: nat, f: Sent)
    requires i < |s.queue| && f.request == s.queue[i] && QueueKeyed(s.queue) && FramesKeyed(s.sent, s.submitted)
    requires Conserved(s.submitted, s.queue, s.pending, s.calling, s.called) && FindMeta(f.request.spec.kind).Some?
    ensures FramesKeyed(s.sent + [f], s.submitted)
  {
    QueueTicketsAt(s.queue, i);
    forall j | 0 <= j < |f.request.tickets| ensures f.request.tickets[j] in s.submitted {
      assert f.request.tickets[j] in multiset(f.request.tickets);
    }
  }

  /** An entry may be sent under the next id. */
  ghost predicate MaySend(e: Env, s: Core, i: nat, link: Link, now: int) {
    && Inv(e, s) && i < |s.queue| && s.tokens >= 1.0 && |s.pending| < e.budget.maxInFlight
    && (forall j :: 0 <= j < |s.queue| ==> !Precedes(s.queue[j], s.queue[i]))
    && s.refillInitialised && s.lastRefill == now
    && link.state == s.link.state == Running && link.msgSeq == s.link.msgSeq + 1 && link.lastTx == now
    && AllBefore(s.queue[i].tickets, now) && FindMeta(s.queue[i].spec.kind).Some?
  }

  /** What is sent, and to whom it belongs. */
  lemma SentKeepsHistory(e: Env, s: Core, i: nat, link: Link, now: int)
    requires MaySend(e, s, i, link, now)
    ensures var r := TakenSent(s, i, link, MsgId(link.msgSeq), now);
            && Conserved(r.submitted, r.queue, r.pending, r.calling, r.called)
            && Balanced(r.metrics, |r.queue|, |r.pending|, |r.sent|)
            && FramesSeen(r.sent, r.link.lastTx) && FramesKeyed(r.sent, r.submitted)
            && CallsJustified(r.called, r.sent) && CallsTimely(r.called)
  {
    hide Conserved, CallsJustified, FramesKeyed, FramesIssued, FramesOrdered, QueueOrdered, Charged;
    var id, w := MsgId(link.msgSeq), s.queue[i];
    var p, f := Pending(w.spec.kind, w.tickets, w.deadline), Sent(id, w, now);
    NewIdIsFresh(s.pending, s.sent, s.epoch, s.link.msgSeq);
    SentConserves(s, i, id, p);
    WithoutIsShorter(s.queue, i);
    MoreFramesJustify(s.called, s.sent, f);
    SentKeepsSeen(s.sent, f, s.link.lastTx, now);
    SentIsKeyed(s, i, f);
  }

  /** What stays open, and under which ids. */
  lemma SentKeepsOpen(e: Env, s: Core, i: nat, link: Link, now: int)
    requires MaySend(e, s, i, link, now)
    ensures var r := TakenSent(s, i, link, MsgId(link.msgSeq), now);
            && PendingIssued(r.pending, r.link.msgSeq) && FramesIssued(r.sent, r.epoch, r.link.msgSeq)
            && PendingTimely(r.pending) && PendingSent(r.pending, r.sent, r.epoch)
            && Gated(e.budget, r.link.state, r.sendingEnabled, r.pending)
  {
    hide Conserved, CallsJustified, FramesKeyed, FramesOrdered, QueueOrdered, Metered, Charged;
    var id, w := MsgId(link.msgSeq), s.queue[i];
    var p, f := Pending(w.spec.kind, w.tickets, w.deadline), Sent(id, w, now);
    NewIdIsFresh(s.pending, s.sent, s.epoch, s.link.msgSeq);
    SentConserves(s, i, id, p);
    PutPendingKeeps(s.pending, s.sent, s.epoch, f, p, s.link.msgSeq);
    SentKeepsFrames(s.sent, s.epoch, f, s.link.msgSeq);
  }

  /** The order and the rate of what is sent, and what still waits. */
  lemma SentKeepsPace(e: Env, s: Core, i: nat, link: Link, now: int)
    requires MaySend(e, s, i, link, now)
    ensures var r := TakenSent(s, i, link, MsgId(link.msgSeq), now);
            && Metered(e.budget, r.sent, r.tokens, r.lastRefill, r.refillInitialised)
            && Charged(e.budget, r.tokens, r.lastRefill, r.link.lastTx, r.refillInitialised)
            && QueueOrdered(r.queue, r.sequence) && FramesOrdered(r.queue, r.sent, r.sequence)
            && QueueTimely(r.queue) && QueueKeyed(r.queue)
  {
    hide Conserved, CallsJustified, FramesKeyed, FramesIssued, PendingSent, PendingIssued;
    var w := s.queue[i];
    var f := Sent(MsgId(link.msgSeq), w, now);
    assert Accrued(e.budget, now - link.lastTx) == 0.0;
    WithoutIsShorter(s.queue, i);
    WithoutKeepsOrder(s.queue, i, s.sequence);
    ShorterQueueStaysTimely(s.queue, Without(s.queue, i));
    ShorterQueueIsKeyed(s.queue, Without(s.queue, i));
    SentKeepsMetered(e.budget, s.sent, f, s.tokens, now);
    SentKeepsOrder(s.queue, i, s.sent, f, s.sequence);
  }

  lemma TakenSentKeepsInv(e: Env, s: Core, i: nat, link: Link, now: int)
    requires MaySend(e, s, i, link, now)
    ensures Inv(e, TakenSent(s, i, link, MsgId(link.msgSeq), now))
  {
    SentKeepsHistory(e, s, i, link, now);
    SentKeepsOpen(e, s, i, link, now);
    SentKeepsPace(e, s, i, link, now);
    hide MaySend, TakenSent;
  }

  // ---------------------------------------------------------------- leaving pending

  lemma TakenReplyKeepsInv(e: Env, s: Core, id: string, allowed: bool)
    requires Inv(e, s) && Has(s.pending, id)
    ensures Inv(e, TakenReply(s, id, allowed))
  {
    var r := Remove(s.pending, id);
    RemoveKeepsAscending(s.pending, id);
    forall q | Has(r, q) ensures Has(s.pending, q) && Find(s.pending, q) == Find(r, q) {
      FindAfterRemove(s.pending, id, q);
    }
    FewerPending(s.pending, r, s.sent, s.epoch, s.link.msgSeq);
    PendingTicketsRemove(s.pending, id);
  }

  /** What is left after taking everything out satisfies the invariant in any session state. */
  lemma TakenAllKeepsInv(e: Env, s: Core)
    requires Conserved(s.submitted, s.queue, s.pending, s.calling, s.called)
    requires Balanced(s.metrics, |s.queue|, |s.pending|, |s.sent|)
    requires s.sendingEnabled <==> s.link.state.Running?
    requires FramesIssued(s.sent, s.epoch, s.link.msgSeq)
    requires Metered(e.budget, s.sent, s.tokens, s.lastRefill, s.refillInitialised)
    requires Charged(e.budget, s.tokens, s.lastRefill, s.link.lastTx, s.refillInitialised)
    requires FramesOrdered(s.queue, s.sent, s.sequence)
    requires CallsTimely(s.called) && CallsJustified(s.called, s.sent) && FramesSeen(s.sent, s.link.lastTx)
    requires FramesKeyed(s.sent, s.submitted)
    ensures Inv(e, TakenAll(s))
  {
  }
}
