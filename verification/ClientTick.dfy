/**
 A tick of the client: poller, session and dispatcher together, driven by src/client.cpp:350-362.
 The reads that a tick of the poller asks for and async_read lets through reach the session a
 little later, at the second of the two clock readings.
 */
module ClientTick {
  import opened OrderedMap
  import opened Link
  import opened DispatcherState
  import opened DispatcherInvariants
  import Ops = DispatcherOps
  import Theorems = DispatcherTheorems
  import SessionState
  import SessionRuns
  import PollerState
  import PollerTheorems
  import opened ReadFrames

  type Session = SessionState.Session
  type Poller = PollerState.Poller

  function ReadRequest(r: PollRequest): Request { Request(ReadSpec(r), Handler(0, DatapointReader, [])) }

  // ---------------------------------------------------------------- the assumptions

  /** The budget gains a token within the keepalive interval, and reads have time to be sent. */
  ghost predicate Able(e: Env, keepalive: int) {
    && e.budget.rate >= 0.0 && e.budget.burst >= 1.0 && e.budget.maxInFlight >= 1
    && keepalive > 0 && Accrued(e.budget, keepalive) >= 1.0
    && e.defaultTimeout > 0
  }

  /** Frames are as long as their text, and carry a 64-bit time. */
  ghost predicate Framed(e: Env) { TextFrames(e) && Dated(e) }

  /** Every request made so far had a timeout below the keepalive interval. */
  ghost predicate TimeoutsBelow(c: Core, keepalive: int) {
    forall t :: t in c.submitted ==> t.due < t.at + keepalive
  }

  // ---------------------------------------------------------------- after a long silence

  lemma {:induction false} OpenTicketsCount(p: Entries<Pending>, id: string, t: Ticket)
    requires Has(p, id) && t in Find(p, id).value.tickets
    ensures t in PendingTickets(p)
  {
    if p[0].0 != id {
      OpenTicketsCount(p[1..], id, t);
    }
  }

  /** Nothing that was sent before a silence as long as the keepalive is still in time. */
  lemma OpenIsOverdue(e: Env, c: Core, keepalive: int, now: int, id: string)
    requires Inv(e, c) && TimeoutsBelow(c, keepalive) && now - c.link.lastTx >= keepalive && Has(c.pending, id)
    ensures Find(c.pending, id).value.deadline <= now
  {
    var p := Find(c.pending, id).value;
    var k :| c.epoch <= k < |c.sent| && IsOf(c.sent[k], id, p);
    var i :| 0 <= i < |p.tickets| && p.tickets[i].due == p.deadline;
    OpenTicketsCount(c.pending, id, p.tickets[i]);
    assert p.tickets[i] in c.submitted;
    assert AllBefore(c.sent[k].request.tickets, c.sent[k].at) && c.sent[k].at <= c.link.lastTx;
  }

  lemma ExpiredPending(e: Env, c: Core, now: int)
    ensures Ops.Expire(e, c, now).pending == LivePending(c.pending, now)
  {
  }

  lemma NothingStaysOpen(e: Env, c: Core, keepalive: int, now: int)
    requires Inv(e, c) && TimeoutsBelow(c, keepalive) && now - c.link.lastTx >= keepalive
    ensures Ops.Expire(e, c, now).pending == []
  {
    var live := LivePending(c.pending, now);
    ExpiredPending(e, c, now);
    assert Ascending(c.pending);
    hide Inv, Ops.Expire;
    if live != [] {
      var id := live[0].0;
      LivePendingFind(c.pending, now, id);
      OpenIsOverdue(e, c, keepalive, now, id);
    }
  }

  lemma TokenIsThere(e: Env, c: Core, keepalive: int, now: int)
    requires Inv(e, c) && (c.refillInitialised ==> c.lastRefill <= now)
    requires Able(e, keepalive) && now - c.link.lastTx >= keepalive
    ensures Ops.Expire(e, c, now).tokens >= 1.0
  {
    hide Refill, Ops.Expire, Accrued;
    ExpiredTokens(e, c, now);
    RefillKeepsCharged(e, c, now);
    hide Inv;
    ChargedLongAgo(e, Refill(e, c, now).tokens, now, c.link.lastTx, keepalive);
  }

  lemma ChargedLongAgo(e: Env, tokens: real, now: int, lastTx: int, keepalive: int)
    requires Charged(e.budget, tokens, now, lastTx, true) && Able(e, keepalive) && now - lastTx >= keepalive
    ensures tokens >= 1.0
  {
    AccruedGrows(e.budget, keepalive, now - lastTx);
    hide Accrued;
  }

  lemma ExpiredTokens(e: Env, c: Core, now: int)
    ensures Ops.Expire(e, c, now).tokens == Refill(e, c, now).tokens
  {
  }

  /** A tick of the dispatcher after such a silence sends, or leaves an empty dispatcher with a token. */
  lemma TickTransmits(e: Env, c: Core, keepalive: int, now: int)
    requires Ops.Ready(e, c, now) && TimeoutsBelow(c, keepalive) && now - c.link.lastTx >= keepalive
    requires Able(e, keepalive) && c.sendingEnabled && !c.draining
    ensures var r := Ops.Tick(e, c, now);
            |r.sent| > |c.sent| || (r.queue == [] && r.pending == [] && r.tokens >= 1.0)
  {
    Ops.ReadyHolds(e, c, now);
    NothingStaysOpen(e, c, keepalive, now);
    TokenIsThere(e, c, keepalive, now);
    Ops.ExpireSteps(e, c, now);
    ExpireKeepsSent(e, c, now);
    DrainTransmits(e, Ops.Expire(e, c, now), now);
  }

  lemma ExpireKeepsSent(e: Env, c: Core, now: int)
    ensures Ops.Expire(e, c, now).sent == c.sent && Ops.Expire(e, c, now).sendingEnabled == c.sendingEnabled
    ensures Ops.Expire(e, c, now).draining == c.draining && Ops.Expire(e, c, now).link == c.link
  {
  }

  lemma DrainTransmits(e: Env, a: Core, now: int)
    requires Ops.Ready(e, a, now) && a.refillInitialised && a.lastRefill == now
    requires a.sendingEnabled && !a.draining && e.budget.maxInFlight >= 1 && e.budget.rate >= 0.0
    requires a.pending == [] && a.tokens >= 1.0
    ensures var r := Ops.Drain(e, a, now);
            |r.sent| > |a.sent| || (r.queue == [] && r.pending == [] && r.tokens >= 1.0)
  {
    Ops.FlagSteps(e, a, true, now);
    Theorems.DrainTransmits(e, a.(draining := true), now);
  }

  /** A read submitted to an empty dispatcher with a token goes out at once. */
  lemma ReadTransmits(e: Env, c: Core, r: PollRequest, keepalive: int, at: int)
    requires Ops.Ready(e, c, at) && Able(e, keepalive) && c.sendingEnabled && !c.draining && c.link.state.Running?
    requires c.queue == [] && c.pending == [] && c.tokens >= 1.0
    requires EncodeAndSend(e, c.link, ReadSpec(r), at).1.Success?
    ensures |Ops.Submit(e, c, ReadRequest(r), at).sent| > |c.sent|
  {
    var spec := ReadSpec(r);
    var t := TicketFor(e, ReadRequest(r), at);
    var w := Waiting(spec, [t], t.due, c.sequence + 1);
    assert !Joins(c, spec);
    var b := Appended(c, spec, t);
    Ops.AppendSteps(e, c, spec, t, at);
    assert b.queue == [w];
    var a := Ops.Expire(e, b, at);
    LoneEntryStays(e, b, w, at);
    Ops.ExpireSteps(e, b, at);
    ExpireKeepsSent(e, b, at);
    LoneEntryGoesOut(e, a, r, w, at);
  }

  lemma LoneEntryStays(e: Env, b: Core, w: Waiting, at: int)
    requires Ops.Ready(e, b, at) && b.queue == [w] && b.pending == [] && w.deadline > at
    requires b.tokens >= 1.0 && e.budget.rate >= 0.0
    ensures var a := Ops.Expire(e, b, at); a.queue == [w] && a.pending == [] && a.tokens >= 1.0
  {
    Ops.ReadyHolds(e, b, at);
    Ops.RefillAddsTokens(e, b, at);
    Ops.ExpiredQueue(e, b, at);
    assert [w][1..] == [] && LiveQueue([w], at) == [w];
    assert Ops.Expire(e, b, at).pending == LivePending(b.pending, at) == [];
    assert Ops.Expire(e, b, at).tokens == Refill(e, b, at).tokens;
  }

  lemma LoneEntryGoesOut(e: Env, a: Core, r: PollRequest, w: Waiting, at: int)
    requires Ops.Ready(e, a, at) && a.refillInitialised && a.lastRefill == at
    requires a.sendingEnabled && !a.draining && a.link.state.Running? && e.budget.maxInFlight >= 1
    requires a.queue == [w] && a.pending == [] && a.tokens >= 1.0 && w.spec == ReadSpec(r)
    requires EncodeAndSend(e, a.link, ReadSpec(r), at).1.Success?
    ensures |Ops.Drain(e, a, at).sent| > |a.sent|
  {
    Ops.FlagSteps(e, a, true, at);
    var s := a.(draining := true);
    assert MinIndex(s.queue) == 0 && s.queue[0] == w;
    var (link, result) := EncodeAndSend(e, s.link, w.spec, at);
    Ops.SuccessTurn(e, s, at, link, result.value);
    Theorems.GrowsOnly(e, TakenSent(s, 0, link, result.value, at), at);
  }

  /** Nothing waits or is open, and a token is there. */
  ghost predicate Idle(c: Core) {
    c.queue == [] && c.pending == [] && c.tokens >= 1.0 && c.sendingEnabled && !c.draining && c.link.state.Running?
  }

  /** One that the transport does not take fails at once, and leaves the dispatcher as idle as before. */
  lemma ReadFails(e: Env, c: Core, r: PollRequest, keepalive: int, at: int)
    requires Ops.Ready(e, c, at) && Able(e, keepalive) && Idle(c)
    requires EncodeAndSend(e, c.link, ReadSpec(r), at).1.Failure?
    ensures var a := Ops.Submit(e, c, ReadRequest(r), at);
            Idle(a) && a.sent == c.sent && a.link == EncodeAndSend(e, c.link, ReadSpec(r), at).0
  {
    var spec := ReadSpec(r);
    var t := TicketFor(e, ReadRequest(r), at);
    var w := Waiting(spec, [t], t.due, c.sequence + 1);
    assert !Joins(c, spec);
    var b := Appended(c, spec, t);
    Ops.AppendSteps(e, c, spec, t, at);
    assert b.queue == [w];
    var a := Ops.Expire(e, b, at);
    LoneEntryStays(e, b, w, at);
    Ops.ExpireSteps(e, b, at);
    ExpireKeepsSent(e, b, at);
    LoneEntryFails(e, a, r, w, t, at);
  }

  lemma LoneEntryFails(e: Env, a: Core, r: PollRequest, w: Waiting, t: Ticket, at: int)
    requires Ops.Ready(e, a, at) && a.refillInitialised && a.lastRefill == at
    requires a.sendingEnabled && !a.draining && a.link.state.Running? && e.budget.maxInFlight >= 1
    requires a.queue == [w] && a.pending == [] && a.tokens >= 1.0 && w.spec == ReadSpec(r)
    requires w.tickets == [t] && t.handler.followUps == []
    requires EncodeAndSend(e, a.link, ReadSpec(r), at).1.Failure?
    ensures var b := Ops.Drain(e, a, at);
            Idle(b) && b.sent == a.sent && b.link == EncodeAndSend(e, a.link, ReadSpec(r), at).0
  {
    Ops.FlagSteps(e, a, true, at);
    var s := a.(draining := true);
    assert MinIndex(s.queue) == 0 && s.queue[0] == w && Without(s.queue, 0) == [];
    var (link, result) := EncodeAndSend(e, s.link, w.spec, at);
    Ops.FailureTurn(e, s, at, link, result.error);
    OneCall(e, TakenFailed(s, 0, link), t, Failed(result.error), at);
  }

  /** A handler without follow-ups is called, and that is all. */
  lemma OneCall(e: Env, s: Core, t: Ticket, outcome: Outcome, at: int)
    requires Ops.MayComplete(e, s, [t], outcome, at) && t.handler.followUps == []
    ensures Ops.Complete(e, s, [t], outcome, at) == Logged(s, t, outcome, at)
  {
    Ops.CompleteTurn(e, s, [t], outcome, at);
    assert [t][1..] == [];
  }

  // ---------------------------------------------------------------- the client's tick

  /** `known` is the catalog. */
  datatype Client = Client(session: Session, poller: Poller, known: string -> bool)

  /** The reads of a tick, submitted one after the other. */
  function AskEach(e: Env, s: Session, rs: seq<PollRequest>, at: int): (r: Session)
    requires SessionRuns.Good(e, s, at)
    ensures SessionRuns.Good(e, r, at) && Ops.Follows(e, s.core, r.core, at)
    decreases |rs|
  {
    Ops.FollowsSelf(e, s.core, at);
    if rs == [] then s
    else
      SessionRuns.AskKeepsGood(e, s, ReadRequest(rs[0]), at);
      var a := SessionState.Ask(e, s, ReadRequest(rs[0]), at);
      var r := AskEach(e, a, rs[1..], at);
      Ops.FollowsTrans(e, s.core, a.core, r.core, at);
      r
  }

  /** async_read completes a poll that asks for an unknown name at once, with a failure. */
  function Refused(p: Poller, known: string -> bool, i: nat): Poller
    decreases |p.outstanding| - i
  {
    if i >= |p.outstanding| then p
    else if Knows(known, PollerState.Poll(p.outstanding[i])) then Refused(p, known, i + 1)
    else Refused(PollerState.Complete(p, i, false), known, i)
  }

  lemma {:induction false} RefusedKeepsGood(p: Poller, known: string -> bool, i: nat)
    requires PollerTheorems.Good(p)
    ensures var r := Refused(p, known, i);
            && PollerTheorems.Good(r) && r == p.(entries := r.entries, outstanding := r.outstanding, stats := r.stats)
            && forall k :: Has(r.entries, k) <==> Has(p.entries, k)
    decreases |p.outstanding| - i
  {
    if i < |p.outstanding| {
      if Knows(known, PollerState.Poll(p.outstanding[i])) {
        RefusedKeepsGood(p, known, i + 1);
      } else {
        PollerTheorems.CompleteKeepsGood(p, i, false);
        forall k { PollerTheorems.LandedAt(p.entries, p.outstanding[i], k); }
        RefusedKeepsGood(PollerState.Complete(p, i, false), known, i);
      }
    }
  }

  /** What a tick asks for, and what of it async_read submits. */
  function AskedAt(c: Client, now: int, lastTx: int): seq<PollRequest>
    requires PollerState.CanTick(c.poller, now)
  {
    Submitted(PollerState.Tick(c.poller, now, lastTx).1, c.known)
  }

  /** arm_tick: the session first, then the poller if the session runs; its reads follow at `at`. */
  ghost function Tick(e: Env, c: Client, now: int, at: int): Client
    requires SessionRuns.Good(e, c.session, now) && PollerState.CanTick(c.poller, now) && now <= at
  {
    SessionRuns.TickKeepsGood(e, c.session, now);
    var s := SessionState.Tick(e, c.session, now);
    if !s.core.link.state.Running? then c.(session := s)
    else
      SessionRuns.GoodLater(e, s, now, at);
      var p := PollerState.Tick(c.poller, now, s.core.link.lastTx).0;
      c.(session := AskEach(e, s, AskedAt(c, now, s.core.link.lastTx), at), poller := Refused(p, c.known, |c.poller.outstanding|))
  }

  ghost predicate Attentive(c: Client, keepalive: int) {
    && c.session.core.link.state.Running?
    && c.poller.running && !c.poller.paused && c.poller.keepalive == keepalive
  }

  /** All entries of the poller are in the catalog. */
  ghost predicate InCatalog(p: Poller, known: string -> bool) { forall k :: Has(p.entries, k) ==> known(k) }

  /** Everything the bound needs to know of a moment. */
  ghost predicate Calm(e: Env, c: Client, now: int, keepalive: int) {
    && SessionRuns.Good(e, c.session, now) && PollerTheorems.Good(c.poller)
    && Attentive(c, keepalive) && TimeoutsBelow(c.session.core, keepalive)
  }

  lemma FollowsSent(e: Env, s: Core, r: Core, now: int)
    requires Ops.Follows(e, s, r, now)
    ensures r.link.state == s.link.state && |s.sent| <= |r.sent|
    ensures r.link.lastTx == if |r.sent| > |s.sent| then now else s.link.lastTx
  {
    assert Ops.OpenFollows(0);
  }

  lemma RunningSends(e: Env, s: Session, now: int)
    requires SessionRuns.Good(e, s, now) && s.core.link.state.Running?
    ensures s.core.sendingEnabled && !s.core.draining
  {
    Ops.ReadyHolds(e, s.core, now);
  }

  /**
   The key step, for all clients: a tick that finds a silence as long as the keepalive interval
   transmits, exactly if the session's part of it does, or the transport takes one of the reads
   that async_read submits.
   */
  lemma SilentTickTransmitsIff(e: Env, c: Client, now: int, at: int, keepalive: int)
    requires Calm(e, c, now, keepalive) && Able(e, keepalive) && Framed(e) && ShortCatalog(c.known) && now <= at
    requires now - c.session.core.link.lastTx >= keepalive && PollerState.CanTick(c.poller, now)
    requires IdsLeft(SessionState.Tick(e, c.session, now).core.link, |AskedAt(c, now, SessionState.Tick(e, c.session, now).core.link.lastTx)|)
    ensures var s := SessionState.Tick(e, c.session, now).core;
            |Tick(e, c, now, at).session.core.sent| > |c.session.core.sent| <==>
              || |s.sent| > |c.session.core.sent|
              || Takes(e, s.link, |AskedAt(c, now, s.link.lastTx)|)
  {
    var s := SessionState.Tick(e, c.session, now);
    SilentSessionTick(e, c, now, at, keepalive);
    var asked := AskedAt(c, now, s.core.link.lastTx);
    FollowsSent(e, s.core, AskEach(e, s, asked, at).core, at);
    if |s.core.sent| == |c.session.core.sent| {
      AskedIsShort(c, now, s.core.link.lastTx);
      ReadsTransmitIff(e, s, asked, keepalive, at);
    }
  }

  /** The transport takes one of the next n frames. */
  ghost predicate Takes(e: Env, l: Link, n: nat) { exists j: nat :: j < n && TakesAt(e, l, j) }

  predicate TakesAt(e: Env, l: Link, j: nat) { e.transport(l.attempts + j) }

  /** The session's part of such a tick sends, or leaves the dispatcher idle. */
  lemma SilentSessionTick(e: Env, c: Client, now: int, at: int, keepalive: int)
    requires Calm(e, c, now, keepalive) && Able(e, keepalive) && now <= at
    requires now - c.session.core.link.lastTx >= keepalive
    ensures var s := SessionState.Tick(e, c.session, now);
            && SessionRuns.Good(e, s, now) && SessionRuns.Good(e, s, at) && s.core.link.state.Running?
            && |s.core.sent| >= |c.session.core.sent| && s.core.link.lastTx in {c.session.core.link.lastTx, now}
            && (|s.core.sent| > |c.session.core.sent| || (Idle(s.core) && s.core.link.lastTx == c.session.core.link.lastTx))
  {
    var core := c.session.core;
    RunningSends(e, c.session, now);
    SessionRuns.TickKeepsGood(e, c.session, now);
    TickTransmits(e, core, keepalive, now);
    var s := SessionState.Tick(e, c.session, now);
    assert s.core == Ops.Tick(e, core, now);
    FollowsSent(e, core, s.core, now);
    SessionRuns.GoodLater(e, s, now, at);
    RunningSends(e, s, at);
  }

  ghost predicate AllShort(asked: seq<PollRequest>) {
    forall i :: 0 <= i < |asked| ==> |Asks(asked[i])| <= PollerState.MAX_NAMES_PER_REQUEST && ShortNames(Asks(asked[i]))
  }

  /** What async_read submits is at most a hundred names of the catalog a time. */
  lemma AskedIsShort(c: Client, now: int, lastTx: int)
    requires PollerTheorems.Good(c.poller) && PollerState.CanTick(c.poller, now) && ShortCatalog(c.known)
    ensures AllShort(AskedAt(c, now, lastTx))
  {
    var asked := PollerState.Tick(c.poller, now, lastTx).1;
    SubmittedIsPart(asked, c.known);
    forall r | r in asked ensures |Asks(r)| <= PollerState.MAX_NAMES_PER_REQUEST {
      if r.Poll? { PollerTheorems.RequestsAreSmall(c.poller, now, lastTx, r); }
    }
    hide PollerState.Tick;
  }

  /** Reads submitted to an idle dispatcher transmit exactly if the transport takes one of them. */
  lemma {:induction false} ReadsTransmitIff(e: Env, s: Session, asked: seq<PollRequest>, keepalive: int, at: int)
    requires SessionRuns.Good(e, s, at) && Able(e, keepalive) && Framed(e) && Idle(s.core)
    requires AllShort(asked) && IdsLeft(s.core.link, |asked|)
    ensures |AskEach(e, s, asked, at).core.sent| > |s.core.sent| <==> Takes(e, s.core.link, |asked|)
    decreases |asked|
  {
    hide Ops.Submit, EncodeAndSend, ReadSpec, AllShort, Takes, Able, Framed, Idle, IdsLeft;
    if asked == [] {
      TakesNone(e, s.core.link);
    } else {
      FirstRead(e, s, asked, keepalive, at);
      var a := SessionState.Ask(e, s, ReadRequest(asked[0]), at);
      FollowsSent(e, a.core, AskEach(e, a, asked[1..], at).core, at);
      if !e.transport(s.core.link.attempts) {
        ReadsTransmitIff(e, a, asked[1..], keepalive, at);
        TakesLater(e, s.core.link, a.core.link, |asked|);
      }
    }
  }

  /** The first of them: it transmits, or leaves all as it was but for an id and an attempt. */
  lemma FirstRead(e: Env, s: Session, asked: seq<PollRequest>, keepalive: int, at: int)
    requires SessionRuns.Good(e, s, at) && Able(e, keepalive) && Framed(e) && Idle(s.core)
    requires asked != [] && AllShort(asked) && IdsLeft(s.core.link, |asked|)
    ensures var a := SessionState.Ask(e, s, ReadRequest(asked[0]), at);
            && SessionRuns.Good(e, a, at) && AllShort(asked[1..])
            && (e.transport(s.core.link.attempts) ==> |a.core.sent| > |s.core.sent| && Takes(e, s.core.link, |asked|))
            && (!e.transport(s.core.link.attempts) ==>
                  Idle(a.core) && a.core.sent == s.core.sent && a.core.link.attempts == s.core.link.attempts + 1
                  && IdsLeft(a.core.link, |asked| - 1))
  {
    hide Ops.Submit, EncodeAndSend, ReadSpec, Idle, Able;
    assert |Asks(asked[0])| <= PollerState.MAX_NAMES_PER_REQUEST && ShortNames(Asks(asked[0]));
    assert forall i :: 0 <= i < |asked[1..]| ==> asked[1..][i] == asked[i + 1];
    SessionRuns.AskKeepsGood(e, s, ReadRequest(asked[0]), at);
    OneRead(e, s.core, asked[0], keepalive, at);
    if e.transport(s.core.link.attempts) { assert TakesAt(e, s.core.link, 0); }
  }

  lemma OneRead(e: Env, c: Core, r: PollRequest, keepalive: int, at: int)
    requires Ops.Ready(e, c, at) && Able(e, keepalive) && Framed(e) && Idle(c) && IdsLeft(c.link, 1)
    requires |Asks(r)| <= PollerState.MAX_NAMES_PER_REQUEST && ShortNames(Asks(r))
    ensures var a := Ops.Submit(e, c, ReadRequest(r), at);
            if e.transport(c.link.attempts) then |a.sent| > |c.sent|
            else Idle(a) && a.sent == c.sent && a.link.attempts == c.link.attempts + 1 && a.link.msgSeq == c.link.msgSeq + 1
  {
    ReadGoesOutIff(e, c.link, r, at);
    if e.transport(c.link.attempts) {
      ReadTransmits(e, c, r, keepalive, at);
    } else {
      ReadFails(e, c, r, keepalive, at);
    }
    hide Ops.Submit, EncodeAndSend, ReadSpec, Able;
  }

  lemma TakesNone(e: Env, l: Link)
    ensures !Takes(e, l, 0)
  {
  }

  lemma TakesLater(e: Env, l: Link, next: Link, n: nat)
    requires n > 0 && !e.transport(l.attempts) && next.attempts == l.attempts + 1
    ensures Takes(e, l, n) <==> Takes(e, next, n - 1)
  {
    if Takes(e, l, n) {
      var j: nat :| j < n && TakesAt(e, l, j);
      assert j > 0 && TakesAt(e, next, j - 1);
    }
    if Takes(e, next, n - 1) {
      var j: nat :| j < n - 1 && TakesAt(e, next, j);
      assert TakesAt(e, l, j + 1);
    }
  }

  /** With all its entries in the catalog, a client that ticks in such a silence has a read submitted. */
  lemma SilentTickAsks(c: Client, now: int, lastTx: int)
    requires PollerTheorems.Good(c.poller) && PollerState.CanTick(c.poller, now) && InCatalog(c.poller, c.known)
    requires c.known("System_Uptime") && c.poller.running && !c.poller.paused
    requires c.poller.keepalive > 0 && now - lastTx >= c.poller.keepalive
    ensures AskedAt(c, now, lastTx) != []
  {
    var asked := PollerState.Tick(c.poller, now, lastTx).1;
    SubmittedIsPart(asked, c.known);
    PollerTheorems.TickRequests(c.poller, now, lastTx);
    if asked[0].Poll? { PollerTheorems.RequestsAreSmall(c.poller, now, lastTx, asked[0]); }
    assert Knows(c.known, asked[0]);
  }
}
