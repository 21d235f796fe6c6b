/** What holds over every run of a session (src/protocol/session.cpp with its dispatcher). */
module SessionTheorems {
  import opened Wrappers
  import opened Errors
  import opened OrderedMap
  import opened JsonValues
  import opened Messages
  import opened Auth
  import Link
  import opened DispatcherState
  import opened DispatcherInvariants
  import Ops = DispatcherOps
  import Replies = DispatcherReplies
  import Theorems = DispatcherTheorems
  import opened SessionState
  import opened SessionRuns

  // ---------------------------------------------------------------- the two-party signed stream

  /**
   The device's side of the stream: verify each signed frame under the shared context, then
   AntiReplay.check its number; other frames are not its concern.
   */
  ghost predicate PeerAccepts(c: Crypto, auth: AuthContext, frames: seq<Link.Frame>, last: int) {
    frames == [] ||
    (match frames[0].control
     case None => PeerAccepts(c, auth, frames[1..], last)
     case Some(_) =>
       && frames[0].message.Obj?
       && Verify(c, frames[0].message, auth, S2c) == Accepted
       && AuthSeq(frames[0].message) > last
       && PeerAccepts(c, auth, frames[1..], AuthSeq(frames[0].message)))
  }

  lemma {:induction false} SignedIsAccepted(c: Crypto, l: Link.Link, from: nat, last: int)
    requires SignedSince(c, l, from)
    requires forall i :: from <= i < |l.wire| && l.wire[i].control.Some? ==> last < l.wire[i].control.value
    ensures PeerAccepts(c, l.auth, l.wire[from..], last)
    decreases |l.wire| - from
  {
    if from < |l.wire| {
      assert l.wire[from..][1..] == l.wire[from + 1..];
      var f := l.wire[from];
      SignedIsAccepted(c, l, from + 1, if f.control.Some? then f.control.value else last);
    }
  }

  /**
   A peer that holds the context of the accepted hello accepts every control frame the
   session has sent since, whatever was asked of the session and whatever failed to be sent.
   */
  lemma PeerAcceptsEveryFrame(e: Env, evs: seq<Event>)
    requires Schedule(evs) && Run(e, evs).hello.Some?
    ensures var s := Run(e, evs);
            s.signedFrom <= |s.core.link.wire| &&
            PeerAccepts(e.crypto, s.core.link.auth, s.core.link.wire[s.signedFrom..], 0)
  {
    var s := Run(e, evs);
    SignedIsAccepted(e.crypto, s.core.link, s.signedFrom, 0);
  }

  /** Inbound: a signed frame whose number was accepted before, or is lower, changes no state but a warning. */
  lemma ReplayIsInert(e: Env, evs: seq<Event>, m: Json, now: int, i: nat)
    requires Schedule(evs) && Clock(evs) <= now && m.Obj? && m.Member("auth").Some?
    requires var s := Run(e, evs);
             s.core.link.state.Running? && i < |s.accepted| && AuthSeq(m) <= s.accepted[i]
    ensures var s := Run(e, evs);
            Ops.Ready(e, s.core, now) && OnText(e, s, Some(m), now) == Warned(s, m)
  {
    var s := Run(e, evs);
    GoodLater(e, s, Clock(evs), now);
    LastIsGreatest(s.accepted, s.replay, i);
    assert !Admitted(e, s, m);
  }

  lemma LastIsGreatest(accepted: seq<int>, replay: int, i: nat)
    requires Inbound(accepted, replay) && i < |accepted|
    ensures accepted[i] <= replay
  {
  }

  /**
   The first signed frame, when it is not an ota_check, establishes the session and is then
   dropped: its number was used up when it was taken as the proof. The comment at
   session.cpp:373-377 expects it to be processed.
   */
  lemma FirstFrameDropped(e: Env, s: Session, m: Json, now: int)
    requires Good(e, s, now) && s.core.link.state.AwaitProof? && m.Obj?
    requires Verify(e.crypto, m, s.core.link.auth, C2s) == Accepted && AuthSeq(m) > s.replay
    ensures var r := OnText(e, s, Some(m), now);
            && r.core.link.state.Running? && r.ready == 1
            && (r.notices == s.notices + [Notice(Warning, m)] <==> m.StringAt("type") != SESSION_PROOF)
            && (m.StringAt("type") != SESSION_PROOF ==> r.core == Entered(s.core, Link.Running))
  {
    var t := s.(replay := AuthSeq(m), accepted := s.accepted + [AuthSeq(m)], proof := Some(m));
    assert OnText(e, s, Some(m), now) == Proceed(e, t, m, now);
    if m.StringAt("type") == SESSION_PROOF {
      OtaKeepsGood(e, s, m, now);
      assert s.notices != s.notices + [Notice(Warning, m)];
    } else {
      EnteredReady(e, s.core, Link.Running, now);
      assert !Admitted(e, Established(t), m);
    }
  }

  // ---------------------------------------------------------------- handshake and safety

  /** What the state says of the callbacks, and of sending. */
  lemma RunIsSafe(e: Env, evs: seq<Event>)
    requires Schedule(evs)
    ensures var s := Run(e, evs);
            && (s.core.sendingEnabled <==> s.core.link.state.Running?)
            && (s.core.link.state.Running? ==> s.ready == 1 && s.connected)
            && s.ready <= 1 && s.ready + s.failures <= 1
            && (s.ready == 1 ==> Proven(e, s))
            && (s.core.pending != [] ==> s.core.link.state.Running?)
  {
    assert Ops.OpenReady(0);
    assert Good(e, Run(e, evs), Clock(evs));
  }

  lemma RunSnoc(e: Env, evs: seq<Event>, ev: Event)
    requires Schedule(evs + [ev])
    ensures Schedule(evs) && Good(e, Run(e, evs), ev.at) && MayHappen(evs, ev)
    ensures Run(e, evs + [ev]) == Step(e, Run(e, evs), ev)
  {
    assert (evs + [ev])[..|evs|] == evs;
    if evs == [] {
      GoodAtStart(e, ev.at);
    } else {
      GoodLater(e, Run(e, evs), Clock(evs), ev.at);
    }
  }

  /** After any tick at or past the deadline of the handshake, the session is running or closed. */
  lemma HandshakeEnds(e: Env, evs: seq<Event>, at: int)
    requires Schedule(evs + [Ticked(at)]) && at >= Run(e, evs + [Ticked(at)]).deadline
    ensures var state := Run(e, evs + [Ticked(at)]).core.link.state; state.Running? || state.Closed?
  {
    RunSnoc(e, evs, Ticked(at));
    TickKeepsGood(e, Run(e, evs), at);
  }

  /** After a tick that does not end the handshake, nothing waits or is open past its deadline, not even what that tick sent. */
  lemma TickLeavesNothingOverdue(e: Env, evs: seq<Event>, at: int)
    requires Schedule(evs + [Ticked(at)])
    requires var s := Run(e, evs);
             !((s.core.link.state.AwaitHello? || s.core.link.state.AwaitProof?) && at >= s.deadline)
    ensures Ops.Live(Run(e, evs + [Ticked(at)]).core, at)
  {
    RunSnoc(e, evs, Ticked(at));
  }

  // ---------------------------------------------------------------- exactly once, over runs

  /**
   At every moment of every run each submission is in exactly one place: waiting, open or
   called; and the metrics account for all of them.
   */
  lemma RunConserves(e: Env, evs: seq<Event>, t: Ticket)
    requires Schedule(evs)
    ensures var c := Run(e, evs).core;
            && c.submitted[t] == |Theorems.CallsTo(c.called, t)| + QueueTickets(c.queue)[t] + PendingTickets(c.pending)[t]
            && c.metrics.submitted == c.metrics.coalesced + |c.queue| + |c.pending| + c.metrics.completed
                 + c.metrics.timeouts + c.metrics.sendFailures + c.metrics.disconnectFailures + c.metrics.unexpected
  {
    assert Ops.OpenReady(0);
    Theorems.ExactlyOnce(e, Run(e, evs).core, t);
  }

  lemma MoreCallsMoreTickets(a: seq<Call>, b: seq<Call>)
    requires a <= b
    ensures CalledTickets(a) <= CalledTickets(b)
  {
    assert b == a + b[|a|..];
    CalledTicketsConcat(a, b[|a|..]);
  }

  /** One handler is called, then what it submits runs. */
  lemma TurnCalls(e: Env, c: Core, ts: seq<Ticket>, outcome: Outcome, now: int)
    requires Ops.MayComplete(e, c, ts, outcome, now) && ts != []
    requires Ops.Ready(e, Logged(c, ts[0], outcome, now), now)
    ensures CalledTickets(c.called) + multiset{ts[0]} <=
            CalledTickets(Ops.SubmitAll(e, Logged(c, ts[0], outcome, now), ts[0].handler.followUps, now).called)
  {
    var a := Logged(c, ts[0], outcome, now);
    var b := Ops.SubmitAll(e, a, ts[0].handler.followUps, now);
    assert a.called <= b.called by { assert Ops.OpenFollows(0); }
    MoreCallsMoreTickets(a.called, b.called);
    CalledTicketsConcat(c.called, [Call(ts[0], outcome, now)]);
    assert [Call(ts[0], outcome, now)][1..] == [];
  }

  lemma HeadAndRest(ts: seq<Ticket>, a: multiset<Ticket>, b: multiset<Ticket>, c: multiset<Ticket>)
    requires ts != [] && a + multiset{ts[0]} <= b && b + multiset(ts[1..]) <= c
    ensures a + multiset(ts) <= c
  {
    assert ts == [ts[0]] + ts[1..];
  }

  /** complete() calls each of its handlers. */
  lemma {:induction false} CompleteCalls(e: Env, c: Core, ts: seq<Ticket>, outcome: Outcome, now: int)
    requires Ops.MayComplete(e, c, ts, outcome, now)
    ensures CalledTickets(c.called) + multiset(ts) <= CalledTickets(Ops.Complete(e, c, ts, outcome, now).called)
    decreases |ts|
  {
    if ts != [] {
      Ops.CompleteTurn(e, c, ts, outcome, now);
      TurnCalls(e, c, ts, outcome, now);
      var b := Ops.SubmitAll(e, Logged(c, ts[0], outcome, now), ts[0].handler.followUps, now);
      CompleteCalls(e, b, ts[1..], outcome, now);
      HeadAndRest(ts, CalledTickets(c.called), CalledTickets(b.called),
                  CalledTickets(Ops.Complete(e, b, ts[1..], outcome, now).called));
    }
  }

  lemma {:induction false} FailGroupsCalls(e: Env, c: Core, gs: seq<seq<Ticket>>, error: Error, now: int)
    requires Ops.Ready(e, c, now) && Replies.GroupTickets(gs) <= c.calling
    ensures CalledTickets(c.called) + Replies.GroupTickets(gs)
            <= CalledTickets(Replies.FailGroups(e, c, gs, error, now).called)
    decreases |gs|
  {
    if gs != [] {
      Replies.FirstGroup(gs, c.calling);
      CompleteCalls(e, c, gs[0], Failed(error), now);
      FailGroupsCalls(e, Ops.Complete(e, c, gs[0], Failed(error), now), gs[1..], error, now);
    }
  }

  /** fail_all calls every handler that was waiting or open, once for each time it was submitted. */
  lemma FailAllCalls(e: Env, c: Core, error: Error, now: int)
    requires Replies.Closing(e, c, now)
    ensures CalledTickets(c.called) + PendingTickets(c.pending) + QueueTickets(c.queue)
            <= CalledTickets(Replies.FailAll(e, c, error, now).called)
  {
    Replies.GroupTicketsOfPending(c.pending);
    Replies.GroupTicketsOfQueue(c.queue);
    FailGroupsCalls(e, TakenAll(c), Replies.PendingGroups(c.pending), error, now);
    FailGroupsCalls(e, Replies.FailGroups(e, TakenAll(c), Replies.PendingGroups(c.pending), error, now),
                    Replies.QueueGroups(c.queue), error, now);
  }

  /**
   When the connection is lost, every submission made so far has been called, nothing is
   open, and whatever waits was submitted by the handlers that fail_all called.
   */
  lemma LossLeavesNothing(e: Env, evs: seq<Event>, error: Error, at: int)
    requires Schedule(evs + [Lost(error, at)])
    ensures var s, r := Run(e, evs).core, Run(e, evs + [Lost(error, at)]).core;
            && s.submitted <= CalledTickets(r.called) && r.pending == []
            && (forall i :: 0 <= i < |r.queue| ==> r.queue[i].sequence > s.sequence)
  {
    RunSnoc(e, evs, Lost(error, at));
    ClosingCallsAll(e, Run(e, evs), error, at);
  }

  lemma ClosingCallsAll(e: Env, s: Session, error: Error, now: int)
    requires Good(e, s, now)
    ensures var r := OnClosed(e, s, error, now).core;
            && s.core.submitted <= CalledTickets(r.called) && r.pending == []
            && (forall i :: 0 <= i < |r.queue| ==> r.queue[i].sequence > s.core.sequence)
  {
    var c := Entered(s.core, Link.Closed);
    EnteredClosing(e, s.core, now);
    FailAllCalls(e, c, error, now);
    AllPlaces(e, s, now);
    ShutDownKeeps(e, s, error, now);
    var r := ShutDown(e, s.core, error, now);
    NothingOpen(e, r, now);
    OnlyNewWaits(e, TakenAll(c), r, now);
  }

  lemma AllPlaces(e: Env, s: Session, now: int)
    requires Good(e, s, now)
    ensures s.core.submitted == CalledTickets(s.core.called) + PendingTickets(s.core.pending) + QueueTickets(s.core.queue)
  {
    assert Ops.OpenReady(0);
  }

  lemma NothingOpen(e: Env, r: Core, now: int)
    requires Ops.Ready(e, r, now) && r.link.state.Closed?
    ensures r.pending == []
  {
    assert Ops.OpenReady(0);
  }

  lemma OnlyNewWaits(e: Env, s: Core, r: Core, now: int)
    requires Ops.Follows(e, s, r, now) && s.queue == []
    ensures forall i :: 0 <= i < |r.queue| ==> r.queue[i].sequence > s.sequence
  {
    assert Ops.OpenFollows(0);
  }

  // ---------------------------------------------------------------- correlation, over runs

  /** What a connection keeps: its frames stay, and only new frames open requests. */
  ghost predicate Continues(s: Core, r: Core) {
    r.epoch == s.epoch && s.sent <= r.sent && Ops.OpensOnlyNew(s, r)
  }

  lemma FollowsContinues(e: Env, s: Core, r: Core, now: int)
    requires Ops.Follows(e, s, r, now)
    ensures Continues(s, r)
  {
    assert Ops.OpenFollows(0);
  }

  lemma ClosingContinues(e: Env, c: Core, error: Error, now: int)
    requires Replies.Closing(e, c, now)
    ensures Continues(c, Replies.FailAll(e, c, error, now))
  {
    FollowsContinues(e, TakenAll(c), Replies.FailAll(e, c, error, now), now);
  }

  lemma AbortContinues(e: Env, s: Session, error: Error, now: int)
    requires Ops.Ready(e, s.core, now)
    ensures Continues(s.core, Abort(e, s, error, now).core)
  {
    EnteredClosing(e, s.core, now);
    ClosingContinues(e, Entered(s.core, Link.Closed), error, now);
  }

  lemma DispatchContinues(e: Env, s: Session, m: Json, now: int)
    requires Ops.Ready(e, s.core, now) && m.Obj?
    ensures Continues(s.core, DispatchRunning(e, s, m, now).core)
  {
    FollowsContinues(e, s.core, Replies.OnMessage(e, s.core, m, now).0, now);
  }

  lemma RejectContinues(e: Env, s: Session, m: Json, reason: string, error: Error, now: int)
    requires Ops.Ready(e, s.core, now)
    ensures Continues(s.core, RejectHello(e, s, m, reason, error, now).core)
  {
    hide ShutDown, HelloRejected;
    var body, id := HelloRejected(e, reason, now), m.StringAt("msg_id");
    SaidReady(e, s.core, "hello_ack", body, id, now);
    AbortContinues(e, s.(core := Said(e, s.core, "hello_ack", body, id, now)), error, now);
  }

  lemma HelloContinues(e: Env, s: Session, m: Json, now: int)
    requires Ops.Ready(e, s.core, now)
    ensures Continues(s.core, Decided(e, s, m, now).core)
  {
    hide RejectHello, ChosenKid;
    var chosen := ChosenKid(e, m);
    if !DeviceExpected(e, m) {
      RejectContinues(e, s, m, "unknown_device", Error(Authentication, AuthRejected), now);
    } else if chosen.Failure? {
      RejectContinues(e, s, m, "auth_required", chosen.error, now);
    } else if !SchemeOffered(m) || chosen.value.0 == "" {
      RejectContinues(e, s, m, "auth_required", RejectionCause(e, m), now);
    }
  }

  lemma ProofContinues(e: Env, s: Session, m: Json, now: int)
    requires Ops.Ready(e, s.core, now) && m.Obj? && s.core.link.state.AwaitProof?
    ensures Continues(s.core, HandleProof(e, s, m, now).core)
  {
    if Verify(e.crypto, m, s.core.link.auth, C2s) != Accepted {
      AbortContinues(e, s, Error(Authentication, AuthRejected), now);
    } else if AuthSeq(m) <= s.replay {
      AbortContinues(e, s, Error(Authentication, ReplayDetected), now);
    } else {
      ProceedContinues(e, s.(replay := AuthSeq(m), accepted := s.accepted + [AuthSeq(m)], proof := Some(m)), m, now);
    }
  }

  lemma ProceedContinues(e: Env, s: Session, m: Json, now: int)
    requires Ops.Ready(e, s.core, now) && m.Obj? && s.core.link.state.AwaitProof?
    ensures Continues(s.core, Proceed(e, s, m, now).core)
  {
    if m.StringAt("type") == SESSION_PROOF {
      OtaContinues(e, s.core, m, now);
    } else {
      EnteredReady(e, s.core, Link.Running, now);
      DispatchContinues(e, Established(s), m, now);
    }
  }

  lemma OtaContinues(e: Env, c: Core, m: Json, now: int)
    ensures Continues(c, Entered(OtaAnswered(e, c, m, now), Link.Running))
  {
  }

  lemma TextContinues(e: Env, s: Session, message: Option<Json>, now: int)
    requires Ops.Ready(e, s.core, now) && (message.Some? ==> message.value.Obj?)
    ensures Continues(s.core, OnText(e, s, message, now).core)
  {
    hide Decided, Abort, DispatchRunning, HandleProof;
    match message
    case None => AbortContinues(e, s, Error(Protocol, MalformedMessage), now);
    case Some(m) =>
      match s.core.link.state
      case AwaitHello =>
        if m.StringAt("type") == "hello" {
          var auth := s.core.link.auth.(clientNonce := m.StringAt("client_nonce"));
          AuthReady(e, s.core, auth, now);
          HelloContinues(e, s.(core := s.core.(link := s.core.link.(auth := auth))), m, now);
        } else {
          AbortContinues(e, s, Error(Protocol, if m.StringAt("type") == "protocol_mismatch" then ProtocolMismatch else UnexpectedMessage), now);
        }
      case AwaitProof => ProofContinues(e, s, m, now);
      case Running => DispatchContinues(e, s, m, now);
      case Closed =>
  }

  lemma LossContinues(e: Env, s: Session, error: Error, now: int)
    requires Ops.Ready(e, s.core, now)
    ensures Continues(s.core, OnClosed(e, s, error, now).core)
  {
    EnteredClosing(e, s.core, now);
    ClosingContinues(e, Entered(s.core, Link.Closed), error, now);
  }

  lemma TickContinues(e: Env, s: Session, now: int)
    requires Ops.Ready(e, s.core, now)
    ensures Continues(s.core, Tick(e, s, now).core)
  {
    if (s.core.link.state.AwaitHello? || s.core.link.state.AwaitProof?) && now >= s.deadline {
      AbortContinues(e, s, Error(Protocol, HandshakeFailed), now);
    } else {
      FollowsContinues(e, s.core, Ops.Tick(e, s.core, now), now);
    }
  }

  lemma StepContinues(e: Env, s: Session, ev: Event)
    requires Good(e, s, ev.at) && !ev.Opened? && Possible(ev)
    ensures Continues(s.core, Step(e, s, ev).core)
  {
    match ev
    case Lost(error, at) => LossContinues(e, s, error, at);
    case Received(message, at) => TextContinues(e, s, message, at);
    case Ticked(at) => TickContinues(e, s, at);
    case Asked(request, at) => FollowsContinues(e, s.core, Ops.Submit(e, s.core, request, at), at);
    case Posted(kind, body, at) =>
  }

  /** The id belongs to a frame of this connection and is no longer open. */
  ghost predicate Retired(c: Core, id: string) {
    !Has(c.pending, id) && exists k :: c.epoch <= k < |c.sent| && c.sent[k].id == id
  }

  lemma RetiredStays(s: Core, r: Core, id: string, n: nat)
    requires Retired(s, id) && Continues(s, r) && FramesIssued(r.sent, r.epoch, n)
    ensures Retired(r, id)
  {
    var k :| s.epoch <= k < |s.sent| && s.sent[k].id == id;
    assert r.sent[k].id == id;
  }

  /** No connection is opened from position n on. */
  predicate SameConnection(evs: seq<Event>, n: nat) {
    forall i :: n <= i < |evs| ==> !evs[i].Opened?
  }

  lemma StillSameConnection(evs: seq<Event>, n: nat)
    requires SameConnection(evs, n)
    ensures SameConnection(evs, n + 1)
  {
  }

  predicate OpenRun(k: nat) { true }

  /** The id is retired at the end of these events; sealed, as Ready is. */
  ghost predicate RetiredAt(e: Env, evs: seq<Event>, id: string) {
    forall k: nat {:trigger OpenRun(k)} :: OpenRun(k) ==> Schedule(evs) && Retired(Run(e, evs).core, id)
  }

  lemma RetiredSnoc(e: Env, evs: seq<Event>, ev: Event, id: string)
    requires Schedule(evs + [ev]) && !ev.Opened? && RetiredAt(e, evs, id)
    ensures RetiredAt(e, evs + [ev], id)
  {
    assert OpenRun(0);
    RunSnoc(e, evs, ev);
    RetiredStep(e, Run(e, evs), ev, id);
  }

  lemma {:induction false} RetiredForGood(e: Env, evs: seq<Event>, n: nat, id: string)
    requires Schedule(evs) && n <= |evs| && SameConnection(evs, n) && RetiredAt(e, evs[..n], id)
    ensures RetiredAt(e, evs, id)
    decreases |evs|
  {
    if n == |evs| {
      assert evs[..n] == evs;
    } else {
      var before, ev := evs[..|evs| - 1], evs[|evs| - 1];
      assert before[..n] == evs[..n] && evs == before + [ev];
      RetiredForGood(e, before, n, id);
      RetiredSnoc(e, before, ev, id);
    }
  }

  lemma FramesAreIssued(e: Env, c: Core, now: int)
    requires Ops.Ready(e, c, now)
    ensures FramesIssued(c.sent, c.epoch, c.link.msgSeq)
  {
    Ops.ReadyHolds(e, c, now);
  }

  lemma RetiredStep(e: Env, s: Session, ev: Event, id: string)
    requires Good(e, s, ev.at) && !ev.Opened? && Retired(s.core, id)
    requires (ev.Received? ==> s.connected) && Possible(ev)
    ensures Retired(Step(e, s, ev).core, id)
  {
    var r := Step(e, s, ev);
    StepContinues(e, s, ev);
    StepKeepsGood(e, s, ev);
    FramesAreIssued(e, r.core, ev.at);
    RetiredStays(s.core, r.core, id, r.core.link.msgSeq);
  }

  lemma TakenIsRetired(e: Env, s: Core, id: string, allowed: bool, now: int)
    requires Ops.Ready(e, s, now) && Has(s.pending, id)
    ensures Retired(TakenReply(s, id, allowed), id)
  {
    Ops.ReadyHolds(e, s, now);
    FindAfterRemove(s.pending, id, id);
    var k :| s.epoch <= k < |s.sent| && IsOf(s.sent[k], id, Find(s.pending, id).value);
    assert s.sent[k].id == id;
  }

  lemma ReplyRetires(e: Env, s: Core, m: Json, now: int)
    requires Ops.Ready(e, s, now) && Has(s.pending, m.StringAt("in_reply_to"))
    ensures Retired(Replies.OnMessage(e, s, m, now).0, m.StringAt("in_reply_to"))
  {
    var id := m.StringAt("in_reply_to");
    var p := Find(s.pending, id).value;
    var allowed := ResponseAllowed(p.kind, m.StringAt("type"));
    var r := Replies.OnMessage(e, s, m, now).0;
    Replies.EmptyIdIsNotPending(e, s, now);
    Replies.ReplySteps(e, s, m, now);
    TakenIsRetired(e, s, id, allowed, now);
    FollowsContinues(e, TakenReply(s, id, allowed), r, now);
    FramesAreIssued(e, r, now);
    RetiredStays(TakenReply(s, id, allowed), r, id, r.link.msgSeq);
  }

  // ---------------------------------------------------------------- late and duplicate replies

  /** Whichever way a request stops being open, its id is retired. */
  lemma GoneIsRetired(e: Env, s: Core, r: Core, id: string, now: int)
    requires Ops.Ready(e, s, now) && Has(s.pending, id) && Continues(s, r) && !Has(r.pending, id)
    ensures Retired(r, id)
  {
    Ops.ReadyHolds(e, s, now);
    var k :| s.epoch <= k < |s.sent| && IsOf(s.sent[k], id, Find(s.pending, id).value);
    assert r.sent[k].id == id;
  }

  /** An open request keeps the deadline of its frame. */
  lemma StillOpenKeepsDeadline(e: Env, s: Core, r: Core, id: string, now: int)
    requires Ops.Ready(e, s, now) && Ops.Ready(e, r, now) && Continues(s, r)
    requires Has(s.pending, id) && Has(r.pending, id)
    ensures Find(r.pending, id).value.deadline == Find(s.pending, id).value.deadline
  {
    hide Ops.Ready, Ops.OpensOnlyNew;
    var k := FrameOf(e, s, id, now);
    var m := FrameOf(e, r, id, now);
    assert r.sent[k] == s.sent[k];
    SameFrame(e, r, k, m, now);
  }

  /** The frame of an open request. */
  lemma FrameOf(e: Env, s: Core, id: string, now: int) returns (k: nat)
    requires Ops.Ready(e, s, now) && Has(s.pending, id)
    ensures s.epoch <= k < |s.sent| && s.sent[k].id == id
    ensures s.sent[k].request.deadline == Find(s.pending, id).value.deadline
  {
    Ops.ReadyHolds(e, s, now);
    k :| s.epoch <= k < |s.sent| && IsOf(s.sent[k], id, Find(s.pending, id).value);
  }

  lemma SameFrame(e: Env, s: Core, k: nat, m: nat, now: int)
    requires Ops.Ready(e, s, now) && s.epoch <= k < |s.sent| && s.epoch <= m < |s.sent| && s.sent[k].id == s.sent[m].id
    ensures k == m
  {
    Ops.ReadyHolds(e, s, now);
  }

  lemma ExpiryRetires(e: Env, s: Session, id: string, at: int)
    requires Good(e, s, at) && Has(s.core.pending, id) && Find(s.core.pending, id).value.deadline <= at
    ensures Retired(Tick(e, s, at).core, id)
  {
    assert s.core.link.state.Running? by { Ops.ReadyHolds(e, s.core, at); }
    var r := Ops.Tick(e, s.core, at);
    FollowsContinues(e, s.core, r, at);
    if Has(r.pending, id) {
      StillOpenKeepsDeadline(e, s.core, r, id, at);
    }
    GoneIsRetired(e, s.core, r, id, at);
  }

  /** A tick retires every request whose deadline it reports as passed. */
  lemma TimedOutIsRetired(e: Env, evs: seq<Event>, at: int, id: string)
    requires Schedule(evs + [Ticked(at)]) && Schedule(evs)
    requires Has(Run(e, evs).core.pending, id) && Find(Run(e, evs).core.pending, id).value.deadline <= at
    ensures RetiredAt(e, evs + [Ticked(at)], id)
  {
    RunSnoc(e, evs, Ticked(at));
    ExpiryRetires(e, Run(e, evs), id, at);
  }

  /**
   Correlation over whole runs: once a frame of a connection is no longer open, whether its
   reply was taken or it timed out, no later message on that connection that names it calls a
   handler or changes the dispatcher.
   */
  lemma LateReplyIsInert(e: Env, evs: seq<Event>, n: nat, m: Json, now: int)
    requires Schedule(evs) && n <= |evs| && SameConnection(evs, n)
    requires RetiredAt(e, evs[..n], m.StringAt("in_reply_to"))
    requires Clock(evs) <= now && m.Obj?
    requires Run(e, evs).core.link.state.Running? || Run(e, evs).core.link.state.Closed?
    ensures Ops.Ready(e, Run(e, evs).core, now)
    ensures OnText(e, Run(e, evs), Some(m), now).core == Run(e, evs).core
  {
    RetiredForGood(e, evs, n, m.StringAt("in_reply_to"));
    RetiredRunIsInert(e, evs, m, now);
  }

  /** The event is a message that answers an open request of s. */
  ghost predicate TakesReply(e: Env, s: Session, ev: Event, first: Json) {
    && ev.Received? && ev.message == Some(first) && first.Obj?
    && s.core.link.state.Running? && Admitted(e, s, first)
    && Has(s.core.pending, first.StringAt("in_reply_to"))
  }

  /** The same at the end of these events; sealed, as Ready is. */
  ghost predicate TakesReplyAt(e: Env, evs: seq<Event>, ev: Event, first: Json) {
    forall k: nat {:trigger OpenRun(k)} :: OpenRun(k) ==> Schedule(evs) && TakesReply(e, Run(e, evs), ev, first)
  }

  /** A reply that was taken is taken once: its id is retired for the rest of the connection. */
  lemma AnsweredOnce(e: Env, evs: seq<Event>, n: nat, first: Json)
    requires Schedule(evs) && n < |evs| && SameConnection(evs, n)
    requires TakesReplyAt(e, evs[..n], evs[n], first)
    ensures RetiredAt(e, evs, first.StringAt("in_reply_to"))
  {
    hide *;
    var before, through, id := evs[..n], evs[..n + 1], first.StringAt("in_reply_to");
    StillSameConnection(evs, n);
    assert through == before + [evs[n]];
    SchedulePrefix(evs, n + 1);
    ReplyRetiresAt(e, before, evs[n], first);
    assert RetiredAt(e, through, id);
    RetiredForGood(e, evs, n + 1, id);
  }

  lemma RetiredRunIsInert(e: Env, evs: seq<Event>, m: Json, now: int)
    requires Schedule(evs) && RetiredAt(e, evs, m.StringAt("in_reply_to"))
    requires Clock(evs) <= now && m.Obj?
    requires Run(e, evs).core.link.state.Running? || Run(e, evs).core.link.state.Closed?
    ensures Ops.Ready(e, Run(e, evs).core, now)
    ensures OnText(e, Run(e, evs), Some(m), now).core == Run(e, evs).core
  {
    assert OpenRun(0);
    RetiredIsInert(e, Run(e, evs), m, Clock(evs), now);
  }

  lemma ReplyRetiresAt(e: Env, before: seq<Event>, ev: Event, first: Json)
    requires Schedule(before + [ev]) && TakesReplyAt(e, before, ev, first)
    ensures RetiredAt(e, before + [ev], first.StringAt("in_reply_to"))
  {
    hide Replies.OnMessage, Retired;
    assert OpenRun(0);
    RunSnoc(e, before, ev);
    ReplyRetires(e, Run(e, before).core, first, ev.at);
  }

  lemma RetiredIsInert(e: Env, s: Session, m: Json, last: int, now: int)
    requires Good(e, s, last) && last <= now && m.Obj?
    requires s.core.link.state.Running? || s.core.link.state.Closed?
    requires Retired(s.core, m.StringAt("in_reply_to"))
    ensures Ops.Ready(e, s.core, now) && OnText(e, s, Some(m), now).core == s.core
  {
    GoodLater(e, s, last, now);
  }

  lemma {:induction false} SchedulePrefix(evs: seq<Event>, n: nat)
    requires Schedule(evs) && n <= |evs|
    ensures Schedule(evs[..n])
    decreases |evs|
  {
    if n == |evs| {
      assert evs[..n] == evs;
    } else {
      assert evs[..|evs| - 1][..n] == evs[..n];
      SchedulePrefix(evs[..|evs| - 1], n);
    }
  }

  /** A handler succeeds only with the answer to a frame that carried its submission, of a type its request allows. */
  lemma SuccessIsAnswered(e: Env, evs: seq<Event>, i: nat)
    requires Schedule(evs) && i < |Run(e, evs).core.called| && Run(e, evs).core.called[i].outcome.Answered?
    ensures var c := Run(e, evs).core;
            exists k :: 0 <= k < |c.sent| && Answers(c.sent[k], c.called[i].ticket, c.called[i].outcome.message)
  {
    assert Ops.OpenReady(0);
    var c := Run(e, evs).core;
    assert Justified(c.sent, c.called[i].ticket, c.called[i].outcome);
  }

  /** What answers a request of the first type may answer one of the second; requests of unknown type are never sent. */
  predicate Compatible(first: string, second: string) {
    FindMeta(first).Some? ==>
      forall i :: 0 <= i < |FindMeta(first).value.responses| ==> ResponseAllowed(second, FindMeta(first).value.responses[i])
  }

  /** Requests that share a key agree in what may answer them. */
  ghost predicate KeysAgree(submitted: multiset<Ticket>) {
    forall t, u :: t in submitted && u in submitted && t.key == u.key != "" ==> Compatible(t.kind, u.kind)
  }

  lemma FrameAgrees(f: Sent, t: Ticket, submitted: multiset<Ticket>, response: string)
    requires Keyed(f.request) && AllIn(f.request.tickets, submitted) && FindMeta(f.request.spec.kind).Some?
    requires t in f.request.tickets && KeysAgree(submitted) && ResponseAllowed(f.request.spec.kind, response)
    ensures ResponseAllowed(t.kind, response)
  {
    var i :| 0 <= i < |f.request.tickets| && f.request.tickets[i] == t;
    var first := f.request.tickets[0];
    if i > 0 {
      assert first in submitted && t in submitted;
      assert Compatible(first.kind, t.kind);
    }
  }

  /** Where requests that share a key agree, a handler succeeds only with a type that its own request allows. */
  lemma RightKindIfKeysAgree(e: Env, evs: seq<Event>, i: nat)
    requires Schedule(evs) && i < |Run(e, evs).core.called| && Run(e, evs).core.called[i].outcome.Answered?
    requires KeysAgree(Run(e, evs).core.submitted)
    ensures RightKind(Run(e, evs).core.called[i])
  {
    var c := Run(e, evs).core;
    SuccessIsAnswered(e, evs, i);
    var k :| 0 <= k < |c.sent| && Answers(c.sent[k], c.called[i].ticket, c.called[i].outcome.message);
    assert FramesKeyed(c.sent, c.submitted) by { Ops.ReadyHolds(e, c, Clock(evs)); }
    FrameAgrees(c.sent[k], c.called[i].ticket, c.submitted, c.called[i].outcome.message.StringAt("type"));
  }

  /** A success of a type that the submission's own request allows. */
  predicate RightKind(c: Call) {
    c.outcome.Answered? ==> ResponseAllowed(c.ticket.kind, c.outcome.message.StringAt("type"))
  }

  /** No handler is told of a timeout before its own submission's deadline. */
  lemma NoEarlyTimeout(e: Env, evs: seq<Event>, i: nat)
    requires Schedule(evs) && i < |Run(e, evs).core.called| && Run(e, evs).core.called[i].outcome.TimedOut?
    ensures var c := Run(e, evs).core.called[i]; c.ticket.due <= c.at
  {
    assert Ops.OpenReady(0);
    assert NotEarly(Run(e, evs).core.called[i]);
  }

  // ---------------------------------------------------------------- priority, over runs

  lemma FollowsUrgent(e: Env, s: Core, r: Core, now: int)
    requires Ops.Follows(e, s, r, now)
    ensures r.link.state == s.link.state && s.sent <= r.sent && Ops.UrgentFirst(s, r)
  {
    assert Ops.OpenFollows(0);
  }

  /** What a message does to the dispatcher while the session runs: nothing, or on_message. */
  lemma RunningText(e: Env, s: Session, m: Json, at: int)
    requires Ops.Ready(e, s.core, at) && s.core.link.state.Running? && m.Obj?
    ensures var core := OnText(e, s, Some(m), at).core;
            core == s.core || core == Replies.OnMessage(e, s.core, m, at).0
  {
    hide Replies.OnMessage, Admitted;
  }

  lemma TextUrgent(e: Env, s: Session, message: Option<Json>, at: int)
    requires Ops.Ready(e, s.core, at) && s.core.link.state.Running? && (message.Some? ==> message.value.Obj?)
    ensures var r := OnText(e, s, message, at);
            r.core.link.state.Running? && s.core.sent <= r.core.sent && Ops.UrgentFirst(s.core, r.core)
  {
    hide Ops.UrgentFirst;
    SelfUrgent(s.core);
    match message
    case None =>
    case Some(m) =>
      hide OnText, Replies.OnMessage;
      RunningText(e, s, m, at);
      FollowsUrgent(e, s.core, Replies.OnMessage(e, s.core, m, at).0, at);
  }

  lemma SelfUrgent(s: Core)
    ensures Ops.UrgentFirst(s, s)
  {
    Ops.ShorterQueueUrgentFirst(s, s);
  }

  /** A running session goes on running until the transport is lost, and takes its requests in order. */
  lemma RunningStep(e: Env, s: Session, ev: Event)
    requires Good(e, s, ev.at) && s.core.link.state.Running? && Possible(ev) && !ev.Opened? && !ev.Lost?
    ensures var r := Step(e, s, ev);
            r.core.link.state.Running? && s.core.sent <= r.core.sent && Ops.UrgentFirst(s.core, r.core)
  {
    match ev
    case Received(message, at) => TextUrgent(e, s, message, at);
    case Ticked(at) => FollowsUrgent(e, s.core, Ops.Tick(e, s.core, at), at);
    case Asked(request, at) => FollowsUrgent(e, s.core, Ops.Submit(e, s.core, request, at), at);
    case Posted(kind, body, at) =>
      SaidReady(e, s.core, kind, body, "", at);
      Ops.ShorterQueueUrgentFirst(s.core, Said(e, s.core, kind, body, "", at));
  }

  /** Nothing opens or loses the transport from position n on. */
  predicate Undisturbed(evs: seq<Event>, n: nat) {
    forall i :: n <= i < |evs| ==> !evs[i].Opened? && !evs[i].Lost?
  }

  /** Running at the end of these events, with the order kept since s; sealed, as Ready is. */
  ghost predicate UrgentSince(e: Env, evs: seq<Event>, s: Core) {
    forall k: nat {:trigger OpenRun(k)} :: OpenRun(k) ==>
      && Schedule(evs) && Run(e, evs).core.link.state.Running?
      && s.sent <= Run(e, evs).core.sent && Ops.UrgentFirst(s, Run(e, evs).core)
  }

  lemma UrgentSnoc(e: Env, evs: seq<Event>, ev: Event, s: Core)
    requires Schedule(evs + [ev]) && !ev.Opened? && !ev.Lost? && UrgentSince(e, evs, s)
    ensures UrgentSince(e, evs + [ev], s)
  {
    assert OpenRun(0);
    RunSnoc(e, evs, ev);
    RunningStep(e, Run(e, evs), ev);
    Ops.UrgentFirstTrans(s, Run(e, evs).core, Run(e, evs + [ev]).core);
  }

  lemma {:induction false} UrgentThroughout(e: Env, evs: seq<Event>, n: nat, s: Core)
    requires Schedule(evs) && n <= |evs| && Undisturbed(evs, n) && UrgentSince(e, evs[..n], s)
    ensures UrgentSince(e, evs, s)
    decreases |evs|
  {
    if n == |evs| {
      assert evs[..n] == evs;
    } else {
      var before, ev := evs[..|evs| - 1], evs[|evs| - 1];
      assert before[..n] == evs[..n] && evs == before + [ev];
      UrgentThroughout(e, before, n, s);
      UrgentSnoc(e, before, ev, s);
    }
  }

  lemma UrgentAtOnce(e: Env, evs: seq<Event>)
    requires Schedule(evs) && Run(e, evs).core.link.state.Running?
    ensures UrgentSince(e, evs, Run(e, evs).core)
  {
    Ops.ShorterQueueUrgentFirst(Run(e, evs).core, Run(e, evs).core);
  }

  /**
   Strict priority over whole runs: as long as a safety-control request waits, whether it was
   submitted so or raised by a later one that joined it, only safety-control requests are sent.
   */
  lemma SafetyFirst(e: Env, evs: seq<Event>, n: nat, j: nat)
    requires Schedule(evs) && n <= |evs| && Undisturbed(evs, n) && Schedule(evs[..n])
    requires Run(e, evs[..n]).core.link.state.Running?
    requires var s, r := Run(e, evs[..n]).core, Run(e, evs).core;
             && j < |r.queue| && r.queue[j].sequence <= s.sequence
             && (forall i :: 0 <= i < |s.queue| && s.queue[i].sequence == r.queue[j].sequence ==>
                   s.queue[i].spec.priority == Link.SafetyControl)
    ensures var s, r := Run(e, evs[..n]).core, Run(e, evs).core;
            forall k :: |s.sent| <= k < |r.sent| ==> r.sent[k].request.spec.priority == Link.SafetyControl
  {
    UrgentAtOnce(e, evs[..n]);
    UrgentThroughout(e, evs, n, Run(e, evs[..n]).core);
    SafetyFirstSince(e, evs, Run(e, evs[..n]).core, j);
  }

  lemma SafetyFirstSince(e: Env, evs: seq<Event>, s: Core, j: nat)
    requires Schedule(evs) && UrgentSince(e, evs, s)
    requires var r := Run(e, evs).core;
             && j < |r.queue| && r.queue[j].sequence <= s.sequence
             && (forall i :: 0 <= i < |s.queue| && s.queue[i].sequence == r.queue[j].sequence ==>
                   s.queue[i].spec.priority == Link.SafetyControl)
    ensures forall k :: |s.sent| <= k < |Run(e, evs).core.sent| ==>
              Run(e, evs).core.sent[k].request.spec.priority == Link.SafetyControl
  {
    assert OpenRun(0);
    Theorems.UrgentMeansSafety(s, Run(e, evs).core, j);
  }

  /** Requests of one priority leave in the order of their submission, unless a later one joined them. */
  lemma EqualPriorityInOrder(e: Env, evs: seq<Event>, j: nat, k: nat)
    requires Schedule(evs) && j < k < |Run(e, evs).core.sent|
    requires var sent := Run(e, evs).core.sent;
             SameRank(sent[j].request, sent[k].request) && |sent[k].request.tickets| == 1
    ensures Run(e, evs).core.sent[j].request.sequence < Run(e, evs).core.sent[k].request.sequence
  {
    var c := Run(e, evs).core;
    Ops.ReadyHolds(e, c, Clock(evs));
    assert LeavesInOrder(c.sent[j], c.sent[k].request);
  }

  /** The deadline of what waits or is open is the latest of its joined submissions' own. */
  lemma DeadlineIsTheLatest(e: Env, evs: seq<Event>, i: nat)
    requires Schedule(evs) && i < |Run(e, evs).core.queue|
    ensures var w := Run(e, evs).core.queue[i]; LatestDue(w.tickets, w.deadline)
  {
    hide LatestDue;
    Ops.ReadyHolds(e, Run(e, evs).core, Clock(evs));
    assert QueueTimely(Run(e, evs).core.queue);
  }

  lemma OpenDeadlineIsTheLatest(e: Env, evs: seq<Event>, id: string)
    requires Schedule(evs) && Has(Run(e, evs).core.pending, id)
    ensures var p := Find(Run(e, evs).core.pending, id).value; LatestDue(p.tickets, p.deadline)
  {
    hide LatestDue;
    Ops.ReadyHolds(e, Run(e, evs).core, Clock(evs));
    assert PendingTimely(Run(e, evs).core.pending);
  }

  /** The sequence numbers accepted from the device on one connection rise strictly. */
  lemma InboundRises(e: Env, evs: seq<Event>, i: nat, j: nat)
    requires Schedule(evs) && i < j < |Run(e, evs).accepted|
    ensures 0 < Run(e, evs).accepted[i] < Run(e, evs).accepted[j]
  {
    assert Good(e, Run(e, evs), Clock(evs));
  }

  // ---------------------------------------------------------------- rate, over runs

  /**
   Over every run, through any number of connections: requests sent between two moments never
   outnumber the burst and what the rate gives in between; and the firmware's bucket, charged
   for each of them, keeps twelve of its twenty tokens under the default budget.
   */
  lemma RunIsMetered(e: Env, evs: seq<Event>, from: int, to: int, i: nat, j: nat)
    requires Schedule(evs) && e.budget.rate >= 0.0
    requires var sent := Run(e, evs).core.sent; i <= j < |sent| && from <= sent[i].at && sent[j].at <= to
    ensures (j - i + 1) as real <= e.budget.burst + Accrued(e.budget, to - from)
    ensures |Run(e, evs).core.pending| <= e.budget.maxInFlight
    ensures e.budget == Theorems.DEFAULT_BUDGET ==>
              Theorems.DeviceLevel(20.0, 5.0, Run(e, evs).core.sent[..j + 1]) >= 12.0
  {
    GoodIsMetered(e, Run(e, evs), Clock(evs), from, to, i, j);
  }

  lemma GoodIsMetered(e: Env, s: Session, now: int, from: int, to: int, i: nat, j: nat)
    requires Good(e, s, now) && e.budget.rate >= 0.0
    requires i <= j < |s.core.sent| && from <= s.core.sent[i].at && s.core.sent[j].at <= to
    ensures (j - i + 1) as real <= e.budget.burst + Accrued(e.budget, to - from)
    ensures |s.core.pending| <= e.budget.maxInFlight
    ensures e.budget == Theorems.DEFAULT_BUDGET ==> Theorems.DeviceLevel(20.0, 5.0, s.core.sent[..j + 1]) >= 12.0
  {
    Ops.ReadyHolds(e, s.core, now);
    Theorems.RateBound(e, s.core, from, to, i, j);
    if e.budget == Theorems.DEFAULT_BUDGET {
      Theorems.DefaultBudgetLeavesTwelve(e, s.core, j + 1);
    }
  }
}
