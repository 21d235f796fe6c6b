/** Runs that reach a given state: a handshake, the first frame that is dropped, a reply of the wrong type. */
module SessionExamples {
  import opened Wrappers
  import opened Sequences
  import opened OrderedMap
  import opened JsonValues
  import opened Messages
  import opened Auth
  import Link
  import opened DispatcherState
  import Ops = DispatcherOps
  import Replies = DispatcherReplies
  import opened SessionState
  import opened SessionRuns
  import opened SessionTheorems
  import opened SessionFaults

  // ---------------------------------------------------------------- a handshake

  function Hello(): Json {
    Obj([]).With("type", Str("hello")).With("device_id", Str("dev")).With("auth_kids", Arr([Str("1")]))
           .With("auth_schemes", Arr([Str(AUTH_SCHEME)]))
  }

  /** Four members put one after the other: each key finds its own. */
  lemma FourMembers(k0: string, v0: Json, k1: string, v1: Json, k2: string, v2: Json, k3: string, v3: Json)
    requires k0 != k1 && k0 != k2 && k0 != k3 && k1 != k2 && k1 != k3 && k2 != k3
    ensures var o := Obj([]).With(k0, v0).With(k1, v1).With(k2, v2).With(k3, v3);
            o.Member(k0) == Some(v0) && o.Member(k1) == Some(v1) && o.Member(k2) == Some(v2) && o.Member(k3) == Some(v3)
  {
    var a := Obj([]).With(k0, v0);
    var b := a.With(k1, v1);
    var c := b.With(k2, v2);
    forall q: string
      ensures c.With(k3, v3).Member(q) == if q == k3 then Some(v3) else if q == k2 then Some(v2)
                                          else if q == k1 then Some(v1) else if q == k0 then Some(v0) else None
    {
      MemberAfterWith(Obj([]), k0, v0, q);
      MemberAfterWith(a, k1, v1, q);
      MemberAfterWith(b, k2, v2, q);
      MemberAfterWith(c, k3, v3, q);
    }
  }

  lemma HelloReads()
    ensures var h := Hello();
            && h.Obj? && h.StringAt("type") == "hello" && h.StringAt("device_id") == "dev"
            && h.ItemsAt("auth_kids") == [Str("1")] && h.ItemsAt("auth_schemes") == [Str(AUTH_SCHEME)]
  {
    HelloMembers();
    hide Hello;
    var h := Hello();
    assert h.Member("type") == Some(Str("hello")) && h.Member("device_id") == Some(Str("dev"));
  }

  lemma HelloMembers()
    ensures var h := Hello();
            && h.Obj? && h.Member("type") == Some(Str("hello")) && h.Member("device_id") == Some(Str("dev"))
            && h.Member("auth_kids") == Some(Arr([Str("1")])) && h.Member("auth_schemes") == Some(Arr([Str(AUTH_SCHEME)]))
  {
    FourMembers("type", Str("hello"), "device_id", Str("dev"), "auth_kids", Arr([Str("1")]),
                "auth_schemes", Arr([Str(AUTH_SCHEME)]));
    hide Put, Find;
  }

  /** The controller knows the device and its key. */
  predicate Welcomes(e: Env) {
    e.hasCredentials && e.expectedDevice == "" && e.resolve("dev", "1").Success?
  }

  /** b has the requests of a; only the connection differs. */
  predicate SameWork(a: Core, b: Core) {
    b == a.(link := b.link, sendingEnabled := b.sendingEnabled, epoch := b.epoch) && b.link.msgSeq == a.link.msgSeq
  }

  lemma AcceptKeepsWork(e: Env, s: Session, m: Json, kid: string, key: seq<Byte>, now: int)
    ensures var r := AcceptHello(e, s, m, kid, key, now);
            && r.connected == s.connected && r.core.link.state.AwaitProof?
            && SameWork(s.core, r.core) && r.replay == s.replay && r.notices == s.notices
  {
  }

  lemma HelloIsChosen(e: Env)
    requires Welcomes(e)
    ensures ChosenKid(e, Hello()) == Success(("1", e.resolve("dev", "1").value))
    ensures DeviceExpected(e, Hello()) && SchemeOffered(Hello())
  {
    HelloReads();
    assert [Str("1")][1..] == [];
  }

  lemma HelloIsAccepted(e: Env, s: Session, now: int)
    requires Good(e, s, now) && s.core.link.state.AwaitHello? && Welcomes(e)
    ensures var r := OnText(e, s, Some(Hello()), now);
            && Good(e, r, now) && r.connected == s.connected && r.core.link.state.AwaitProof?
            && SameWork(s.core, r.core) && r.core.epoch == s.core.epoch
            && r.replay == s.replay && r.notices == s.notices
  {
    HelloReads();
    HelloIsChosen(e);
    HelloKeepsGood(e, s, Hello(), now);
    hide ShutDown, ChosenKid, Hello, DeviceExpected, SchemeOffered, AcceptHello, RejectHello;
    var auth := s.core.link.auth.(clientNonce := Hello().StringAt("client_nonce"));
    var s1 := s.(core := s.core.(link := s.core.link.(auth := auth)));
    AuthReady(e, s.core, auth, now);
    AcceptKeepsWork(e, s1, Hello(), "1", e.resolve("dev", "1").value, now);
    assert Decided(e, s1, Hello(), now) == AcceptHello(e, s1, Hello(), "1", e.resolve("dev", "1").value, now);
  }

  lemma OpeningAwaitsHello(e: Env, s: Session, nonce: string, now: int)
    requires Good(e, s, now) && !s.connected && s.core.link.state.Closed?
    ensures var r := OnOpen(e, s, nonce, now);
            && Good(e, r, now) && r.connected && r.core.link.state.AwaitHello?
            && r.core == s.core.(link := r.core.link, sendingEnabled := r.core.sendingEnabled, epoch := |s.core.sent|)
            && r.core.link.msgSeq == 0 && r.replay == 0 && r.notices == s.notices
  {
    OpenKeepsGood(e, s, nonce, now);
  }

  /** One more event. */
  lemma GoesOn(e: Env, evs: seq<Event>, ev: Event)
    requires Schedule(evs) && MayHappen(evs, ev)
    ensures Schedule(evs + [ev]) && Good(e, Run(e, evs), ev.at)
    ensures Run(e, evs + [ev]) == Step(e, Run(e, evs), ev)
    ensures Connected(evs + [ev]) == Run(e, evs + [ev]).connected && Clock(evs + [ev]) == ev.at
  {
    assert (evs + [ev])[..|evs|] == evs;
    RunSnoc(e, evs, ev);
  }

  /** Opening and the hello, after any run that ends with the transport closed. */
  lemma HandshakeBegins(e: Env, evs: seq<Event>, now: int) returns (more: seq<Event>)
    requires Schedule(evs) && !Connected(evs) && (evs != [] ==> Clock(evs) <= now) && Welcomes(e)
    requires Run(e, evs).core.link.state.Closed?
    ensures more == evs + [Opened("n", now)] + [Received(Some(Hello()), now)]
    ensures Schedule(more) && Connected(more) && Clock(more) == now
    ensures var s, r := Run(e, evs), Run(e, more);
            && r.core.link.state.AwaitProof? && r.replay == 0 && r.notices == s.notices
            && r.core == s.core.(link := r.core.link, sendingEnabled := r.core.sendingEnabled, epoch := |s.core.sent|)
            && r.core.link.msgSeq == 0
  {
    HelloReads();
    GoesOn(e, evs, Opened("n", now));
    OpeningAwaitsHello(e, Run(e, evs), "n", now);
    var open := evs + [Opened("n", now)];
    GoesOn(e, open, Received(Some(Hello()), now));
    HelloIsAccepted(e, Run(e, open), now);
    more := open + [Received(Some(Hello()), now)];
  }

  // ---------------------------------------------------------------- the first frame that is dropped

  /** A message of a type, signed by the device with number 1. */
  function FirstFrame(e: Env, auth: AuthContext, kind: string): Json {
    Signed(e.crypto, Obj([]).With("type", Str(kind)), auth, 1, C2s)
  }

  lemma FirstFrameReads(e: Env, auth: AuthContext, kind: string)
    ensures var m := FirstFrame(e, auth, kind);
            m.Obj? && m.StringAt("type") == kind && Verify(e.crypto, m, auth, C2s) == Accepted && AuthSeq(m) == 1
  {
    var plain := Obj([]).With("type", Str(kind));
    VerifyAcceptsSigned(e.crypto, plain, auth, 1, C2s);
    MemberAfterWith(Obj([]), "type", Str(kind), "type");
    var mac := e.crypto.hmac(auth.key, MacInput(e.crypto, plain, auth, C2s, auth.kid, 1));
    MemberAfterWith(plain, "auth", AuthObject(auth.kid, 1, mac), "type");
  }

  /** A device whose first signed frame is a heartbeat: the session runs, and the heartbeat is never seen. */
  lemma FirstHeartbeatIsDropped(e: Env) returns (evs: seq<Event>, m: Json)
    requires Welcomes(e)
    ensures Schedule(evs) && evs != [] && evs[|evs| - 1] == Received(Some(m), 0)
    ensures m.StringAt("type") == "heartbeat"
    ensures var r := Run(e, evs);
            r.core.link.state.Running? && r.ready == 1 && r.notices == [Notice(Warning, m)]
  {
    evs := HandshakeBegins(e, [], 0);
    var s := Run(e, evs);
    m := FirstFrame(e, s.core.link.auth, "heartbeat");
    FirstFrameReads(e, s.core.link.auth, "heartbeat");
    GoesOn(e, evs, Received(Some(m), 0));
    FirstFrameDropped(e, s, m, 0);
    evs := evs + [Received(Some(m), 0)];
  }

  // ---------------------------------------------------------------- a reply of the wrong type

  /** The reader that the services give to a request of a type. */
  function ReaderOf(kind: string): Reader {
    match kind
    case "dp_read" => DatapointReader
    case "dp_write" => StatusReader
    case "command" => StatusReader
    case "log_read" => BatchReader
    case "log_read_prev" => BatchReader
    case "log_ack_prev" => AckReader
    case _ => Anything
  }

  function Plain(spec: Link.RequestSpec): Request { Request(spec, Handler(0, ReaderOf(spec.kind), [])) }

  /** The tickets of two requests that are made at time 0. */
  function TicketOf(e: Env, spec: Link.RequestSpec): Ticket { TicketFor(e, Plain(spec), 0) }

  /** Two requests that share a key, and a type that answers the first but not the second. */
  predicate Clash(first: Link.RequestSpec, second: Link.RequestSpec, answer: string) {
    && first.coalesceKey == second.coalesceKey != ""
    && FindMeta(first.kind).Some? && ResponseAllowed(first.kind, answer) && !ResponseAllowed(second.kind, answer)
  }

  /** A controller that can send the first request. */
  ghost predicate CanSend(e: Env, first: Link.RequestSpec, second: Link.RequestSpec) {
    && Welcomes(e) && e.budget.burst >= 1.0 && e.budget.maxInFlight >= 1
    && DispatcherState.Timeout(e, first) > 0 && DispatcherState.Timeout(e, second) > 0
    && (forall n: nat :: e.transport(n)) && (forall m: Json :: e.frameSize(m) <= MAX_CONTROL_FRAME_BYTES)
  }

  /** The queue holds one request, made by these submissions, and nothing has happened to it yet. */
  ghost predicate Holds(e: Env, c: Core, w: Waiting, tickets: seq<Ticket>) {
    && c.queue == [w] && w.tickets == tickets && w.deadline > 0 && c.submitted == multiset(tickets)
    && c.pending == [] && c.sent == [] && c.called == [] && c.calling == multiset{} && !c.draining
    && c.tokens == e.budget.burst && c.refillInitialised && c.lastRefill == 0
  }

  lemma LoneWaits(w: Waiting)
    requires w.deadline > 0
    ensures LiveQueue([w], 0) == [w] && QueueTimeouts([w], 0) == []
  {
    assert [w][1..] == [];
    assert LiveQueue([w][1..], 0) == [] && QueueTimeouts([w][1..], 0) == [];
  }

  /** Up to its drain, a first tick only sets the clock. */
  lemma FirstExpiry(e: Env, a: Core, w: Waiting)
    requires a.queue == [w] && w.deadline > 0 && a.pending == [] && a.called == [] && !a.refillInitialised
    ensures Ops.Expire(e, a, 0) == a.(refillInitialised := true, lastRefill := 0)
  {
    LoneWaits(w);
    Ops.ExpiredQueue(e, a, 0);
    assert a.called + [] + [] == a.called;
  }

  lemma FirstWaits(e: Env, first: Link.RequestSpec)
    requires DispatcherState.Timeout(e, first) > 0
    ensures Ops.Ready(e, Initial(e).core, 0)
    ensures var t := TicketOf(e, first);
            Holds(e, Ops.Submit(e, Initial(e).core, Plain(first), 0), Waiting(first, [t], t.due, 1), [t])
  {
    hide Ops.Expire;
    GoodAtStart(e, 0);
    var c, t := Initial(e).core, TicketOf(e, first);
    var w := Waiting(first, [t], t.due, 1);
    assert !Joins(c, first);
    Ops.AppendSteps(e, c, first, t, 0);
    var a := Appended(c, first, t);
    assert a.queue == [w] && a.submitted == multiset([t]);
    Ops.ExpireSteps(e, a, 0);
    FirstExpiry(e, a, w);
    assert Ops.Tick(e, a, 0) == Ops.Expire(e, a, 0);
  }

  lemma SecondJoins(e: Env, c: Core, first: Link.RequestSpec, second: Link.RequestSpec)
    requires Ops.Ready(e, c, 0) && DispatcherState.Timeout(e, second) > 0 && first.coalesceKey == second.coalesceKey != ""
    requires var t := TicketOf(e, first); Holds(e, c, Waiting(first, [t], t.due, 1), [t])
    ensures var r := Ops.Submit(e, c, Plain(second), 0);
            r.queue != [] && Holds(e, r, r.queue[0], [TicketOf(e, first), TicketOf(e, second)])
            && r.queue[0].spec.kind == first.kind
  {
    assert Joins(c, second);
  }

  lemma NothingExpires(e: Env, c: Core, w: Waiting, tickets: seq<Ticket>)
    requires Holds(e, c, w, tickets)
    ensures Ops.Expire(e, c, 0) == c
  {
    LoneWaits(w);
    assert c.called + [] + [] == c.called;
  }

  /** The tick that finds the session running sends the one request, as the first of its connection. */
  lemma OneRequestGoesOut(e: Env, c: Core, w: Waiting, tickets: seq<Ticket>)
    requires Ops.Ready(e, c, 0) && Holds(e, c, w, tickets) && c.link.state.Running? && c.sendingEnabled
    requires c.link.msgSeq == 0 && e.budget.burst >= 1.0 && e.budget.maxInFlight >= 1 && FindMeta(w.spec.kind).Some?
    requires (forall n: nat :: e.transport(n)) && (forall m: Json :: e.frameSize(m) <= MAX_CONTROL_FRAME_BYTES)
    ensures var r := Ops.Tick(e, c, 0);
            && r.pending == [(Link.MsgId(1), Pending(w.spec.kind, tickets, w.deadline))]
            && r.queue == [] && r.submitted == c.submitted && r.called == [] && r.calling == multiset{} && !r.draining
  {
    Ops.ExpireSteps(e, c, 0);
    NothingExpires(e, c, w, tickets);
    Ops.FlagSteps(e, c, true, 0);
    var s := c.(draining := true);
    assert MinIndex(s.queue) == 0;
    var (link, result) := Link.EncodeAndSend(e, s.link, w.spec, 0);
    assert result == Success(Link.MsgId(1));
    Ops.SuccessTurn(e, s, 0, link, Link.MsgId(1));
    assert Without(s.queue, 0) == [];
  }

  lemma NothingToSubmit(e: Env, c: Core, now: int)
    requires Ops.Ready(e, c, now)
    ensures Ops.SubmitAll(e, c, [], now) == c
  {
  }

  lemma NobodyToCall(e: Env, c: Core, outcome: Outcome, now: int)
    requires Ops.MayComplete(e, c, [], outcome, now)
    ensures Ops.Complete(e, c, [], outcome, now) == c
  {
  }

  /** complete() on handlers that submit nothing. */
  lemma {:induction false} QuietComplete(e: Env, c: Core, ts: seq<Ticket>, outcome: Outcome, now: int)
    requires Ops.MayComplete(e, c, ts, outcome, now) && forall i :: 0 <= i < |ts| ==> ts[i].handler.followUps == []
    ensures var r := Ops.Complete(e, c, ts, outcome, now);
            r.called == c.called + CallsOf(ts, outcome, now) && r.submitted == c.submitted
    decreases |ts|
  {
    hide Ops.Complete, Ops.SubmitAll, Ops.MayComplete, Ops.Ready;
    if ts == [] {
      NobodyToCall(e, c, outcome, now);
      assert c.called + CallsOf(ts, outcome, now) == c.called;
    } else {
      Ops.CompleteTurn(e, c, ts, outcome, now);
      var a := Logged(c, ts[0], outcome, now);
      NothingToSubmit(e, a, now);
      QuietComplete(e, a, ts[1..], outcome, now);
      Regroup(c.called, [Call(ts[0], outcome, now)], CallsOf(ts[1..], outcome, now));
    }
  }

  /** The reply completes every submission of the request, with the message. */
  lemma ReplyReachesAll(e: Env, c: Core, p: Pending, m: Json, id: string)
    requires Ops.Ready(e, c, 0) && c.pending == [(id, p)] && id != "" && m.StringAt("in_reply_to") == id
    requires c.called == [] && forall i :: 0 <= i < |p.tickets| ==> p.tickets[i].handler.followUps == []
    requires ResponseAllowed(p.kind, m.StringAt("type"))
    ensures var r := Replies.OnMessage(e, c, m, 0).0;
            r.called == CallsOf(p.tickets, Answered(m), 0) && r.submitted == c.submitted
  {
    hide Ops.Complete;
    assert Find(c.pending, id) == Some(p);
    Replies.ReplySteps(e, c, m, 0);
    QuietComplete(e, TakenReply(c, id, true), p.tickets, Answered(m), 0);
  }

  function ReplyOf(id: string, kind: string): Json {
    Obj([]).With("type", Str(kind)).With("in_reply_to", Str(id))
  }

  lemma ReplyReads(id: string, kind: string)
    ensures var m := ReplyOf(id, kind);
            m.Obj? && m.StringAt("type") == kind && m.StringAt("in_reply_to") == id && m.Member("auth").None?
  {
    var a := Obj([]).With("type", Str(kind));
    var keys := ["type", "in_reply_to", "auth"];
    forall i | 0 <= i < 3
      ensures ReplyOf(id, kind).Member(keys[i]) == [Some(Str(kind)), Some(Str(id)), None][i]
    {
      MemberAfterWith(Obj([]), "type", Str(kind), keys[i]);
      MemberAfterWith(a, "in_reply_to", Str(id), keys[i]);
    }
    assert ReplyOf(id, kind).Member(keys[0]) == Some(Str(kind)) && ReplyOf(id, kind).Member(keys[1]) == Some(Str(id));
    assert ReplyOf(id, kind).Member(keys[2]) == None;
  }

  lemma ReplyIsTaken(e: Env, s: Session, p: Pending, m: Json, id: string)
    requires Good(e, s, 0) && s.core.link.state.Running? && m.Obj? && m.Member("auth").None?
    requires s.core.pending == [(id, p)] && id != "" && m.StringAt("in_reply_to") == id
    requires s.core.called == [] && forall i :: 0 <= i < |p.tickets| ==> p.tickets[i].handler.followUps == []
    requires ResponseAllowed(p.kind, m.StringAt("type"))
    ensures var r := OnText(e, s, Some(m), 0).core;
            r.called == CallsOf(p.tickets, Answered(m), 0) && r.submitted == s.core.submitted
  {
    hide OnText;
    Unsigned(e, s, m);
    ReplyReachesAll(e, s.core, p, m, id);
  }

  lemma Unsigned(e: Env, s: Session, m: Json)
    requires Ops.Ready(e, s.core, 0) && s.core.link.state.Running? && m.Obj? && m.Member("auth").None?
    ensures OnText(e, s, Some(m), 0).core == Replies.OnMessage(e, s.core, m, 0).0
  {
    hide Replies.OnMessage;
  }

  /** Both requests are made before the transport opens, so that the second finds the first still waiting. */
  lemma BothWait(e: Env, first: Link.RequestSpec, second: Link.RequestSpec) returns (evs: seq<Event>)
    requires DispatcherState.Timeout(e, first) > 0 && DispatcherState.Timeout(e, second) > 0
    requires first.coalesceKey == second.coalesceKey != ""
    ensures Schedule(evs) && evs != [] && Clock(evs) == 0 && !Connected(evs) && Run(e, evs).core.link.state.Closed?
    ensures var c := Run(e, evs).core;
            && c.queue != [] && c.queue[0].spec.kind == first.kind
            && Holds(e, c, c.queue[0], [TicketOf(e, first), TicketOf(e, second)])
  {
    var a, b := Asked(Plain(first), 0), Asked(Plain(second), 0);
    GoesOn(e, [], a);
    FirstWaits(e, first);
    GoesOn(e, [] + [a], b);
    SecondJoins(e, Run(e, [] + [a]).core, first, second);
    evs := [] + [a] + [b];
  }

  lemma OtaKeepsWork(e: Env, c: Core, m: Json)
    ensures var r := Entered(OtaAnswered(e, c, m, 0), Link.Running);
            SameWork(c, r) && r.epoch == c.epoch && r.link.state.Running?
            && (!c.link.state.Running? ==> r.sendingEnabled)
  {
    hide Said;
    match e.ota(m)
    case Some(offer) => SaidKeepsWork(e, c, "ota_available", offer, m.StringAt("msg_id"));
    case None => SaidKeepsWork(e, c, "ota_none", Obj([]), m.StringAt("msg_id"));
  }

  lemma SaidKeepsWork(e: Env, c: Core, kind: string, body: Json, inReplyTo: string)
    requires FindMeta(kind).Some?
    ensures var r := Said(e, c, kind, body, inReplyTo, 0);
            r == c.(link := r.link) && r.link.msgSeq == c.link.msgSeq && r.link.state == c.link.state
  {
    hide FindMeta;
  }

  /** The proof, after which the session runs with the same requests. */
  lemma ProofIsAccepted(e: Env, s: Session)
    requires Good(e, s, 0) && s.core.link.state.AwaitProof? && s.replay == 0
    ensures var m := FirstFrame(e, s.core.link.auth, SESSION_PROOF);
            m.Obj? &&
            var r := OnText(e, s, Some(m), 0);
            Good(e, r, 0) && r.core.link.state.Running? && r.core.sendingEnabled && SameWork(s.core, r.core)
            && r.core.epoch == s.core.epoch && r.connected == s.connected
  {
    var m := FirstFrame(e, s.core.link.auth, SESSION_PROOF);
    FirstFrameReads(e, s.core.link.auth, SESSION_PROOF);
    ProofKeepsGood(e, s, m, 0);
    OtaKeepsWork(e, s.core, m);
    ProofAnswered(e, s, m);
  }

  lemma ProofAnswered(e: Env, s: Session, m: Json)
    requires Ops.Ready(e, s.core, 0) && s.core.link.state.AwaitProof? && s.replay == 0 && m.Obj?
    requires Verify(e.crypto, m, s.core.link.auth, C2s) == Accepted && AuthSeq(m) == 1
    requires m.StringAt("type") == SESSION_PROOF
    ensures OnText(e, s, Some(m), 0).core == Entered(OtaAnswered(e, s.core, m, 0), Link.Running)
    ensures OnText(e, s, Some(m), 0).connected == s.connected
  {
    hide Verify, OtaAnswered, Entered;
  }

  /** The handshake, with no request made. */
  lemma RunsIdle(e: Env) returns (evs: seq<Event>)
    requires Welcomes(e)
    ensures Schedule(evs) && evs != [] && Clock(evs) == 0 && Connected(evs)
    ensures var c := Run(e, evs).core; c.link.state.Running? && c.queue == [] && c.pending == []
    ensures Good(e, Run(e, evs), 0)
  {
    evs := HandshakeBegins(e, [], 0);
    var proof := FirstFrame(e, Run(e, evs).core.link.auth, SESSION_PROOF);
    FirstFrameReads(e, Run(e, evs).core.link.auth, SESSION_PROOF);
    GoesOn(e, evs, Received(Some(proof), 0));
    ProofIsAccepted(e, Run(e, evs));
    evs := evs + [Received(Some(proof), 0)];
  }

  /** The handshake, with both requests waiting. */
  lemma RunsWithBoth(e: Env, first: Link.RequestSpec, second: Link.RequestSpec) returns (evs: seq<Event>)
    requires CanSend(e, first, second) && first.coalesceKey == second.coalesceKey != ""
    ensures Schedule(evs) && evs != [] && Clock(evs) == 0 && Connected(evs)
    ensures var c := Run(e, evs).core;
            && c.link.state.Running? && c.sendingEnabled && c.link.msgSeq == 0
            && c.queue != [] && c.queue[0].spec.kind == first.kind
            && Holds(e, c, c.queue[0], [TicketOf(e, first), TicketOf(e, second)])
  {
    evs := BothWait(e, first, second);
    evs := HandshakeBegins(e, evs, 0);
    var proof := FirstFrame(e, Run(e, evs).core.link.auth, SESSION_PROOF);
    FirstFrameReads(e, Run(e, evs).core.link.auth, SESSION_PROOF);
    GoesOn(e, evs, Received(Some(proof), 0));
    ProofIsAccepted(e, Run(e, evs));
    evs := evs + [Received(Some(proof), 0)];
  }

  /** The one frame that goes out, and is open. */
  lemma OneIsOpen(e: Env, first: Link.RequestSpec, second: Link.RequestSpec) returns (evs: seq<Event>)
    requires CanSend(e, first, second) && first.coalesceKey == second.coalesceKey != "" && FindMeta(first.kind).Some?
    ensures Schedule(evs) && evs != [] && Clock(evs) == 0 && Connected(evs)
    ensures var c, tickets := Run(e, evs).core, [TicketOf(e, first), TicketOf(e, second)];
            && c.link.state.Running? && c.called == [] && c.submitted == multiset(tickets)
            && |c.pending| == 1 && c.pending[0].0 == Link.MsgId(1)
            && c.pending[0].1.kind == first.kind && c.pending[0].1.tickets == tickets
  {
    hide FindMeta, Run, Schedule, Good;
    evs := RunsWithBoth(e, first, second);
    var s := Run(e, evs);
    GoesOn(e, evs, Ticked(0));
    OneRequestGoesOut(e, s.core, s.core.queue[0], [TicketOf(e, first), TicketOf(e, second)]);
    FollowsUrgent(e, s.core, Ops.Tick(e, s.core, 0), 0);
    evs := evs + [Ticked(0)];
  }

  lemma WrongReply(e: Env, s: Session, first: Link.RequestSpec, second: Link.RequestSpec, answer: string)
    requires Clash(first, second, answer) && Good(e, s, 0) && s.core.link.state.Running? && s.core.called == []
    requires |s.core.pending| == 1 && s.core.pending[0].0 == Link.MsgId(1) && s.core.pending[0].1.kind == first.kind
    requires s.core.pending[0].1.tickets == [TicketOf(e, first), TicketOf(e, second)]
    ensures ReplyOf(Link.MsgId(1), answer).Obj?
    ensures var r := OnText(e, s, Some(ReplyOf(Link.MsgId(1), answer)), 0).core;
            && r.submitted == s.core.submitted && |r.called| == 2
            && r.called[1].ticket == TicketOf(e, second) && r.called[1].outcome.Answered? && !RightKind(r.called[1])
            && r.called[1].outcome.message.StringAt("type") == answer
  {
    hide OnText, ReplyOf;
    ReplyReads(Link.MsgId(1), answer);
    assert s.core.pending == [s.core.pending[0]];
    ReplyIsTaken(e, s, s.core.pending[0].1, ReplyOf(Link.MsgId(1), answer), Link.MsgId(1));
  }

  /**
   The input: the second request joins the first, one frame goes out, and its answer is handed
   to the second handler as a success, although its own request does not allow that type.
   */
  lemma WrongKindIsReached(e: Env, first: Link.RequestSpec, second: Link.RequestSpec, answer: string)
    returns (evs: seq<Event>)
    requires Clash(first, second, answer) && CanSend(e, first, second)
    ensures Schedule(evs) && Run(e, evs).core.submitted == multiset{TicketOf(e, first), TicketOf(e, second)}
    ensures var called := Run(e, evs).core.called;
            |called| == 2 && called[1].ticket == TicketOf(e, second) && called[1].outcome.Answered? && !RightKind(called[1])
            && called[1].outcome.message.StringAt("type") == answer
  {
    hide OnText, ReplyOf;
    evs := OneIsOpen(e, first, second);
    var reply := ReplyOf(Link.MsgId(1), answer);
    ReplyReads(Link.MsgId(1), answer);
    GoesOn(e, evs, Received(Some(reply), 0));
    WrongReply(e, Run(e, evs), first, second, answer);
    evs := evs + [Received(Some(reply), 0)];
  }

  // ---------------------------------------------------------------- exactly when types agree

  /** Which types may be requested under which key. */
  type Keys = (string, string) -> bool

  predicate Keeps(keys: Keys, t: Ticket) { keys(t.key, t.kind) }

  /** The requests of the run keep to the keys, and so every success is of a type its own request allows. */
  ghost predicate RightRun(e: Env, evs: seq<Event>, keys: Keys) {
    Schedule(evs) && (forall t :: t in Run(e, evs).core.submitted ==> Keeps(keys, t)) ==>
      forall i :: 0 <= i < |Run(e, evs).core.called| ==> RightKind(Run(e, evs).core.called[i])
  }

  /** Any two types under one key allow the same answers, as far as the first can be sent at all. */
  ghost predicate KeysCompatible(keys: Keys) {
    forall key, first, second :: key != "" && keys(key, first) && keys(key, second) ==> Compatible(first, second)
  }

  /** A controller for the counterexample: it knows every device, and every frame goes out. */
  function OpenEnv(): Env {
    Link.Env(Crypto((key, text) => "", text => []), Link.RateBudget(4.0, 8.0, 4), 10000, 15000, "1", "", true,
             (device, kid) => Success([]), m => None, n => true, m => 0, t => t)
  }

  lemma OpenEnvSends(e: Env, first: string, second: string, key: string)
    requires e == OpenEnv()
    ensures CanSend(e, Link.RequestSpec(first, Obj([]), None, Link.InteractiveRead, key),
                    Link.RequestSpec(second, Obj([]), None, Link.InteractiveRead, key))
  {
  }

  lemma ClashBreaks(keys: Keys, key: string, first: string, second: string) returns (evs: seq<Event>)
    requires key != "" && keys(key, first) && keys(key, second) && !Compatible(first, second)
    ensures !RightRun(OpenEnv(), evs, keys)
  {
    var answer := ClashingAnswer(first, second);
    var a := Link.RequestSpec(first, Obj([]), None, Link.InteractiveRead, key);
    OpenEnvSends(OpenEnv(), first, second, key);
    hide RightRun, OpenEnv, CanSend, Clash, Compatible;
    evs := ClashGoesWrong(OpenEnv(), keys, a, a.(kind := second), answer);
  }

  lemma ClashGoesWrong(e: Env, keys: Keys, a: Link.RequestSpec, b: Link.RequestSpec, answer: string) returns (evs: seq<Event>)
    requires Clash(a, b, answer) && CanSend(e, a, b) && keys(a.coalesceKey, a.kind) && keys(b.coalesceKey, b.kind)
    ensures !RightRun(e, evs, keys)
  {
    hide RightRun, RightKind, FindMeta, ResponseAllowed, Clash, CanSend, Run, Schedule;
    evs := WrongKindIsReached(e, a, b, answer);
    KeepsItsKey(e, keys, a);
    KeepsItsKey(e, keys, b);
    WrongAt(e, evs, keys, 1);
  }

  lemma KeepsItsKey(e: Env, keys: Keys, spec: Link.RequestSpec)
    requires keys(spec.coalesceKey, spec.kind)
    ensures Keeps(keys, TicketOf(e, spec))
  {
  }

  /** A type that answers the one and not the other. */
  lemma ClashingAnswer(first: string, second: string) returns (answer: string)
    requires !Compatible(first, second)
    ensures forall a: Link.RequestSpec, b: Link.RequestSpec ::
              a.kind == first && b.kind == second && a.coalesceKey == b.coalesceKey != "" ==> Clash(a, b, answer)
  {
    var i :| 0 <= i < |FindMeta(first).value.responses| && !ResponseAllowed(second, FindMeta(first).value.responses[i]);
    answer := FindMeta(first).value.responses[i];
    hide FindMeta;
  }

  lemma WrongAt(e: Env, evs: seq<Event>, keys: Keys, i: nat)
    requires Schedule(evs) && (forall t :: t in Run(e, evs).core.submitted ==> Keeps(keys, t))
    requires i < |Run(e, evs).core.called| && !RightKind(Run(e, evs).core.called[i])
    ensures !RightRun(e, evs, keys)
  {
  }

  lemma RunIsRight(e: Env, evs: seq<Event>, keys: Keys)
    requires KeysCompatible(keys)
    ensures RightRun(e, evs, keys)
  {
    if Schedule(evs) && (forall t :: t in Run(e, evs).core.submitted ==> Keeps(keys, t)) {
      var c := Run(e, evs).core;
      assert forall t :: t in c.submitted ==> Keeps(keys, t);
      assert KeysAgree(c.submitted);
      forall i | 0 <= i < |c.called| ensures RightKind(c.called[i]) {
        if c.called[i].outcome.Answered? {
          RightKindIfKeysAgree(e, evs, i);
        }
      }
    }
  }

  /**
   Correlation with the submission's own request, exactly: in every run every success is of a
   type that the submission's own request allows, if and only if requests that may share a key
   agree in what answers them. Coalescing compares keys only.
   */
  lemma CorrelatedIffKeysAgree(keys: Keys)
    ensures (forall e, evs :: RightRun(e, evs, keys)) <==> KeysCompatible(keys)
  {
    if KeysCompatible(keys) {
      forall e, evs ensures RightRun(e, evs, keys) {
        RunIsRight(e, evs, keys);
      }
    } else {
      var key, first, second :| key != "" && keys(key, first) && keys(key, second) && !Compatible(first, second);
      var evs := ClashBreaks(keys, key, first, second);
      assert !RightRun(OpenEnv(), evs, keys);
    }
  }

  /** A run in which the reply to a command throws: its status is a number. */
  lemma CommandStatusThrows(e: Env, key: string) returns (evs: seq<Event>)
    requires key != ""
    requires var command := Link.RequestSpec("command", Obj([]), None, Link.InteractiveControl, key);
             CanSend(e, command, command)
    ensures Schedule(evs)
    ensures Throws(e, Run(e, evs), Some(BadStatus(Link.MsgId(1))))
  {
    var command := Link.RequestSpec("command", Obj([]), None, Link.InteractiveControl, key);
    evs := OneIsOpen(e, command, command);
    hide CanSend, Throws;
    var s := Run(e, evs);
    assert s.core.pending == [s.core.pending[0]] && Has(s.core.pending, Link.MsgId(1));
    assert s.core.pending[0].1.tickets[0].handler.reader == StatusReader;
    BadStatusThrows(e, s, Link.MsgId(1), 0);
  }

  /** For one: a command that joins a dp_read takes the dp_report for its result. */
  lemma CommandTakesReport(e: Env, key: string) returns (evs: seq<Event>)
    requires key != ""
    requires var read := Link.RequestSpec("dp_read", Obj([]), None, Link.InteractiveRead, key);
             CanSend(e, read, read.(kind := "command"))
    ensures Schedule(evs)
    ensures var called := Run(e, evs).core.called;
            |called| == 2 && called[1].ticket.kind == "command" && called[1].outcome.Answered?
            && called[1].outcome.message.StringAt("type") == "dp_report"
  {
    var read := Link.RequestSpec("dp_read", Obj([]), None, Link.InteractiveRead, key);
    evs := WrongKindIsReached(e, read, read.(kind := "command"), "dp_report");
  }
}
