/** How the handshake leads to the moment from which the bound on silence holds. */
module SilenceStart {
  import opened Wrappers
  import opened JsonValues
  import opened Link
  import opened DispatcherState
  import Ops = DispatcherOps
  import SessionState
  import SessionRuns
  import SessionTheorems
  import PollerTheorems
  import Auth
  import Errors
  import Messages
  import opened ReadFrames
  import opened ClientTick
  import opened Silence

  /** The time of the latest tick or opening of the transport, or of the first event. */
  function LatestTick(evs: seq<SessionRuns.Event>): int {
    if evs == [] then 0
    else if |evs| == 1 || evs[|evs| - 1].Opened? || evs[|evs| - 1].Ticked? then evs[|evs| - 1].at
    else LatestTick(evs[..|evs| - 1])
  }

  predicate Greeting(s: Session) { s.core.link.state.AwaitHello? || s.core.link.state.AwaitProof? }

  /** While the handshake lasts, no tick has reached its deadline, and something was sent, or the line opened, within it. */
  predicate Fresh(e: Env, s: Session, tick: int, clock: int) {
    && tick <= clock
    && (Greeting(s) ==>
          tick < s.deadline && s.deadline - e.handshakeTimeout <= s.core.link.lastTx
          && s.deadline - e.handshakeTimeout <= clock)
  }

  function TickAfter(tick: int, ev: SessionRuns.Event): int { if ev.Opened? || ev.Ticked? then ev.at else tick }

  /** What a step that leaves the session in its handshake does to it. */
  predicate GreetsOn(s: Session, r: Session, at: int) {
    Greeting(r) ==> Greeting(s) && r.deadline == s.deadline && r.core.link.lastTx in {s.core.link.lastTx, at}
  }

  lemma HelloGreetsOn(e: Env, s: Session, m: Json, at: int)
    requires SessionRuns.Good(e, s, at) && s.core.link.state.AwaitHello?
    ensures GreetsOn(s, SessionState.HandleHello(e, s, m, at), at)
  {
    var auth := s.core.link.auth.(clientNonce := m.StringAt("client_nonce"));
    var s1 := s.(core := s.core.(link := s.core.link.(auth := auth)));
    if m.StringAt("type") == "hello" {
      SessionState.AuthReady(e, s.core, auth, at);
      assert SessionRuns.Good(e, s1, at);
      DecidedGreetsOn(e, s1, m, at);
    } else {
      AbortEndsGreeting(e, s, at);
    }
  }

  lemma AbortEndsGreeting(e: Env, s: Session, at: int)
    requires SessionRuns.Good(e, s, at) && Greeting(s)
    ensures forall error :: !Greeting(SessionState.Abort(e, s, error, at))
  {
    forall error ensures !Greeting(SessionState.Abort(e, s, error, at)) {
      SessionRuns.AbortKeepsGood(e, s, error, at);
    }
  }

  lemma RejectEndsGreeting(e: Env, s: Session, m: Json, reason: string, error: Errors.Error, at: int)
    requires SessionRuns.Good(e, s, at) && s.core.link.state.AwaitHello?
    ensures !Greeting(SessionState.RejectHello(e, s, m, reason, error, at))
  {
    hide SessionState.Abort, SessionState.Said;
    var body, id := SessionState.HelloRejected(e, reason, at), m.StringAt("msg_id");
    SessionState.SaidReady(e, s.core, "hello_ack", body, id, at);
    SessionRuns.SaidKeepsGood(e, s, "hello_ack", body, id, at);
    AbortEndsGreeting(e, s.(core := SessionState.Said(e, s.core, "hello_ack", body, id, at)), at);
  }

  lemma AcceptGreetsOn(e: Env, s: Session, m: Json, kid: string, key: seq<Auth.Byte>, at: int)
    requires Greeting(s)
    ensures GreetsOn(s, SessionState.AcceptHello(e, s, m, kid, key, at), at)
  {
  }

  lemma DecidedGreetsOn(e: Env, s: Session, m: Json, at: int)
    requires SessionRuns.Good(e, s, at) && s.core.link.state.AwaitHello?
    ensures GreetsOn(s, SessionState.Decided(e, s, m, at), at)
  {
    hide SessionState.RejectHello, SessionState.AcceptHello, SessionState.ChosenKid;
    var chosen := SessionState.ChosenKid(e, m);
    if !SessionState.DeviceExpected(e, m) {
      RejectEndsGreeting(e, s, m, "unknown_device", Errors.Error(Errors.Authentication, Errors.AuthRejected), at);
    } else if chosen.Failure? {
      RejectEndsGreeting(e, s, m, "auth_required", chosen.error, at);
    } else if !SessionState.SchemeOffered(m) || chosen.value.0 == "" {
      RejectEndsGreeting(e, s, m, "auth_required", SessionState.RejectionCause(e, m), at);
    } else {
      AcceptGreetsOn(e, s, m, chosen.value.0, chosen.value.1, at);
    }
  }

  /** The proof ends the handshake either way. */
  lemma ProofEndsGreeting(e: Env, s: Session, m: Json, at: int)
    requires SessionRuns.Good(e, s, at) && s.core.link.state.AwaitProof? && m.Obj?
    ensures var r := SessionState.HandleProof(e, s, m, at);
            !Greeting(r) && r.core.link.lastTx in {s.core.link.lastTx, at}
  {
    AbortStamps(e, s, at);
    if Auth.Verify(e.crypto, m, s.core.link.auth, Messages.C2s) == Auth.Accepted && Auth.AuthSeq(m) > s.replay {
      ProceedRuns(e, s.(replay := Auth.AuthSeq(m), accepted := s.accepted + [Auth.AuthSeq(m)], proof := Some(m)), m, at);
    }
  }

  lemma AbortStamps(e: Env, s: Session, at: int)
    requires SessionRuns.Good(e, s, at) && Greeting(s)
    ensures forall error :: var r := SessionState.Abort(e, s, error, at);
              !Greeting(r) && r.core.link.lastTx in {s.core.link.lastTx, at}
  {
    AbortEndsGreeting(e, s, at);
    forall error ensures SessionState.Abort(e, s, error, at).core.link.lastTx in {s.core.link.lastTx, at} {
      SessionRuns.ShutDownKeeps(e, s, error, at);
      FollowsSent(e, TakenAll(SessionState.Entered(s.core, Closed)), SessionState.ShutDown(e, s.core, error, at), at);
    }
  }

  lemma DispatchStamps(e: Env, s: Session, m: Json, at: int)
    requires Ops.Ready(e, s.core, at) && s.core.link.state.Running? && m.Obj?
    ensures var r := SessionState.DispatchRunning(e, s, m, at).core;
            r.link.state.Running? && r.link.lastTx in {s.core.link.lastTx, at}
  {
    hide SessionState.Replies.OnMessage, SessionState.Admitted;
    FollowsSent(e, s.core, SessionState.Replies.OnMessage(e, s.core, m, at).0, at);
  }

  lemma OtaStamps(e: Env, c: Core, m: Json, at: int)
    requires c.link.state.AwaitProof?
    ensures var r := SessionState.Entered(SessionState.OtaAnswered(e, c, m, at), Running);
            r.link.state.Running? && r.link.lastTx in {c.link.lastTx, at}
  {
  }

  lemma ProceedRuns(e: Env, s: Session, m: Json, at: int)
    requires Ops.Ready(e, s.core, at) && m.Obj? && s.core.link.state.AwaitProof?
    ensures var r := SessionState.Proceed(e, s, m, at);
            r.core.link.state.Running? && r.core.link.lastTx in {s.core.link.lastTx, at}
  {
    OtaStamps(e, s.core, m, at);
    SessionState.EnteredReady(e, s.core, Running, at);
    DispatchStamps(e, SessionState.Established(s), m, at);
    hide SessionState.DispatchRunning, SessionState.OtaAnswered;
  }

  lemma TextGreetsOn(e: Env, s: Session, message: Option<Json>, at: int)
    requires SessionRuns.Good(e, s, at) && s.connected && (message.Some? ==> message.value.Obj?)
    ensures GreetsOn(s, SessionState.OnText(e, s, message, at), at)
  {
    hide SessionState.HandleHello, SessionState.HandleProof, SessionState.DispatchRunning, SessionState.Abort;
    match message
    case None =>
      if Greeting(s) { AbortEndsGreeting(e, s, at); } else if !s.core.link.state.Running? {
        SessionRuns.AbortKeepsGood(e, s, Errors.Error(Errors.Protocol, Errors.MalformedMessage), at);
      }
    case Some(m) =>
      match s.core.link.state
      case AwaitHello => HelloGreetsOn(e, s, m, at);
      case AwaitProof => ProofEndsGreeting(e, s, m, at);
      case Running => DispatchStamps(e, s, m, at);
      case Closed =>
  }

  /** The handshake goes on with its deadline, and every frame is stamped with the time of its step. */
  lemma StepGreetsOn(e: Env, s: Session, ev: SessionRuns.Event)
    requires SessionRuns.Good(e, s, ev.at) && SessionRuns.Possible(ev) && !ev.Opened? && (ev.Received? ==> s.connected)
    ensures GreetsOn(s, SessionRuns.Step(e, s, ev), ev.at)
    ensures ev.Ticked? && Greeting(SessionRuns.Step(e, s, ev)) ==> ev.at < s.deadline
  {
    hide SessionState.OnText, SessionState.Tick, SessionState.OnClosed, SessionState.Ask, SessionState.Said, GreetsOn;
    match ev
    case Lost(error, at) => LossGreetsOn(e, s, error, at);
    case Received(message, at) => TextGreetsOn(e, s, message, at);
    case Ticked(at) => TickGreetsOn(e, s, at);
    case Asked(request, at) => AskGreetsOn(e, s, request, at);
    case Posted(kind, body, at) => SaidGreetsOn(e, s, kind, body, at);
  }

  lemma LossGreetsOn(e: Env, s: Session, error: Errors.Error, at: int)
    requires SessionRuns.Good(e, s, at)
    ensures GreetsOn(s, SessionState.OnClosed(e, s, error, at), at)
  {
    SessionRuns.CloseKeepsGood(e, s, error, at);
  }

  lemma AskGreetsOn(e: Env, s: Session, request: DispatcherState.Request, at: int)
    requires SessionRuns.Good(e, s, at)
    ensures GreetsOn(s, SessionState.Ask(e, s, request, at), at)
  {
    FollowsSent(e, s.core, Ops.Submit(e, s.core, request, at), at);
  }

  lemma SaidGreetsOn(e: Env, s: Session, kind: string, body: Json, at: int)
    requires Messages.FindMeta(kind).Some?
    ensures GreetsOn(s, s.(core := SessionState.Said(e, s.core, kind, body, "", at)), at)
  {
    hide Messages.FindMeta;
  }

  lemma TickGreetsOn(e: Env, s: Session, at: int)
    requires SessionRuns.Good(e, s, at)
    ensures GreetsOn(s, SessionState.Tick(e, s, at), at)
    ensures Greeting(SessionState.Tick(e, s, at)) ==> at < s.deadline
  {
    hide SessionState.Abort;
    if Greeting(s) && at >= s.deadline {
      AbortEndsGreeting(e, s, at);
    } else {
      FollowsSent(e, s.core, Ops.Tick(e, s.core, at), at);
    }
  }

  lemma StepStaysFresh(e: Env, s: Session, ev: SessionRuns.Event, tick: int, clock: int)
    requires SessionRuns.Good(e, s, ev.at) && SessionRuns.Possible(ev) && (ev.Received? ==> s.connected)
    requires Fresh(e, s, tick, clock) && clock <= ev.at && e.handshakeTimeout > 0
    ensures Fresh(e, SessionRuns.Step(e, s, ev), TickAfter(tick, ev), ev.at)
  {
    if !ev.Opened? {
      StepGreetsOn(e, s, ev);
      hide SessionRuns.Step;
    }
  }

  lemma LatestTickSnoc(evs: seq<SessionRuns.Event>, ev: SessionRuns.Event)
    requires evs != []
    ensures LatestTick(evs + [ev]) == TickAfter(LatestTick(evs), ev)
  {
    assert (evs + [ev])[..|evs|] == evs;
  }

  predicate OpenRun(k: nat) { true }

  /** The same at the end of a run; sealed, as Ready is. */
  ghost predicate FreshAt(e: Env, evs: seq<SessionRuns.Event>) {
    forall k: nat {:trigger OpenRun(k)} :: OpenRun(k) ==>
      SessionRuns.Schedule(evs) && Fresh(e, SessionRuns.Run(e, evs), LatestTick(evs), SessionRuns.Clock(evs))
  }

  lemma FreshSnoc(e: Env, evs: seq<SessionRuns.Event>, ev: SessionRuns.Event)
    requires SessionRuns.Schedule(evs + [ev]) && e.handshakeTimeout > 0 && evs != [] && FreshAt(e, evs)
    ensures FreshAt(e, evs + [ev])
  {
    assert OpenRun(0);
    SessionTheorems.RunSnoc(e, evs, ev);
    LatestTickSnoc(evs, ev);
    StepStaysFresh(e, SessionRuns.Run(e, evs), ev, LatestTick(evs), SessionRuns.Clock(evs));
  }

  lemma FreshFirst(e: Env, ev: SessionRuns.Event)
    requires SessionRuns.Schedule([] + [ev]) && e.handshakeTimeout > 0
    ensures FreshAt(e, [] + [ev])
  {
    SessionTheorems.RunSnoc(e, [], ev);
    StepStaysFresh(e, SessionState.Initial(e), ev, ev.at, ev.at);
  }

  lemma {:induction false} RunIsFresh(e: Env, evs: seq<SessionRuns.Event>)
    requires SessionRuns.Schedule(evs) && evs != [] && e.handshakeTimeout > 0
    ensures FreshAt(e, evs)
    decreases |evs|
  {
    hide FreshAt;
    var before, ev := evs[..|evs| - 1], evs[|evs| - 1];
    assert evs == before + [ev];
    if before == [] {
      FreshFirst(e, ev);
    } else {
      RunIsFresh(e, before);
      FreshSnoc(e, before, ev);
    }
  }

  /** The step that enters Running comes from the handshake, with a proof. */
  lemma RunningIsEntered(e: Env, s: Session, ev: SessionRuns.Event)
    requires SessionRuns.Good(e, s, ev.at) && SessionRuns.Possible(ev) && (ev.Received? ==> s.connected)
    requires !s.core.link.state.Running? && SessionRuns.Step(e, s, ev).core.link.state.Running?
    ensures s.core.link.state.AwaitProof? && SessionRuns.Step(e, s, ev).core.link.lastTx in {s.core.link.lastTx, ev.at}
  {
    match ev
    case Lost(error, at) => SessionRuns.CloseKeepsGood(e, s, error, at);
    case Received(message, at) => TextEntersRunning(e, s, message, at);
    case Ticked(at) => TickStaysOut(e, s, at);
    case Asked(request, at) => FollowsSent(e, s.core, Ops.Submit(e, s.core, request, at), at);
    case _ =>
  }

  lemma TickStaysOut(e: Env, s: Session, at: int)
    requires SessionRuns.Good(e, s, at) && !s.core.link.state.Running?
    ensures !SessionState.Tick(e, s, at).core.link.state.Running?
  {
    hide SessionState.Abort;
    if Greeting(s) && at >= s.deadline {
      SessionRuns.AbortKeepsGood(e, s, Errors.Error(Errors.Protocol, Errors.HandshakeFailed), at);
    } else {
      FollowsSent(e, s.core, Ops.Tick(e, s.core, at), at);
    }
  }

  lemma TextEntersRunning(e: Env, s: Session, message: Option<Json>, at: int)
    requires SessionRuns.Good(e, s, at) && s.connected && (message.Some? ==> message.value.Obj?)
    requires !s.core.link.state.Running? && SessionState.OnText(e, s, message, at).core.link.state.Running?
    ensures s.core.link.state.AwaitProof? && SessionState.OnText(e, s, message, at).core.link.lastTx in {s.core.link.lastTx, at}
  {
    hide SessionState.HandleHello, SessionState.HandleProof, SessionState.Abort;
    match message
    case None => SessionRuns.AbortKeepsGood(e, s, Errors.Error(Errors.Protocol, Errors.MalformedMessage), at);
    case Some(m) =>
      match s.core.link.state
      case AwaitHello => HelloStaysOut(e, s, m, at);
      case AwaitProof => ProofEndsGreeting(e, s, m, at);
      case Running =>
      case Closed =>
  }

  lemma HelloStaysOut(e: Env, s: Session, m: Json, at: int)
    requires SessionRuns.Good(e, s, at) && s.core.link.state.AwaitHello?
    ensures !SessionState.HandleHello(e, s, m, at).core.link.state.Running?
  {
    SessionRuns.HelloKeepsGood(e, s, m, at);
    assert SessionState.HandleHello(e, s, m, at).ready == s.ready == 0;
  }

  /**
   Where the bound starts: a session that enters Running within a handshake no longer than the
   keepalive interval does so in the state that SilenceIsBounded asks for.
   */
  lemma RunningStartsCalm(e: Env, evs: seq<SessionRuns.Event>, ev: SessionRuns.Event, p: Poller, known: string -> bool,
                          keepalive: int)
    requires SessionRuns.Schedule(evs + [ev]) && SessionRuns.Schedule(evs) && evs != []
    requires !SessionRuns.Run(e, evs).core.link.state.Running?
    requires SessionRuns.Run(e, evs + [ev]).core.link.state.Running?
    requires 0 < e.handshakeTimeout <= keepalive && TimeoutsBelow(SessionRuns.Run(e, evs + [ev]).core, keepalive)
    requires PollerTheorems.Good(p) && p.running && !p.paused && p.keepalive == keepalive
    ensures var c := Client(SessionRuns.Run(e, evs + [ev]), p, known);
            && Calm(e, c, ev.at, keepalive) && LatestTick(evs) <= ev.at
            && LatestTick(evs) - c.session.core.link.lastTx < keepalive
  {
    RunIsFresh(e, evs);
    assert OpenRun(0);
    SessionTheorems.RunSnoc(e, evs, ev);
    EntersFresh(e, SessionRuns.Run(e, evs), ev, LatestTick(evs), SessionRuns.Clock(evs));
    SessionRuns.StepKeepsGood(e, SessionRuns.Run(e, evs), ev);
  }

  lemma EntersFresh(e: Env, s: Session, ev: SessionRuns.Event, tick: int, clock: int)
    requires SessionRuns.Good(e, s, ev.at) && SessionRuns.Possible(ev) && (ev.Received? ==> s.connected)
    requires !s.core.link.state.Running? && SessionRuns.Step(e, s, ev).core.link.state.Running?
    requires Fresh(e, s, tick, clock) && clock <= ev.at && e.handshakeTimeout > 0
    ensures tick <= ev.at && tick - SessionRuns.Step(e, s, ev).core.link.lastTx < e.handshakeTimeout
  {
    RunningIsEntered(e, s, ev);
  }

  predicate AllFromCatalog(known: string -> bool, settings: seq<PollerTheorems.Event>) {
    forall i :: 0 <= i < |settings| ==> FromCatalog(known, settings[i])
  }

  /** Whatever is configured from the catalog, the poller's entries are in it. */
  lemma {:induction false} RunStaysInCatalog(known: string -> bool, settings: seq<PollerTheorems.Event>)
    requires PollerTheorems.Possible(settings) && AllFromCatalog(known, settings)
    ensures InCatalog(PollerTheorems.Run(settings), known)
    decreases |settings|
  {
    if settings != [] {
      var before := settings[..|settings| - 1];
      RunStaysInCatalog(known, before);
      SettingStaysInCatalog(PollerTheorems.Run(before), known, settings[|settings| - 1]);
    }
  }

  /**
   Bounded silence from the step that enters Running, for a session and a poller as any run
   leaves them, when whatever is polled is in the catalog.
   */
  lemma SilenceIsBoundedFromTheStart(e: Env, evs: seq<SessionRuns.Event>, ev: SessionRuns.Event, known: string -> bool,
                                     settings: seq<PollerTheorems.Event>, later: seq<Event>, keepalive: int, d: int)
    requires SessionRuns.Schedule(evs + [ev]) && SessionRuns.Schedule(evs) && evs != []
    requires !SessionRuns.Run(e, evs).core.link.state.Running?
    requires SessionRuns.Run(e, evs + [ev]).core.link.state.Running?
    requires PollerTheorems.Possible(settings) && AllFromCatalog(known, settings) && ShortCatalog(known)
    requires Able(e, keepalive) && Framed(e) && 0 < e.handshakeTimeout <= keepalive
    requires var c := Client(SessionRuns.Run(e, evs + [ev]), PollerTheorems.Run(settings), known);
             && Attentive(c, keepalive) && TimeoutsBelow(c.session.core, keepalive)
             && (RunningStartsCalm(e, evs, ev, c.poller, known, keepalive);
                 Undisturbed(e, c, LatestTick(evs), ev.at, later, keepalive, d))
    ensures var c := Client(SessionRuns.Run(e, evs + [ev]), PollerTheorems.Run(settings), known);
            (RunningStartsCalm(e, evs, ev, c.poller, known, keepalive);
             NeverSilent(e, c, LatestTick(evs), ev.at, later, keepalive, d))
  {
    RunningStartsCalm(e, evs, ev, PollerTheorems.Run(settings), known, keepalive);
    RunStaysInCatalog(known, settings);
    SilenceIsBounded(e, Client(SessionRuns.Run(e, evs + [ev]), PollerTheorems.Run(settings), known),
                     LatestTick(evs), ev.at, later, keepalive, d);
  }
}
