/**
 Runs of a controller session over any sequence of transport events, frames, ticks and
 requests that keeps the transport's contract: frames arrive only while it is open, and it
 opens only when it is closed.
 */
module SessionRuns {
  import opened Wrappers
  import opened Errors
  import opened OrderedMap
  import opened JsonValues
  import opened Messages
  import opened Auth
  import Link
  import opened DispatcherState
  import opened DispatcherInvariants
  import Ops = DispatcherOps
  import Replies = DispatcherReplies
  import opened SessionState

  // ---------------------------------------------------------------- the session's invariant

  /** The hello was acceptable, and the key in use is the one it led to. */
  ghost predicate Acceptable(e: Env, hello: Json, auth: AuthContext) {
    && hello.StringAt("type") == "hello" && e.hasCredentials
    && DeviceExpected(e, hello) && SchemeOffered(hello)
    && auth.kid != "" && Str(auth.kid) in hello.ItemsAt("auth_kids")
    && auth.deviceId == hello.StringAt("device_id")
    && e.resolve(auth.deviceId, auth.kid) == Success(auth.key)
    && auth.clientNonce == hello.StringAt("client_nonce")
  }

  ghost predicate Greeted(e: Env, s: Session) {
    s.hello.Some? && Acceptable(e, s.hello.value, s.core.link.auth)
  }

  /** A frame was verified under this connection's key and both nonces. */
  ghost predicate Proven(e: Env, s: Session) {
    && Greeted(e, s) && s.proof.Some? && s.proof.value.Obj?
    && Verify(e.crypto, s.proof.value, s.core.link.auth, C2s) == Accepted
  }

  ghost predicate Handshake(e: Env, s: Session) {
    && s.core.link.auth.serverNonce == s.nonce
    && match s.core.link.state
       case AwaitHello => s.connected && !s.failed && s.ready == 0 && s.failures == 0 && s.hello.None?
       case AwaitProof => s.connected && !s.failed && s.ready == 0 && s.failures == 0 && Greeted(e, s)
       case Running => s.connected && !s.failed && s.ready == 1 && s.failures == 0 && Proven(e, s)
       case Closed =>
         && (s.connected ==> s.failed)
         && s.failures == (if s.failed then 1 else 0)
         && s.ready + s.failures <= 1
         && (s.ready == 1 ==> Proven(e, s))
  }

  /** Accepted sequence numbers rise; the last one is what the next must exceed. */
  ghost predicate Inbound(accepted: seq<int>, replay: int) {
    && (forall i, j :: 0 <= i < j < |accepted| ==> accepted[i] < accepted[j])
    && (forall i :: 0 <= i < |accepted| ==> 0 < accepted[i])
    && replay == (if accepted == [] then 0 else accepted[|accepted| - 1])
  }

  /** The control frames from position `from` on verify under the link's context, with rising numbers. */
  ghost predicate SignedSince(c: Crypto, l: Link.Link, from: nat) {
    && from <= |l.wire|
    && (forall i :: from <= i < |l.wire| && l.wire[i].control.Some? ==>
          Link.Verifies(c, l.wire[i], l.auth) && 0 < l.wire[i].control.value <= l.s2cSeq)
    && (forall i, j :: from <= i < j < |l.wire| && l.wire[i].control.Some? && l.wire[j].control.Some? ==>
          l.wire[i].control.value < l.wire[j].control.value)
  }

  ghost predicate Outbound(e: Env, s: Session) {
    s.hello.Some? ==> SignedSince(e.crypto, s.core.link, s.signedFrom)
  }

  ghost predicate Good(e: Env, s: Session, now: int) {
    && Ops.Ready(e, s.core, now)
    && s.core.calling == multiset{} && !s.core.draining
    && Handshake(e, s) && Inbound(s.accepted, s.replay) && Outbound(e, s)
  }

  lemma SignedLonger(c: Crypto, l: Link.Link, m: Link.Link, from: nat)
    requires SignedSince(c, l, from) && Link.Signs(c, l, m)
    ensures SignedSince(c, m, from)
  {
    assert forall i :: 0 <= i < |l.wire| ==> m.wire[i] == l.wire[i];
  }

  lemma SignedAnew(c: Crypto, l: Link.Link, m: Link.Link)
    requires Link.Signs(c, l, m)
    ensures SignedSince(c, m, |l.wire|)
  {
  }

  // ---------------------------------------------------------------- every event keeps it

  /** Steps of the dispatcher leave the handshake alone and sign what they send. */
  lemma CoreStep(e: Env, s: Session, c: Core, now: int)
    requires Good(e, s, now)
    requires Ops.Ready(e, c, now) && Ops.Follows(e, s.core, c, now)
    requires c.calling == s.core.calling && c.draining == s.core.draining
    ensures Good(e, s.(core := c), now)
  {
    assert Ops.OpenFollows(0);
    if s.hello.Some? {
      SignedLonger(e.crypto, s.core.link, c.link, s.signedFrom);
    }
  }

  lemma OpenKeepsGood(e: Env, s: Session, nonce: string, now: int)
    requires Good(e, s, now) && !s.connected
    ensures Good(e, OnOpen(e, s, nonce, now), now)
  {
    OpenReady(e, s, nonce, now);
  }

  /** What closing down does to the dispatcher. */
  lemma ShutDownKeeps(e: Env, s: Session, error: Error, now: int)
    requires Good(e, s, now)
    ensures var c := ShutDown(e, s.core, error, now);
            && Ops.Ready(e, c, now) && c.calling == multiset{} && !c.draining
            && c.link.state.Closed? && c.link.auth == s.core.link.auth
            && (s.hello.Some? ==> SignedSince(e.crypto, c.link, s.signedFrom))
            && Ops.Follows(e, TakenAll(Entered(s.core, Link.Closed)), c, now)
  {
    EnteredClosing(e, s.core, now);
    var c := Replies.FailAll(e, Entered(s.core, Link.Closed), error, now);
    assert Ops.OpenFollows(0);
    if s.hello.Some? {
      SignedLonger(e.crypto, Entered(s.core, Link.Closed).link, c.link, s.signedFrom);
    }
  }

  lemma CloseKeepsGood(e: Env, s: Session, error: Error, now: int)
    requires Good(e, s, now)
    ensures Good(e, OnClosed(e, s, error, now), now) && OnClosed(e, s, error, now).core.link.state.Closed?
  {
    ShutDownKeeps(e, s, error, now);
  }

  /** Giving up is possible only before the session runs. */
  lemma AbortKeepsGood(e: Env, s: Session, error: Error, now: int)
    requires Good(e, s, now) && !s.core.link.state.Running?
    requires s.core.link.state.Closed? ==> s.connected
    ensures Good(e, Abort(e, s, error, now), now) && Abort(e, s, error, now).core.link.state.Closed?
  {
    if !s.failed {
      ShutDownKeeps(e, s, error, now);
    }
  }

  lemma TickKeepsGood(e: Env, s: Session, now: int)
    requires Good(e, s, now)
    ensures Good(e, Tick(e, s, now), now)
    ensures now >= s.deadline ==>
              Tick(e, s, now).core.link.state.Running? || Tick(e, s, now).core.link.state.Closed?
  {
    if (s.core.link.state.AwaitHello? || s.core.link.state.AwaitProof?) && now >= s.deadline {
      AbortKeepsGood(e, s, Error(Protocol, HandshakeFailed), now);
    } else {
      CoreStep(e, s, Ops.Tick(e, s.core, now), now);
      assert Ops.OpenFollows(0);
    }
  }

  lemma AskKeepsGood(e: Env, s: Session, req: Request, now: int)
    requires Good(e, s, now)
    ensures Good(e, Ask(e, s, req, now), now)
  {
    CoreStep(e, s, Ops.Submit(e, s.core, req, now), now);
  }

  lemma OneMoreAccepted(accepted: seq<int>, replay: int, n: int)
    requires Inbound(accepted, replay) && n > replay
    ensures Inbound(accepted + [n], n)
  {
    if accepted != [] {
      assert forall i :: 0 <= i < |accepted| ==> accepted[i] <= accepted[|accepted| - 1];
    }
  }

  lemma DispatchKeepsGood(e: Env, s: Session, m: Json, now: int)
    requires Good(e, s, now) && m.Obj?
    ensures Good(e, DispatchRunning(e, s, m, now), now)
  {
    if Admitted(e, s, m) {
      NotedKeepsGood(e, s, m, now);
      ConsumedKeepsGood(e, Noted(s, m), m, now);
    }
  }

  lemma NotedKeepsGood(e: Env, s: Session, m: Json, now: int)
    requires Good(e, s, now) && m.Obj? && Admitted(e, s, m)
    ensures Good(e, Noted(s, m), now)
  {
    if m.Member("auth").Some? {
      OneMoreAccepted(s.accepted, s.replay, AuthSeq(m));
    }
  }

  lemma ConsumedKeepsGood(e: Env, s: Session, m: Json, now: int)
    requires Good(e, s, now) && m.Obj?
    ensures Good(e, Consumed(e, s, m, now), now)
  {
    var (core, consumed) := Replies.OnMessage(e, s.core, m, now);
    DispatchDraining(e, s.core, m, now);
    CoreStep(e, s, core, now);
    NoticesAside(e, s.(core := core), s.notices + NoticesOf(s.core, m, consumed), now);
  }

  lemma NoticesAside(e: Env, s: Session, notices: seq<Notice>, now: int)
    requires Good(e, s, now)
    ensures Good(e, s.(notices := notices), now)
  {
  }

  lemma DispatchDraining(e: Env, c: Core, m: Json, now: int)
    requires Ops.Ready(e, c, now)
    ensures Replies.OnMessage(e, c, m, now).0.draining == c.draining
  {
    var id := m.StringAt("in_reply_to");
    if id != "" && Has(c.pending, id) {
      Replies.ReplySteps(e, c, m, now);
    }
  }

  // ---------------------------------------------------------------- handshake

  lemma {:induction false} FirstResolvedIsSound(e: Env, device: string, kids: seq<Json>, error: Error)
    ensures var r := FirstResolved(e, device, kids, error);
            r.Success? ==> Str(r.value.0) in kids && e.resolve(device, r.value.0) == Success(r.value.1)
  {
    if kids != [] {
      match kids[0]
      case Str(kid) =>
        if e.resolve(device, kid).Failure? {
          FirstResolvedIsSound(e, device, kids[1..], e.resolve(device, kid).error);
        }
      case _ => FirstResolvedIsSound(e, device, kids[1..], error);
    }
  }

  lemma SaidKeepsGood(e: Env, s: Session, kind: string, body: Json, inReplyTo: string, now: int)
    requires Good(e, s, now) && FindMeta(kind).Some?
    ensures Good(e, s.(core := Said(e, s.core, kind, body, inReplyTo, now)), now)
  {
    SaidReady(e, s.core, kind, body, inReplyTo, now);
    if s.hello.Some? {
      SignedLonger(e.crypto, s.core.link, Said(e, s.core, kind, body, inReplyTo, now).link, s.signedFrom);
    }
  }

  lemma RejectKeepsGood(e: Env, s: Session, m: Json, reason: string, error: Error, now: int)
    requires Good(e, s, now) && s.core.link.state.AwaitHello?
    ensures Good(e, RejectHello(e, s, m, reason, error, now), now)
  {
    var body, id := HelloRejected(e, reason, now), m.StringAt("msg_id");
    SaidReady(e, s.core, "hello_ack", body, id, now);
    SaidKeepsGood(e, s, "hello_ack", body, id, now);
    AbortKeepsGood(e, s.(core := Said(e, s.core, "hello_ack", body, id, now)), error, now);
  }

  lemma AcceptKeepsGood(e: Env, s: Session, m: Json, kid: string, key: seq<Byte>, now: int)
    requires Good(e, s, now) && s.core.link.state.AwaitHello?
    requires Acceptable(e, m, s.core.link.auth.(key := key, kid := kid, deviceId := m.StringAt("device_id")))
    ensures Good(e, AcceptHello(e, s, m, kid, key, now), now)
  {
    var auth := s.core.link.auth.(key := key, kid := kid, deviceId := m.StringAt("device_id"));
    var c := s.core.(link := s.core.link.(auth := auth));
    var body, id := HelloAccepted(e, auth, now), m.StringAt("msg_id");
    AuthReady(e, s.core, auth, now);
    SaidReady(e, c, "hello_ack", body, id, now);
    var said := Said(e, c, "hello_ack", body, id, now);
    EnteredReady(e, said, Link.AwaitProof, now);
    SignedAnew(e.crypto, c.link, said.link);
  }

  lemma HelloKeepsGood(e: Env, s: Session, m: Json, now: int)
    requires Good(e, s, now) && s.core.link.state.AwaitHello?
    ensures Good(e, HandleHello(e, s, m, now), now)
  {
    var kind := m.StringAt("type");
    if kind != "hello" {
      AbortKeepsGood(e, s, Error(Protocol, if kind == "protocol_mismatch" then ProtocolMismatch else UnexpectedMessage), now);
    } else {
      var auth := s.core.link.auth.(clientNonce := m.StringAt("client_nonce"));
      AuthReady(e, s.core, auth, now);
      var s1 := s.(core := s.core.(link := s.core.link.(auth := auth)));
      assert Good(e, s1, now);
      HelloDecided(e, s1, m, now);
    }
  }

  /** The four ways a hello is answered. */
  lemma HelloDecided(e: Env, s: Session, m: Json, now: int)
    requires Good(e, s, now) && s.core.link.state.AwaitHello? && m.StringAt("type") == "hello"
    requires s.core.link.auth.clientNonce == m.StringAt("client_nonce")
    ensures Good(e, Decided(e, s, m, now), now)
  {
    var chosen := ChosenKid(e, m);
    if !DeviceExpected(e, m) {
      RejectKeepsGood(e, s, m, "unknown_device", Error(Authentication, AuthRejected), now);
    } else if chosen.Failure? {
      RejectKeepsGood(e, s, m, "auth_required", chosen.error, now);
    } else if !SchemeOffered(m) || chosen.value.0 == "" {
      RejectKeepsGood(e, s, m, "auth_required", RejectionCause(e, m), now);
    } else {
      ChoiceIsAcceptable(e, s, m);
      AcceptKeepsGood(e, s, m, chosen.value.0, chosen.value.1, now);
    }
  }

  lemma ChoiceIsAcceptable(e: Env, s: Session, m: Json)
    requires m.StringAt("type") == "hello" && s.core.link.auth.clientNonce == m.StringAt("client_nonce")
    requires DeviceExpected(e, m) && ChosenKid(e, m).Success? && SchemeOffered(m) && ChosenKid(e, m).value.0 != ""
    ensures var (kid, key) := ChosenKid(e, m).value;
            Acceptable(e, m, s.core.link.auth.(key := key, kid := kid, deviceId := m.StringAt("device_id")))
  {
    FirstResolvedIsSound(e, m.StringAt("device_id"), m.ItemsAt("auth_kids"), Error(Authentication, UnknownKeyId));
  }

  /** Entering Running with a verified frame. */
  lemma EstablishedIsGood(e: Env, s: Session, m: Json, now: int)
    requires Good(e, s, now) && s.core.link.state.AwaitProof? && m.Obj?
    requires Verify(e.crypto, m, s.core.link.auth, C2s) == Accepted && AuthSeq(m) > s.replay
    ensures Good(e, Established(s.(replay := AuthSeq(m), accepted := s.accepted + [AuthSeq(m)], proof := Some(m))), now)
  {
    OneMoreAccepted(s.accepted, s.replay, AuthSeq(m));
    EnteredReady(e, s.core, Link.Running, now);
    assert Entered(s.core, Link.Running).link.wire == s.core.link.wire;
  }

  lemma OtaKeepsGood(e: Env, s: Session, m: Json, now: int)
    requires Good(e, s, now) && s.core.link.state.AwaitProof?
    ensures Good(e, s.(core := OtaAnswered(e, s.core, m, now)), now)
    ensures OtaAnswered(e, s.core, m, now).link.state == s.core.link.state
    ensures OtaAnswered(e, s.core, m, now).link.auth == s.core.link.auth
  {
    var kind := if e.ota(m).Some? then "ota_available" else "ota_none";
    var body := if e.ota(m).Some? then e.ota(m).value else Obj([]);
    SaidKeepsGood(e, s, kind, body, m.StringAt("msg_id"), now);
    SaidReady(e, s.core, kind, body, m.StringAt("msg_id"), now);
  }

  lemma ProceedKeepsGood(e: Env, s: Session, m: Json, now: int)
    requires Good(e, s, now) && s.core.link.state.AwaitProof? && m.Obj?
    requires Verify(e.crypto, m, s.core.link.auth, C2s) == Accepted && AuthSeq(m) > s.replay
    ensures Good(e, Proceed(e, s.(replay := AuthSeq(m), accepted := s.accepted + [AuthSeq(m)], proof := Some(m)), m, now), now)
  {
    if m.StringAt("type") == SESSION_PROOF {
      OtaKeepsGood(e, s, m, now);
      EstablishedIsGood(e, s.(core := OtaAnswered(e, s.core, m, now)), m, now);
    } else {
      EstablishedIsGood(e, s, m, now);
      EnteredReady(e, s.core, Link.Running, now);
      DispatchKeepsGood(e, Established(s.(replay := AuthSeq(m), accepted := s.accepted + [AuthSeq(m)], proof := Some(m))), m, now);
    }
  }

  lemma BadProofKeepsGood(e: Env, s: Session, m: Json, now: int)
    requires Good(e, s, now) && s.core.link.state.AwaitProof? && m.Obj?
    requires Verify(e.crypto, m, s.core.link.auth, C2s) != Accepted
    ensures Good(e, HandleProof(e, s, m, now), now)
  {
    AbortIsGood(e, s, Error(Authentication, AuthRejected), now);
  }

  lemma ReplayedProofKeepsGood(e: Env, s: Session, m: Json, now: int)
    requires Good(e, s, now) && s.core.link.state.AwaitProof? && m.Obj?
    requires Verify(e.crypto, m, s.core.link.auth, C2s) == Accepted && AuthSeq(m) <= s.replay
    ensures Good(e, HandleProof(e, s, m, now), now)
  {
    AbortIsGood(e, s, Error(Authentication, ReplayDetected), now);
  }

  lemma GoodProofKeepsGood(e: Env, s: Session, m: Json, now: int)
    requires Good(e, s, now) && s.core.link.state.AwaitProof? && m.Obj?
    requires Verify(e.crypto, m, s.core.link.auth, C2s) == Accepted && AuthSeq(m) > s.replay
    ensures Good(e, HandleProof(e, s, m, now), now)
  {
    ProceedKeepsGood(e, s, m, now);
  }

  lemma ProofKeepsGood(e: Env, s: Session, m: Json, now: int)
    requires Good(e, s, now) && s.core.link.state.AwaitProof? && m.Obj?
    ensures Good(e, HandleProof(e, s, m, now), now)
  {
    if Verify(e.crypto, m, s.core.link.auth, C2s) != Accepted {
      BadProofKeepsGood(e, s, m, now);
    } else if AuthSeq(m) <= s.replay {
      ReplayedProofKeepsGood(e, s, m, now);
    } else {
      GoodProofKeepsGood(e, s, m, now);
    }
  }

  lemma AbortIsGood(e: Env, s: Session, error: Error, now: int)
    requires Good(e, s, now) && s.core.link.state.AwaitProof?
    ensures Good(e, Abort(e, s, error, now), now)
  {
    AbortKeepsGood(e, s, error, now);
  }

  lemma TextKeepsGood(e: Env, s: Session, message: Option<Json>, now: int)
    requires Good(e, s, now) && s.connected && (message.Some? ==> message.value.Obj?)
    ensures Good(e, OnText(e, s, message, now), now)
  {
    match message
    case None =>
      if !s.core.link.state.Running? {
        AbortKeepsGood(e, s, Error(Protocol, MalformedMessage), now);
      }
    case Some(m) =>
      match s.core.link.state
      case AwaitHello => HelloKeepsGood(e, s, m, now);
      case AwaitProof => ProofKeepsGood(e, s, m, now);
      case Running => DispatchKeepsGood(e, s, m, now);
      case Closed =>
  }

  // ---------------------------------------------------------------- runs

  datatype Event =
    | Opened(nonce: string, at: int)
    | Lost(error: Error, at: int)
    | Received(message: Option<Json>, at: int)
    | Ticked(at: int)
    | Asked(request: Request, at: int)
    | Posted(kind: string, body: Json, at: int)

  /** The transport is open after these events. */
  predicate Connected(evs: seq<Event>) {
    if evs == [] then false
    else
      match evs[|evs| - 1]
      case Opened(_, _) => true
      case Lost(_, _) => false
      case _ => Connected(evs[..|evs| - 1])
  }

  function Clock(evs: seq<Event>): int { if evs == [] then 0 else evs[|evs| - 1].at }

  /** The transport's contract for one more event, and a clock that never goes back. */
  predicate MayHappen(before: seq<Event>, ev: Event) {
    && (before != [] ==> Clock(before) <= ev.at)
    && (ev.Opened? ==> !Connected(before))
    && (ev.Lost? ==> Connected(before))
    && (ev.Received? ==> Connected(before))
    && Possible(ev)
  }

  /** What on_text and send_message can be given: an object or garbage; a message type of the table. */
  predicate Possible(ev: Event) {
    && (ev.Received? && ev.message.Some? ==> ev.message.value.Obj?)
    && (ev.Posted? ==> FindMeta(ev.kind).Some?)
  }

  predicate Schedule(evs: seq<Event>) {
    evs == [] || (Schedule(evs[..|evs| - 1]) && MayHappen(evs[..|evs| - 1], evs[|evs| - 1]))
  }

  function Step(e: Env, s: Session, ev: Event): Session
    requires Ops.Ready(e, s.core, ev.at)
    requires Possible(ev)
  {
    match ev
    case Opened(nonce, at) => OnOpen(e, s, nonce, at)
    case Lost(error, at) => OnClosed(e, s, error, at)
    case Received(message, at) => OnText(e, s, message, at)
    case Ticked(at) => Tick(e, s, at)
    case Asked(request, at) => Ask(e, s, request, at)
    case Posted(kind, body, at) => s.(core := Said(e, s.core, kind, body, "", at))
  }

  lemma GoodLater(e: Env, s: Session, now: int, later: int)
    requires Good(e, s, now) && now <= later
    ensures Good(e, s, later)
  {
    assert Ops.OpenReady(0);
  }

  lemma GoodAtStart(e: Env, now: int)
    ensures Good(e, Initial(e), now)
  {
    var c := Initial(e).core;
    assert Inv(e, c);
    assert !c.refillInitialised;
  }

  lemma HelloConnects(e: Env, s: Session, m: Json, now: int)
    requires Ops.Ready(e, s.core, now)
    ensures HandleHello(e, s, m, now).connected == s.connected
  {
  }

  lemma ProofConnects(e: Env, s: Session, m: Json, now: int)
    requires Ops.Ready(e, s.core, now) && m.Obj? && s.core.link.state.AwaitProof?
    ensures HandleProof(e, s, m, now).connected == s.connected
  {
  }

  lemma TextConnects(e: Env, s: Session, message: Option<Json>, now: int)
    requires Ops.Ready(e, s.core, now) && (message.Some? ==> message.value.Obj?)
    ensures OnText(e, s, message, now).connected == s.connected
  {
    match message
    case None =>
    case Some(m) =>
      match s.core.link.state
      case AwaitHello => HelloConnects(e, s, m, now);
      case AwaitProof => ProofConnects(e, s, m, now);
      case Running =>
      case Closed =>
  }

  lemma StepConnects(e: Env, s: Session, ev: Event)
    requires Ops.Ready(e, s.core, ev.at)
    requires Possible(ev)
    ensures Step(e, s, ev).connected == (if ev.Opened? then true else if ev.Lost? then false else s.connected)
  {
    match ev
    case Received(message, at) => TextConnects(e, s, message, at);
    case _ =>
  }

  lemma StepKeepsGood(e: Env, s: Session, ev: Event)
    requires Good(e, s, ev.at)
    requires ev.Opened? ==> !s.connected
    requires (ev.Received? ==> s.connected) && Possible(ev)
    ensures Good(e, Step(e, s, ev), ev.at)
  {
    match ev
    case Opened(nonce, at) => OpenKeepsGood(e, s, nonce, at);
    case Lost(error, at) => CloseKeepsGood(e, s, error, at);
    case Received(message, at) => TextKeepsGood(e, s, message, at);
    case Ticked(at) => TickKeepsGood(e, s, at);
    case Asked(request, at) => AskKeepsGood(e, s, request, at);
    case Posted(kind, body, at) => SaidKeepsGood(e, s, kind, body, "", at);
  }

  /** The state after a run. Its contract is the safety theorem: every reachable state is good. */
  function Run(e: Env, evs: seq<Event>): (s: Session)
    requires Schedule(evs)
    ensures Good(e, s, Clock(evs)) && s.connected == Connected(evs)
  {
    if evs == [] then
      GoodAtStart(e, 0);
      Initial(e)
    else
      var before, ev := evs[..|evs| - 1], evs[|evs| - 1];
      var s := Run(e, before);
      if before == [] then
        GoodAtStart(e, ev.at);
        StepKeepsGood(e, s, ev);
        StepConnects(e, s, ev);
        Step(e, s, ev)
      else
        GoodLater(e, s, Clock(before), ev.at);
        StepKeepsGood(e, s, ev);
        StepConnects(e, s, ev);
        Step(e, s, ev)
  }
}
