/**
 The controller session as functions of its state (src/protocol/session.cpp): the four-state
 handshake, anti-replay, and the dispatch of messages while running. The state carries a
 history of the current connection.
 */
module SessionState {
  import opened Wrappers
  import opened Errors
  import opened OrderedMap
  import opened JsonValues
  import opened Messages
  import opened Auth
  import Link
  import opened DispatcherState
  import opened DispatcherInvariants
  import Ops = DispatcherOps
  import Replies = DispatcherReplies

  type Env = Link.Env

  /** The callbacks for messages that answer no request, and for warnings. */
  datatype NoticeKind = Heartbeat | DpReport | DeviceAlert | OtaStatus | ErrorReport | UnknownType | Warning
  datatype Notice = Notice(kind: NoticeKind, message: Json)

  /**
   replay is the last sequence number accepted from the device. From `connected` on it is
   history: whether the transport is open, this connection's nonce, the hello that was
   accepted and the first verified frame, how often on_ready and on_failed fired, the inbound
   sequence numbers accepted, the number of frames on the wire when the hello was accepted,
   and the notices given.
   */
  datatype Session = Session(core: Core, replay: int, deadline: int, failed: bool,
                             connected: bool, nonce: string, hello: Option<Json>, proof: Option<Json>,
                             ready: nat, failures: nat, accepted: seq<int>, signedFrom: nat,
                             notices: seq<Notice>)

  /** As constructed: nothing sent, sending blocked. */
  function Initial(e: Env): Session {
    var link := Link.Link(Link.Closed, AuthContext([], "", "", "", ""), 0, 0, 0, 0, []);
    Session(Fresh(e, link), 0, 0, false, false, "", None, None, 0, 0, [], 0, [])
  }

  // ---------------------------------------------------------------- state changes

  /** enter: sending is enabled in Running only. */
  function Entered(c: Core, next: Link.SessionState): Core {
    if c.link.state == next then c
    else c.(link := c.link.(state := next), sendingEnabled := next.Running?)
  }

  lemma EnteredClosing(e: Env, c: Core, now: int)
    requires Ops.Ready(e, c, now)
    ensures Replies.Closing(e, Entered(c, Link.Closed), now)
  {
    Replies.ClosedIsClosing(e, c, now);
    assert Ops.OpenReady(0);
    assert Entered(c, Link.Closed) == c.(link := c.link.(state := Link.Closed), sendingEnabled := false);
  }

  /** Outside Running nothing is open, so any state may follow. */
  lemma EnteredReady(e: Env, c: Core, next: Link.SessionState, now: int)
    requires Ops.Ready(e, c, now) && !c.link.state.Running?
    ensures Ops.Ready(e, Entered(c, next), now)
  {
    assert Ops.OpenReady(0);
  }

  /** A frame that is not a request: the link changes, the dispatcher does not. */
  function Said(e: Env, c: Core, kind: string, body: Json, inReplyTo: string, now: int): Core
    requires FindMeta(kind).Some?
  {
    c.(link := Link.SendMessage(e, c.link, kind, body, inReplyTo, now).0)
  }

  lemma SaidReady(e: Env, c: Core, kind: string, body: Json, inReplyTo: string, now: int)
    requires Ops.Ready(e, c, now) && FindMeta(kind).Some?
    ensures Ops.Ready(e, Said(e, c, kind, body, inReplyTo, now), now)
    ensures Said(e, c, kind, body, inReplyTo, now).link.state == c.link.state
    ensures Link.Signs(e.crypto, c.link, Said(e, c, kind, body, inReplyTo, now).link)
  {
    Link.SendMessageSigns(e, c.link, kind, body, inReplyTo, now);
    assert Ops.OpenReady(0);
    LaterTxCharged(e.budget, c.tokens, c.lastRefill, c.link.lastTx, now, c.refillInitialised);
  }

  lemma LaterTxCharged(b: Link.RateBudget, tokens: real, lastRefill: int, lastTx: int, now: int, initialised: bool)
    requires Charged(b, tokens, lastRefill, lastTx, initialised) && (initialised ==> lastRefill <= now)
    ensures Charged(b, tokens, lastRefill, now, initialised)
  {
    if b.rate >= 0.0 && initialised {
      AccruedGrows(b, lastRefill - now, 0);
      assert Accrued(b, 0) == 0.0;
    }
  }

  // ---------------------------------------------------------------- transport events

  /** Fresh nonce and counters for a new connection. */
  function Anew(e: Env, c: Core, nonce: string, now: int): Core {
    c.(link := Link.Link(c.link.state, AuthContext([], e.kid, "", nonce, ""), 0, 0, now, c.link.attempts, c.link.wire),
       epoch := |c.sent|)
  }

  function OnOpen(e: Env, s: Session, nonce: string, now: int): Session {
    s.(core := Entered(Anew(e, s.core, nonce, now), Link.AwaitHello),
       replay := 0, deadline := now + e.handshakeTimeout, failed := false, connected := true, nonce := nonce,
       hello := None, proof := None, ready := 0, failures := 0, accepted := [], signedFrom := |s.core.link.wire|)
  }

  lemma OpenReady(e: Env, s: Session, nonce: string, now: int)
    requires Ops.Ready(e, s.core, now) && s.core.link.state.Closed?
    ensures Ops.Ready(e, OnOpen(e, s, nonce, now).core, now)
  {
    assert Ops.OpenReady(0);
    LaterTxCharged(e.budget, s.core.tokens, s.core.lastRefill, s.core.link.lastTx, now, s.core.refillInitialised);
  }

  /** enter(Closed), then fail_all. */
  function ShutDown(e: Env, c: Core, error: Error, now: int): Core
    requires Ops.Ready(e, c, now)
  {
    EnteredClosing(e, c, now);
    Replies.FailAll(e, Entered(c, Link.Closed), error, now)
  }

  function OnClosed(e: Env, s: Session, error: Error, now: int): Session
    requires Ops.Ready(e, s.core, now)
  {
    s.(core := ShutDown(e, s.core, error, now), connected := false)
  }

  /** abort: at most once per connection. */
  function Abort(e: Env, s: Session, error: Error, now: int): Session
    requires Ops.Ready(e, s.core, now)
  {
    if s.failed then s else GivenUp(e, s, error, now)
  }

  function GivenUp(e: Env, s: Session, error: Error, now: int): Session
    requires Ops.Ready(e, s.core, now)
  {
    s.(core := ShutDown(e, s.core, error, now), failed := true, failures := s.failures + 1)
  }

  function Tick(e: Env, s: Session, now: int): Session
    requires Ops.Ready(e, s.core, now)
  {
    if (s.core.link.state.AwaitHello? || s.core.link.state.AwaitProof?) && now >= s.deadline then
      Abort(e, s, Error(Protocol, HandshakeFailed), now)
    else s.(core := Ops.Tick(e, s.core, now))
  }

  function Ask(e: Env, s: Session, req: Request, now: int): Session
    requires Ops.Ready(e, s.core, now)
  {
    s.(core := Ops.Submit(e, s.core, req, now))
  }

  /** on_text; None is a frame that is not a JSON object. */
  function OnText(e: Env, s: Session, message: Option<Json>, now: int): Session
    requires Ops.Ready(e, s.core, now)
    requires message.Some? ==> message.value.Obj?
  {
    match message
    case None =>
      if s.core.link.state.Running? then Warned(s, Null)
      else Abort(e, s, Error(Protocol, MalformedMessage), now)
    case Some(m) =>
      match s.core.link.state
      case AwaitHello => HandleHello(e, s, m, now)
      case AwaitProof => HandleProof(e, s, m, now)
      case Running => DispatchRunning(e, s, m, now)
      case Closed => s
  }

  function Warned(s: Session, message: Json): Session {
    s.(notices := s.notices + [Notice(Warning, message)])
  }

  // ---------------------------------------------------------------- handshake

  function FirstResolved(e: Env, device: string, kids: seq<Json>, error: Error): Result<(string, seq<Byte>), Error> {
    if kids == [] then Failure(error)
    else
      match kids[0]
      case Str(kid) =>
        (match e.resolve(device, kid)
         case Success(key) => Success((kid, key))
         case Failure(why) => FirstResolved(e, device, kids[1..], why))
      case _ => FirstResolved(e, device, kids[1..], error)
  }

  /** The first key id offered by the device that can be resolved, or why there is none. */
  function ChosenKid(e: Env, hello: Json): Result<(string, seq<Byte>), Error> {
    if !e.hasCredentials then Failure(Error(Configuration, MissingCredentials))
    else FirstResolved(e, hello.StringAt("device_id"), hello.ItemsAt("auth_kids"), Error(Authentication, UnknownKeyId))
  }

  predicate SchemeOffered(hello: Json) { Str(AUTH_SCHEME) in hello.ItemsAt("auth_schemes") }

  predicate DeviceExpected(e: Env, hello: Json) {
    e.expectedDevice == "" || hello.StringAt("device_id") == e.expectedDevice
  }

  function HelloRejected(e: Env, reason: string, now: int): Json {
    Obj([("accepted", Bool(false)), ("reason", Str(reason)), ("server_ts", Int(e.wallClock(now))),
         ("supported_protocols", Arr([Int(1), Int(2)]))])
  }

  function HelloAccepted(e: Env, auth: AuthContext, now: int): Json {
    Obj([("accepted", Bool(true)), ("auth_kid", Str(auth.kid)), ("auth_required", Bool(true)),
         ("auth_scheme", Str(AUTH_SCHEME)), ("auth_scope", Str(AUTH_SCOPE)),
         ("server_nonce", Str(auth.serverNonce)), ("server_ts", Int(e.wallClock(now))),
         ("supported_protocols", Arr([Int(1), Int(2)]))])
  }

  /** Answer a hello that cannot be accepted, then give up. */
  function RejectHello(e: Env, s: Session, m: Json, reason: string, error: Error, now: int): Session
    requires Ops.Ready(e, s.core, now)
  {
    SaidReady(e, s.core, "hello_ack", HelloRejected(e, reason, now), m.StringAt("msg_id"), now);
    Abort(e, s.(core := Said(e, s.core, "hello_ack", HelloRejected(e, reason, now), m.StringAt("msg_id"), now)), error, now)
  }

  function HandleHello(e: Env, s: Session, m: Json, now: int): Session
    requires Ops.Ready(e, s.core, now)
  {
    var kind := m.StringAt("type");
    if kind == "protocol_mismatch" then Abort(e, s, Error(Protocol, ProtocolMismatch), now)
    else if kind != "hello" then Abort(e, s, Error(Protocol, UnexpectedMessage), now)
    else
      var auth := s.core.link.auth.(clientNonce := m.StringAt("client_nonce"));
      AuthReady(e, s.core, auth, now);
      Decided(e, s.(core := s.core.(link := s.core.link.(auth := auth))), m, now)
  }

  /** Accept or reject a hello, the device's nonce noted. */
  function Decided(e: Env, s: Session, m: Json, now: int): Session
    requires Ops.Ready(e, s.core, now)
  {
    var chosen := ChosenKid(e, m);
    if !DeviceExpected(e, m) then
      RejectHello(e, s, m, "unknown_device", Error(Authentication, AuthRejected), now)
    else if chosen.Failure? then RejectHello(e, s, m, "auth_required", chosen.error, now)
    else if !SchemeOffered(m) || chosen.value.0 == "" then
      RejectHello(e, s, m, "auth_required", RejectionCause(e, m), now)
    else AcceptHello(e, s, m, chosen.value.0, chosen.value.1, now)
  }

  /** resolve_error when a key was found but the hello is rejected: the last failure before it. */
  function RejectionCause(e: Env, hello: Json): Error {
    LastFailure(e, hello.StringAt("device_id"), hello.ItemsAt("auth_kids"), Error(Authentication, UnknownKeyId))
  }

  function LastFailure(e: Env, device: string, kids: seq<Json>, error: Error): Error {
    if kids == [] then error
    else
      match kids[0]
      case Str(kid) =>
        (match e.resolve(device, kid)
         case Success(_) => error
         case Failure(why) => LastFailure(e, device, kids[1..], why))
      case _ => LastFailure(e, device, kids[1..], error)
  }

  function AcceptHello(e: Env, s: Session, m: Json, kid: string, key: seq<Byte>, now: int): Session {
    var auth := s.core.link.auth.(key := key, kid := kid, deviceId := m.StringAt("device_id"));
    var c := s.core.(link := s.core.link.(auth := auth));
    var said := Said(e, c, "hello_ack", HelloAccepted(e, auth, now), m.StringAt("msg_id"), now);
    s.(core := Entered(said, Link.AwaitProof), hello := Some(m), signedFrom := |c.link.wire|)
  }

  lemma AuthReady(e: Env, c: Core, auth: AuthContext, now: int)
    requires Ops.Ready(e, c, now)
    ensures Ops.Ready(e, c.(link := c.link.(auth := auth)), now)
  {
    assert Ops.OpenReady(0);
  }

  /** The first signed frame: verify, check its sequence number, answer, run. */
  function HandleProof(e: Env, s: Session, m: Json, now: int): Session
    requires Ops.Ready(e, s.core, now) && m.Obj? && s.core.link.state.AwaitProof?
  {
    if Verify(e.crypto, m, s.core.link.auth, C2s) != Accepted then
      Abort(e, s, Error(Authentication, AuthRejected), now)
    else if AuthSeq(m) <= s.replay then
      Abort(e, s, Error(Authentication, ReplayDetected), now)
    else Proceed(e, s.(replay := AuthSeq(m), accepted := s.accepted + [AuthSeq(m)], proof := Some(m)), m, now)
  }

  /** What follows a proof that holds: by the type of the frame, an answer or its dispatch. */
  function Proceed(e: Env, s: Session, m: Json, now: int): Session
    requires Ops.Ready(e, s.core, now) && m.Obj? && s.core.link.state.AwaitProof?
  {
    if m.StringAt("type") == SESSION_PROOF then
      Established(s.(core := OtaAnswered(e, s.core, m, now)))
    else
      EnteredReady(e, s.core, Link.Running, now);
      DispatchRunning(e, Established(s), m, now)
  }

  /** enter(Running) and on_ready. */
  function Established(s: Session): Session {
    s.(core := Entered(s.core, Link.Running), ready := s.ready + 1)
  }

  function OtaAnswered(e: Env, c: Core, m: Json, now: int): Core {
    match e.ota(m)
    case Some(offer) => Said(e, c, "ota_available", offer, m.StringAt("msg_id"), now)
    case None => Said(e, c, "ota_none", Obj([]), m.StringAt("msg_id"), now)
  }

  // ---------------------------------------------------------------- running

  function NoticeFor(message: Json): Notice {
    var kind := message.StringAt("type");
    Notice(if kind == "heartbeat" then Heartbeat
           else if kind == "dp_report" then DpReport
           else if kind == "device_alert" then DeviceAlert
           else if kind == "ota_status" then OtaStatus
           else if kind == "error_report" then ErrorReport
           else if FindMeta(kind).None? then UnknownType
           else Warning, message)
  }

  /** A signed frame is dropped unless it verifies and its number is new. */
  predicate Admitted(e: Env, s: Session, m: Json)
    requires m.Obj?
  {
    m.Member("auth").Some? ==>
      Verify(e.crypto, m, s.core.link.auth, C2s) == Accepted && AuthSeq(m) > s.replay
  }

  function DispatchRunning(e: Env, s: Session, m: Json, now: int): Session
    requires Ops.Ready(e, s.core, now) && m.Obj?
  {
    if !Admitted(e, s, m) then Warned(s, m) else Consumed(e, Noted(s, m), m, now)
  }

  /** The sequence number of a signed frame is used up. */
  function Noted(s: Session, m: Json): Session {
    if m.Member("auth").Some? then s.(replay := AuthSeq(m), accepted := s.accepted + [AuthSeq(m)]) else s
  }

  /** The dispatcher gets the message first; what answers no request is given to its callback. */
  function Consumed(e: Env, s: Session, m: Json, now: int): Session
    requires Ops.Ready(e, s.core, now)
  {
    var (core, consumed) := Replies.OnMessage(e, s.core, m, now);
    s.(core := core, notices := s.notices + NoticesOf(s.core, m, consumed))
  }

  function NoticesOf(c: Core, m: Json, consumed: bool): seq<Notice> {
    if !consumed then [NoticeFor(m)] else if Expected(c, m) then [] else [Notice(Warning, m)]
  }

  /** The reply to an open request, with a type its request allows. */
  predicate Expected(c: Core, m: Json) {
    var id := m.StringAt("in_reply_to");
    Has(c.pending, id) && ResponseAllowed(Find(c.pending, id).value.kind, m.StringAt("type"))
  }
}
