/**
 ControllerSession as the source runs it: an object that owns its dispatcher and updates its
 fields from transport events (src/protocol/session.cpp). The fields that sending updates are
 those of the outlet. Callbacks are ghost: how often each fired, and the notices given.
 */
module SessionObject {
  import opened Wrappers
  import opened Errors
  import opened JsonValues
  import opened Messages
  import opened Auth
  import opened AuthMethods
  import L = Link
  import opened DispatcherState
  import Ops = DispatcherOps
  import Replies = DispatcherReplies
  import opened OutletObject
  import opened Dispatcher
  import Spec = SessionState
  import opened OrderedMap
  import opened JsonReading
  import opened Logs
  import opened SessionFaults

  class ControllerSession {
    const env: L.Env
    const outlet: Outlet
    const dispatcher: RequestDispatcher
    const replay: AntiReplay
    var deadline: int
    var failed: bool

    ghost var connected: bool
    ghost var nonce: string
    ghost var hello: Option<Json>
    ghost var proof: Option<Json>
    ghost var ready: nat
    ghost var failures: nat
    ghost var accepted: seq<int>
    ghost var signedFrom: nat
    ghost var notices: seq<Spec.Notice>

    ghost function View(): Spec.Session
      reads this, outlet, dispatcher, dispatcher.outlet, replay
    {
      Spec.Session(dispatcher.View(), replay.last, deadline, failed, connected, nonce, hello, proof,
                   ready, failures, accepted, signedFrom, notices)
    }

    /** The parts belong together; they are never replaced. */
    ghost predicate Valid() {
      outlet.env == env && dispatcher.env == env && dispatcher.outlet == outlet && dispatcher.Valid()
    }

    ghost predicate Ready(now: int)
      reads this, outlet, dispatcher, dispatcher.outlet
    {
      Valid() && Ops.Ready(env, dispatcher.View(), now)
    }

    constructor (env: L.Env)
      ensures Valid() && this.env == env && View() == Spec.Initial(env)
      ensures fresh(outlet) && fresh(dispatcher) && fresh(replay)
    {
      this.env := env;
      var o := new Outlet(env);
      outlet := o;
      dispatcher := new RequestDispatcher(env, o);
      replay := new AntiReplay();
      deadline, failed := 0, false;
      connected, nonce, hello, proof := false, "", None, None;
      ready, failures, accepted, signedFrom, notices := 0, 0, [], 0, [];
    }

    method Enter(next: L.SessionState)
      requires Valid()
      modifies outlet`state, dispatcher`sendingEnabled
      ensures Valid() && dispatcher.View() == Spec.Entered(old(dispatcher.View()), next)
    {
      if outlet.state == next {
        return;
      }
      outlet.state := next;
      dispatcher.sendingEnabled := next == L.Running;
    }

    /** Fresh counters for the sending half, and the history's own. */
    method StartAnew(freshNonce: string, now: int)
      requires Valid()
      modifies outlet, dispatcher`epoch
      ensures Valid()
      ensures dispatcher.View() == Spec.Anew(env, old(dispatcher.View()), freshNonce, now)
    {
      outlet.auth := AuthContext([], env.kid, "", freshNonce, "");
      outlet.s2cSeq := 0;
      outlet.msgSeq := 0;
      outlet.lastTx := now;
      dispatcher.epoch := |dispatcher.sent|;
    }

    /** The session's own fields for a new connection. */
    method Forget(freshNonce: string, now: int)
      requires Valid()
      modifies this, replay
      ensures Valid() && dispatcher.View() == old(dispatcher.View())
      ensures View() == old(View()).(replay := 0, deadline := now + env.handshakeTimeout, failed := false,
                                     connected := true, nonce := freshNonce, hello := None, proof := None,
                                     ready := 0, failures := 0, accepted := [], signedFrom := |outlet.wire|)
    {
      replay.Reset();
      failed := false;
      deadline := now + env.handshakeTimeout;
      connected, nonce, hello, proof := true, freshNonce, None, None;
      ready, failures, accepted, signedFrom := 0, 0, [], |outlet.wire|;
    }

    method OnTransportOpen(freshNonce: string, now: int)
      requires Valid()
      modifies this, outlet, dispatcher, replay
      ensures Valid() && View() == Spec.OnOpen(env, old(View()), freshNonce, now)
    {
      StartAnew(freshNonce, now);
      Forget(freshNonce, now);
      Enter(L.AwaitHello);
    }

    /** enter(Closed), then fail_all. */
    method CloseDown(error: Error, now: int)
      requires Ready(now)
      modifies outlet, dispatcher
      ensures Valid() && dispatcher.View() == Spec.ShutDown(env, old(dispatcher.View()), error, now)
    {
      Spec.EnteredClosing(env, dispatcher.View(), now);
      Enter(L.Closed);
      dispatcher.FailAll(error, now);
    }

    method OnTransportClosed(error: Error, now: int)
      requires Ready(now)
      modifies this, outlet, dispatcher
      ensures Valid() && View() == Spec.OnClosed(env, old(View()), error, now)
    {
      hide Spec.ShutDown;
      CloseDown(error, now);
      connected := false;
    }

    method Abort(error: Error, now: int)
      requires Ready(now)
      modifies this, outlet, dispatcher
      ensures Valid() && View() == Spec.Abort(env, old(View()), error, now)
    {
      if !failed {
        GiveUp(error, now);
      }
    }

    method GiveUp(error: Error, now: int)
      requires Ready(now)
      modifies this, outlet, dispatcher
      ensures Valid() && View() == Spec.GivenUp(env, old(View()), error, now)
    {
      hide Spec.ShutDown;
      failed := true;
      CloseDown(error, now);
      failures := failures + 1;
    }

    method Request(req: DispatcherState.Request, now: int)
      requires Ready(now)
      modifies this, outlet, dispatcher
      ensures Valid() && View() == Spec.Ask(env, old(View()), req, now)
    {
      dispatcher.Submit(req, now);
    }

    method Tick(now: int)
      requires Ready(now)
      modifies this, outlet, dispatcher
      ensures Valid() && View() == Spec.Tick(env, old(View()), now)
    {
      if (outlet.state.AwaitHello? || outlet.state.AwaitProof?) && now >= deadline {
        Abort(Error(Protocol, HandshakeFailed), now);
        return;
      }
      dispatcher.Tick(now);
    }

    /** None is an exception that leaves on_text; then nothing is said of the state. */
    method OnText(message: Option<Json>, now: int) returns (done: Option<()>)
      requires Ready(now) && (message.Some? ==> message.value.Obj?)
      modifies this, outlet, dispatcher, replay
      ensures Valid() && (done.None? <==> Throws(env, old(View()), message))
      ensures done.Some? ==> View() == Spec.OnText(env, old(View()), message, now)
    {
      hide Spec.HandleHello, Spec.HandleProof, Spec.DispatchRunning, Spec.Abort;
      hide HelloThrows, ProofThrows, RunningThrows;
      match message {
        case None =>
          if outlet.state == L.Running {
            Warn(Null);
          } else {
            Abort(Error(Protocol, MalformedMessage), now);
          }
          return Some(());
        case Some(m) =>
          match outlet.state {
            case AwaitHello => done := HandleHello(m, now);
            case AwaitProof => done := HandleProof(m, now);
            case Running => done := DispatchRunning(m, now);
            case Closed => return Some(());
          }
      }
    }

    ghost method Warn(message: Json)
      modifies this`notices
      ensures notices == old(notices) + [Spec.Notice(Spec.Warning, message)]
    {
      notices := notices + [Spec.Notice(Spec.Warning, message)];
    }

    /** The search over the key ids offered: the first that resolves, and the last failure before it. */
    method ResolveKid(device: string, kids: seq<Json>) returns (found: Option<(string, seq<Byte>)>, error: Error)
      ensures found == None <==> Spec.FirstResolved(env, device, kids, Error(Authentication, UnknownKeyId)).Failure?
      ensures match found
              case Some(choice) => Spec.FirstResolved(env, device, kids, Error(Authentication, UnknownKeyId)) == Success(choice)
              case None => Spec.FirstResolved(env, device, kids, Error(Authentication, UnknownKeyId)) == Failure(error)
      ensures found.Some? ==> error == Spec.LastFailure(env, device, kids, Error(Authentication, UnknownKeyId))
    {
      error := Error(Authentication, UnknownKeyId);
      var i := 0;
      while i < |kids|
        invariant i <= |kids|
        invariant Spec.FirstResolved(env, device, kids, Error(Authentication, UnknownKeyId))
               == Spec.FirstResolved(env, device, kids[i..], error)
        invariant Spec.LastFailure(env, device, kids, Error(Authentication, UnknownKeyId))
               == Spec.LastFailure(env, device, kids[i..], error)
      {
        assert kids[i..][1..] == kids[i + 1..];
        if kids[i].Str? {
          var resolved := env.resolve(device, kids[i].s);
          if resolved.Success? {
            return Some((kids[i].s, resolved.value)), error;
          }
          error := resolved.error;
        }
        i := i + 1;
      }
      return None, error;
    }

    method HandleHello(m: Json, now: int) returns (done: Option<()>)
      requires Ready(now)
      modifies this, outlet, dispatcher
      ensures Valid() && (done.None? <==> HelloThrows(m))
      ensures done.Some? ==> View() == Spec.HandleHello(env, old(View()), m, now)
    {
      hide Spec.Decided, Spec.Abort, AreTexts;
      var kind :- Text(m, "type");
      if kind == "protocol_mismatch" {
        Abort(Error(Protocol, ProtocolMismatch), now);
        return Some(());
      }
      if kind != "hello" {
        Abort(Error(Protocol, UnexpectedMessage), now);
        return Some(());
      }
      var texts :- ReadTexts(m, HELLO_TEXTS);
      if !IsNumber(m, "protocol_version") {
        return None;
      }
      ghost var noted := outlet.auth.(clientNonce := m.StringAt("client_nonce"));
      Spec.AuthReady(env, dispatcher.View(), noted, now);
      outlet.auth := outlet.auth.(clientNonce := m.StringAt("client_nonce"));
      Decide(m, now);
      return Some(());
    }

    method Decide(m: Json, now: int)
      requires Ready(now)
      modifies this, outlet, dispatcher
      ensures Valid() && View() == Spec.Decided(env, old(View()), m, now)
    {
      hide Spec.RejectHello, Spec.AcceptHello;
      var device := m.StringAt("device_id");
      var found, error := None, Error(Configuration, MissingCredentials);
      if env.hasCredentials {
        found, error := ResolveKid(device, m.ItemsAt("auth_kids"));
      }
      if env.expectedDevice != "" && device != env.expectedDevice {
        Reject(m, "unknown_device", Error(Authentication, AuthRejected), now);
        return;
      }
      if Str(AUTH_SCHEME) !in m.ItemsAt("auth_schemes") || found.None? || found.value.0 == "" {
        Reject(m, "auth_required", error, now);
        return;
      }
      Accept(m, found.value.0, found.value.1, now);
    }

    method Reject(m: Json, reason: string, error: Error, now: int)
      requires Ready(now)
      modifies this, outlet, dispatcher
      ensures Valid() && View() == Spec.RejectHello(env, old(View()), m, reason, error, now)
    {
      hide Spec.ShutDown;
      Spec.SaidReady(env, dispatcher.View(), "hello_ack", Spec.HelloRejected(env, reason, now), m.StringAt("msg_id"), now);
      var sent := outlet.SendMessage("hello_ack", Spec.HelloRejected(env, reason, now), m.StringAt("msg_id"), now);
      Abort(error, now);
    }

    method Accept(m: Json, kid: string, key: seq<Byte>, now: int)
      requires Ready(now)
      modifies this, outlet, dispatcher
      ensures Valid() && View() == Spec.AcceptHello(env, old(View()), m, kid, key, now)
    {
      outlet.auth := outlet.auth.(key := key, kid := kid, deviceId := m.StringAt("device_id"));
      hello, signedFrom := Some(m), |outlet.wire|;
      var sent := outlet.SendMessage("hello_ack", Spec.HelloAccepted(env, outlet.auth, now), m.StringAt("msg_id"), now);
      Enter(L.AwaitProof);
    }

    /** verify, in the order in which it reads the signature. */
    method Judge(m: Json) returns (verdict: Option<Verdict>)
      requires m.Obj?
      ensures verdict.None? <==> VerifyThrows(m, outlet.auth)
      ensures verdict.Some? ==> verdict.value == Verify(env.crypto, m, outlet.auth, C2s)
    {
      hide MacInput;
      if m.Member("auth").None? || !m.Member("auth").value.Obj? {
        return Some(MissingAuth);
      }
      var auth := m.Member("auth").value;
      var kid :- Text(auth, "kid");
      if kid != outlet.auth.kid {
        return Some(KidMismatch);
      }
      var n := IntegerOf(auth.Member("seq"));
      if n.None? {
        return Some(BadSeq);
      }
      var expected := env.crypto.hmac(outlet.auth.key, MacInput(env.crypto, m, outlet.auth, C2s, kid, n.value));
      var given :- Text(auth, "mac");
      return Some(if given == expected then Accepted else MacMismatch);
    }

    method HandleProof(m: Json, now: int) returns (done: Option<()>)
      requires Ready(now) && m.Obj? && outlet.state == L.AwaitProof
      modifies this, outlet, dispatcher, replay
      ensures Valid() && (done.None? <==> ProofThrows(env, old(View()), m))
      ensures done.Some? ==> View() == Spec.HandleProof(env, old(View()), m, now)
    {
      AcceptedIsSigned(env.crypto, m, outlet.auth);
      hide Spec.Proceed, Spec.Abort, Verify, VerifyThrows, AreTexts, IsText, AuthSeq;
      var verdict :- Judge(m);
      if verdict != Accepted {
        Abort(Error(Authentication, AuthRejected), now);
        return Some(());
      }
      done := TakeProof(m, now);
    }

    /** The frame verifies; its number must be new as well. */
    method TakeProof(m: Json, now: int) returns (done: Option<()>)
      requires Ready(now) && m.Obj? && outlet.state == L.AwaitProof
      requires Verify(env.crypto, m, outlet.auth, C2s) == Accepted
      requires m.Member("auth").Some? && !VerifyThrows(m, outlet.auth)
      modifies this, outlet, dispatcher, replay
      ensures Valid() && (done.None? <==> ProofThrows(env, old(View()), m))
      ensures done.Some? ==> View() == Spec.HandleProof(env, old(View()), m, now)
    {
      hide Spec.Proceed, Spec.Abort, Verify, VerifyThrows, AreTexts, IsText, AuthSeq;
      var newer := replay.Check(AuthSeq(m));
      if !newer {
        Abort(Error(Authentication, ReplayDetected), now);
        return Some(());
      }
      accepted := accepted + [AuthSeq(m)];
      proof := Some(m);
      done := Proceed(m, now);
    }

    method Proceed(m: Json, now: int) returns (done: Option<()>)
      requires Ready(now) && m.Obj? && outlet.state == L.AwaitProof
      requires Verify(env.crypto, m, outlet.auth, C2s) == Accepted && AuthSeq(m) == replay.last
      requires m.Member("auth").Some? && !VerifyThrows(m, outlet.auth)
      modifies this, outlet, dispatcher, replay
      ensures Valid() && (done.None? <==> !IsText(m, "type") || (m.StringAt("type") == SESSION_PROOF && !AreTexts(m, OTA_TEXTS)))
      ensures done.Some? ==> View() == Spec.Proceed(env, old(View()), m, now)
    {
      hide Spec.OtaAnswered, Spec.DispatchRunning, Verify, VerifyThrows, AreTexts, ConsumeThrows;
      var kind :- Text(m, "type");
      if kind == SESSION_PROOF {
        var texts :- ReadTexts(m, OTA_TEXTS);
        AnswerOtaCheck(m, now);
        Establish();
        return Some(());
      }
      Spec.EnteredReady(env, dispatcher.View(), L.Running, now);
      Establish();
      done := DispatchRunning(m, now);
    }

    /** enter(Running) and on_ready. */
    method Establish()
      requires Valid()
      modifies outlet`state, dispatcher`sendingEnabled, this`ready
      ensures Valid() && View() == Spec.Established(old(View()))
    {
      Enter(L.Running);
      ready := ready + 1;
    }

    method AnswerOtaCheck(m: Json, now: int)
      requires Valid()
      modifies outlet
      ensures Valid() && dispatcher.View() == Spec.OtaAnswered(env, old(dispatcher.View()), m, now)
    {
      var sent: bool;
      match env.ota(m) {
        case Some(offer) => sent := outlet.SendMessage("ota_available", offer, m.StringAt("msg_id"), now);
        case None => sent := outlet.SendMessage("ota_none", Obj([]), m.StringAt("msg_id"), now);
      }
    }

    method DispatchRunning(m: Json, now: int) returns (done: Option<()>)
      requires Ready(now) && m.Obj?
      modifies this, outlet, dispatcher, replay
      ensures Valid() && (done.None? <==> RunningThrows(env, old(View()), m))
      ensures done.Some? ==> View() == Spec.DispatchRunning(env, old(View()), m, now)
    {
      hide Spec.Consumed, Verify, VerifyThrows, ConsumeThrows;
      var kind :- Text(m, "type");
      if m.Member("auth").Some? {
        var verdict :- Judge(m);
        if verdict != Accepted {
          Warn(m);
          return Some(());
        }
        var newer := replay.Check(AuthSeq(m));
        if !newer {
          Warn(m);
          return Some(());
        }
        accepted := accepted + [AuthSeq(m)];
      }
      done := Consume(m, now);
    }

    method Consume(m: Json, now: int) returns (done: Option<()>)
      requires Ready(now) && IsText(m, "type")
      modifies this, outlet, dispatcher
      ensures Valid() && (done.None? <==> ConsumeThrows(old(View()).core, m))
      ensures done.Some? ==> View() == Spec.Consumed(env, old(View()), m, now)
    {
      hide CallbackThrows, Replies.OnMessage, Spec.NoticesOf, ReplyThrows;
      var id :- Text(m, "in_reply_to");
      ghost var before := dispatcher.View();
      Replies.EmptyIdIsNotPending(env, before, now);
      var called := Addressed(m);
      var consumed := dispatcher.OnMessage(m, now);
      if consumed {
        var all :- ReadReplies(called, m);
      } else {
        var argument :- CallbackArgument(m);
      }
      notices := notices + Spec.NoticesOf(before, m, consumed);
      return Some(());
    }

    /** The handlers that the message is a success for. */
    method Addressed(m: Json) returns (tickets: seq<Ticket>)
      ensures tickets == if Spec.Expected(dispatcher.View(), m) then Find(dispatcher.pending, m.StringAt("in_reply_to")).value.tickets else []
    {
      var open := Find(dispatcher.pending, m.StringAt("in_reply_to"));
      if open.Some? && ResponseAllowed(open.value.kind, m.StringAt("type")) {
        return open.value.tickets;
      }
      return [];
    }

    /** Each of them reads what it needs of the reply. */
    method ReadReplies(tickets: seq<Ticket>, m: Json) returns (all: Option<()>)
      ensures all.None? <==> HandlersThrow(tickets, m)
    {
      for i := 0 to |tickets|
        invariant forall k :: 0 <= k < i ==> !ReplyThrows(tickets[k].handler.reader, m)
      {
        var one :- ReadReply(tickets[i].handler.reader, m);
      }
      return Some(());
    }

    method ReadReply(reader: Reader, m: Json) returns (one: Option<()>)
      ensures one.None? <==> ReplyThrows(reader, m)
    {
      match reader {
        case Anything =>
        case DatapointReader =>
        case StatusReader => var status :- Text(m, "status");
        case BatchReader => var batch :- BuildBatch(m, digits => 0);
        case AckReader => if !IsFlag(m, "ok") { return None; }
      }
      return Some(());
    }

    /** The texts of the callback's argument, which is made before the callback is called. */
    method CallbackArgument(m: Json) returns (texts: Option<seq<string>>)
      ensures texts.None? <==> CallbackThrows(m)
    {
      hide AreTexts;
      var kind := m.StringAt("type");
      if kind == "heartbeat" && !(IsNumber(m, "uptime_s") && IsFlag(m, "fault_active")) {
        return None;
      }
      if kind == "ota_status" && !(IsNumber(m, "attempt") && IsNumber(m, "progress_pct")) {
        return None;
      }
      texts := ReadTexts(m, CallbackTexts(kind));
    }
  }
}
