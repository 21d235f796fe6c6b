/**
 The sending half of the session as an object: the fields that encode_and_send,
 send_message and transmit update in place (src/protocol/session.cpp:136-198). The session
 and its dispatcher share it; it stands for the callback the session gives the dispatcher.
 */
module OutletObject {
  import opened Wrappers
  import opened Errors
  import opened JsonValues
  import opened Messages
  import opened Auth
  import L = Link

  class Outlet {
    const env: L.Env
    var state: L.SessionState
    var auth: AuthContext
    var s2cSeq: nat
    var msgSeq: nat
    var lastTx: int
    var attempts: nat
    var wire: seq<L.Frame>

    constructor (env: L.Env)
      ensures this.env == env
      ensures View() == L.Link(L.Closed, AuthContext([], "", "", "", ""), 0, 0, 0, 0, [])
    {
      this.env := env;
      state := L.Closed;
      auth := AuthContext([], "", "", "", "");
      s2cSeq, msgSeq, lastTx, attempts := 0, 0, 0, 0;
      wire := [];
    }

    ghost function View(): L.Link
      reads this
    {
      L.Link(state, auth, s2cSeq, msgSeq, lastTx, attempts, wire)
    }

    method NextMsgId() returns (id: string)
      modifies this`msgSeq
      ensures msgSeq == old(msgSeq) + 1 && id == L.MsgId(msgSeq)
    {
      msgSeq := msgSeq + 1;
      id := L.MsgId(msgSeq);
    }

    method Authenticate(kind: string, msg: Json) returns (signed: Json, control: Option<int>)
      requires FindMeta(kind).Some? && msg.Obj?
      modifies this`s2cSeq
      ensures (View(), signed, control) == L.Authenticate(env, old(View()), kind, msg)
    {
      signed, control := msg, None;
      if FindMeta(kind).value.auth.ControlAuth? {
        s2cSeq := s2cSeq + 1;
        signed := Signed(env.crypto, msg, auth, s2cSeq, S2c);
        control := Some(s2cSeq);
      }
    }

    method Transmit(msg: Json, control: Option<int>, now: int) returns (ok: bool)
      modifies this
      ensures (View(), ok) == L.Transmit(env, old(View()), msg, control, now)
    {
      ok := env.transport(attempts);
      attempts := attempts + 1;
      if ok {
        wire := wire + [L.Frame(msg, now, control)];
        lastTx := now;
      }
    }

    method SendMessage(kind: string, body: Json, inReplyTo: string, now: int) returns (ok: bool)
      requires FindMeta(kind).Some?
      modifies this
      ensures (View(), ok) == L.SendMessage(env, old(View()), kind, body, inReplyTo, now)
    {
      var msg := L.BuildMessage(kind, body, "", inReplyTo, env.wallClock(now));
      var signed, control := Authenticate(kind, msg);
      ok := Transmit(signed, control, now);
    }

    method EncodeAndSend(spec: L.RequestSpec, now: int) returns (r: Result<string, Error>)
      modifies this
      ensures (View(), r) == L.EncodeAndSend(env, old(View()), spec, now)
    {
      if state != L.Running {
        return Failure(Error(Disconnected, NotConnected));
      }
      if FindMeta(spec.kind).None? {
        return Failure(Error(Protocol, UnexpectedMessage));
      }
      var id := NextMsgId();
      var msg := L.BuildMessage(spec.kind, spec.body, id, "", env.wallClock(now));
      var encoded, control := Authenticate(spec.kind, msg);
      if env.frameSize(encoded) > MAX_CONTROL_FRAME_BYTES {
        return Failure(Error(Protocol, FrameTooLarge));
      }
      var ok := Transmit(encoded, control, now);
      if !ok {
        return Failure(Error(Disconnected, TransportClosed));
      }
      r := Success(id);
    }
  }
}
