/**
 The sending half of ControllerSession (src/protocol/session.cpp:136-198): message ids,
 sequence numbers, signing, the frame limit and the transport, on values.
 */
module Link {
  import opened Wrappers
  import opened Errors
  import opened OrderedMap
  import opened JsonValues
  import opened Numerals
  import opened Messages
  import opened Auth

  datatype SessionState = Closed | AwaitHello | AwaitProof | Running

  /** Smaller rank = more important. */
  datatype OperationPriority = SafetyControl | InteractiveControl | InteractiveRead | LogTransfer
                             | Polling | Background
  {
    function Rank(): nat {
      match this
      case SafetyControl => 0
      case InteractiveControl => 1
      case InteractiveRead => 2
      case LogTransfer => 3
      case Polling => 4
      case Background => 5
    }
  }

  datatype RequestSpec = RequestSpec(kind: string, body: Json, timeout: Option<int>,
                                     priority: OperationPriority, coalesceKey: string)

  /** Tokens refill at `rate` per second up to `burst`. */
  datatype RateBudget = RateBudget(rate: real, burst: real, maxInFlight: nat)

  /**
   Configuration and surroundings of one session. transport(n) is the result of the n-th
   attempt to hand a frame over; frameSize is the length of the encoded message; wallClock
   gives the time stamp of a message. Times are milliseconds of the steady clock.
   */
  datatype Env = Env(crypto: Crypto, budget: RateBudget, defaultTimeout: int, handshakeTimeout: int,
                     kid: string, expectedDevice: string, hasCredentials: bool,
                     resolve: (string, string) -> Result<seq<Byte>, Error>,
                     ota: Json -> Option<Json>,
                     transport: nat -> bool, frameSize: Json -> nat, wallClock: int -> int)

  /** A frame handed to the transport; control holds the sequence number it was signed with. */
  datatype Frame = Frame(message: Json, at: int, control: Option<int>)

  datatype Link = Link(state: SessionState, auth: AuthContext, s2cSeq: nat, msgSeq: nat, lastTx: int,
                       attempts: nat, wire: seq<Frame>)

  // ---------------------------------------------------------------- messages

  /** next_msg_id: "s-" and a counter. */
  function MsgId(k: nat): string { "s-" + IntToString(k) }

  lemma MsgIdInjective(j: nat, k: nat)
    requires MsgId(j) == MsgId(k)
    ensures j == k
  {
    assert MsgId(j)[2..] == IntToString(j) && MsgId(k)[2..] == IntToString(k);
    IntToStringInjective(j, k);
  }

  function Overlay(ms: Entries<Json>, body: Entries<Json>): Entries<Json>
    decreases |body|
  {
    if body == [] then ms else Overlay(Put(ms, body[0].0, body[0].1), body[1..])
  }

  /** build_message: the envelope, then every member of the body on top of it. */
  function BuildMessage(kind: string, body: Json, msgId: string, inReplyTo: string, ts: int): (msg: Json)
    requires FindMeta(kind).Some?
    ensures msg.Obj?
  {
    var base := Obj([("ts", Int(ts)), ("type", Str(kind)), ("v", Int(FindMeta(kind).value.wire))]);
    var withId := if msgId == "" then base else base.With("msg_id", Str(msgId));
    var withReply := if inReplyTo == "" then withId else withId.With("in_reply_to", Str(inReplyTo));
    if body.Obj? then Obj(Overlay(withReply.members, body.members)) else withReply
  }

  /** Sign a control message with the next sequence number, leave any other as it is. */
  function Authenticate(e: Env, l: Link, kind: string, msg: Json): (r: (Link, Json, Option<int>))
    requires FindMeta(kind).Some? && msg.Obj?
    ensures r.1.Obj?
  {
    if FindMeta(kind).value.auth.ControlAuth? then
      var n := l.s2cSeq + 1;
      (l.(s2cSeq := n), Signed(e.crypto, msg, l.auth, n, S2c), Some(n))
    else (l, msg, None)
  }

  function Transmit(e: Env, l: Link, msg: Json, control: Option<int>, now: int): (r: (Link, bool))
    ensures r.1 <==> e.transport(l.attempts)
  {
    var l1 := l.(attempts := l.attempts + 1);
    if e.transport(l.attempts) then (l1.(lastTx := now, wire := l.wire + [Frame(msg, now, control)]), true)
    else (l1, false)
  }

  /** send_message: no response expected, no frame limit. */
  function SendMessage(e: Env, l: Link, kind: string, body: Json, inReplyTo: string, now: int): (Link, bool)
    requires FindMeta(kind).Some?
  {
    var (l1, msg, control) := Authenticate(e, l, kind, BuildMessage(kind, body, "", inReplyTo, e.wallClock(now)));
    Transmit(e, l1, msg, control, now)
  }

  /** encode_and_send: the id of the request, or why it was not sent. */
  function EncodeAndSend(e: Env, l: Link, spec: RequestSpec, now: int): (r: (Link, Result<string, Error>))
    ensures r.0.state == l.state && r.0.auth == l.auth
    ensures l.msgSeq <= r.0.msgSeq
    ensures r.1.Success? ==> r.0.msgSeq == l.msgSeq + 1 && r.1.value == MsgId(r.0.msgSeq) && l.state.Running?
    ensures r.1.Success? ==> FindMeta(spec.kind).Some?
    ensures l.wire <= r.0.wire && |r.0.wire| == |l.wire| + (if r.1.Success? then 1 else 0)
    ensures r.0.lastTx == if r.1.Success? then now else l.lastTx
  {
    if !l.state.Running? then (l, Failure(Error(Disconnected, NotConnected)))
    else if FindMeta(spec.kind).None? then (l, Failure(Error(Protocol, UnexpectedMessage)))
    else
      var l1 := l.(msgSeq := l.msgSeq + 1);
      var id := MsgId(l1.msgSeq);
      var (l2, msg, control) :=
        Authenticate(e, l1, spec.kind, BuildMessage(spec.kind, spec.body, id, "", e.wallClock(now)));
      if e.frameSize(msg) > MAX_CONTROL_FRAME_BYTES then (l2, Failure(Error(Protocol, FrameTooLarge)))
      else
        var (l3, ok) := Transmit(e, l2, msg, control, now);
        if ok then (l3, Success(id)) else (l3, Failure(Error(Disconnected, TransportClosed)))
  }

  // ---------------------------------------------------------------- the signed stream

  /** A peer with this context accepts the frame's signature and reads its sequence number. */
  ghost predicate Verifies(c: Crypto, f: Frame, auth: AuthContext) {
    && f.message.Obj? && f.control.Some?
    && Verify(c, f.message, auth, S2c) == Accepted
    && AuthSeq(f.message) == f.control.value
  }

  /** From l to m only frames were added, the control frames among them signed with rising numbers. */
  ghost predicate Signs(c: Crypto, l: Link, m: Link) {
    && l.auth == m.auth && l.s2cSeq <= m.s2cSeq && l.wire <= m.wire
    && (forall i :: |l.wire| <= i < |m.wire| && m.wire[i].control.Some? ==>
          Verifies(c, m.wire[i], m.auth) && l.s2cSeq < m.wire[i].control.value <= m.s2cSeq)
    && (forall i, j :: |l.wire| <= i < j < |m.wire| && m.wire[i].control.Some? && m.wire[j].control.Some? ==>
          m.wire[i].control.value < m.wire[j].control.value)
  }

  lemma SignsTrans(c: Crypto, k: Link, l: Link, m: Link)
    requires Signs(c, k, l) && Signs(c, l, m)
    ensures Signs(c, k, m)
  {
    forall i | |k.wire| <= i < |m.wire| && m.wire[i].control.Some?
      ensures Verifies(c, m.wire[i], m.auth) && k.s2cSeq < m.wire[i].control.value <= m.s2cSeq
    {
      if i < |l.wire| { assert m.wire[i] == l.wire[i]; }
    }
    forall i, j | |k.wire| <= i < j < |m.wire| && m.wire[i].control.Some? && m.wire[j].control.Some?
      ensures m.wire[i].control.value < m.wire[j].control.value
    {
      if i < |l.wire| { assert m.wire[i] == l.wire[i]; }
      if j < |l.wire| { assert m.wire[j] == l.wire[j]; }
    }
  }

  /** One frame: what authenticate made and the transport took. */
  lemma TransmitSigns(e: Env, l: Link, kind: string, msg: Json, now: int)
    requires FindMeta(kind).Some? && msg.Obj?
    ensures var (l1, signed, control) := Authenticate(e, l, kind, msg);
            Signs(e.crypto, l, l1) && Signs(e.crypto, l, Transmit(e, l1, signed, control, now).0)
  {
    VerifyAcceptsSigned(e.crypto, msg, l.auth, l.s2cSeq + 1, S2c);
  }

  lemma SendMessageSigns(e: Env, l: Link, kind: string, body: Json, inReplyTo: string, now: int)
    requires FindMeta(kind).Some?
    ensures Signs(e.crypto, l, SendMessage(e, l, kind, body, inReplyTo, now).0)
  {
    TransmitSigns(e, l, kind, BuildMessage(kind, body, "", inReplyTo, e.wallClock(now)), now);
  }

  lemma EncodeAndSendSigns(e: Env, l: Link, spec: RequestSpec, now: int)
    ensures Signs(e.crypto, l, EncodeAndSend(e, l, spec, now).0)
  {
    if l.state.Running? && FindMeta(spec.kind).Some? {
      var l1 := l.(msgSeq := l.msgSeq + 1);
      TransmitSigns(e, l1, spec.kind, BuildMessage(spec.kind, spec.body, MsgId(l1.msgSeq), "", e.wallClock(now)), now);
    }
  }
}
