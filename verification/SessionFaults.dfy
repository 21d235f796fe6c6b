/**
 The frames on which on_text throws, in the session itself or in the handler of the reply that
 a frame is. Nothing between on_text and io.run() catches that (src/client.cpp:118-121).
 */
module SessionFaults {
  import opened Wrappers
  import opened OrderedMap
  import opened JsonValues
  import opened JsonReading
  import opened Messages
  import opened Auth
  import opened DispatcherState
  import opened SessionState
  import opened Logs

  // ---------------------------------------------------------------- the frames that throw

  /** verify reads the MAC only when the key id and the number are in order. */
  predicate VerifyThrows(m: Json, ctx: AuthContext) {
    match m.Member("auth")
    case None => false
    case Some(auth) =>
      && auth.Obj?
      && (!IsText(auth, "kid")
          || (auth.StringAt("kid") == ctx.kid && IntegerOf(auth.Member("seq")).Some? && !IsText(auth, "mac")))
  }

  lemma AcceptedIsSigned(c: Crypto, m: Json, ctx: AuthContext)
    requires m.Obj?
    ensures Verify(c, m, ctx, C2s) == Accepted ==> m.Member("auth").Some?
  {
  }

  const HELLO_TEXTS: seq<string> := ["device_id", "serial", "fw_version", "hw_rev", "boot_reason", "client_nonce", "msg_id"]

  predicate HelloThrows(m: Json) {
    || !IsText(m, "type")
    || (m.StringAt("type") == "hello" && !(AreTexts(m, HELLO_TEXTS) && IsNumber(m, "protocol_version")))
  }

  const OTA_TEXTS: seq<string> := ["current_version", "hw_rev", "msg_id"]

  predicate ProofThrows(e: Env, s: Session, m: Json)
    requires m.Obj?
  {
    || VerifyThrows(m, s.core.link.auth)
    || (&& Verify(e.crypto, m, s.core.link.auth, C2s) == Accepted && AuthSeq(m) > s.replay
        && (!IsText(m, "type") || (m.StringAt("type") == SESSION_PROOF && !AreTexts(m, OTA_TEXTS))))
  }

  /** The texts that a callback's argument is made from. */
  function CallbackTexts(kind: string): seq<string> {
    match kind
    case "heartbeat" => ["fw_version"]
    case "device_alert" => ["code", "severity", "datapoint", "detail"]
    case "ota_status" => ["target_version", "state", "error", "error_detail"]
    case "error_report" => ["status"]
    case _ => []
  }

  predicate CallbackThrows(m: Json) {
    var kind := m.StringAt("type");
    || !AreTexts(m, CallbackTexts(kind))
    || (kind == "heartbeat" && !(IsNumber(m, "uptime_s") && IsFlag(m, "fault_active")))
    || (kind == "ota_status" && !(IsNumber(m, "attempt") && IsNumber(m, "progress_pct")))
  }

  /** The type is read before anything is verified; the rest only of a frame that is not dropped. */
  predicate RunningThrows(e: Env, s: Session, m: Json)
    requires m.Obj?
  {
    || !IsText(m, "type")
    || (m.Member("auth").Some? && VerifyThrows(m, s.core.link.auth))
    || (Admitted(e, s, m) && ConsumeThrows(s.core, m))
  }

  /** What names a request reaches no callback; the reply to an open one goes to its handlers. */
  predicate ConsumeThrows(c: Core, m: Json) {
    || !IsText(m, "in_reply_to")
    || (m.StringAt("in_reply_to") == "" && CallbackThrows(m))
    || (Expected(c, m) && HandlersThrow(Find(c.pending, m.StringAt("in_reply_to")).value.tickets, m))
  }

  predicate HandlersThrow(tickets: seq<Ticket>, m: Json) {
    exists i :: 0 <= i < |tickets| && ReplyThrows(tickets[i].handler.reader, m)
  }

  /** The handlers that the services make (src/commands.cpp:54, src/datapoints/manager.cpp:176-180 and 240, src/logs.cpp:12-37 and 99). */
  predicate ReplyThrows(reader: Reader, m: Json) {
    match reader
    case Anything => false
    case DatapointReader => false
    case StatusReader => !IsText(m, "status")
    case BatchReader => BatchThrows(m)
    case AckReader => !IsFlag(m, "ok")
  }

  predicate Throws(e: Env, s: Session, message: Option<Json>)
    requires message.Some? ==> message.value.Obj?
  {
    match message
    case None => false
    case Some(m) =>
      match s.core.link.state
      case AwaitHello => HelloThrows(m)
      case AwaitProof => ProofThrows(e, s, m)
      case Running => RunningThrows(e, s, m)
      case Closed => false
  }

  // ---------------------------------------------------------------- what this means

  /** {"type": 5} throws wherever no signature is asked for first. */
  lemma TypeFiveThrows(e: Env, s: Session)
    ensures var m := Obj([("type", Int(5))]);
            Throws(e, s, Some(m)) <==> s.core.link.state.AwaitHello? || s.core.link.state.Running?
  {
    var m := Obj([("type", Int(5))]);
    assert m.Member("type") == Some(Int(5));
    assert Find(m.members[1..], "auth") == None;
    assert m.Member("auth") == None;
  }

  /** The reply to an open request, unsigned, on which one of its handlers throws. */
  lemma ReplyFault(e: Env, s: Session, id: string, m: Json, i: nat)
    requires s.core.link.state.Running? && Has(s.core.pending, id) && m.Obj? && m.StringAt("in_reply_to") == id
    requires var p := Find(s.core.pending, id).value;
             && ResponseAllowed(p.kind, m.StringAt("type"))
             && i < |p.tickets| && ReplyThrows(p.tickets[i].handler.reader, m)
    requires m.Member("auth").None?
    ensures Throws(e, s, Some(m))
  {
    hide Find, ReplyThrows, ResponseAllowed;
  }

  /** The input: the status of a command's result is a number. */
  function BadStatus(id: string): Json {
    Obj([("in_reply_to", Str(id)), ("status", Int(5)), ("type", Str("command_result"))])
  }

  lemma BadStatusThrows(e: Env, s: Session, id: string, i: nat)
    requires s.core.link.state.Running? && Has(s.core.pending, id)
    requires var p := Find(s.core.pending, id).value;
             p.kind == "command" && i < |p.tickets| && p.tickets[i].handler.reader == StatusReader
    ensures Throws(e, s, Some(BadStatus(id)))
  {
    ThreeMembers("in_reply_to", Str(id), "status", Int(5), "type", Str("command_result"));
    hide Find;
    ReplyFault(e, s, id, BadStatus(id), i);
  }

  /** The input: the boot id of a batch of log records is a text. */
  function BadBatch(id: string): Json {
    Obj([("boot_id", Str("x")), ("in_reply_to", Str(id)), ("type", Str("log_batch"))])
  }

  lemma BadBatchThrows(e: Env, s: Session, id: string, i: nat)
    requires s.core.link.state.Running? && Has(s.core.pending, id)
    requires var p := Find(s.core.pending, id).value;
             p.kind == "log_read" && i < |p.tickets| && p.tickets[i].handler.reader == BatchReader
    ensures Throws(e, s, Some(BadBatch(id)))
  {
    ThreeMembers("boot_id", Str("x"), "in_reply_to", Str(id), "type", Str("log_batch"));
    hide Find;
    ReplyFault(e, s, id, BadBatch(id), i);
  }

  lemma ThreeMembers(k0: string, v0: Json, k1: string, v1: Json, k2: string, v2: Json)
    requires k0 != k1 && k0 != k2 && k1 != k2
    ensures var o := Obj([(k0, v0), (k1, v1), (k2, v2)]);
            && o.Member(k0) == Some(v0) && o.Member(k1) == Some(v1) && o.Member(k2) == Some(v2)
            && forall k :: k != k0 && k != k1 && k != k2 ==> o.Member(k) == None
  {
    var ms := [(k0, v0), (k1, v1), (k2, v2)];
    assert ms[1..] == [(k1, v1), (k2, v2)] && ms[1..][1..] == [(k2, v2)] && ms[1..][1..][1..] == [];
    forall k ensures Find(ms, k) == if k == k0 then Some(v0) else if k == k1 then Some(v1) else if k == k2 then Some(v2) else None {
      assert Find(ms[1..][1..], k) == if k == k2 then Some(v2) else None;
      assert Find(ms[1..], k) == if k == k1 then Some(v1) else Find(ms[1..][1..], k);
    }
  }

  /** What a device signs is read without a fault. */
  lemma SignedIsReadable(c: Crypto, m: Json, ctx: AuthContext, n: int)
    requires m.Obj?
    ensures !VerifyThrows(Signed(c, m, ctx, n, C2s), ctx)
  {
    var mac := c.hmac(ctx.key, MacInput(c, m, ctx, C2s, ctx.kid, n));
    MemberAfterWith(m, "auth", AuthObject(ctx.kid, n, mac), "auth");
    var ms := AuthObject(ctx.kid, n, mac).members;
    assert Find(ms, "kid") == Some(Str(ctx.kid));
    assert Find(ms[1..], "mac") == Some(Str(mac)) && Find(ms, "mac") == Find(ms[1..], "mac");
  }

  const TEXTS: seq<string> := HELLO_TEXTS + OTA_TEXTS + ["type", "in_reply_to", "code", "severity", "datapoint", "detail",
                              "target_version", "state", "error", "error_detail", "status"]

  /** Every member that on_text, or a handler of the services, reads has the type it is read as. */
  predicate WellTyped(m: Json) {
    && AreTexts(m, TEXTS) && IsFlag(m, "fault_active") && IsFlag(m, "ok") && !BatchThrows(m)
    && IsNumber(m, "protocol_version") && IsNumber(m, "uptime_s") && IsNumber(m, "attempt") && IsNumber(m, "progress_pct")
    && match m.Member("auth")
       case Some(auth) => IsText(auth, "kid") && IsText(auth, "mac")
       case None => true
  }

  lemma SomeTexts(m: Json, keys: seq<string>)
    requires AreTexts(m, TEXTS) && (forall i :: 0 <= i < |keys| ==> keys[i] in TEXTS)
    ensures AreTexts(m, keys)
  {
  }

  /** Such a frame throws in no state. */
  lemma WellTypedNeverThrows(e: Env, s: Session, m: Json)
    requires m.Obj? && WellTyped(m)
    ensures !Throws(e, s, Some(m))
  {
    hide BatchThrows;
    var kind := m.StringAt("type");
    SomeTexts(m, HELLO_TEXTS);
    SomeTexts(m, OTA_TEXTS);
    SomeTexts(m, ["type", "in_reply_to", "status"]);
    var own := ["type", "in_reply_to", "status"];
    assert IsText(m, own[0]) && IsText(m, own[1]) && IsText(m, own[2]);
    SomeTexts(m, CallbackTexts(kind));
  }
}
