/**
 Message authentication (src/protocol/auth.cpp, include/fountainer/protocol/auth.hpp).
 HMAC and SHA-256 are parameters: every result holds for all functions of their types.
 */
module Auth {
  import opened Wrappers
  import opened OrderedMap
  import opened JsonValues
  import opened Numerals
  import opened CanonicalJson
  import opened CanonicalParser
  import opened Messages
  import KeyDecoding

  type Byte = b: nat | b < 256

  /** hmac gives the printed MAC: base64 of the first 128 bits of HMAC-SHA256. */
  datatype Crypto = Crypto(hmac: (seq<Byte>, string) -> string, sha256: string -> seq<Byte>)

  datatype AuthContext = AuthContext(key: seq<Byte>, kid: string, deviceId: string,
                                     serverNonce: string, clientNonce: string)

  const UNIT_SEPARATOR: char := 0x1F as char

  const ENVELOPE: seq<string> := ["v", "type", "serial", "ts", "msg_id", "in_reply_to", "auth"]

  /** An envelope field as text; missing and null are empty. Both integer types go through int64. */
  function FieldString(msg: Json, key: string): string {
    match msg.Member(key)
    case None => ""
    case Some(Null) => ""
    case Some(Str(s)) => s
    case Some(Int(i)) => IntToString(i)
    case Some(Uint(n)) => IntToString(ToInt64(n))
    case Some(other) => Canonical(other)
  }

  function WithoutEnvelope(ms: Entries<Json>): Entries<Json> {
    if ms == [] then []
    else (if ms[0].0 in ENVELOPE then [] else [ms[0]]) + WithoutEnvelope(ms[1..])
  }

  function CanonicalBody(msg: Json): Json
    requires msg.Obj?
  {
    Obj(WithoutEnvelope(msg.members))
  }

  function BodyHashHex(c: Crypto, msg: Json): string
    requires msg.Obj?
  {
    KeyDecoding.HexEncode(c.sha256(Canonical(CanonicalBody(msg))))
  }

  function DirectionName(d: Direction): string { if d.C2s? then "c2s" else "s2c" }

  /** The 13 fields in the order of the contract. */
  function MacFields(c: Crypto, msg: Json, ctx: AuthContext, dir: Direction, kid: string, s: int): (fields: seq<string>)
    requires msg.Obj?
    ensures |fields| == 13
  {
    [FieldString(msg, "v"), FieldString(msg, "type"), DirectionName(dir), ctx.deviceId,
     FieldString(msg, "serial"), FieldString(msg, "ts"), FieldString(msg, "msg_id"),
     FieldString(msg, "in_reply_to"), kid, IntToString(s), ctx.serverNonce, ctx.clientNonce,
     BodyHashHex(c, msg)]
  }

  function Join(fields: seq<string>): string {
    if fields == [] then ""
    else if |fields| == 1 then fields[0]
    else fields[0] + [UNIT_SEPARATOR] + Join(fields[1..])
  }

  function MacInput(c: Crypto, msg: Json, ctx: AuthContext, dir: Direction, kid: string, s: int): string
    requires msg.Obj?
  {
    Join(MacFields(c, msg, ctx, dir, kid, s))
  }

  function AuthObject(kid: string, s: int, mac: string): Json {
    Obj([("kid", Str(kid)), ("mac", Str(mac)), ("seq", Int(s))])
  }

  /** The message after sign(). */
  function Signed(c: Crypto, msg: Json, ctx: AuthContext, s: int, dir: Direction): Json
    requires msg.Obj?
  {
    msg.With("auth", AuthObject(ctx.kid, s, c.hmac(ctx.key, MacInput(c, msg, ctx, dir, ctx.kid, s))))
  }

  datatype Verdict = Accepted | MissingAuth | KidMismatch | BadSeq | MacMismatch

  function IntegerOf(j: Option<Json>): Option<int> {
    match j
    case Some(Int(i)) => Some(i)
    case Some(Uint(n)) => Some(ToInt64(n))
    case _ => None
  }

  /** message["auth"].value("seq", 0). */
  function AuthSeq(msg: Json): int {
    match msg.Member("auth")
    case None => 0
    case Some(auth) => IntegerOf(auth.Member("seq")).GetOr(0)
  }

  function Verify(c: Crypto, msg: Json, ctx: AuthContext, dir: Direction): Verdict
    requires msg.Obj?
  {
    match msg.Member("auth")
    case None => MissingAuth
    case Some(auth) =>
      if !auth.Obj? then MissingAuth
      else if auth.StringAt("kid") != ctx.kid then KidMismatch
      else
        match IntegerOf(auth.Member("seq"))
        case None => BadSeq
        case Some(s) =>
          if auth.StringAt("mac") == c.hmac(ctx.key, MacInput(c, msg, ctx, dir, ctx.kid, s))
          then Accepted else MacMismatch
  }

  // ---------------------------------------------------------------- verify inverts sign

  lemma {:induction false} AuthIsNoBody(ms: Entries<Json>, auth: Json)
    ensures WithoutEnvelope(Put(ms, "auth", auth)) == WithoutEnvelope(ms)
  {
    var put := Put(ms, "auth", auth);
    if ms == [] || Less("auth", ms[0].0) {
      assert put[1..] == ms;
    } else if ms[0].0 == "auth" {
      assert put[1..] == ms[1..];
    } else {
      assert put[1..] == Put(ms[1..], "auth", auth);
      AuthIsNoBody(ms[1..], auth);
    }
  }

  /** The signature is not part of what is signed. */
  lemma MacInputIgnoresAuth(c: Crypto, msg: Json, auth: Json, ctx: AuthContext, dir: Direction, kid: string, s: int)
    requires msg.Obj?
    ensures MacInput(c, msg.With("auth", auth), ctx, dir, kid, s) == MacInput(c, msg, ctx, dir, kid, s)
  {
    AuthIsNoBody(msg.members, auth);
    MemberAfterWith(msg, "auth", auth, "v");
    MemberAfterWith(msg, "auth", auth, "type");
    MemberAfterWith(msg, "auth", auth, "serial");
    MemberAfterWith(msg, "auth", auth, "ts");
    MemberAfterWith(msg, "auth", auth, "msg_id");
    MemberAfterWith(msg, "auth", auth, "in_reply_to");
  }

  lemma AuthObjectMembers(kid: string, s: int, mac: string)
    ensures AuthObject(kid, s, mac).StringAt("kid") == kid
    ensures AuthObject(kid, s, mac).StringAt("mac") == mac
    ensures AuthObject(kid, s, mac).Member("seq") == Some(Int(s))
  {
    var ms := AuthObject(kid, s, mac).members;
    assert Find(ms[1..], "mac") == Some(Str(mac));
    assert Find(ms[1..][1..], "seq") == Some(Int(s));
    assert Find(ms[1..], "seq") == Find(ms[1..][1..], "seq");
  }

  /** A message signed again and again still verifies: sign replaces any earlier signature. */
  lemma VerifyAcceptsSigned(c: Crypto, msg: Json, ctx: AuthContext, s: int, dir: Direction)
    requires msg.Obj?
    ensures Verify(c, Signed(c, msg, ctx, s, dir), ctx, dir) == Accepted
    ensures AuthSeq(Signed(c, msg, ctx, s, dir)) == s
  {
    var mac := c.hmac(ctx.key, MacInput(c, msg, ctx, dir, ctx.kid, s));
    var auth := AuthObject(ctx.kid, s, mac);
    MemberAfterWith(msg, "auth", auth, "auth");
    AuthObjectMembers(ctx.kid, s, mac);
    MacInputIgnoresAuth(c, msg, auth, ctx, dir, ctx.kid, s);
  }

  // ---------------------------------------------------------------- what the MAC input binds

  predicate Lacks(s: string, c: char) { forall i :: 0 <= i < |s| ==> s[i] != c }

  lemma SplitAtSeparator(a: string, b: string, x: string, y: string)
    requires Lacks(a, UNIT_SEPARATOR) && Lacks(b, UNIT_SEPARATOR)
    requires a + [UNIT_SEPARATOR] + x == b + [UNIT_SEPARATOR] + y
    ensures a == b && x == y
  {
    var l, r := a + [UNIT_SEPARATOR] + x, b + [UNIT_SEPARATOR] + y;
    assert l[|a|] == UNIT_SEPARATOR && r[|b|] == UNIT_SEPARATOR;
    assert forall i :: 0 <= i < |a| ==> l[i] == a[i];
    assert forall i :: 0 <= i < |b| ==> r[i] == b[i];
    assert a == l[..|a|] && b == r[..|b|];
    assert x == l[|a| + 1..] && y == r[|b| + 1..];
  }

  lemma {:induction false} JoinIsInjective(a: seq<string>, b: seq<string>)
    requires |a| == |b| > 0
    requires forall i :: 0 <= i < |a| ==> Lacks(a[i], UNIT_SEPARATOR) && Lacks(b[i], UNIT_SEPARATOR)
    requires Join(a) == Join(b)
    ensures a == b
  {
    if |a| > 1 {
      SplitAtSeparator(a[0], b[0], Join(a[1..]), Join(b[1..]));
      JoinIsInjective(a[1..], b[1..]);
    }
    assert a == [a[0]] + a[1..] && b == [b[0]] + b[1..];
  }

  /** None of the fields that can hold arbitrary text contains the separator. */
  predicate SeparatorFree(msg: Json, ctx: AuthContext, kid: string) {
    && Lacks(FieldString(msg, "v"), UNIT_SEPARATOR)
    && Lacks(FieldString(msg, "type"), UNIT_SEPARATOR)
    && Lacks(FieldString(msg, "serial"), UNIT_SEPARATOR)
    && Lacks(FieldString(msg, "ts"), UNIT_SEPARATOR)
    && Lacks(FieldString(msg, "msg_id"), UNIT_SEPARATOR)
    && Lacks(FieldString(msg, "in_reply_to"), UNIT_SEPARATOR)
    && Lacks(ctx.deviceId, UNIT_SEPARATOR)
    && Lacks(ctx.serverNonce, UNIT_SEPARATOR)
    && Lacks(ctx.clientNonce, UNIT_SEPARATOR)
    && Lacks(kid, UNIT_SEPARATOR)
  }

  lemma {:induction false} HexLacksSeparator(key: seq<nat>)
    requires KeyDecoding.AreBytes(key)
    ensures Lacks(KeyDecoding.HexEncode(key), UNIT_SEPARATOR)
  {
    if key != [] {
      HexLacksSeparator(key[..|key| - 1]);
    }
  }

  lemma FieldsLackSeparator(c: Crypto, msg: Json, ctx: AuthContext, dir: Direction, kid: string, s: int)
    requires msg.Obj? && SeparatorFree(msg, ctx, kid)
    ensures forall i :: 0 <= i < 13 ==> Lacks(MacFields(c, msg, ctx, dir, kid, s)[i], UNIT_SEPARATOR)
  {
    HexLacksSeparator(c.sha256(Canonical(CanonicalBody(msg))));
  }

  /**
   Equal MAC inputs come from equal field lists and, where the hash does not collide on the
   two bodies, from equal bodies up to the number types that print alike.
   */
  lemma MacInputBinds(c: Crypto, m1: Json, m2: Json, ctx1: AuthContext, ctx2: AuthContext,
                      d1: Direction, d2: Direction, kid1: string, kid2: string, s1: int, s2: int)
    requires m1.Obj? && m2.Obj?
    requires SeparatorFree(m1, ctx1, kid1) && SeparatorFree(m2, ctx2, kid2)
    requires WellFormed(CanonicalBody(m1)) && WellFormed(CanonicalBody(m2))
    requires c.sha256(Canonical(CanonicalBody(m1))) == c.sha256(Canonical(CanonicalBody(m2))) ==>
             Canonical(CanonicalBody(m1)) == Canonical(CanonicalBody(m2))
    requires MacInput(c, m1, ctx1, d1, kid1, s1) == MacInput(c, m2, ctx2, d2, kid2, s2)
    ensures MacFields(c, m1, ctx1, d1, kid1, s1) == MacFields(c, m2, ctx2, d2, kid2, s2)
    ensures d1 == d2 && s1 == s2 && kid1 == kid2
    ensures Merged(CanonicalBody(m1)) == Merged(CanonicalBody(m2))
  {
    var f1, f2 := MacFields(c, m1, ctx1, d1, kid1, s1), MacFields(c, m2, ctx2, d2, kid2, s2);
    FieldsLackSeparator(c, m1, ctx1, d1, kid1, s1);
    FieldsLackSeparator(c, m2, ctx2, d2, kid2, s2);
    JoinIsInjective(f1, f2);
    assert f1[2] == f2[2] && f1[8] == f2[8] && f1[9] == f2[9] && f1[12] == f2[12];
    IntToStringInjective(s1, s2);
    KeyDecoding.HexEncodeInjective(c.sha256(Canonical(CanonicalBody(m1))), c.sha256(Canonical(CanonicalBody(m2))));
    CanonicalIsInjective(CanonicalBody(m1), CanonicalBody(m2));
  }
}
