/**
 Signing as the source runs it: the loops of src/protocol/auth.cpp, sign() on a message in
 place, and the replay counter of include/fountainer/protocol/auth.hpp.
 */
module AuthMethods {
  import opened OrderedMap
  import opened JsonValues
  import opened Numerals
  import CanonicalWriter
  import opened Messages
  import opened Auth
  import KeyDecoding

  // ---------------------------------------------------------------- canonical_body

  lemma {:induction false} PutLast<V>(m: Entries<V>, k: string, v: V)
    requires forall i :: 0 <= i < |m| ==> Less(m[i].0, k)
    ensures Put(m, k, v) == m + [(k, v)]
  {
    if m != [] {
      LessIsTotal(m[0].0, k);
      PutLast(m[1..], k, v);
      assert m == [m[0]] + m[1..];
    }
  }

  lemma {:induction false} WithoutEnvelopeSnoc(ms: Entries<Json>, m: (string, Json))
    ensures WithoutEnvelope(ms + [m]) == WithoutEnvelope(ms) + (if m.0 in ENVELOPE then [] else [m])
  {
    if ms == [] {
      assert ms + [m] == [m];
    } else {
      assert (ms + [m])[1..] == ms[1..] + [m];
      WithoutEnvelopeSnoc(ms[1..], m);
    }
  }

  lemma {:induction false} WithoutEnvelopeIsPart(ms: Entries<Json>, k: string)
    requires forall i :: 0 <= i < |ms| ==> Less(ms[i].0, k)
    ensures forall i :: 0 <= i < |WithoutEnvelope(ms)| ==> Less(WithoutEnvelope(ms)[i].0, k)
  {
    if ms != [] {
      WithoutEnvelopeIsPart(ms[1..], k);
    }
  }

  lemma {:induction false} EarlierKeysAreLess<V>(m: Entries<V>, i: nat)
    requires Ascending(m) && i < |m|
    ensures forall j :: 0 <= j < i ==> Less(m[j].0, m[i].0)
  {
    if i > 0 {
      HeadIsLeast(m, i);
      EarlierKeysAreLess(m[1..], i - 1);
      forall j | 0 <= j < i ensures Less(m[j].0, m[i].0) {
        if j > 0 { assert m[j] == m[1..][j - 1]; }
      }
    }
  }

  /** Objects list their members in key order. */
  method BuildCanonicalBody(msg: Json) returns (body: Json)
    requires msg.Obj? && Ascending(msg.members)
    ensures body == CanonicalBody(msg)
  {
    body := Obj([]);
    for i := 0 to |msg.members|
      invariant body == Obj(WithoutEnvelope(msg.members[..i]))
    {
      var (key, value) := msg.members[i];
      assert msg.members[..i + 1] == msg.members[..i] + [msg.members[i]];
      WithoutEnvelopeSnoc(msg.members[..i], msg.members[i]);
      if key !in ENVELOPE {
        EarlierKeysAreLess(msg.members, i);
        WithoutEnvelopeIsPart(msg.members[..i], key);
        PutLast(body.members, key, value);
        body := body.With(key, value);
      }
    }
    assert msg.members[..|msg.members|] == msg.members;
  }

  // ---------------------------------------------------------------- mac_input, sign, verify

  lemma {:induction false} JoinSnoc(fields: seq<string>, f: string)
    ensures Join(fields + [f]) == if fields == [] then f else Join(fields) + [UNIT_SEPARATOR] + f
  {
    if |fields| == 0 {
      assert fields + [f] == [f];
    } else {
      assert (fields + [f])[1..] == fields[1..] + [f];
      JoinSnoc(fields[1..], f);
      if |fields| > 1 {
        assert fields[0] + [UNIT_SEPARATOR] + (Join(fields[1..]) + [UNIT_SEPARATOR] + f)
            == fields[0] + [UNIT_SEPARATOR] + Join(fields[1..]) + [UNIT_SEPARATOR] + f;
      }
    }
  }

  method HashBody(c: Crypto, msg: Json) returns (out: string)
    requires msg.Obj? && Ascending(msg.members)
    ensures out == BodyHashHex(c, msg)
  {
    var body := BuildCanonicalBody(msg);
    var canon := CanonicalWriter.CanonicalSerialize(body);
    var digest := c.sha256(canon);
    out := "";
    for i := 0 to |digest|
      invariant out == KeyDecoding.HexEncode(digest[..i])
    {
      assert digest[..i + 1][..i] == digest[..i];
      out := out + KeyDecoding.HexByte(digest[i]);
    }
    assert digest[..|digest|] == digest;
  }

  method BuildMacInput(c: Crypto, msg: Json, ctx: AuthContext, dir: Direction, kid: string, s: int) returns (raw: string)
    requires msg.Obj? && Ascending(msg.members)
    ensures raw == MacInput(c, msg, ctx, dir, kid, s)
  {
    var hash := HashBody(c, msg);
    var fields := [FieldString(msg, "v"), FieldString(msg, "type"), DirectionName(dir), ctx.deviceId,
                   FieldString(msg, "serial"), FieldString(msg, "ts"), FieldString(msg, "msg_id"),
                   FieldString(msg, "in_reply_to"), kid, IntToString(s), ctx.serverNonce, ctx.clientNonce, hash];
    raw := "";
    for i := 0 to 13
      invariant raw == Join(fields[..i])
    {
      assert fields[..i + 1] == fields[..i] + [fields[i]];
      JoinSnoc(fields[..i], fields[i]);
      if i > 0 {
        raw := raw + [UNIT_SEPARATOR];
      }
      raw := raw + fields[i];
    }
    assert fields[..13] == fields;
  }

  /** A message that is signed in place. */
  class Envelope {
    var message: Json

    constructor (message: Json)
      ensures this.message == message
    {
      this.message := message;
    }

    method Sign(c: Crypto, ctx: AuthContext, s: int, dir: Direction)
      requires message.Obj? && Ascending(message.members)
      modifies this
      ensures message == Signed(c, old(message), ctx, s, dir)
    {
      var raw := BuildMacInput(c, message, ctx, dir, ctx.kid, s);
      message := message.With("auth", AuthObject(ctx.kid, s, c.hmac(ctx.key, raw)));
    }
  }

  /** The sequence numbers of one direction of one connection. */
  class AntiReplay {
    var last: int

    constructor ()
      ensures last == 0
    {
      last := 0;
    }

    method Check(s: int) returns (newer: bool)
      modifies this
      ensures newer <==> s > old(last)
      ensures last == if newer then s else old(last)
    {
      if s <= last {
        return false;
      }
      last := s;
      return true;
    }

    /** A new connection starts anew. */
    method Reset()
      modifies this
      ensures last == 0
    {
      last := 0;
    }
  }
}
