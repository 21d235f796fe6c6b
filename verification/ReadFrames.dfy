/**
 What becomes of a poll: async_read refuses names outside the catalog (src/datapoints/manager.cpp:140-166);
 a hundred names of the catalog's length fit the device's frame limit.
 */
module ReadFrames {
  import opened Wrappers
  import opened OrderedMap
  import opened JsonValues
  import opened Numerals
  import opened CanonicalJson
  import opened Errors
  import opened Messages
  import opened Link
  import PollerState

  type PollRequest = PollerState.PollRequest

  // ---------------------------------------------------------------- what a poll becomes

  function NameList(names: seq<string>): seq<Json> {
    if names == [] then [] else [Str(names[0])] + NameList(names[1..])
  }

  /** async_read: the request for a poll, and for a keepalive. */
  function ReadSpec(r: PollRequest): RequestSpec {
    match r
    case Poll(names) => RequestSpec("dp_read", Obj([("names", Arr(NameList(names)))]), None, Polling, "")
    case KeepAlive => RequestSpec("dp_read", Obj([("names", Arr(NameList(["System_Uptime"])))]), None, Background, "keepalive")
  }

  /** The names a request asks for. */
  function Asks(r: PollRequest): seq<string> {
    match r
    case Poll(names) => names
    case KeepAlive => ["System_Uptime"]
  }

  // ---------------------------------------------------------------- the catalog

  /** All its names are in the catalog. */
  predicate Knows(known: string -> bool, r: PollRequest) { forall i :: 0 <= i < |Asks(r)| ==> known(Asks(r)[i]) }

  /** The requests that async_read submits; the others it completes with a failure at once. */
  function Submitted(asked: seq<PollRequest>, known: string -> bool): seq<PollRequest> {
    if asked == [] then []
    else (if Knows(known, asked[0]) then [asked[0]] else []) + Submitted(asked[1..], known)
  }

  lemma {:induction false} SubmittedIsPart(asked: seq<PollRequest>, known: string -> bool)
    ensures forall i :: 0 <= i < |Submitted(asked, known)| ==>
              Submitted(asked, known)[i] in asked && Knows(known, Submitted(asked, known)[i])
    ensures Submitted(asked, known) != [] <==> exists i :: 0 <= i < |asked| && Knows(known, asked[i])
    ensures |Submitted(asked, known)| <= |asked|
  {
    if asked != [] {
      SubmittedIsPart(asked[1..], known);
      if i :| 0 <= i < |asked| && Knows(known, asked[i]) {
        assert i > 0 ==> asked[1..][i - 1] == asked[i];
      }
      if Submitted(asked[1..], known) != [] {
        var i :| 0 <= i < |asked[1..]| && Knows(known, asked[1..][i]);
        assert Knows(known, asked[i + 1]);
      }
    }
  }

  /** async_read up to its submission: the loop over the names, and what the request is made of. */
  method AsyncRead(r: PollRequest, known: string -> bool) returns (spec: Result<RequestSpec, Error>)
    ensures spec.Success? <==> Asks(r) != [] && Knows(known, r)
    ensures spec.Success? ==> spec.value == ReadSpec(r)
    ensures spec.Failure? ==> spec.error == Error(Validation, if Asks(r) == [] then EmptySelection else UnknownDatapoint)
  {
    var names := Asks(r);
    if names == [] {
      return Failure(Error(Validation, EmptySelection));
    }
    for i := 0 to |names|
      invariant forall k :: 0 <= k < i ==> known(names[k])
    {
      if !known(names[i]) {
        return Failure(Error(Validation, UnknownDatapoint));
      }
    }
    return Success(ReadSpec(r));
  }

  // ---------------------------------------------------------------- lengths

  function Pow10(d: nat): nat { if d == 0 then 1 else 10 * Pow10(d - 1) }

  lemma {:induction false} NatLength(n: nat, d: nat)
    requires d > 0 && n < Pow10(d)
    ensures |NatToString(n)| <= d
  {
    if n >= 10 {
      assert d > 1 by { assert Pow10(1) == 10; }
      NatLength(n / 10, d - 1);
    }
  }

  lemma IntLength(i: int, d: nat)
    requires d > 0 && i + Pow10(d) > 0 && i < Pow10(d)
    ensures |IntToString(i)| <= d + 1
  {
    NatLength(if i < 0 then -i else i, d);
  }

  predicate PlainChar(c: char) { c >= ' ' && c != '"' && c != '\\' }

  /** Nothing in it needs an escape. */
  predicate PlainText(s: string) { forall i :: 0 <= i < |s| ==> PlainChar(s[i]) }

  lemma {:induction false} PlainIsItself(s: string)
    requires PlainText(s)
    ensures Escape(s) == s
  {
    if s != [] {
      PlainIsItself(s[1..]);
      assert s == [s[0]] + s[1..];
    }
  }

  lemma MsgIdIsPlain(k: nat)
    ensures PlainText(MsgId(k))
  {
  }

  /** The longest names of the catalog (include/fountainer/datapoints/generated.hpp:141-357). */
  const MAX_NAME: nat := 25

  /** Catalog names are plain and short. */
  predicate ShortName(name: string) { |name| <= MAX_NAME && PlainText(name) }

  /** What is known of the generated catalog: its names are short, and the keepalive's is one of them. */
  ghost predicate ShortCatalog(known: string -> bool) {
    known("System_Uptime") && forall name :: known(name) ==> ShortName(name)
  }

  predicate ShortNames(names: seq<string>) { forall i :: 0 <= i < |names| ==> ShortName(names[i]) }

  lemma {:induction false} NamesLength(names: seq<string>)
    requires ShortNames(names)
    ensures |MoreItems(NameList(names))| <= (MAX_NAME + 3) * |names|
  {
    if names != [] {
      NamesLength(names[1..]);
      PlainIsItself(names[0]);
      assert NameList(names)[1..] == NameList(names[1..]);
      assert |Canonical(Str(names[0]))| == |names[0]| + 2;
    }
  }

  /** The list itself has one comma less, and two brackets. */
  lemma ListLength(names: seq<string>)
    requires ShortNames(names)
    ensures |Canonical(Arr(NameList(names)))| <= (MAX_NAME + 3) * |names| + 2
  {
    NamesLength(names);
  }

  // ---------------------------------------------------------------- the frame

  /** The message that a read becomes, its members in order. */
  function ReadMessage(id: string, names: seq<string>, ts: int): Json {
    Obj([("msg_id", Str(id)), ("names", Arr(NameList(names))), ("ts", Int(ts)), ("type", Str("dp_read")), ("v", Int(2))])
  }

  lemma ReadIsBuilt(r: PollRequest, id: string, ts: int)
    requires id != ""
    ensures BuildMessage("dp_read", ReadSpec(r).body, id, "", ts) == ReadMessage(id, Asks(r), ts)
  {
    var base := [("ts", Int(ts)), ("type", Str("dp_read")), ("v", Int(2))];
    var names := Arr(NameList(Asks(r)));
    assert Less("msg_id", "ts") && !Less("names", "msg_id") && Less("names", "ts");
    var withId := Put(base, "msg_id", Str(id));
    assert withId == [("msg_id", Str(id))] + base;
    assert withId[1..] == base;
    assert Put(withId, "names", names) == [("msg_id", Str(id))] + ([("names", names)] + base);
    var body := [("names", names)];
    assert body[1..] == [];
    assert Overlay(withId, body) == Put(withId, "names", names);
  }

  lemma PairLength(key: string, value: Json)
    requires PlainText(key)
    ensures |Pair((key, value))| == |key| + 3 + |Canonical(value)|
  {
    PlainIsItself(key);
  }

  /** The text is its five members, four commas and two braces. */
  lemma ReadTextLength(id: string, names: seq<string>, ts: int)
    ensures |Canonical(ReadMessage(id, names, ts))|
            == 39 + |Canonical(Str(id))| + |Canonical(Arr(NameList(names)))| + |Canonical(Int(ts))|
               + |Canonical(Str("dp_read"))| + |Canonical(Int(2))|
  {
    hide Canonical, Pair, MorePairs, NameList, PlainText;
    KeysArePlain();
    PairLength("msg_id", Str(id));
    PairLength("names", Arr(NameList(names)));
    PairLength("ts", Int(ts));
    PairLength("type", Str("dp_read"));
    PairLength("v", Int(2));
    FiveMembers(ReadMessage(id, names, ts).members);
  }

  lemma KeysArePlain()
    ensures PlainText("msg_id") && PlainText("names") && PlainText("ts") && PlainText("type") && PlainText("v")
  {
  }

  lemma ReadLength(id: string, names: seq<string>, ts: int)
    requires PlainText(id) && |id| <= 22 && ShortNames(names) && |IntToString(ts)| <= 20
    ensures |Canonical(ReadMessage(id, names, ts))| <= (MAX_NAME + 3) * |names| + 120
  {
    ReadTextLength(id, names, ts);
    ListLength(names);
    QuotedLength(id);
    QuotedLength("dp_read");
    assert Canonical(Int(ts)) == IntToString(ts) && |Canonical(Int(2))| == 1;
    hide Canonical, NameList, IntToString;
  }

  lemma QuotedLength(s: string)
    requires PlainText(s)
    ensures |Canonical(Str(s))| == |s| + 2
  {
    PlainIsItself(s);
  }

  lemma FiveMembers(ms: Entries<Json>)
    requires |ms| == 5
    ensures |Canonical(Obj(ms))| == |Pair(ms[0])| + |Pair(ms[1])| + |Pair(ms[2])| + |Pair(ms[3])| + |Pair(ms[4])| + 6
  {
    assert |MorePairs(ms[1..][1..][1..][1..][1..])| == 0;
    assert |MorePairs(ms[1..][1..][1..][1..])| == 1 + |Pair(ms[4])|;
    assert |MorePairs(ms[1..][1..][1..])| == 2 + |Pair(ms[3])| + |Pair(ms[4])|;
    assert |MorePairs(ms[1..][1..])| == 3 + |Pair(ms[2])| + |Pair(ms[3])| + |Pair(ms[4])|;
    assert |MorePairs(ms[1..])| == 4 + |Pair(ms[1])| + |Pair(ms[2])| + |Pair(ms[3])| + |Pair(ms[4])|;
  }

  /** A frame is as long as its text. */
  ghost predicate TextFrames(e: Env) { forall m: Json :: e.frameSize(m) == |Canonical(m)| }

  const TWO63: int := 0x8000_0000_0000_0000

  /** The wall clock is an int64. */
  ghost predicate Dated(e: Env) { forall t: int :: -TWO63 <= e.wallClock(t) < TWO63 }

  /** So many more ids are left of the 64-bit counter. */
  predicate IdsLeft(l: Link, n: nat) { l.msgSeq + n < 2 * TWO63 }

  /** At most a hundred short names fit the device's limit, with twenty digits for the id and the time. */
  lemma ReadFits(r: PollRequest, l: Link, ts: int)
    requires |Asks(r)| <= PollerState.MAX_NAMES_PER_REQUEST && ShortNames(Asks(r))
    requires IdsLeft(l, 1) && -TWO63 <= ts < TWO63
    ensures |Canonical(BuildMessage("dp_read", ReadSpec(r).body, MsgId(l.msgSeq + 1), "", ts))| <= MAX_CONTROL_FRAME_BYTES
  {
    TwentyDigits();
    NatLength(l.msgSeq + 1, 20);
    IntLength(ts, 19);
    MsgIdIsPlain(l.msgSeq + 1);
    ReadIsBuilt(r, MsgId(l.msgSeq + 1), ts);
    ReadLength(MsgId(l.msgSeq + 1), Asks(r), ts);
  }

  lemma TwentyDigits()
    ensures 2 * TWO63 < Pow10(20) && TWO63 < Pow10(19)
  {
    assert Pow10(5) == 100000;
    Pow10Adds(5, 5);
    Pow10Adds(10, 9);
    Pow10Adds(10, 10);
    Pow10Adds(5, 4);
  }

  lemma {:induction false} Pow10Adds(a: nat, b: nat)
    ensures Pow10(a + b) == Pow10(a) * Pow10(b)
  {
    if a > 0 { Pow10Adds(a - 1, b); }
  }

  /** Such a read is sent exactly if the transport takes the next frame; either way it uses up one id and one attempt. */
  lemma ReadGoesOutIff(e: Env, l: Link, r: PollRequest, now: int)
    requires l.state.Running? && TextFrames(e) && Dated(e) && IdsLeft(l, 1)
    requires |Asks(r)| <= PollerState.MAX_NAMES_PER_REQUEST && ShortNames(Asks(r))
    ensures var (link, result) := EncodeAndSend(e, l, ReadSpec(r), now);
            && (result.Success? <==> e.transport(l.attempts))
            && link.attempts == l.attempts + 1 && link.msgSeq == l.msgSeq + 1
  {
    ReadFits(r, l, e.wallClock(now));
    SpecKind(r);
    hide Canonical, ReadSpec, BuildMessage, EncodeAndSend;
    FittingGoesOutIff(e, l, ReadSpec(r), now);
  }

  lemma FittingGoesOutIff(e: Env, l: Link, spec: RequestSpec, now: int)
    requires spec.kind == "dp_read" && l.state.Running?
    requires e.frameSize(BuildMessage("dp_read", spec.body, MsgId(l.msgSeq + 1), "", e.wallClock(now))) <= MAX_CONTROL_FRAME_BYTES
    ensures var (link, result) := EncodeAndSend(e, l, spec, now);
            && (result.Success? <==> e.transport(l.attempts))
            && link.attempts == l.attempts + 1 && link.msgSeq == l.msgSeq + 1
  {
    hide BuildMessage;
  }

  lemma SpecKind(r: PollRequest)
    ensures ReadSpec(r).kind == "dp_read"
  {
  }
}
