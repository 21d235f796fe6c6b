/**
 The two decoders of the 64-digit device key: a streaming one (src/security.cpp:29-59) and
 one that strips white space first (src/protocol/auth.cpp:159-188). Both are proved against
 the same function, which is the inverse of hexadecimal encoding.
 */
module KeyDecoding {
  import opened Wrappers
  import opened Numerals

  const KEY_BYTES: nat := 32

  /** std::isspace in the C locale. */
  predicate IsSpace(c: char) {
    c == ' ' || (9 <= c as int <= 13)
  }

  function Strip(s: string): string {
    if s == [] then ""
    else Strip(s[..|s| - 1]) + (if IsSpace(s[|s| - 1]) then "" else [s[|s| - 1]])
  }

  predicate AllHex(s: string) { forall i :: 0 <= i < |s| ==> IsHexChar(s[i]) }

  /** Digits paired from the left: the complete bytes, and an odd last digit if there is one. */
  datatype Pairing = Pairing(bytes: seq<nat>, high: Option<nat>)

  function Paired(hex: string): (p: Pairing)
    ensures |hex| == 2 * |p.bytes| + (if p.high.Some? then 1 else 0)
    ensures p.high.Some? ==> p.high.value < 16
  {
    if hex == [] then Pairing([], None) else AddDigit(Paired(hex[..|hex| - 1]), HexValue(hex[|hex| - 1]))
  }

  function AddDigit(p: Pairing, d: nat): Pairing {
    match p.high
    case None => Pairing(p.bytes, Some(d))
    case Some(high) => Pairing(p.bytes + [16 * high + d], None)
  }

  function Decode(text: string): Option<seq<nat>> {
    var hex := Strip(text);
    if |hex| == 2 * KEY_BYTES && AllHex(hex) then Some(Paired(hex).bytes) else None
  }

  lemma StripNext(s: string, i: nat)
    requires i < |s|
    ensures Strip(s[..i + 1]) == Strip(s[..i]) + (if IsSpace(s[i]) then "" else [s[i]])
  {
    assert s[..i + 1][..i] == s[..i];
  }

  lemma {:induction false} StripOfPrefix(s: string, i: nat)
    requires i <= |s|
    ensures Strip(s[..i]) <= Strip(s)
    decreases |s| - i
  {
    if i == |s| {
      assert s[..i] == s;
    } else {
      StripNext(s, i);
      StripOfPrefix(s, i + 1);
    }
  }

  lemma PairedNext(hex: string, c: char)
    ensures Paired(hex + [c]) == AddDigit(Paired(hex), HexValue(c))
  {
    assert (hex + [c])[..|hex|] == hex;
  }

  /** decode_hex_key: one pass, pairing digits as they come. */
  method DecodeHexKey(hex: string) returns (key: Option<seq<nat>>)
    ensures key == Decode(hex)
  {
    var bytes: seq<nat> := [];
    var high: int := -1;
    ghost var seen := "";
    for i := 0 to |hex|
      invariant seen == Strip(hex[..i]) && AllHex(seen)
      invariant Paired(seen) == Pairing(bytes, if high < 0 then None else Some(high))
    {
      var c := hex[i];
      StripNext(hex, i);
      if !IsSpace(c) {
        if !IsHexChar(c) {
          StripOfPrefix(hex, i + 1);
          assert Strip(hex)[|seen|] == c;
          return None;
        }
        PairedNext(seen, c);
        if high < 0 {
          high := HexValue(c);
        } else {
          bytes := bytes + [16 * high + HexValue(c)];
          high := -1;
        }
        seen := seen + [c];
      }
    }
    assert hex[..|hex|] == hex;
    if high >= 0 || |bytes| != KEY_BYTES {
      return None;
    }
    return Some(bytes);
  }

  /** load_hmac_key_file, on the content of the file: strip, check the length, then decode. */
  method LoadHmacKey(content: string) returns (key: Option<seq<nat>>)
    ensures key == Decode(content)
  {
    var hex := "";
    for i := 0 to |content|
      invariant hex == Strip(content[..i])
    {
      StripNext(content, i);
      if !IsSpace(content[i]) {
        hex := hex + [content[i]];
      }
    }
    assert content[..|content|] == content;
    if |hex| != 2 * KEY_BYTES {
      return None;
    }
    key := DecodePairs(hex);
  }

  method DecodePairs(hex: string) returns (key: Option<seq<nat>>)
    requires |hex| == 2 * KEY_BYTES
    ensures key == if AllHex(hex) then Some(Paired(hex).bytes) else None
  {
    var bytes: seq<nat> := [];
    for i := 0 to KEY_BYTES
      invariant AllHex(hex[..2 * i]) && Paired(hex[..2 * i]) == Pairing(bytes, None)
    {
      var a, b := hex[2 * i], hex[2 * i + 1];
      if !IsHexChar(a) || !IsHexChar(b) {
        return None;
      }
      PairedTwice(hex, 2 * i);
      assert forall k :: 0 <= k < 2 * i ==> hex[k] == hex[..2 * i][k];
      bytes := bytes + [16 * HexValue(a) + HexValue(b)];
    }
    assert hex[..2 * KEY_BYTES] == hex;
    return Some(bytes);
  }

  lemma PairedTwice(hex: string, i: nat)
    requires i + 1 < |hex|
    ensures Paired(hex[..i + 2]) == AddDigit(AddDigit(Paired(hex[..i]), HexValue(hex[i])), HexValue(hex[i + 1]))
  {
    PairedNext(hex[..i], hex[i]);
    assert hex[..i] + [hex[i]] == hex[..i + 1];
    PairedNext(hex[..i + 1], hex[i + 1]);
    assert hex[..i + 1] + [hex[i + 1]] == hex[..i + 2];
  }

  // ---------------------------------------------------------------- what decoding means

  predicate AreBytes(key: seq<nat>) { forall i :: 0 <= i < |key| ==> key[i] < 256 }

  function HexByte(b: nat): (s: string)
    requires b < 256
    ensures |s| == 2
  {
    [HexChar(b / 16), HexChar(b % 16)]
  }

  function HexEncode(key: seq<nat>): string
    requires AreBytes(key)
  {
    if key == [] then "" else HexEncode(key[..|key| - 1]) + HexByte(key[|key| - 1])
  }

  function Lower(c: char): char {
    if 'A' <= c <= 'F' then (c as int + 32) as char else c
  }

  function LowerCase(s: string): (r: string)
    ensures |r| == |s|
  {
    if s == [] then "" else LowerCase(s[..|s| - 1]) + [Lower(s[|s| - 1])]
  }

  lemma LowerIsItsValue(c: char)
    ensures IsHexChar(c) ==> Lower(c) == HexChar(HexValue(c))
    ensures forall d: nat :: d < 16 && Lower(c) == HexChar(d) ==> IsHexChar(c) && HexValue(c) == d
  {
  }

  lemma HexOfPair(a: nat, b: nat)
    requires a < 16 && b < 16
    ensures HexByte(16 * a + b) == [HexChar(a), HexChar(b)]
  {
    assert (16 * a + b) / 16 == a && (16 * a + b) % 16 == b;
  }

  /** The digits that a pairing stands for. */
  function Digits(p: Pairing): string
    requires AreBytes(p.bytes) && (p.high.Some? ==> p.high.value < 16)
  {
    HexEncode(p.bytes) + (if p.high.Some? then [HexChar(p.high.value)] else "")
  }

  lemma {:induction false} DigitsOfPaired(hex: string)
    requires AllHex(hex)
    ensures AreBytes(Paired(hex).bytes) && Digits(Paired(hex)) == LowerCase(hex)
  {
    if hex != [] {
      var front, d := hex[..|hex| - 1], HexValue(hex[|hex| - 1]);
      DigitsOfPaired(front);
      LowerIsItsValue(hex[|hex| - 1]);
      var p := Paired(front);
      if p.high.Some? {
        HexOfPair(p.high.value, d);
        assert (p.bytes + [16 * p.high.value + d])[..|p.bytes|] == p.bytes;
      }
    }
  }

  lemma ByteOfHex(x: nat, y: nat)
    requires x < 256 && y < 256 && HexByte(x) == HexByte(y)
    ensures x == y
  {
    HexValueOfChar(x / 16);
    HexValueOfChar(y / 16);
    HexValueOfChar(x % 16);
    HexValueOfChar(y % 16);
    assert HexByte(x)[0] == HexByte(y)[0] && HexByte(x)[1] == HexByte(y)[1];
  }

  lemma {:induction false} HexEncodeInjective(a: seq<nat>, b: seq<nat>)
    requires AreBytes(a) && AreBytes(b) && HexEncode(a) == HexEncode(b)
    ensures a == b
  {
    if a != [] && b != [] {
      var x, y, a', b' := a[|a| - 1], b[|b| - 1], a[..|a| - 1], b[..|b| - 1];
      SameSplit(HexEncode(a'), HexEncode(b'), HexByte(x), HexByte(y));
      HexEncodeInjective(a', b');
      ByteOfHex(x, y);
      assert a == a' + [x] && b == b' + [y];
    }
  }

  lemma SameSplit(a: string, b: string, x: string, y: string)
    requires a + x == b + y && |x| == |y|
    ensures a == b && x == y
  {
    assert a == (a + x)[..|a|] && b == (b + y)[..|b|];
    assert x == (a + x)[|a|..] && y == (b + y)[|b|..];
  }

  lemma LowerCaseNext(s: string, c: char)
    ensures LowerCase(s + [c]) == LowerCase(s) + [Lower(c)]
  {
    assert (s + [c])[..|s|] == s;
  }

  lemma {:induction false} EncodingIsHex(s: string, key: seq<nat>)
    requires AreBytes(key) && LowerCase(s) == HexEncode(key)
    ensures AllHex(s) && |s| == 2 * |key|
  {
    if key != [] {
      var x, n, key' := key[|key| - 1], |s|, key[..|key| - 1];
      var s', c, d := s[..n - 2], s[n - 2], s[n - 1];
      assert s == s' + [c] + [d];
      LowerCaseNext(s' + [c], d);
      LowerCaseNext(s', c);
      SameSplit(LowerCase(s'), HexEncode(key'), [Lower(c), Lower(d)], HexByte(x));
      assert [Lower(c), Lower(d)][0] == HexByte(x)[0] && [Lower(c), Lower(d)][1] == HexByte(x)[1];
      LowerIsItsValue(c);
      LowerIsItsValue(d);
      EncodingIsHex(s', key');
    }
  }

  /**
   Decoding succeeds with a key exactly on its hexadecimal digits, in either case and
   with white space anywhere.
   */
  lemma DecodeInvertsEncode(text: string, key: seq<nat>)
    ensures Decode(text) == Some(key) <==>
            |key| == KEY_BYTES && AreBytes(key) && LowerCase(Strip(text)) == HexEncode(key)
  {
    var hex := Strip(text);
    if Decode(text) == Some(key) {
      DigitsOfPaired(hex);
    }
    if |key| == KEY_BYTES && AreBytes(key) && LowerCase(hex) == HexEncode(key) {
      EncodingIsHex(hex, key);
      DigitsOfPaired(hex);
      HexEncodeInjective(Paired(hex).bytes, key);
    }
  }
}
