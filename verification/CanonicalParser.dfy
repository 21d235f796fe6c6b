/**
 A parser for canonical text, and the proof that it recovers every value: canonical
 serialization loses nothing but the distinction between nlohmann's number types.
 */
module CanonicalParser {
  import opened Wrappers
  import opened OrderedMap
  import opened JsonValues
  import opened Numerals
  import opened CanonicalJson

  // ---------------------------------------------------------------- numbers

  predicate IsNumberChar(c: char) {
    IsDigit(c) || c == '-' || c == '+' || c == '.' || c == 'e' || c == 'E'
  }

  function NumberSpan(s: string): (n: nat)
    ensures n <= |s|
  {
    if s == [] || !IsNumberChar(s[0]) then 0 else 1 + NumberSpan(s[1..])
  }

  /** What "%.*g" prints for a float without an integral value in the int64 range. */
  predicate IsFractionToken(t: string) {
    && t != []
    && (IsDigit(t[0]) || t[0] == '-')
    && (forall i :: 0 <= i < |t| ==> IsNumberChar(t[i]))
    && !IsIntText(t)
  }

  /** The next character cannot continue a number. */
  predicate EndsNumber(rest: string) { rest == [] || !IsNumberChar(rest[0]) }

  function ParseNumber(s: string): (p: Option<(Json, string)>)
    ensures p.Some? ==> |p.value.1| < |s|
  {
    var text := s[..NumberSpan(s)];
    if IsIntText(text) then Some((Int(IntOf(text)), s[|text|..]))
    else if IsFractionToken(text) then Some((Fraction(text), s[|text|..]))
    else None
  }

  lemma {:induction false} SpanOfText(text: string, rest: string)
    requires forall i :: 0 <= i < |text| ==> IsNumberChar(text[i])
    requires EndsNumber(rest)
    ensures NumberSpan(text + rest) == |text|
  {
    if text == [] {
      assert text + rest == rest;
    } else {
      assert (text + rest)[1..] == text[1..] + rest;
      SpanOfText(text[1..], rest);
    }
  }

  lemma ParseNumberText(text: string, rest: string)
    requires forall i :: 0 <= i < |text| ==> IsNumberChar(text[i])
    requires EndsNumber(rest)
    ensures NumberSpan(text + rest) == |text| && (text + rest)[..|text|] == text && (text + rest)[|text|..] == rest
  {
    SpanOfText(text, rest);
  }

  // ---------------------------------------------------------------- strings

  function ShortEscape(c: char): Option<char> {
    if c == '"' || c == '\\' then Some(c)
    else if c == 'b' then Some(BACKSPACE)
    else if c == 't' then Some('\t')
    else if c == 'n' then Some('\n')
    else if c == 'f' then Some(FORM_FEED)
    else if c == 'r' then Some('\r')
    else None
  }

  /** The four digits after backslash-u, for codes of one byte. */
  function LongEscape(s: string): Option<char> {
    if |s| < 4 || s[0] != '0' || s[1] != '0' || !IsHexChar(s[2]) || !IsHexChar(s[3]) then None
    else if HexValue(s[2]) >= 8 then None
    else Some((16 * HexValue(s[2]) + HexValue(s[3])) as char)
  }

  /** Characters up to the closing quote, and what follows it. */
  function ParseChars(s: string): (p: Option<(string, string)>)
    ensures p.Some? ==> |p.value.1| < |s|
  {
    if s == [] then None
    else if s[0] == '"' then Some(("", s[1..]))
    else if s[0] == '\\' then
      if |s| > 1 && s[1] == 'u' then
        var c :- LongEscape(s[2..]);
        var (more, rest) :- ParseChars(s[6..]);
        Some(([c] + more, rest))
      else if |s| > 1 then
        var c :- ShortEscape(s[1]);
        var (more, rest) :- ParseChars(s[2..]);
        Some(([c] + more, rest))
      else None
    else if s[0] < ' ' then None
    else
      var (more, rest) :- ParseChars(s[1..]);
      Some(([s[0]] + more, rest))
  }

  /** A control character without a short form. */
  predicate NeedsLongEscape(c: char) { |EscapeChar(c)| == 6 }

  lemma LongEscapeInverts(c: char, tail: string)
    requires NeedsLongEscape(c)
    ensures LongEscape(EscapeChar(c)[2..] + tail) == Some(c)
  {
    HexValueOfChar(c as int / 16);
    HexValueOfChar(c as int % 16);
  }

  lemma ParseLongEscape(c: char, tail: string)
    requires NeedsLongEscape(c) && ParseChars(tail).Some?
    ensures ParseChars(EscapeChar(c) + tail) ==
            Some(([c] + ParseChars(tail).value.0, ParseChars(tail).value.1))
  {
    var e := EscapeChar(c);
    LongEscapeInverts(c, tail);
    assert (e + tail)[2..] == e[2..] + tail;
    assert (e + tail)[6..] == tail;
    assert e[0] == '\\' && e[1] == 'u';
  }

  lemma ParseShortEscape(c: char, tail: string)
    requires |EscapeChar(c)| == 2 && ParseChars(tail).Some?
    ensures ParseChars(EscapeChar(c) + tail) ==
            Some(([c] + ParseChars(tail).value.0, ParseChars(tail).value.1))
  {
    var e := EscapeChar(c);
    assert e[0] == '\\' && e[1] != 'u' && ShortEscape(e[1]) == Some(c);
    assert (e + tail)[2..] == tail;
  }

  lemma ParsePlainChar(c: char, tail: string)
    requires EscapeChar(c) == [c] && ParseChars(tail).Some?
    ensures ParseChars([c] + tail) == Some(([c] + ParseChars(tail).value.0, ParseChars(tail).value.1))
  {
    assert ([c] + tail)[1..] == tail;
  }

  lemma ParseEscapedChar(c: char, tail: string)
    requires ParseChars(tail).Some?
    ensures ParseChars(EscapeChar(c) + tail) ==
            Some(([c] + ParseChars(tail).value.0, ParseChars(tail).value.1))
  {
    if NeedsLongEscape(c) {
      ParseLongEscape(c, tail);
    } else if |EscapeChar(c)| == 2 {
      ParseShortEscape(c, tail);
    } else {
      ParsePlainChar(c, tail);
    }
  }

  lemma {:induction false} ParseEscaped(t: string, rest: string)
    ensures ParseChars(Escape(t) + "\"" + rest) == Some((t, rest))
  {
    if t == [] {
      assert Escape(t) + "\"" + rest == "\"" + rest;
      assert ("\"" + rest)[1..] == rest;
    } else {
      var tail := Escape(t[1..]) + "\"" + rest;
      ParseEscaped(t[1..], rest);
      ParseEscapedChar(t[0], tail);
      assert Escape(t) + "\"" + rest == EscapeChar(t[0]) + tail;
      assert [t[0]] + t[1..] == t;
    }
  }

  // ---------------------------------------------------------------- values

  function ParseValue(s: string): (p: Option<(Json, string)>)
    ensures p.Some? ==> |p.value.1| < |s|
    decreases |s|, 0
  {
    if s == [] then None
    else if s[0] == 'n' then
      if "null" <= s then Some((Null, s[4..])) else None
    else if s[0] == 't' then
      if "true" <= s then Some((Bool(true), s[4..])) else None
    else if s[0] == 'f' then
      if "false" <= s then Some((Bool(false), s[5..])) else None
    else if s[0] == '"' then
      var (text, rest) :- ParseChars(s[1..]);
      Some((Str(text), rest))
    else if s[0] == '[' then
      if |s| > 1 && s[1] == ']' then Some((Arr([]), s[2..]))
      else
        var (first, rest) :- ParseValue(s[1..]);
        var (more, rest') :- ParseMoreItems(rest);
        Some((Arr([first] + more), rest'))
    else if s[0] == '{' then
      if |s| > 1 && s[1] == '}' then Some((Obj([]), s[2..]))
      else
        var (first, rest) :- ParsePair(s[1..]);
        var (more, rest') :- ParseMorePairs(rest);
        Some((Obj([first] + more), rest'))
    else ParseNumber(s)
  }

  function ParseMoreItems(s: string): (p: Option<(seq<Json>, string)>)
    ensures p.Some? ==> |p.value.1| < |s|
    decreases |s|, 0
  {
    if s == [] then None
    else if s[0] == ']' then Some(([], s[1..]))
    else if s[0] == ',' then
      var (item, rest) :- ParseValue(s[1..]);
      var (more, rest') :- ParseMoreItems(rest);
      Some(([item] + more, rest'))
    else None
  }

  function ParsePair(s: string): (p: Option<((string, Json), string)>)
    ensures p.Some? ==> |p.value.1| < |s|
    decreases |s|, 0
  {
    if s == [] || s[0] != '"' then None
    else
      var (key, rest) :- ParseChars(s[1..]);
      if rest == [] || rest[0] != ':' then None
      else
        var (value, rest') :- ParseValue(rest[1..]);
        Some(((key, value), rest'))
  }

  function ParseMorePairs(s: string): (p: Option<(Entries<Json>, string)>)
    ensures p.Some? ==> |p.value.1| < |s|
    decreases |s|, 0
  {
    if s == [] then None
    else if s[0] == '}' then Some(([], s[1..]))
    else if s[0] == ',' then
      var (pair, rest) :- ParsePair(s[1..]);
      var (more, rest') :- ParseMorePairs(rest);
      Some(([pair] + more, rest'))
    else None
  }

  // ---------------------------------------------------------------- round trip

  /** Every fraction prints as one. */
  predicate WellFormed(j: Json) {
    match j
    case Fraction(token) => IsFractionToken(token)
    case Arr(items) => forall i :: 0 <= i < |items| ==> WellFormed(items[i])
    case Obj(ms) => forall i :: 0 <= i < |ms| ==> WellFormed(ms[i].1)
    case _ => true
  }

  /** The value with nlohmann's integer, unsigned and integral-float types merged. */
  function Merged(j: Json): Json {
    match j
    case Uint(n) => Int(n)
    case Whole(w) => Int(w)
    case Arr(items) => Arr(MergedItems(items))
    case Obj(ms) => Obj(MergedPairs(ms))
    case _ => j
  }

  function MergedItems(items: seq<Json>): seq<Json> {
    if items == [] then [] else [Merged(items[0])] + MergedItems(items[1..])
  }

  function MergedPairs(ms: Entries<Json>): Entries<Json> {
    if ms == [] then [] else [MergedPair(ms[0])] + MergedPairs(ms[1..])
  }

  function MergedPair(m: (string, Json)): (string, Json) {
    (m.0, Merged(m.1))
  }

  lemma ParseIntText(i: int, rest: string)
    requires EndsNumber(rest)
    ensures ParseValue(IntToString(i) + rest) == Some((Int(i), rest))
  {
    IntOfToString(i);
    ParseNumberText(IntToString(i), rest);
  }

  lemma ParseQuoted(t: string, rest: string)
    ensures (Quote(t) + rest)[0] == '"' && ParseChars((Quote(t) + rest)[1..]) == Some((t, rest))
  {
    ParseEscaped(t, rest);
    assert (Quote(t) + rest)[1..] == Escape(t) + "\"" + rest;
  }

  lemma CanonicalStart(j: Json)
    requires WellFormed(j)
    ensures Canonical(j) != [] && Canonical(j)[0] != ']'
  {
  }

  /** Parsing canonical text followed by anything gives the value and what follows. */
  lemma {:induction false} ParseCanonical(j: Json, rest: string)
    requires WellFormed(j) && EndsNumber(rest)
    ensures ParseValue(Canonical(j) + rest) == Some((Merged(j), rest))
    decreases j, 1
  {
    var s := Canonical(j) + rest;
    match j
    case Null => assert s[4..] == rest;
    case Bool(b) => assert s[if b then 4 else 5..] == rest;
    case Int(i) => ParseIntText(i, rest);
    case Uint(n) => ParseIntText(n, rest);
    case Whole(w) => ParseIntText(w, rest);
    case Fraction(token) => ParseNumberText(token, rest);
    case Str(t) => ParseQuoted(t, rest);
    case Arr(items) => ParseArray(items, rest);
    case Obj(ms) => ParseObject(ms, rest);
  }

  lemma {:induction false} ParseArray(items: seq<Json>, rest: string)
    requires WellFormed(Arr(items))
    ensures ParseValue(Canonical(Arr(items)) + rest) == Some((Merged(Arr(items)), rest))
    decreases items, 2
  {
    var s := Canonical(Arr(items)) + rest;
    if items == [] {
      assert s[2..] == rest;
    } else {
      var tail := MoreItems(items[1..]) + "]" + rest;
      assert s == "[" + (Canonical(items[0]) + tail);
      assert s[1..] == Canonical(items[0]) + tail;
      CanonicalStart(items[0]);
      MoreItemsStart(items[1..], rest);
      ParseCanonical(items[0], tail);
      ParseItemList(items[1..], rest);
    }
  }

  lemma MoreItemsStart(items: seq<Json>, rest: string)
    ensures EndsNumber(MoreItems(items) + "]" + rest)
  {
  }

  lemma {:induction false} ParseItemList(items: seq<Json>, rest: string)
    requires forall i :: 0 <= i < |items| ==> WellFormed(items[i])
    ensures ParseMoreItems(MoreItems(items) + "]" + rest) == Some((MergedItems(items), rest))
    decreases items, 0
  {
    var s := MoreItems(items) + "]" + rest;
    if items == [] {
      assert s == "]" + rest && s[1..] == rest;
    } else {
      var tail := MoreItems(items[1..]) + "]" + rest;
      assert s == "," + (Canonical(items[0]) + tail);
      assert s[1..] == Canonical(items[0]) + tail;
      MoreItemsStart(items[1..], rest);
      ParseCanonical(items[0], tail);
      ParseItemList(items[1..], rest);
    }
  }

  lemma {:induction false} ParseObject(ms: Entries<Json>, rest: string)
    requires WellFormed(Obj(ms))
    ensures ParseValue(Canonical(Obj(ms)) + rest) == Some((Merged(Obj(ms)), rest))
    decreases ms, 2
  {
    var s := Canonical(Obj(ms)) + rest;
    if ms == [] {
      assert s[2..] == rest;
    } else {
      var tail := MorePairs(ms[1..]) + "}" + rest;
      assert s == "{" + (Pair(ms[0]) + tail);
      assert s[1..] == Pair(ms[0]) + tail;
      assert s[0] == '{' && s[1] == '"';
      MorePairsStart(ms[1..], rest);
      assert WellFormed(ms[0].1);
      ParseOnePair(ms[0], tail);
      ParsePairList(ms[1..], rest);
      assert ParseMorePairs(tail) == Some((MergedPairs(ms[1..]), rest));
      assert MergedPairs(ms) == [MergedPair(ms[0])] + MergedPairs(ms[1..]);
    }
  }

  lemma MorePairsStart(ms: Entries<Json>, rest: string)
    ensures EndsNumber(MorePairs(ms) + "}" + rest)
  {
  }

  lemma {:induction false} ParseOnePair(m: (string, Json), rest: string)
    requires WellFormed(m.1) && EndsNumber(rest)
    ensures ParsePair(Pair(m) + rest) == Some(((m.0, Merged(m.1)), rest))
    decreases m, 2
  {
    var tail := ":" + (Canonical(m.1) + rest);
    RegroupFour(Quote(m.0), ":", Canonical(m.1), rest);
    var s := Quote(m.0) + tail;
    ParseQuoted(m.0, tail);
    assert tail[1..] == Canonical(m.1) + rest;
    ParseCanonical(m.1, rest);
    PairFromParts(s, m.0, tail, Merged(m.1), rest);
  }

  lemma RegroupFour(a: string, b: string, c: string, d: string)
    ensures a + b + c + d == a + (b + (c + d))
  {
  }

  lemma PairFromParts(s: string, key: string, tail: string, value: Json, rest: string)
    requires s != [] && s[0] == '"' && ParseChars(s[1..]) == Some((key, tail))
    requires tail != [] && tail[0] == ':' && ParseValue(tail[1..]) == Some((value, rest))
    ensures ParsePair(s) == Some(((key, value), rest))
  {
  }

  lemma {:induction false} ParsePairList(ms: Entries<Json>, rest: string)
    requires forall i :: 0 <= i < |ms| ==> WellFormed(ms[i].1)
    ensures ParseMorePairs(MorePairs(ms) + "}" + rest) == Some((MergedPairs(ms), rest))
    decreases ms, 0
  {
    var s := MorePairs(ms) + "}" + rest;
    if ms == [] {
      assert s == "}" + rest && s[1..] == rest;
    } else {
      var tail := MorePairs(ms[1..]) + "}" + rest;
      assert s == "," + (Pair(ms[0]) + tail);
      assert s[1..] == Pair(ms[0]) + tail;
      MorePairsStart(ms[1..], rest);
      ParseOnePair(ms[0], tail);
      ParsePairList(ms[1..], rest);
    }
  }

  // ---------------------------------------------------------------- injectivity

  lemma {:induction false} MergedPrintsTheSame(j: Json)
    ensures Canonical(Merged(j)) == Canonical(j)
    decreases j, 1
  {
    match j
    case Arr(items) =>
      MergedItemsPrintTheSame(items);
      if items != [] {
        MergedPrintsTheSame(items[0]);
        MergedItemsPrintTheSame(items[1..]);
        assert MergedItems(items)[1..] == MergedItems(items[1..]);
      }
    case Obj(ms) =>
      if ms != [] {
        MergedPairPrintsTheSame(ms[0]);
        MergedPairsPrintTheSame(ms[1..]);
        assert MergedPairs(ms)[1..] == MergedPairs(ms[1..]);
      }
    case _ =>
  }

  lemma {:induction false} MergedItemsPrintTheSame(items: seq<Json>)
    ensures MoreItems(MergedItems(items)) == MoreItems(items)
    decreases items, 0
  {
    if items != [] {
      MergedPrintsTheSame(items[0]);
      MergedItemsPrintTheSame(items[1..]);
      assert MergedItems(items)[1..] == MergedItems(items[1..]);
    }
  }

  lemma {:induction false} MergedPairsPrintTheSame(ms: Entries<Json>)
    ensures MorePairs(MergedPairs(ms)) == MorePairs(ms)
    decreases ms, 0
  {
    if ms != [] {
      MergedPairPrintsTheSame(ms[0]);
      MergedPairsPrintTheSame(ms[1..]);
      assert MergedPairs(ms)[1..] == MergedPairs(ms[1..]);
    }
  }

  lemma {:induction false} MergedPairPrintsTheSame(m: (string, Json))
    ensures Pair(MergedPair(m)) == Pair(m)
    decreases m, 2
  {
    MergedPrintsTheSame(m.1);
  }

  /** Two values have the same canonical text exactly when they differ in number types only. */
  lemma CanonicalIsInjective(a: Json, b: Json)
    requires WellFormed(a) && WellFormed(b)
    ensures Canonical(a) == Canonical(b) <==> Merged(a) == Merged(b)
  {
    ParseCanonical(a, "");
    ParseCanonical(b, "");
    assert Canonical(a) + "" == Canonical(a) && Canonical(b) + "" == Canonical(b);
    MergedPrintsTheSame(a);
    MergedPrintsTheSame(b);
  }

  /** No canonical text continues another: arrays and signatures need no length prefixes. */
  lemma CanonicalIsPrefixFree(a: Json, b: Json, restA: string, restB: string)
    requires WellFormed(a) && WellFormed(b) && EndsNumber(restA) && EndsNumber(restB)
    requires Canonical(a) + restA == Canonical(b) + restB
    ensures Merged(a) == Merged(b) && restA == restB
  {
    ParseCanonical(a, restA);
    ParseCanonical(b, restB);
  }
}
