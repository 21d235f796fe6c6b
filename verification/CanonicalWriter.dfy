/**
 The serializer as the source runs it: recursion over one shared output buffer that every
 call appends to, with a flag for the first element (src/protocol/canonical.cpp:72-139).
 */
module CanonicalWriter {
  import opened OrderedMap
  import opened JsonValues
  import opened Numerals
  import opened CanonicalJson

  class Text {
    var bytes: string

    constructor ()
      ensures bytes == ""
    {
      bytes := "";
    }

    method Append(more: string)
      modifies this
      ensures bytes == old(bytes) + more
    {
      bytes := bytes + more;
    }
  }

  lemma {:induction false} EscapeSnoc(s: string, c: char)
    ensures Escape(s + [c]) == Escape(s) + EscapeChar(c)
  {
    if s == [] {
      assert s + [c] == [c];
    } else {
      assert (s + [c])[1..] == s[1..] + [c];
      EscapeSnoc(s[1..], c);
    }
  }

  method EscapeJsonString(s: string) returns (out: string)
    ensures out == Escape(s)
  {
    out := "";
    for i := 0 to |s|
      invariant out == Escape(s[..i])
    {
      EscapeSnoc(s[..i], s[i]);
      assert s[..i] + [s[i]] == s[..i + 1];
      out := out + EscapeChar(s[i]);
    }
    assert s[..|s|] == s;
  }

  function Items(items: seq<Json>): string {
    if items == [] then "" else Canonical(items[0]) + MoreItems(items[1..])
  }

  function Pairs(ms: Entries<Json>): string {
    if ms == [] then "" else Pair(ms[0]) + MorePairs(ms[1..])
  }

  lemma {:induction false} MoreItemsSnoc(items: seq<Json>, item: Json)
    ensures MoreItems(items + [item]) == MoreItems(items) + "," + Canonical(item)
  {
    if items == [] {
      assert items + [item] == [item];
    } else {
      assert (items + [item])[1..] == items[1..] + [item];
      MoreItemsSnoc(items[1..], item);
    }
  }

  lemma ItemsSnoc(items: seq<Json>, item: Json)
    ensures Items(items + [item]) == Items(items) + (if items == [] then "" else ",") + Canonical(item)
  {
    if items == [] {
      assert items + [item] == [item];
    } else {
      assert (items + [item])[1..] == items[1..] + [item];
      MoreItemsSnoc(items[1..], item);
    }
  }

  lemma {:induction false} MorePairsSnoc(ms: Entries<Json>, m: (string, Json))
    ensures MorePairs(ms + [m]) == MorePairs(ms) + "," + Pair(m)
  {
    if ms == [] {
      assert ms + [m] == [m];
    } else {
      assert (ms + [m])[1..] == ms[1..] + [m];
      MorePairsSnoc(ms[1..], m);
    }
  }

  lemma PairsSnoc(ms: Entries<Json>, m: (string, Json))
    ensures Pairs(ms + [m]) == Pairs(ms) + (if ms == [] then "" else ",") + Pair(m)
  {
    if ms == [] {
      assert ms + [m] == [m];
    } else {
      assert (ms + [m])[1..] == ms[1..] + [m];
      MorePairsSnoc(ms[1..], m);
    }
  }

  lemma Bracketed(start: string, open: string, body: string, close: string)
    ensures start + open + body + close == start + (open + body + close)
  {
  }

  method WriteQuoted(s: string, out: Text)
    modifies out
    ensures out.bytes == old(out.bytes) + Quote(s)
  {
    Bracketed(out.bytes, "\"", Escape(s), "\"");
    out.Append("\"");
    var escaped := EscapeJsonString(s);
    out.Append(escaped);
    out.Append("\"");
  }

  method SerializeInto(value: Json, out: Text)
    modifies out
    ensures out.bytes == old(out.bytes) + Canonical(value)
    decreases value, 1
  {
    match value {
      case Null => out.Append("null");
      case Bool(b) => out.Append(if b then "true" else "false");
      case Int(i) => out.Append(IntToString(i));
      case Uint(n) => out.Append(IntToString(n));
      case Whole(w) => out.Append(IntToString(w));
      case Fraction(token) => out.Append(token);
      case Str(s) => WriteQuoted(s, out);
      case Arr(items) => SerializeArray(items, out);
      case Obj(ms) => SerializeObject(ms, out);
    }
  }

  method SerializeArray(items: seq<Json>, out: Text)
    modifies out
    ensures out.bytes == old(out.bytes) + Canonical(Arr(items))
    decreases items, 3
  {
    Bracketed(out.bytes, "[", Items(items), "]");
    out.Append("[");
    SerializeItems(items, out);
    out.Append("]");
  }

  method SerializeObject(ms: Entries<Json>, out: Text)
    modifies out
    ensures out.bytes == old(out.bytes) + Canonical(Obj(ms))
    decreases ms, 3
  {
    Bracketed(out.bytes, "{", Pairs(ms), "}");
    out.Append("{");
    SerializePairs(ms, out);
    out.Append("}");
  }

  lemma ItemsExtend(start: string, items: seq<Json>, i: nat)
    requires i < |items|
    ensures start + Items(items[..i + 1]) ==
            start + Items(items[..i]) + (if i == 0 then "" else ",") + Canonical(items[i])
  {
    ItemsSnoc(items[..i], items[i]);
    assert items[..i] + [items[i]] == items[..i + 1];
  }

  method SerializeItems(items: seq<Json>, out: Text)
    modifies out
    ensures out.bytes == old(out.bytes) + Items(items)
    decreases items, 2
  {
    ghost var start := out.bytes;
    var first := true;
    for i := 0 to |items|
      invariant first <==> i == 0
      invariant out.bytes == start + Items(items[..i])
    {
      if !first {
        out.Append(",");
      }
      SerializeInto(items[i], out);
      ItemsExtend(start, items, i);
      first := false;
    }
    assert items[..|items|] == items;
  }

  lemma PairsExtend(start: string, ms: Entries<Json>, i: nat)
    requires i < |ms|
    ensures start + Pairs(ms[..i + 1]) ==
            start + Pairs(ms[..i]) + (if i == 0 then "" else ",") + Pair(ms[i])
  {
    PairsSnoc(ms[..i], ms[i]);
    assert ms[..i] + [ms[i]] == ms[..i + 1];
  }

  method SerializePairs(ms: Entries<Json>, out: Text)
    modifies out
    ensures out.bytes == old(out.bytes) + Pairs(ms)
    decreases ms, 2
  {
    ghost var start := out.bytes;
    var first := true;
    for i := 0 to |ms|
      invariant first <==> i == 0
      invariant out.bytes == start + Pairs(ms[..i])
    {
      if !first {
        out.Append(",");
      }
      SerializePair(ms[i], out);
      PairsExtend(start, ms, i);
      first := false;
    }
    assert ms[..|ms|] == ms;
  }

  method SerializePair(m: (string, Json), out: Text)
    modifies out
    ensures out.bytes == old(out.bytes) + Pair(m)
    decreases m, 2
  {
    WriteQuoted(m.0, out);
    out.Append(":");
    SerializeInto(m.1, out);
  }

  method CanonicalSerialize(value: Json) returns (text: string)
    ensures text == Canonical(value)
  {
    var out := new Text();
    SerializeInto(value, out);
    text := out.bytes;
  }
}
