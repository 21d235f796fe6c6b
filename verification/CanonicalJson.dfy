/**
 Canonical serialization (src/protocol/canonical.cpp): the text that is hashed into the
 MAC. The parser below exists only in the model; it shows that nothing is lost.
 */
module CanonicalJson {
  import opened OrderedMap
  import opened JsonValues
  import opened Numerals

  const BACKSPACE: char := 8 as char
  const FORM_FEED: char := 12 as char

  // ---------------------------------------------------------------- strings

  function EscapeChar(c: char): (e: string)
    ensures e != []
    ensures e[0] != '"' && (e[0] == '\\' || e == [c])
  {
    if c == '"' then "\\\""
    else if c == '\\' then "\\\\"
    else if c == BACKSPACE then "\\b"
    else if c == '\t' then "\\t"
    else if c == '\n' then "\\n"
    else if c == FORM_FEED then "\\f"
    else if c == '\r' then "\\r"
    else if c < ' ' then "\\u00" + [HexChar(c as int / 16), HexChar(c as int % 16)]
    else [c]
  }

  function Escape(s: string): string {
    if s == [] then "" else EscapeChar(s[0]) + Escape(s[1..])
  }

  function Quote(s: string): string { "\"" + Escape(s) + "\"" }

  // ---------------------------------------------------------------- values

  function Canonical(j: Json): string {
    match j
    case Null => "null"
    case Bool(b) => if b then "true" else "false"
    case Int(i) => IntToString(i)
    case Uint(n) => IntToString(n)
    case Whole(w) => IntToString(w)
    case Fraction(token) => token
    case Str(s) => Quote(s)
    case Arr(items) => "[" + (if items == [] then "" else Canonical(items[0]) + MoreItems(items[1..])) + "]"
    case Obj(ms) => "{" + (if ms == [] then "" else Pair(ms[0]) + MorePairs(ms[1..])) + "}"
  }

  function MoreItems(items: seq<Json>): string {
    if items == [] then "" else "," + Canonical(items[0]) + MoreItems(items[1..])
  }

  function Pair(m: (string, Json)): string {
    Quote(m.0) + ":" + Canonical(m.1)
  }

  function MorePairs(ms: Entries<Json>): string {
    if ms == [] then "" else "," + Pair(ms[0]) + MorePairs(ms[1..])
  }
}
