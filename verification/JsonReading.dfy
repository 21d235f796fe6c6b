/**
 Reading a member with value(key, default) of nlohmann: it throws when the member is there and
 has another type than the default, null included.
 */
module JsonReading {
  import opened Wrappers
  import opened JsonValues

  predicate IsText(j: Json, key: string) { j.Member(key).Some? ==> j.Member(key).value.Str? }

  /** Integers of every width are read from any number, and from true and false. */
  predicate IsNumber(j: Json, key: string) {
    match j.Member(key)
    case None => true
    case Some(v) => v.Bool? || v.Int? || v.Uint? || v.Whole? || v.Fraction?
  }

  predicate IsFlag(j: Json, key: string) { j.Member(key).Some? ==> j.Member(key).value.Bool? }

  predicate AreTexts(j: Json, keys: seq<string>) { forall i :: 0 <= i < |keys| ==> IsText(j, keys[i]) }

  /** value(key, ""); None is the exception. */
  function Text(j: Json, key: string): (r: Option<string>)
    ensures r.Some? <==> IsText(j, key)
    ensures r.Some? ==> r.value == j.StringAt(key)
  {
    match j.Member(key)
    case None => Some("")
    case Some(Str(text)) => Some(text)
    case _ => None
  }

  /** Several value(key, "") one after the other. */
  method ReadTexts(j: Json, keys: seq<string>) returns (r: Option<seq<string>>)
    ensures r.Some? <==> AreTexts(j, keys)
    ensures r.Some? ==> |r.value| == |keys| && forall i :: 0 <= i < |keys| ==> r.value[i] == j.StringAt(keys[i])
  {
    var texts := [];
    for i := 0 to |keys|
      invariant |texts| == i
      invariant forall k :: 0 <= k < i ==> IsText(j, keys[k]) && texts[k] == j.StringAt(keys[k])
    {
      var text :- Text(j, keys[i]);
      texts := texts + [text];
    }
    return Some(texts);
  }
}
