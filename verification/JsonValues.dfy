/** JSON values as nlohmann::json holds them. */
module JsonValues {
  import opened Wrappers
  import opened OrderedMap

  /**
   Int, Uint and the two float constructors keep nlohmann's number types apart:
   Whole is a float with an integral value in the range of int64, Fraction any other
   finite float, identified by the digits that print it.
   */
  datatype Json =
    | Null
    | Bool(b: bool)
    | Int(i: int)
    | Uint(n: nat)
    | Whole(w: int)
    | Fraction(token: string)
    | Str(s: string)
    | Arr(items: seq<Json>)
    | Obj(members: Entries<Json>)
  {
    /** find(key); only objects have members. */
    function Member(key: string): Option<Json> {
      if Obj? then Find(members, key) else None
    }

    /** value(key, ""). */
    function StringAt(key: string): string {
      match Member(key)
      case Some(Str(text)) => text
      case _ => ""
    }

    /** value(key, array()) as a loop goes over it: the values of an object, any other value by itself. */
    function ItemsAt(key: string): seq<Json> {
      match Member(key)
      case None => []
      case Some(Null) => []
      case Some(Arr(list)) => list
      case Some(Obj(ms)) => Values(ms)
      case Some(single) => [single]
    }

    /** operator[](key) = value. */
    function With(key: string, value: Json): Json
      requires Obj?
    {
      Obj(Put(members, key, value))
    }
  }

  function Values(ms: Entries<Json>): seq<Json> {
    if ms == [] then [] else [ms[0].1] + Values(ms[1..])
  }

  lemma MemberAfterWith(j: Json, key: string, value: Json, q: string)
    requires j.Obj?
    ensures j.With(key, value).Member(q) == if q == key then Some(value) else j.Member(q)
  {
    FindAfterPut(j.members, key, value, q);
  }
}
