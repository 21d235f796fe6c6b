/**
 std::map with string keys, kept as the list of its entries in iteration order:
 bytewise ascending, each key once. The look-up laws hold for every list; order and
 uniqueness are a separate invariant, kept by every operation.
 */
module OrderedMap {
  import opened Wrappers

  type Entries<V> = seq<(string, V)>

  /** std::string's operator<: bytewise lexicographic. */
  predicate Less(a: string, b: string) {
    if b == [] then false
    else if a == [] then true
    else if a[0] != b[0] then a[0] < b[0]
    else Less(a[1..], b[1..])
  }

  lemma {:induction false} LessIsTransitive(a: string, b: string, c: string)
    requires Less(a, b) && Less(b, c)
    ensures Less(a, c)
  {
    if a != [] && a[0] == b[0] == c[0] {
      LessIsTransitive(a[1..], b[1..], c[1..]);
    }
  }

  lemma {:induction false} LessIsTotal(a: string, b: string)
    ensures Less(a, b) || a == b || Less(b, a)
    ensures Less(a, b) ==> a != b && !Less(b, a)
  {
    if a != [] && b != [] && a[0] == b[0] {
      LessIsTotal(a[1..], b[1..]);
      assert a == [a[0]] + a[1..] && b == [b[0]] + b[1..];
    }
  }

  predicate Ascending<V>(m: Entries<V>) {
    |m| <= 1 || (Less(m[0].0, m[1].0) && Ascending(m[1..]))
  }

  function Find<V>(m: Entries<V>, k: string): Option<V> {
    if m == [] then None else if m[0].0 == k then Some(m[0].1) else Find(m[1..], k)
  }

  predicate Has<V>(m: Entries<V>, k: string) { Find(m, k).Some? }

  /** insert_or_assign, and assignment through operator[]. */
  function Put<V>(m: Entries<V>, k: string, v: V): Entries<V> {
    if m == [] || Less(k, m[0].0) then [(k, v)] + m
    else if m[0].0 == k then [(k, v)] + m[1..]
    else [m[0]] + Put(m[1..], k, v)
  }

  /** emplace: leaves an existing entry alone. */
  function Emplace<V>(m: Entries<V>, k: string, v: V): Entries<V> {
    if Has(m, k) then m else Put(m, k, v)
  }

  function Remove<V>(m: Entries<V>, k: string): Entries<V> {
    if m == [] then [] else if m[0].0 == k then m[1..] else [m[0]] + Remove(m[1..], k)
  }

  /** Put changes the look-up of its own key and of no other. */
  lemma {:induction false} FindAfterPut<V>(m: Entries<V>, k: string, v: V, q: string)
    ensures Find(Put(m, k, v), q) == if q == k then Some(v) else Find(m, q)
  {
    if m != [] && !Less(k, m[0].0) && m[0].0 != k {
      assert Put(m, k, v)[1..] == Put(m[1..], k, v);
      FindAfterPut(m[1..], k, v, q);
    }
  }

  lemma {:induction false} PutKeepsAscending<V>(m: Entries<V>, k: string, v: V)
    requires Ascending(m)
    ensures Ascending(Put(m, k, v))
    ensures Put(m, k, v) != []
    ensures m != [] && !Less(k, m[0].0) && m[0].0 != k ==> Put(m, k, v)[0] == m[0]
  {
    if m != [] && !Less(k, m[0].0) {
      LessIsTotal(k, m[0].0);
      if m[0].0 != k {
        PutKeepsAscending(m[1..], k, v);
        assert Put(m, k, v)[1..] == Put(m[1..], k, v);
      } else {
        assert Put(m, k, v)[1..] == m[1..];
      }
    } else {
      assert Put(m, k, v)[1..] == m;
    }
  }

  lemma {:induction false} HeadIsLeast<V>(m: Entries<V>, i: nat)
    requires Ascending(m) && 0 < i < |m|
    ensures Less(m[0].0, m[i].0)
  {
    if i > 1 {
      HeadIsLeast(m[1..], i - 1);
      LessIsTransitive(m[0].0, m[1].0, m[i].0);
    }
  }

  lemma {:induction false} KeysDiffer<V>(m: Entries<V>, i: nat, j: nat)
    requires Ascending(m) && i < j < |m|
    ensures m[i].0 != m[j].0
  {
    if i == 0 {
      HeadIsLeast(m, j);
      LessIsTotal(m[0].0, m[j].0);
    } else {
      KeysDiffer(m[1..], i - 1, j - 1);
    }
  }

  lemma {:induction false} FoundIsMember<V>(m: Entries<V>, k: string)
    ensures Has(m, k) <==> exists i :: 0 <= i < |m| && m[i].0 == k
    ensures Has(m, k) ==> exists i :: 0 <= i < |m| && m[i] == (k, Find(m, k).value)
  {
    if m != [] {
      FoundIsMember(m[1..], k);
      if m[0].0 == k {
        assert m[0] == (k, m[0].1);
      } else if Has(m, k) {
        var i :| 0 <= i < |m[1..]| && m[1..][i] == (k, Find(m, k).value);
        assert m[i + 1] == (k, Find(m, k).value);
      } else {
        assert forall i :: 0 < i < |m| ==> m[i] == m[1..][i - 1];
      }
    }
  }

  lemma {:induction false} FindAt<V>(m: Entries<V>, i: nat)
    requires Ascending(m) && i < |m|
    ensures Find(m, m[i].0) == Some(m[i].1)
  {
    if i > 0 {
      KeysDiffer(m, 0, i);
      FindAt(m[1..], i - 1);
    }
  }

  lemma {:induction false} FindAfterRemove<V>(m: Entries<V>, k: string, q: string)
    requires Ascending(m)
    ensures Find(Remove(m, k), q) == if q == k then None else Find(m, q)
  {
    if m != [] && m[0].0 != k {
      assert Remove(m, k)[1..] == Remove(m[1..], k);
      FindAfterRemove(m[1..], k, q);
    } else if m != [] {
      TailLacksHead(m);
    }
  }

  lemma TailLacksHead<V>(m: Entries<V>)
    requires Ascending(m) && m != []
    ensures Find(m[1..], m[0].0) == None
  {
    FoundIsMember(m[1..], m[0].0);
    forall i | 0 <= i < |m[1..]| ensures m[1..][i].0 != m[0].0 {
      KeysDiffer(m, 0, i + 1);
    }
  }

  lemma {:induction false} RemoveKeepsAscending<V>(m: Entries<V>, k: string)
    requires Ascending(m)
    ensures Ascending(Remove(m, k))
    ensures m != [] && m[0].0 != k ==> Remove(m, k)[0] == m[0]
  {
    if m != [] && m[0].0 != k {
      RemoveKeepsAscending(m[1..], k);
      assert Remove(m, k)[1..] == Remove(m[1..], k);
      if |m| > 2 && m[1].0 == k {
        HeadIsLeast(m, 2);
      }
    }
  }

  /** The representation is canonical: the look-up function determines the list. */
  lemma {:induction false} SameLookupsSameEntries<V>(a: Entries<V>, b: Entries<V>)
    requires Ascending(a) && Ascending(b)
    requires forall k :: Find(a, k) == Find(b, k)
    ensures a == b
  {
    var least := if a != [] then a[0].0 else if b != [] then b[0].0 else "";
    assert Find(a, least) == Find(b, least);
    if a != [] {
      HeadsAgree(a, b);
      forall k ensures Find(a[1..], k) == Find(b[1..], k) {
        TailLacksHead(a);
        TailLacksHead(b);
        assert Find(a, k) == Find(b, k);
      }
      SameLookupsSameEntries(a[1..], b[1..]);
      assert a == [a[0]] + a[1..] && b == [b[0]] + b[1..];
    }
  }

  lemma HeadsAgree<V>(a: Entries<V>, b: Entries<V>)
    requires Ascending(a) && Ascending(b) && a != [] && b != []
    requires forall k :: Find(a, k) == Find(b, k)
    ensures a[0] == b[0]
  {
    if a[0].0 != b[0].0 {
      FoundIsMember(a, b[0].0);
      FoundIsMember(b, a[0].0);
      assert Find(b, b[0].0) == Find(a, b[0].0) && Find(a, a[0].0) == Find(b, a[0].0);
      var i :| 0 <= i < |a| && a[i].0 == b[0].0;
      var j :| 0 <= j < |b| && b[j].0 == a[0].0;
      HeadIsLeast(a, i);
      HeadIsLeast(b, j);
      LessIsTotal(a[0].0, b[0].0);
    } else {
      assert Find(a, a[0].0) == Find(b, a[0].0);
    }
  }
}
