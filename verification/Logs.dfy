/**
 Reading the whole device log page by page (src/logs.cpp), against any device that answers a
 page with a non-empty part of what is left, or not at all.
 */
module Logs {
  import opened Wrappers
  import opened Sequences
  import opened Errors
  import opened JsonValues
  import opened JsonReading
  import opened Numerals

  const WORD: nat := 0x1_0000_0000
  const PAGE_RECORDS: nat := 64

  datatype Record = Record(sequence: nat, uptime: nat, event: nat, moduleId: nat, level: nat, args: seq<int>, text: string)

  datatype Batch = Batch(bootId: nat, firstAvailable: nat, nextSeq: nat, dropped: nat, overflow: bool,
                         previousBoot: bool, records: seq<Record>)

  // ---------------------------------------------------------------- the device

  /** How the device meets one request: with up to `count` records, late, or with an error. */
  datatype Answer = Delivers(count: nat) | TimesOut | Refuses(error: Error)

  /** The ring as it stands, the level filter of the request, and the answers to successive requests. */
  datatype Device = Device(ring: seq<Record>, shows: Record -> bool, answer: nat -> Answer)

  predicate Ring(ring: seq<Record>) {
    && (forall i :: 0 <= i < |ring| ==> ring[i].sequence < WORD)
    && (forall i, j :: 0 <= i < j < |ring| ==> ring[i].sequence < ring[j].sequence)
  }

  /** The records after a sequence number that the filter shows. */
  function Matching(ring: seq<Record>, shows: Record -> bool, since: int): seq<Record> {
    if ring == [] then []
    else (if ring[0].sequence > since && shows(ring[0]) then [ring[0]] else []) + Matching(ring[1..], shows, since)
  }

  /** The ring's next number, a 32-bit word. */
  function NextSeq(ring: seq<Record>): nat {
    if ring == [] then 0 else (ring[|ring| - 1].sequence + 1) % WORD
  }

  function Smaller(a: nat, b: nat): nat { if a < b then a else b }

  /** The byte budget cuts a batch anywhere, but never down to nothing. */
  function Cut(m: seq<Record>, count: nat): (r: seq<Record>)
    ensures r <= m && |r| <= PAGE_RECORDS && (m != [] ==> r != [])
  {
    m[..Smaller(|m|, Smaller(PAGE_RECORDS, if count == 0 then 1 else count))]
  }

  /** read(): request number k, for a page after `since`. */
  function Read(d: Device, k: nat, since: int): Result<Batch, Error> {
    match d.answer(k)
    case TimesOut => Failure(Error(Timeout, RequestTimeout))
    case Refuses(error) => Failure(error)
    case Delivers(count) =>
      Success(Batch(0, 0, NextSeq(d.ring), 0, false, false, Cut(Matching(d.ring, d.shows, since), count)))
  }

  /** What read_all takes for a timeout. */
  predicate Late(d: Device, k: nat) {
    d.answer(k).TimesOut? || (d.answer(k).Refuses? && d.answer(k).error.code == RequestTimeout)
  }

  // ---------------------------------------------------------------- what is left after a batch

  /** Matching by the head of the ring. */
  lemma MatchingStep(ring: seq<Record>, shows: Record -> bool, since: int)
    requires ring != []
    ensures Matching(ring, shows, since) ==
            if ring[0].sequence > since && shows(ring[0]) then [ring[0]] + Matching(ring[1..], shows, since)
            else Matching(ring[1..], shows, since)
  {
  }

  lemma {:induction false} MatchingIsAfter(ring: seq<Record>, shows: Record -> bool, since: int, i: nat)
    requires i < |Matching(ring, shows, since)|
    ensures Matching(ring, shows, since)[i] in ring && Matching(ring, shows, since)[i].sequence > since
  {
    MatchingStep(ring, shows, since);
    hide Matching;
    var here := ring[0].sequence > since && shows(ring[0]);
    if !here || i > 0 {
      MatchingIsAfter(ring[1..], shows, since, if here then i - 1 else i);
    }
  }

  lemma {:induction false} NothingAfter(ring: seq<Record>, shows: Record -> bool, since: int)
    requires forall i :: 0 <= i < |ring| ==> ring[i].sequence <= since
    ensures Matching(ring, shows, since) == []
  {
    if ring != [] {
      NothingAfter(ring[1..], shows, since);
    }
  }

  lemma {:induction false} AllAfter(ring: seq<Record>, shows: Record -> bool, low: int, high: int)
    requires forall i :: 0 <= i < |ring| ==> ring[i].sequence > high
    requires low <= high
    ensures Matching(ring, shows, low) == Matching(ring, shows, high)
  {
    if ring != [] {
      AllAfter(ring[1..], shows, low, high);
    }
  }

  /** Asking again after record n of what matched gives exactly the rest. */
  lemma {:induction false} RestAfter(ring: seq<Record>, shows: Record -> bool, since: int, n: nat)
    requires Ring(ring) && n < |Matching(ring, shows, since)|
    ensures Matching(ring, shows, Matching(ring, shows, since)[n].sequence) == Matching(ring, shows, since)[n + 1..]
  {
    MatchingStep(ring, shows, since);
    TailIsRing(ring);
    hide Matching, Ring;
    var later := ring[1..];
    if ring[0].sequence > since && shows(ring[0]) {
      BehindHead(ring[0], Matching(later, shows, since), n);
      if n == 0 {
        AllAfter(later, shows, since, ring[0].sequence);
        NothingAtHead(ring, shows, ring[0].sequence);
      } else {
        RestAfter(later, shows, since, n - 1);
        HeadIsPassed(ring, shows, since, n - 1);
      }
    } else {
      RestAfter(later, shows, since, n);
      HeadIsPassed(ring, shows, since, n);
    }
  }

  lemma BehindHead(head: Record, rest: seq<Record>, n: nat)
    requires n <= |rest|
    ensures ([head] + rest)[n + 1..] == rest[n..] && ([head] + rest)[n] == if n == 0 then head else rest[n - 1]
  {
  }

  lemma TailIsRing(ring: seq<Record>)
    requires Ring(ring) && ring != []
    ensures Ring(ring[1..]) && forall i :: 0 <= i < |ring[1..]| ==> ring[1..][i].sequence > ring[0].sequence
  {
  }

  lemma NothingAtHead(ring: seq<Record>, shows: Record -> bool, since: int)
    requires ring != [] && ring[0].sequence <= since
    ensures Matching(ring, shows, since) == Matching(ring[1..], shows, since)
  {
  }

  /** Any later match lies behind the head of the ring. */
  lemma HeadIsPassed(ring: seq<Record>, shows: Record -> bool, since: int, n: nat)
    requires Ring(ring) && ring != [] && n < |Matching(ring[1..], shows, since)|
    ensures var next := Matching(ring[1..], shows, since)[n].sequence;
            ring[0].sequence <= next && Matching(ring, shows, next) == Matching(ring[1..], shows, next)
  {
    MatchingIsAfter(ring[1..], shows, since, n);
    NothingAtHead(ring, shows, Matching(ring[1..], shows, since)[n].sequence);
  }

  lemma RestAfterCut(ring: seq<Record>, shows: Record -> bool, since: int, count: nat)
    requires Ring(ring) && Matching(ring, shows, since) != []
    ensures var m := Matching(ring, shows, since);
            var batch := Cut(m, count);
            && Matching(ring, shows, batch[|batch| - 1].sequence) == m[|batch|..]
            && batch + m[|batch|..] == m
            && batch[|batch| - 1] in ring
  {
    var batch := Cut(Matching(ring, shows, since), count);
    RestAfter(ring, shows, since, |batch| - 1);
    MatchingIsAfter(ring, shows, since, |batch| - 1);
  }

  /** The loop's test: the last record of a batch reaches the next number, as 32-bit words. */
  predicate IsLast(last: Record, nextSeq: nat) { (last.sequence + 1) % WORD >= nextSeq }

  lemma ReachedTheEnd(ring: seq<Record>, shows: Record -> bool, last: Record)
    requires Ring(ring) && last in ring && NextSeq(ring) != 0
    requires IsLast(last, NextSeq(ring))
    ensures Matching(ring, shows, last.sequence) == []
  {
    NothingAfter(ring, shows, last.sequence);
  }

  // ---------------------------------------------------------------- read_all

  /** A page fails if its request is refused, or times out and is then not delivered. */
  predicate Delivered(d: Device, k: nat, calls: nat) {
    d.answer(k).Delivers? || (Late(d, k) && k + 1 < calls && d.answer(k + 1).Delivers?)
  }

  /** The answer that a first page arrives with: it is asked for a second time only if it is late. */
  function FirstAnswer(d: Device): Answer { d.answer(if Late(d, 0) then 1 else 0) }

  /** The first batch that arrives. */
  function FirstBatch(d: Device, since: int): seq<Record> {
    Cut(Matching(d.ring, d.shows, since), if FirstAnswer(d).Delivers? then FirstAnswer(d).count else 0)
  }

  /** The first batch has room for everything that matches. */
  predicate FirstHasRoom(d: Device, since: int) {
    var n := |Matching(d.ring, d.shows, since)|;
    FirstAnswer(d).Delivers? && n <= PAGE_RECORDS && (n <= 1 || n <= FirstAnswer(d).count)
  }

  function Complaint(a: Answer): Error
    requires !a.Delivers?
  {
    if a.TimesOut? then Error(Timeout, RequestTimeout) else a.error
  }

  /** One page: a second request, if the first is late, and no third. */
  method ReadPage(d: Device, k: nat, page: int) returns (batch: Result<Batch, Error>, next: nat)
    ensures k < next <= k + 2
    ensures next == k + 2 <==> Late(d, k)
    ensures batch == Read(d, next - 1, page)
    ensures batch.Success? <==> d.answer(next - 1).Delivers?
  {
    batch := Read(d, k, page);
    next := k + 1;
    if batch.Failure? && batch.error.code == RequestTimeout {
      batch := Read(d, next, page);
      next := next + 1;
    }
  }

  /** All the requests so far were for pages that arrived. */
  predicate AllDelivered(d: Device, calls: nat) {
    forall k :: 0 <= k < calls ==> Delivered(d, k, calls)
  }

  lemma NoneYet(d: Device)
    ensures AllDelivered(d, 0)
  {
  }

  lemma PageDelivered(d: Device, k: nat, next: nat)
    requires AllDelivered(d, k) && k < next <= k + 2 && (next == k + 2 <==> Late(d, k))
    ensures AllDelivered(d, next) <==> d.answer(next - 1).Delivers?
  {
    if d.answer(next - 1).Delivers? {
      forall i | 0 <= i < next ensures Delivered(d, i, next) {
        if i < k { assert Delivered(d, i, k); }
      }
    } else {
      assert !Delivered(d, next - 1, next);
    }
  }

  /**
   read_all. It succeeds exactly if no page fails; then it returns every matching record once
   and in order, however the device cut its batches and whichever pages were late once. The
   one exception is a ring whose last number is the largest 32-bit word: its next number wraps
   to 0, only the first batch is returned, and the result is complete exactly if that batch has
   room for it.
   */
  method ReadAll(d: Device, since: nat) returns (result: Result<seq<Record>, Error>, calls: nat)
    requires Ring(d.ring)
    ensures result.Success? <==> AllDelivered(d, calls)
    ensures result.Success? && !Wraps(d.ring) ==> result.value == Matching(d.ring, d.shows, since)
    ensures result.Success? && Wraps(d.ring) ==> result.value == FirstBatch(d, since)
    ensures result.Success? ==>
              (result.value == Matching(d.ring, d.shows, since) <==> !Wraps(d.ring) || FirstHasRoom(d, since))
    ensures 1 <= calls <= 2 * |Matching(d.ring, d.shows, since)| + 2
    ensures result.Failure? ==> !d.answer(calls - 1).Delivers? && result.error == Complaint(d.answer(calls - 1))
  {
    hide Matching, AllDelivered, Cut, Late, FirstBatch, FirstHasRoom, Wraps, Ring, NextSeq, IsLast;
    ghost var wanted := Matching(d.ring, d.shows, since);
    var all, page := [], since;
    calls := 0;
    NoneYet(d);
    while true
      invariant all + Matching(d.ring, d.shows, page) == wanted
      invariant AllDelivered(d, calls) && calls <= 2 * |all|
      invariant calls == 0 ==> all == [] && page == since
      invariant calls > 0 ==> !Wraps(d.ring)
      decreases |Matching(d.ring, d.shows, page)|
    {
      var batch, next := ReadPage(d, calls, page);
      PageDelivered(d, calls, next);
      if batch.Failure? {
        return Failure(batch.error), next;
      }
      if calls == 0 { FirstPage(d, since, next); }
      calls := next;
      if batch.value.records == [] {
        assert Matching(d.ring, d.shows, page) == [] && all + [] == all;
        return Success(all), calls;
      }
      PageTurn(d, page, calls - 1, batch.value.records, all);
      all := all + batch.value.records;
      var last := batch.value.records[|batch.value.records| - 1];
      if IsLast(last, batch.value.nextSeq) {
        return Success(all), calls;
      }
      page := last.sequence;
    }
  }

  /** The first page that arrives, and whether it is all there is. */
  lemma FirstPage(d: Device, since: int, next: nat)
    requires 1 <= next <= 2 && (next == 2 <==> Late(d, 0)) && d.answer(next - 1).Delivers?
    ensures FirstBatch(d, since) == Cut(Matching(d.ring, d.shows, since), d.answer(next - 1).count)
    ensures FirstBatch(d, since) == Matching(d.ring, d.shows, since) <==> FirstHasRoom(d, since)
  {
  }

  /** After a page: what comes after its last record, and what the loop's test says of it. */
  lemma PageTurn(d: Device, page: int, k: nat, records: seq<Record>, all: seq<Record>)
    requires Ring(d.ring) && d.answer(k).Delivers? && records != []
    requires records == Cut(Matching(d.ring, d.shows, page), d.answer(k).count)
    ensures var last := records[|records| - 1];
            && all + records + Matching(d.ring, d.shows, last.sequence) == all + Matching(d.ring, d.shows, page)
            && |Matching(d.ring, d.shows, last.sequence)| < |Matching(d.ring, d.shows, page)|
            && (Wraps(d.ring) ==> IsLast(last, NextSeq(d.ring)))
            && (!Wraps(d.ring) && IsLast(last, NextSeq(d.ring)) ==>
                  all + records == all + Matching(d.ring, d.shows, page))
  {
    RestAfterCut(d.ring, d.shows, page, d.answer(k).count);
    var last := records[|records| - 1];
    var rest := Matching(d.ring, d.shows, page)[|records|..];
    Regroup(all, records, rest);
    if !Wraps(d.ring) && IsLast(last, NextSeq(d.ring)) {
      ReachedTheEnd(d.ring, d.shows, last);
      assert records + [] == records;
    }
  }

  /** The ring has run up to the largest number. */
  predicate Wraps(ring: seq<Record>) { ring != [] && NextSeq(ring) == 0 }

  /** When the first page arrives, at once or after being late, it is complete exactly if it has room. */
  lemma WrappedIsCompleteIff(d: Device, since: int)
    requires Delivered(d, 0, 2)
    ensures FirstBatch(d, since) == Matching(d.ring, d.shows, since) <==> FirstHasRoom(d, since)
  {
    FirstPage(d, since, if Late(d, 0) then 2 else 1);
  }

  /** A device whose ring ends at the largest word and that cuts its first batch loses the rest. */
  lemma WrappedLoses(a: Record, b: Record)
    requires a.sequence == WORD - 2 && b.sequence == WORD - 1
    ensures var d := Device([a, b], r => true, k => Delivers(1));
            && Ring(d.ring) && Wraps(d.ring) && Matching(d.ring, d.shows, 0) == [a, b]
            && !FirstHasRoom(d, 0) && FirstBatch(d, 0) == [a]
  {
    var d := Device([a, b], r => true, k => Delivers(1));
    assert d.ring[1..] == [b] && [b][1..] == [];
    assert Matching([b], d.shows, 0) == [b];
    assert Matching(d.ring, d.shows, 0) == [a] + [b];
  }

  // ---------------------------------------------------------------- parse_batch

  /**
   value(key, uint32 0), reduced to a word of so many values. `whole` gives the integral part
   of a float by its digits.
   */
  function NumberAt(j: Json, key: string, size: nat, whole: string -> int): nat
    requires size > 0
  {
    match j.Member(key)
    case Some(Bool(b)) => if b then 1 % size else 0
    case Some(Int(i)) => i % size
    case Some(Uint(n)) => n % size
    case Some(Whole(w)) => w % size
    case Some(Fraction(digits)) => whole(digits) % size
    case _ => 0
  }

  predicate FlagAt(j: Json, key: string) { j.Member(key) == Some(Bool(true)) }

  /** The numbers among the items, each as get<int64_t>() has it. */
  function Numbers(items: seq<Json>, whole: string -> int): seq<int> {
    if items == [] then []
    else (match items[0]
          case Int(i) => [i]
          case Uint(n) => [ToInt64(n)]
          case Whole(w) => [w]
          case Fraction(digits) => [whole(digits)]
          case _ => []) + Numbers(items[1..], whole)
  }

  function ParseRecord(raw: Json, whole: string -> int): Record {
    Record(NumberAt(raw, "s", WORD, whole), NumberAt(raw, "u", WORD, whole), NumberAt(raw, "ev", 65536, whole), NumberAt(raw, "mod", 256, whole),
           NumberAt(raw, "lvl", 256, whole), Numbers(raw.ItemsAt("a"), whole), raw.StringAt("t"))
  }

  function ParseRecords(items: seq<Json>, whole: string -> int): seq<Record> {
    if items == [] then [] else (if items[0].Obj? then [ParseRecord(items[0], whole)] else []) + ParseRecords(items[1..], whole)
  }

  function ParseBatch(message: Json, whole: string -> int): Batch {
    Batch(NumberAt(message, "boot_id", WORD, whole), NumberAt(message, "first_seq_available", WORD, whole),
          NumberAt(message, "next_seq", WORD, whole), NumberAt(message, "dropped_count", WORD, whole),
          FlagAt(message, "overflow"), FlagAt(message, "available"), ParseRecords(message.ItemsAt("records"), whole))
  }

  lemma {:induction false} ParseRecordsSnoc(items: seq<Json>, item: Json, whole: string -> int)
    ensures ParseRecords(items + [item], whole) ==
            ParseRecords(items, whole) + (if item.Obj? then [ParseRecord(item, whole)] else [])
  {
    hide ParseRecord;
    if items == [] {
      assert items + [item] == [item];
    } else {
      assert (items + [item])[1..] == items[1..] + [item];
      ParseRecordsSnoc(items[1..], item, whole);
      Regroup(if items[0].Obj? then [ParseRecord(items[0], whole)] else [], ParseRecords(items[1..], whole),
              if item.Obj? then [ParseRecord(item, whole)] else []);
    }
  }

  lemma {:induction false} NumbersSnoc(items: seq<Json>, item: Json, whole: string -> int)
    ensures Numbers(items + [item], whole) == Numbers(items, whole) + Numbers([item], whole)
  {
    if items == [] {
      assert items + [item] == [item];
    } else {
      assert (items + [item])[1..] == items[1..] + [item];
      NumbersSnoc(items[1..], item, whole);
    }
  }

  method CollectArgs(items: seq<Json>, whole: string -> int) returns (args: seq<int>)
    ensures args == Numbers(items, whole)
  {
    args := [];
    for i := 0 to |items|
      invariant args == Numbers(items[..i], whole)
    {
      assert items[..i + 1] == items[..i] + [items[i]] && [items[i]][1..] == [];
      NumbersSnoc(items[..i], items[i], whole);
      match items[i] {
        case Int(n) => args := args + [n];
        case Uint(n) => args := args + [ToInt64(n)];
        case Whole(n) => args := args + [n];
        case Fraction(digits) => args := args + [whole(digits)];
        case _ =>
      }
    }
    assert items[..|items|] == items;
  }

  predicate RecordThrows(raw: Json) {
    || !(IsNumber(raw, "s") && IsNumber(raw, "u") && IsNumber(raw, "ev") && IsNumber(raw, "mod") && IsNumber(raw, "lvl"))
    || !IsText(raw, "t")
  }

  predicate HeaderThrows(m: Json) {
    || !(IsNumber(m, "boot_id") && IsNumber(m, "first_seq_available") && IsNumber(m, "next_seq") && IsNumber(m, "dropped_count"))
    || !(IsFlag(m, "overflow") && IsFlag(m, "available"))
  }

  /** The messages that parse_batch cannot read; records that are no objects are skipped. */
  predicate BatchThrows(m: Json) {
    var items := m.ItemsAt("records");
    HeaderThrows(m) || exists i :: 0 <= i < |items| && items[i].Obj? && RecordThrows(items[i])
  }

  /** parse_batch; None is an exception. */
  method BuildBatch(message: Json, whole: string -> int) returns (batch: Option<Batch>)
    ensures batch.None? <==> BatchThrows(message)
    ensures batch.Some? ==> batch.value == ParseBatch(message, whole)
  {
    hide HeaderThrows, RecordThrows;
    if HeaderThrows(message) {
      return None;
    }
    var built := Batch(NumberAt(message, "boot_id", WORD, whole), NumberAt(message, "first_seq_available", WORD, whole),
                       NumberAt(message, "next_seq", WORD, whole), NumberAt(message, "dropped_count", WORD, whole),
                       FlagAt(message, "overflow"), FlagAt(message, "available"), []);
    ghost var header := built;
    var items := message.ItemsAt("records");
    for i := 0 to |items|
      invariant built == header.(records := ParseRecords(items[..i], whole))
      invariant forall k :: 0 <= k < i ==> !(items[k].Obj? && RecordThrows(items[k]))
    {
      assert items[..i + 1] == items[..i] + [items[i]];
      ParseRecordsSnoc(items[..i], items[i], whole);
      var raw := items[i];
      if raw.Obj? {
        var record :- BuildRecord(raw, whole);
        built := built.(records := built.records + [record]);
      }
    }
    assert items[..|items|] == items;
    return Some(built);
  }

  method BuildRecord(raw: Json, whole: string -> int) returns (record: Option<Record>)
    ensures record.None? <==> RecordThrows(raw)
    ensures record.Some? ==> record.value == ParseRecord(raw, whole)
  {
    if !(IsNumber(raw, "s") && IsNumber(raw, "u") && IsNumber(raw, "ev") && IsNumber(raw, "mod") && IsNumber(raw, "lvl")) {
      return None;
    }
    var args := CollectArgs(raw.ItemsAt("a"), whole);
    var text :- Text(raw, "t");
    return Some(Record(NumberAt(raw, "s", WORD, whole), NumberAt(raw, "u", WORD, whole), NumberAt(raw, "ev", 65536, whole),
                       NumberAt(raw, "mod", 256, whole), NumberAt(raw, "lvl", 256, whole), args, text));
  }

  // ---------------------------------------------------------------- parse_batch inverts the device's encoding

  predicate FitsRecord(r: Record) {
    r.sequence < WORD && r.uptime < WORD && r.event < 65536 && r.moduleId < 256 && r.level < 256
  }

  predicate FitsBatch(b: Batch) {
    && b.bootId < WORD && b.firstAvailable < WORD && b.nextSeq < WORD && b.dropped < WORD
    && (forall i :: 0 <= i < |b.records| ==> FitsRecord(b.records[i]))
  }

  function EncodeNumbers(args: seq<int>): seq<Json> {
    if args == [] then [] else [Int(args[0])] + EncodeNumbers(args[1..])
  }

  function EncodeRecord(r: Record): Json {
    Obj([]).With("s", Int(r.sequence)).With("u", Int(r.uptime)).With("ev", Int(r.event)).With("mod", Int(r.moduleId))
           .With("lvl", Int(r.level)).With("a", Arr(EncodeNumbers(r.args))).With("t", Str(r.text))
  }

  function EncodeRecords(rs: seq<Record>): seq<Json> {
    if rs == [] then [] else [EncodeRecord(rs[0])] + EncodeRecords(rs[1..])
  }

  function EncodeBatch(b: Batch): Json {
    Obj([]).With("boot_id", Int(b.bootId)).With("first_seq_available", Int(b.firstAvailable))
           .With("next_seq", Int(b.nextSeq)).With("dropped_count", Int(b.dropped)).With("overflow", Bool(b.overflow))
           .With("available", Bool(b.previousBoot)).With("records", Arr(EncodeRecords(b.records)))
  }

  lemma {:induction false} NumbersRoundTrip(args: seq<int>, whole: string -> int)
    ensures Numbers(EncodeNumbers(args), whole) == args
  {
    if args != [] {
      NumbersRoundTrip(args[1..], whole);
      assert EncodeNumbers(args)[1..] == EncodeNumbers(args[1..]);
    }
  }

  /** Seven members put one after the other: each key finds its own. */
  lemma SevenMembers(k: seq<string>, v: seq<Json>)
    requires |k| == |v| == 7 && (forall i, j :: 0 <= i < j < 7 ==> k[i] != k[j])
    ensures var o := Obj([]).With(k[0], v[0]).With(k[1], v[1]).With(k[2], v[2]).With(k[3], v[3])
                            .With(k[4], v[4]).With(k[5], v[5]).With(k[6], v[6]);
            forall i :: 0 <= i < 7 ==> o.Member(k[i]) == Some(v[i])
  {
    var o0 := Obj([]).With(k[0], v[0]);
    var o1 := o0.With(k[1], v[1]);
    var o2 := o1.With(k[2], v[2]);
    var o3 := o2.With(k[3], v[3]);
    var o4 := o3.With(k[4], v[4]);
    var o5 := o4.With(k[5], v[5]);
    forall i | 0 <= i < 7 ensures o5.With(k[6], v[6]).Member(k[i]) == Some(v[i]) {
      MemberAfterWith(Obj([]), k[0], v[0], k[i]);
      MemberAfterWith(o0, k[1], v[1], k[i]);
      MemberAfterWith(o1, k[2], v[2], k[i]);
      MemberAfterWith(o2, k[3], v[3], k[i]);
      MemberAfterWith(o3, k[4], v[4], k[i]);
      MemberAfterWith(o4, k[5], v[5], k[i]);
      MemberAfterWith(o5, k[6], v[6], k[i]);
    }
  }

  lemma RecordRoundTrip(r: Record, whole: string -> int)
    requires FitsRecord(r)
    ensures ParseRecord(EncodeRecord(r), whole) == r && EncodeRecord(r).Obj? && !RecordThrows(EncodeRecord(r))
  {
    var k := ["s", "u", "ev", "mod", "lvl", "a", "t"];
    var v := [Int(r.sequence), Int(r.uptime), Int(r.event), Int(r.moduleId), Int(r.level),
              Arr(EncodeNumbers(r.args)), Str(r.text)];
    SevenMembers(k, v);
    var o := EncodeRecord(r);
    assert forall i :: 0 <= i < 7 ==> o.Member(k[i]) == Some(v[i]);
    assert o.Member(k[0]) == Some(v[0]) && o.Member(k[1]) == Some(v[1]) && o.Member(k[2]) == Some(v[2])
        && o.Member(k[3]) == Some(v[3]) && o.Member(k[4]) == Some(v[4]) && o.Member(k[5]) == Some(v[5])
        && o.Member(k[6]) == Some(v[6]);
    NumbersRoundTrip(r.args, whole);
  }

  lemma {:induction false} RecordsRoundTrip(rs: seq<Record>, whole: string -> int)
    requires forall i :: 0 <= i < |rs| ==> FitsRecord(rs[i])
    ensures ParseRecords(EncodeRecords(rs), whole) == rs
  {
    hide ParseRecord, EncodeRecord;
    if rs != [] {
      RecordRoundTrip(rs[0], whole);
      RecordsRoundTrip(rs[1..], whole);
      assert EncodeRecords(rs)[1..] == EncodeRecords(rs[1..]);
    }
  }

  lemma {:induction false} RecordsAreReadable(rs: seq<Record>)
    requires forall i :: 0 <= i < |rs| ==> FitsRecord(rs[i])
    ensures forall i :: 0 <= i < |EncodeRecords(rs)| ==> !RecordThrows(EncodeRecords(rs)[i])
  {
    hide RecordThrows, EncodeRecord;
    if rs != [] {
      RecordRoundTrip(rs[0], digits => 0);
      RecordsAreReadable(rs[1..]);
      assert EncodeRecords(rs)[1..] == EncodeRecords(rs[1..]);
    }
  }

  /** What a device encodes, parse_batch reads back, and never throws on. */
  lemma BatchRoundTrip(b: Batch, whole: string -> int)
    requires FitsBatch(b)
    ensures ParseBatch(EncodeBatch(b), whole) == b && !BatchThrows(EncodeBatch(b))
  {
    HeaderRoundTrip(b, whole);
    RecordsAreReadable(b.records);
    RecordsRoundTrip(b.records, whole);
    hide EncodeBatch, ParseRecords, EncodeRecords, HeaderThrows, RecordThrows;
  }

  lemma HeaderRoundTrip(b: Batch, whole: string -> int)
    requires FitsBatch(b)
    ensures EncodeBatch(b).ItemsAt("records") == EncodeRecords(b.records) && !HeaderThrows(EncodeBatch(b))
    ensures ParseBatch(EncodeBatch(b), whole) == b.(records := ParseRecords(EncodeRecords(b.records), whole))
  {
    var k := ["boot_id", "first_seq_available", "next_seq", "dropped_count", "overflow", "available", "records"];
    var v := [Int(b.bootId), Int(b.firstAvailable), Int(b.nextSeq), Int(b.dropped), Bool(b.overflow),
              Bool(b.previousBoot), Arr(EncodeRecords(b.records))];
    SevenMembers(k, v);
    var o := EncodeBatch(b);
    assert forall i :: 0 <= i < 7 ==> o.Member(k[i]) == Some(v[i]);
    assert o.Member(k[0]) == Some(v[0]) && o.Member(k[1]) == Some(v[1]) && o.Member(k[2]) == Some(v[2])
        && o.Member(k[3]) == Some(v[3]) && o.Member(k[4]) == Some(v[4]) && o.Member(k[5]) == Some(v[5])
        && o.Member(k[6]) == Some(v[6]);
  }
}
