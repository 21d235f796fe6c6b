/** The poller's grid, its ledgers and its open polls, over every run. */
module PollerTheorems {
  import opened OrderedMap
  import opened PollerState

  // ---------------------------------------------------------------- one entry

  /** Every step along the grid is a poll issued, one skipped, or a cycle missed. */
  predicate OnGrid(en: Entry) {
    !en.once ==> en.nextDue == en.origin + en.interval * (en.issued + en.skipped + en.missed)
  }

  /** nextDue is the least point of the grid after `now`; with a negative interval it stays behind. */
  predicate JustAhead(en: Entry, now: int) {
    && (!en.once && en.interval > 0 ==> now < en.nextDue && en.nextDue - en.interval <= now)
    && (!en.once && en.interval < 0 ==> en.nextDue <= now + en.interval)
  }

  /** An entry that no pass stops at. */
  predicate NonZero(en: Entry) { !en.once ==> en.interval != 0 }

  /** A once-entry has been polled exactly once since the raster was rebuilt. */
  predicate Served(en: Entry) { en.once ==> en.onceDone && en.issued == 1 }

  predicate Settled(en: Entry, now: int) { NonZero(en) && OnGrid(en) && JustAhead(en, now) && Served(en) }

  lemma DivisionBounds(x: int, d: int)
    requires d > 0 && x >= 0
    ensures d * (x / d) <= x < d * (x / d + 1)
  {
  }

  lemma BehindIsExact(en: Entry, now: int)
    requires en.interval != 0 && en.nextDue <= now
    ensures var next := en.nextDue + (Behind(en, now) + 1) * en.interval;
            if en.interval > 0 then now < next && next - en.interval <= now else next <= now + en.interval
  {
    if en.interval > 0 {
      DivisionBounds(now - en.nextDue, en.interval);
    } else {
      NegativeBounds(now - en.nextDue, en.interval);
      NextPoint(en.nextDue, Behind(en, now), en.interval);
    }
  }

  lemma NegativeBounds(x: int, d: int)
    requires d < 0 && x >= 0
    ensures 0 <= d * (x / d) <= x
  {
  }

  lemma NextPoint(t: int, k: int, d: int)
    ensures t + (k + 1) * d == t + d * k + d
  {
  }

  lemma Stride(d: int, n: int, k: int)
    ensures d * (n + 1 + k) == d * n + (k + 1) * d
  {
  }

  lemma TickSettles(en: Entry, before: int, now: int)
    requires Settled(en, before) && before <= now
    ensures Passes(en, now) && Settled(TickEntry(en, now), now)
  {
    if !en.once && en.nextDue <= now {
      BehindIsExact(en, now);
      Stride(en.interval, en.issued + en.skipped + en.missed, Behind(en, now));
    }
  }

  /** An entry as reset_raster leaves it. */
  predicate Reset(en: Entry, now: int) {
    en.nextDue == now == en.origin && !en.inFlight && (en.once ==> !en.onceDone)
    && en.issued == 0 && en.skipped == 0 && en.missed == 0
  }

  lemma ResetSettles(en: Entry, now: int)
    requires Reset(en, now) && Passes(en, now)
    ensures Settled(TickEntry(en, now), now) && IsDue(en, now)
  {
    if !en.once {
      BehindIsExact(en, now);
      Stride(en.interval, 0, Behind(en, now));
    }
  }

  // ---------------------------------------------------------------- all entries

  lemma {:induction false} RebuiltAt(m: Entries<Entry>, now: int, k: string)
    ensures Has(Rebuilt(m, now), k) <==> Has(m, k)
    ensures Has(m, k) ==> Reset(Find(Rebuilt(m, now), k).value, now)
    ensures Has(m, k) ==> Find(Rebuilt(m, now), k).value.once == Find(m, k).value.once
    ensures Has(m, k) ==> Find(Rebuilt(m, now), k).value.interval == Find(m, k).value.interval
  {
    if m != [] {
      assert Rebuilt(m, now)[1..] == Rebuilt(m[1..], now);
      RebuiltAt(m[1..], now, k);
    }
  }

  lemma {:induction false} TickedAt(m: Entries<Entry>, now: int, k: string)
    requires Passable(m, now)
    ensures Has(Ticked(m, now), k) <==> Has(m, k)
    ensures Has(m, k) ==> Passes(Find(m, k).value, now) && Find(Ticked(m, now), k).value == TickEntry(Find(m, k).value, now)
  {
    if m != [] {
      assert Ticked(m, now)[1..] == Ticked(m[1..], now);
      TickedAt(m[1..], now, k);
    }
  }

  lemma {:induction false} DueAt(m: Entries<Entry>, now: int, k: string)
    requires Ascending(m)
    ensures k in Due(m, now) <==> Has(m, k) && IsDue(Find(m, k).value, now)
  {
    if m != [] {
      DueAt(m[1..], now, k);
      TailLacksHead(m);
    }
  }

  predicate Distinct(names: seq<string>) {
    forall i, j :: 0 <= i < j < |names| ==> names[i] != names[j]
  }

  lemma {:induction false} DueIsDistinct(m: Entries<Entry>, now: int)
    requires Ascending(m)
    ensures Distinct(Due(m, now))
  {
    if m != [] {
      DueIsDistinct(m[1..], now);
      TailLacksHead(m);
      DueAt(m[1..], now, m[0].0);
    }
  }

  lemma {:induction false} RebuiltAscends(m: Entries<Entry>, now: int)
    requires Ascending(m)
    ensures Ascending(Rebuilt(m, now)) && |Rebuilt(m, now)| == |m|
    ensures m != [] ==> Rebuilt(m, now)[0].0 == m[0].0
    ensures Skips(Rebuilt(m, now)) == 0 && Misses(Rebuilt(m, now)) == 0
  {
    if m != [] {
      assert Rebuilt(m, now)[1..] == Rebuilt(m[1..], now);
      RebuiltAscends(m[1..], now);
    }
  }

  lemma {:induction false} TickedAscends(m: Entries<Entry>, now: int)
    requires Ascending(m) && Passable(m, now)
    ensures Ascending(Ticked(m, now)) && |Ticked(m, now)| == |m|
    ensures m != [] ==> Ticked(m, now)[0].0 == m[0].0
  {
    if m != [] {
      assert Ticked(m, now)[1..] == Ticked(m[1..], now);
      TickedAscends(m[1..], now);
    }
  }

  lemma {:induction false} TickedGrows(m: Entries<Entry>, now: int)
    requires Passable(m, now)
    ensures Skips(m) <= Skips(Ticked(m, now))
  {
    if m != [] {
      assert Ticked(m, now)[1..] == Ticked(m[1..], now);
      TickedGrows(m[1..], now);
    }
  }

  lemma {:induction false} PutSums(m: Entries<Entry>, k: string, v: Entry)
    requires Ascending(m)
    ensures Skips(Put(m, k, v)) + EntryAt(m, k).skipped == Skips(m) + v.skipped
    ensures Misses(Put(m, k, v)) + EntryAt(m, k).missed == Misses(m) + v.missed
  {
    if m == [] || Less(k, m[0].0) {
      KeyBelowIsAbsent(m, k);
      assert Put(m, k, v)[1..] == m;
    } else if m[0].0 == k {
      assert Put(m, k, v)[1..] == m[1..];
    } else {
      assert Put(m, k, v)[1..] == Put(m[1..], k, v);
      PutSums(m[1..], k, v);
    }
  }

  lemma KeyBelowIsAbsent(m: Entries<Entry>, k: string)
    requires Ascending(m) && (m == [] || Less(k, m[0].0))
    ensures !Has(m, k)
  {
    if Has(m, k) {
      FoundIsMember(m, k);
      var i :| 0 <= i < |m| && m[i].0 == k;
      LessIsTotal(k, m[0].0);
      if i > 0 {
        HeadIsLeast(m, i);
        LessIsTransitive(k, m[0].0, k);
        LessIsTotal(k, k);
      }
    }
  }

  lemma {:induction false} RemoveSums(m: Entries<Entry>, k: string)
    requires Ascending(m)
    ensures Skips(Remove(m, k)) + EntryAt(m, k).skipped == Skips(m)
    ensures Misses(Remove(m, k)) + EntryAt(m, k).missed == Misses(m)
  {
    if m != [] && m[0].0 != k {
      assert Remove(m, k)[1..] == Remove(m[1..], k);
      RemoveSums(m[1..], k);
    }
  }

  // ---------------------------------------------------------------- open polls

  /** How many open polls ask for the name. */
  function Count(cs: seq<seq<string>>, name: string): nat {
    if cs == [] then 0 else (if name in cs[0] then 1 else 0) + Count(cs[1..], name)
  }

  lemma {:induction false} CountConcat(a: seq<seq<string>>, b: seq<seq<string>>, name: string)
    ensures Count(a + b, name) == Count(a, name) + Count(b, name)
  {
    if a == [] {
      assert a + b == b;
    } else {
      assert (a + b)[1..] == a[1..] + b;
      CountConcat(a[1..], b, name);
    }
  }

  lemma CountWithout(cs: seq<seq<string>>, i: nat, name: string)
    requires i < |cs|
    ensures Count(cs, name) == Count(cs[..i] + cs[i + 1..], name) + (if name in cs[i] then 1 else 0)
  {
    assert cs == cs[..i] + ([cs[i]] + cs[i + 1..]);
    CountConcat(cs[..i], [cs[i]] + cs[i + 1..], name);
    CountConcat(cs[..i], cs[i + 1..], name);
    assert ([cs[i]] + cs[i + 1..])[1..] == cs[i + 1..];
  }

  function Concatenated(cs: seq<seq<string>>): seq<string> {
    if cs == [] then [] else cs[0] + Concatenated(cs[1..])
  }

  /** The chunks are non-empty, hold at most a hundred names, and are the due names in order. */
  lemma {:induction false} ChunksPartition(due: seq<string>)
    ensures Concatenated(Chunks(due)) == due
    ensures forall i :: 0 <= i < |Chunks(due)| ==> 0 < |Chunks(due)[i]| <= MAX_NAMES_PER_REQUEST
    ensures due != [] ==> Chunks(due) != []
    decreases |due|
  {
    if |due| > MAX_NAMES_PER_REQUEST {
      ChunksPartition(due[MAX_NAMES_PER_REQUEST..]);
      assert Chunks(due)[1..] == Chunks(due[MAX_NAMES_PER_REQUEST..]);
    } else if due != [] {
      assert Chunks(due)[1..] == [];
    }
  }

  /** Each due name is asked for by exactly one of them, no other name by any. */
  lemma {:induction false} ChunksCount(due: seq<string>, name: string)
    requires Distinct(due)
    ensures Count(Chunks(due), name) == if name in due then 1 else 0
    decreases |due|
  {
    if |due| > MAX_NAMES_PER_REQUEST {
      var head, rest := due[..MAX_NAMES_PER_REQUEST], due[MAX_NAMES_PER_REQUEST..];
      assert due == head + rest;
      assert Chunks(due)[1..] == Chunks(rest);
      ChunksCount(rest, name);
    } else if due != [] {
      assert Chunks(due)[1..] == [];
    }
  }

  lemma {:induction false} LandedAt(m: Entries<Entry>, names: seq<string>, k: string)
    ensures Has(AllLanded(m, names), k) <==> Has(m, k)
    ensures Has(m, k) ==> Find(AllLanded(m, names), k).value
                          == (if k in names then Find(m, k).value.(inFlight := false) else Find(m, k).value)
    decreases |names|
  {
    if names != [] {
      if Has(m, names[0]) {
        FindAfterPut(m, names[0], Find(m, names[0]).value.(inFlight := false), k);
      }
      LandedAt(Landed(m, names[0]), names[1..], k);
    }
  }

  /** The pass gets through exactly if every entry lets it. */
  lemma {:induction false} PassableIff(m: Entries<Entry>, now: int)
    requires Ascending(m)
    ensures Passable(m, now) <==> forall k :: Has(m, k) ==> Passes(Find(m, k).value, now)
  {
    if m != [] {
      PassableIff(m[1..], now);
      TailLacksHead(m);
      assert Has(m, m[0].0) && Find(m, m[0].0).value == m[0].1;
      forall k | Has(m[1..], k) ensures Has(m, k) && Find(m, k) == Find(m[1..], k) {
      }
      forall k | Has(m, k) && k != m[0].0 ensures Has(m[1..], k) && Find(m, k) == Find(m[1..], k) {
      }
    }
  }

  lemma {:induction false} LandedSums(m: Entries<Entry>, names: seq<string>)
    requires Ascending(m)
    ensures Ascending(AllLanded(m, names))
    ensures Skips(AllLanded(m, names)) == Skips(m) && Misses(AllLanded(m, names)) == Misses(m)
    decreases |names|
  {
    if names != [] {
      if Has(m, names[0]) {
        var v := Find(m, names[0]).value.(inFlight := false);
        PutSums(m, names[0], v);
        PutKeepsAscending(m, names[0], v);
      }
      LandedSums(Landed(m, names[0]), names[1..]);
    }
  }

  // ---------------------------------------------------------------- the invariant

  ghost predicate AllSettled(m: Entries<Entry>, now: int) {
    forall k :: Has(m, k) ==> Settled(Find(m, k).value, now)
  }

  /** At most one open poll asks for any name, and in_flight tells which. */
  ghost predicate Unstacked(m: Entries<Entry>, outstanding: seq<seq<string>>) {
    forall k :: Count(outstanding, k) <= 1
             && (Has(m, k) ==> Count(outstanding, k) == if Find(m, k).value.inFlight then 1 else 0)
  }

  /** The statistics are the sums of the ledgers. */
  predicate Accounted(p: Poller) {
    && p.stats.skippedInFlight == p.retiredSkipped + Skips(p.entries)
    && p.stats.missedDeadlines == p.retiredMissed + Misses(p.entries)
  }

  ghost predicate Good(p: Poller) {
    && Ascending(p.entries) && Accounted(p)
    && (!p.dirty ==> AllSettled(p.entries, p.lastTick))
    && (!p.dirty && p.clean ==> Unstacked(p.entries, p.outstanding))
  }

  lemma AddKeepsGood(p: Poller, name: string, en: Entry)
    requires Good(p)
    requires en.skipped == EntryAt(p.entries, name).skipped && en.missed == EntryAt(p.entries, name).missed
    ensures Good(p.(entries := Put(p.entries, name, en), dirty := true))
  {
    PutSums(p.entries, name, en);
    PutKeepsAscending(p.entries, name, en);
  }

  lemma {:induction false} AddDefaultsKeepsGood(p: Poller, catalog: seq<(string, PollClass)>)
    requires Good(p)
    ensures Good(AddDefaults(p, catalog))
    decreases |catalog|
  {
    if catalog != [] {
      var (name, k) := catalog[0];
      if k != Disabled {
        AddKeepsGood(p, name, if k == OnConnect then EntryAt(p.entries, name).(once := true, onceDone := false)
                              else EntryAt(p.entries, name).(interval := ClassInterval(p.classes, k), once := false));
      }
      AddDefaultsKeepsGood(AddDefault(p, name, k), catalog[1..]);
    }
  }

  lemma RemoveKeepsGood(p: Poller, name: string)
    requires Good(p)
    ensures Good(RemoveEntry(p, name))
  {
    RemoveSums(p.entries, name);
    RemoveKeepsAscending(p.entries, name);
    forall k ensures Has(Remove(p.entries, name), k) ==> Has(p.entries, k) && Find(Remove(p.entries, name), k) == Find(p.entries, k) {
      if Has(p.entries, name) {
        FindAfterRemove(p.entries, name, k);
      } else {
        RemoveAbsent(p.entries, name);
      }
    }
  }

  lemma {:induction false} RemoveAbsent(m: Entries<Entry>, k: string)
    requires !Has(m, k)
    ensures Remove(m, k) == m
  {
    if m != [] {
      RemoveAbsent(m[1..], k);
      assert m == [m[0]] + m[1..];
    }
  }

  lemma CompleteKeepsGood(p: Poller, i: nat, ok: bool)
    requires Good(p) && i < |p.outstanding|
    ensures Good(Complete(p, i, ok))
  {
    var r := Complete(p, i, ok);
    LandedSums(p.entries, p.outstanding[i]);
    forall k ensures Has(r.entries, k) ==> Has(p.entries, k)
      ensures !p.dirty && Has(r.entries, k) ==> Settled(Find(r.entries, k).value, p.lastTick)
      ensures !p.dirty && p.clean ==>
                Count(r.outstanding, k) <= 1
                && (Has(r.entries, k) ==> Count(r.outstanding, k) == if Find(r.entries, k).value.inFlight then 1 else 0)
    {
      LandedAt(p.entries, p.outstanding[i], k);
      CountWithout(p.outstanding, i, k);
    }
  }

  lemma RasterAscends(p: Poller, now: int)
    requires Good(p)
    ensures Ascending(Raster(p, now).entries) && Accounted(Raster(p, now))
  {
    RebuiltAscends(p.entries, now);
  }

  /** The entry as the pass of a tick finds it: as it stood, or reset. */
  lemma RasterAt(p: Poller, now: int, k: string)
    requires Good(p)
    ensures Has(Raster(p, now).entries, k) <==> Has(p.entries, k)
    ensures Has(p.entries, k) ==> Find(Raster(p, now).entries, k).value.once == Find(p.entries, k).value.once
    ensures p.dirty && Has(p.entries, k) ==> Reset(Find(Raster(p, now).entries, k).value, now)
    ensures !p.dirty ==> Find(Raster(p, now).entries, k) == Find(p.entries, k)
  {
    RebuiltAt(p.entries, now, k);
  }

  /** While the raster stands, nothing divides by zero. */
  lemma StandingIsPassable(p: Poller, now: int)
    requires Good(p) && !p.dirty
    ensures Passable(p.entries, now)
  {
    PassableIff(p.entries, now);
  }

  /** A tick divides by zero exactly if it comes to an entry whose interval is zero; rebuilding, it comes to all. */
  lemma CanTickIff(p: Poller, now: int)
    requires Good(p) && p.running && !p.paused
    ensures CanTick(p, now) <==> forall k :: Has(p.entries, k) ==> NonZero(Find(p.entries, k).value)
  {
    RasterAscends(p, now);
    PassableIff(Raster(p, now).entries, now);
    forall k | Has(p.entries, k)
      ensures Has(Raster(p, now).entries, k)
      ensures Passes(Find(Raster(p, now).entries, k).value, now) <==> NonZero(Find(p.entries, k).value)
    {
      RasterAt(p, now, k);
      RebuiltAt(p.entries, now, k);
    }
    forall k ensures Has(Raster(p, now).entries, k) ==> Has(p.entries, k) {
      RasterAt(p, now, k);
    }
  }

  lemma PassSettles(p: Poller, now: int, k: string)
    requires Passable(Raster(p, now).entries, now)
    requires Good(p) && (!p.dirty ==> p.lastTick <= now) && Has(Ticked(Raster(p, now).entries, now), k)
    ensures Settled(Find(Ticked(Raster(p, now).entries, now), k).value, now)
  {
    RasterAt(p, now, k);
    TickedAt(Raster(p, now).entries, now, k);
    if p.dirty {
      ResetSettles(Find(Raster(p, now).entries, k).value, now);
    } else {
      TickSettles(Find(p.entries, k).value, p.lastTick, now);
    }
  }

  /** reset_raster and the pass over the entries that follows it. */
  lemma TickAdvances(p: Poller, now: int)
    requires Good(p) && (!p.dirty ==> p.lastTick <= now) && Passable(Raster(p, now).entries, now)
    ensures var r := Advanced(Raster(p, now), now);
            Ascending(r.entries) && Accounted(r) && AllSettled(r.entries, now)
  {
    RasterAscends(p, now);
    TickedAscends(Raster(p, now).entries, now);
    TickedGrows(Raster(p, now).entries, now);
    forall k | Has(Ticked(Raster(p, now).entries, now), k)
      ensures Settled(Find(Ticked(Raster(p, now).entries, now), k).value, now)
    {
      PassSettles(p, now, k);
    }
  }

  /** What a tick leaves open: what was, and a poll for each chunk of the due names. */
  lemma TickOutstanding(p: Poller, now: int, lastTx: int)
    requires Good(p) && p.running && !p.paused && CanTick(p, now)
    ensures Tick(p, now, lastTx).0.outstanding == p.outstanding + Chunks(Due(Raster(p, now).entries, now))
    ensures Tick(p, now, lastTx).0.entries == Ticked(Raster(p, now).entries, now)
    ensures Tick(p, now, lastTx).0.clean == Raster(p, now).clean
  {
    if Due(Raster(p, now).entries, now) == [] {
      assert p.outstanding + [] == p.outstanding;
    }
  }

  lemma DueIsAskedOnce(p: Poller, now: int, k: string)
    requires Good(p)
    ensures Count(Chunks(Due(Raster(p, now).entries, now)), k)
            == if Has(Raster(p, now).entries, k) && IsDue(Find(Raster(p, now).entries, k).value, now) then 1 else 0
  {
    RasterAscends(p, now);
    DueIsDistinct(Raster(p, now).entries, now);
    DueAt(Raster(p, now).entries, now, k);
    ChunksCount(Due(Raster(p, now).entries, now), k);
  }

  /** How often each name is asked for after a tick. */
  lemma TickCounts(p: Poller, now: int, lastTx: int, k: string)
    requires Good(p) && p.running && !p.paused && CanTick(p, now)
    ensures Count(Tick(p, now, lastTx).0.outstanding, k)
            == Count(p.outstanding, k)
               + (if Has(Raster(p, now).entries, k) && IsDue(Find(Raster(p, now).entries, k).value, now) then 1 else 0)
  {
    hide Tick, Raster;
    TickOutstanding(p, now, lastTx);
    DueIsAskedOnce(p, now, k);
    CountConcat(p.outstanding, Chunks(Due(Raster(p, now).entries, now)), k);
  }

  lemma TickKeepsGood(p: Poller, now: int, lastTx: int)
    requires Good(p) && (!p.dirty ==> p.lastTick <= now) && CanTick(p, now)
    ensures Good(Tick(p, now, lastTx).0)
    ensures p.running && !p.paused ==> !Tick(p, now, lastTx).0.dirty && AllSettled(Tick(p, now, lastTx).0.entries, now)
  {
    if p.running && !p.paused {
      TickAdvances(p, now);
      TickUnstacked(p, now, lastTx);
    }
  }

  lemma NameUnstacked(p: Poller, now: int, lastTx: int, k: string)
    requires Good(p) && p.running && !p.paused && CanTick(p, now) && Tick(p, now, lastTx).0.clean
    ensures var r := Tick(p, now, lastTx).0;
            Count(r.outstanding, k) <= 1
            && (Has(r.entries, k) ==> Count(r.outstanding, k) == if Find(r.entries, k).value.inFlight then 1 else 0)
  {
    TickOutstanding(p, now, lastTx);
    TickCounts(p, now, lastTx, k);
    RasterAt(p, now, k);
    TickedAt(Raster(p, now).entries, now, k);
    if p.dirty && Has(p.entries, k) {
      ResetSettles(Find(Raster(p, now).entries, k).value, now);
    }
    hide Tick;
  }

  lemma TickUnstacked(p: Poller, now: int, lastTx: int)
    requires Good(p) && p.running && !p.paused && CanTick(p, now)
    ensures var r := Tick(p, now, lastTx).0; r.clean ==> Unstacked(r.entries, r.outstanding)
  {
    hide Tick;
    var r := Tick(p, now, lastTx).0;
    if r.clean {
      forall k ensures Count(r.outstanding, k) <= 1
        && (Has(r.entries, k) ==> Count(r.outstanding, k) == if Find(r.entries, k).value.inFlight then 1 else 0)
      {
        NameUnstacked(p, now, lastTx, k);
      }
    }
  }

  // ---------------------------------------------------------------- when polls stack

  /**
   A tick that rebuilds the raster asks for every entry once more, open polls or not: it
   leaves at most one open poll for a name exactly if the name had none.
   */
  lemma RebuildStacks(p: Poller, now: int, lastTx: int, k: string)
    requires Good(p) && p.running && !p.paused && CanTick(p, now) && p.dirty && Has(p.entries, k)
    ensures Count(Tick(p, now, lastTx).0.outstanding, k) == Count(p.outstanding, k) + 1
    ensures Count(Tick(p, now, lastTx).0.outstanding, k) <= 1 <==> Count(p.outstanding, k) == 0
  {
    TickCounts(p, now, lastTx, k);
    RasterAt(p, now, k);
    TickedAt(Raster(p, now).entries, now, k);
    ResetSettles(Find(Raster(p, now).entries, k).value, now);
  }

  lemma {:induction false} PollsAt(cs: seq<seq<string>>)
    ensures |Polls(cs)| == |cs|
    ensures forall i :: 0 <= i < |cs| ==> Polls(cs)[i] == Poll(cs[i])
  {
    if cs != [] {
      PollsAt(cs[1..]);
    }
  }

  /** A tick in a silence as long as the keepalive interval asks for something, a hundred names at most. */
  lemma TickRequests(p: Poller, now: int, lastTx: int)
    requires Good(p) && p.running && !p.paused && CanTick(p, now) && p.keepalive > 0 && now - lastTx >= p.keepalive
    ensures var asked := Tick(p, now, lastTx).1;
            asked != [] && (asked[0].Poll? ==> 0 < |asked[0].names| <= MAX_NAMES_PER_REQUEST)
  {
    var due := Due(Raster(p, now).entries, now);
    ChunksPartition(due);
    PollsAt(Chunks(due));
  }

  lemma TickNamesStay(p: Poller, now: int, lastTx: int, k: string)
    requires CanTick(p, now) && Good(p)
    ensures Has(Tick(p, now, lastTx).0.entries, k) ==> Has(p.entries, k)
  {
    if p.running && !p.paused {
      RasterAt(p, now, k);
      TickedAt(Raster(p, now).entries, now, k);
    }
  }

  /** A poll asks for a hundred names at most, all of them of entries. */
  lemma RequestsAreSmall(p: Poller, now: int, lastTx: int, r: PollRequest)
    requires Good(p) && CanTick(p, now) && r in Tick(p, now, lastTx).1 && r.Poll?
    ensures 0 < |r.names| <= MAX_NAMES_PER_REQUEST
    ensures forall name :: name in r.names ==> Has(p.entries, name)
  {
    var due := Due(Raster(p, now).entries, now);
    ChunksPartition(due);
    PollsAt(Chunks(due));
    var i :| 0 <= i < |Chunks(due)| && r == Poll(Chunks(due)[i]);
    RasterAscends(p, now);
    forall name | name in r.names ensures Has(p.entries, name) {
      ChunkNames(Chunks(due), i, name);
      DueAt(Raster(p, now).entries, now, name);
      RasterAt(p, now, name);
    }
  }

  lemma {:induction false} ChunkNames(cs: seq<seq<string>>, i: nat, name: string)
    requires i < |cs| && name in cs[i]
    ensures name in Concatenated(cs)
  {
    if i > 0 { ChunkNames(cs[1..], i - 1, name); }
  }

  // ---------------------------------------------------------------- next_deadline

  lemma {:induction false} EarliestIsExact(m: Entries<Entry>, now: int)
    requires Passable(m, now)
    requires forall i :: 0 <= i < |m| ==> Served(m[i].1)
    ensures Earliest(m).Some? && Earliest(m).value <= now <==> Ticked(m, now) != m
    ensures !(Earliest(m).Some? && Earliest(m).value <= now) ==> Due(m, now) == []
  {
    if m != [] {
      assert forall i :: 0 <= i < |m[1..]| ==> m[1..][i] == m[i + 1];
      EarliestIsExact(m[1..], now);
      assert Ticked(m, now)[0] == (m[0].0, TickEntry(m[0].1, now)) && Ticked(m, now)[1..] == Ticked(m[1..], now);
      assert m == [m[0]] + m[1..];
      if !m[0].1.once && m[0].1.nextDue <= now {
        BehindIsExact(m[0].1, now);
        assert TickEntry(m[0].1, now) != m[0].1;
      }
    }
  }

  /**
   The timer's deadline is exact: while the raster stands, a tick touches an entry if and only
   if it comes at or after next_deadline; before it, nothing is polled.
   */
  lemma DeadlineIsExact(p: Poller, now: int)
    requires Good(p) && p.running && !p.paused && !p.dirty
    ensures Passable(p.entries, now)
    ensures var d := NextDeadline(p, now);
            && (d.Some? && d.value <= now <==> Ticked(p.entries, now) != p.entries)
            && (!(d.Some? && d.value <= now) ==> Due(p.entries, now) == [])
  {
    StandingIsPassable(p, now);
    forall i | 0 <= i < |p.entries| ensures Served(p.entries[i].1) {
      FindAt(p.entries, i);
      assert Has(p.entries, p.entries[i].0);
    }
    EarliestIsExact(p.entries, now);
  }

  // ---------------------------------------------------------------- runs

  datatype Event =
    | Added(name: string, interval: int)
    | AddedOnce(name: string)
    | Removed(name: string)
    | ClassesSet(classes: Intervals)
    | KeepaliveSet(seconds: int)
    | Defaulted(catalog: seq<(string, PollClass)>)
    | Started
    | Paused
    | Resumed
    | Stopped
    | Reconnected
    | Polled(now: int, lastTx: int)
    | Completed(i: nat, ok: bool)

  /** The clock of the ticks does not go back, no tick divides by zero, and what completes was open. */
  predicate Allowed(p: Poller, ev: Event) {
    match ev
    case Polled(now, _) => p.lastTick <= now && CanTick(p, now)
    case Completed(i, _) => i < |p.outstanding|
    case _ => true
  }

  function Step(p: Poller, ev: Event): Poller
    requires Allowed(p, ev)
  {
    match ev
    case Added(name, interval) => Add(p, name, interval)
    case AddedOnce(name) => AddOnce(p, name)
    case Removed(name) => RemoveEntry(p, name)
    case ClassesSet(classes) => p.(classes := classes)
    case KeepaliveSet(seconds) => p.(keepalive := 1000 * seconds)
    case Defaulted(catalog) => StartDefaults(p, catalog)
    case Started => Start(p)
    case Paused => p.(paused := true)
    case Resumed => p.(paused := false, dirty := true)
    case Stopped => p.(running := false)
    case Reconnected => p.(dirty := true)
    case Polled(now, lastTx) => Tick(p, now, lastTx).0
    case Completed(i, ok) => Complete(p, i, ok)
  }

  lemma StepKeepsGood(p: Poller, ev: Event)
    requires Good(p) && Allowed(p, ev)
    ensures Good(Step(p, ev))
  {
    match ev
    case Polled(now, lastTx) => TickKeepsGood(p, now, lastTx);
    case Completed(i, ok) => CompleteKeepsGood(p, i, ok);
    case _ => SettingKeepsGood(p, ev);
  }

  lemma SettingKeepsGood(p: Poller, ev: Event)
    requires Good(p) && Allowed(p, ev) && !ev.Polled? && !ev.Completed?
    ensures Good(Step(p, ev))
  {
    match ev
    case Added(name, interval) => AddKeepsGood(p, name, EntryAt(p.entries, name).(interval := interval, once := false));
    case AddedOnce(name) => AddKeepsGood(p, name, EntryAt(p.entries, name).(once := true, onceDone := false));
    case Removed(name) => RemoveKeepsGood(p, name);
    case Defaulted(catalog) => AddDefaultsKeepsGood(p, catalog);
    case Polled(_, _) =>
    case Completed(_, _) =>
    case _ => FlagsAside(p, Step(p, ev));
  }

  lemma FlagsAside(p: Poller, r: Poller)
    requires Good(p) && (p.dirty ==> r.dirty)
    requires r == p.(classes := r.classes, keepalive := r.keepalive, running := r.running, paused := r.paused, dirty := r.dirty)
    ensures Good(r)
  {
  }

  predicate Possible(evs: seq<Event>)
    decreases |evs|, 0
  {
    evs == [] || (Possible(evs[..|evs| - 1]) && Allowed(Run(evs[..|evs| - 1]), evs[|evs| - 1]))
  }

  /**
   The state after a run. At every moment: the statistics are the sums of the ledgers; while
   the raster stands, every entry is on its grid, just ahead of the last tick, and every
   once-entry was polled once; and if no poll was open at the rebuild, none stacks.
   */
  function Run(evs: seq<Event>): (p: Poller)
    requires Possible(evs)
    ensures Good(p)
    decreases |evs|, 1
  {
    if evs == [] then
      InitialIsGood();
      Initial()
    else
      StepKeepsGood(Run(evs[..|evs| - 1]), evs[|evs| - 1]);
      Step(Run(evs[..|evs| - 1]), evs[|evs| - 1])
  }

  /** One more event. */
  lemma GoesOn(evs: seq<Event>, ev: Event)
    requires Possible(evs) && Allowed(Run(evs), ev)
    ensures Possible(evs + [ev]) && Run(evs + [ev]) == Step(Run(evs), ev)
  {
    assert (evs + [ev])[..|evs|] == evs;
  }

  lemma EmptyIsGood(p: Poller)
    requires p.entries == [] && p.dirty && p.retiredSkipped == 0 && p.retiredMissed == 0
    requires p.stats.skippedInFlight == 0 && p.stats.missedDeadlines == 0
    ensures Good(p)
  {
    assert Accounted(p);
  }

  lemma InitialIsGood()
    ensures Good(Initial())
  {
    EmptyIsGood(Initial());
  }
}
