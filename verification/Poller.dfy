/**
 DatapointPoller as the source runs it: entries, flags and statistics updated in place by the
 loops of src/datapoints/poller.cpp. A tick returns the reads it asks the manager for, or None
 if it divides by zero.
 */
module PollerObject {
  import opened Wrappers
  import opened Sequences
  import opened OrderedMap
  import opened PollerState
  import Theorems = PollerTheorems

  // ---------------------------------------------------------------- one turn of each loop

  lemma {:induction false} RebuiltSnoc(m: Entries<Entry>, x: (string, Entry), now: int)
    ensures Rebuilt(m + [x], now) == Rebuilt(m, now) + [(x.0, Renewed(x.1, now))]
  {
    if m == [] {
      assert m + [x] == [x];
    } else {
      assert (m + [x])[1..] == m[1..] + [x];
      RebuiltSnoc(m[1..], x, now);
    }
  }

  lemma RebuiltTurn(m: Entries<Entry>, i: nat, now: int)
    requires i < |m| && |Rebuilt(m[..i], now)| == i
    ensures (Rebuilt(m[..i], now) + m[i..])[i] == m[i]
    ensures (Rebuilt(m[..i], now) + m[i..])[i := (m[i].0, Renewed(m[i].1, now))] == Rebuilt(m[..i + 1], now) + m[i + 1..]
    ensures |Rebuilt(m[..i + 1], now)| == i + 1
  {
    PassTurn(Rebuilt(m[..i], now), m, i, (m[i].0, Renewed(m[i].1, now)));
    RebuiltSnoc(m[..i], m[i], now);
  }

  /** The same for the pass of a tick, and what it adds to the sums. */
  lemma TickedTurn(m: Entries<Entry>, i: nat, now: int)
    requires i < |m| && Passes(m[i].1, now) && Passable(m[..i], now) && |Ticked(m[..i], now)| == i
    ensures Passable(m[..i + 1], now)
    ensures (Ticked(m[..i], now) + m[i..])[i] == m[i]
    ensures (Ticked(m[..i], now) + m[i..])[i := (m[i].0, TickEntry(m[i].1, now))] == Ticked(m[..i + 1], now) + m[i + 1..]
    ensures |Ticked(m[..i + 1], now)| == i + 1
    ensures Due(m[..i + 1], now) == Due(m[..i], now) + (if IsDue(m[i].1, now) then [m[i].0] else [])
  {
    PassableSnoc(m[..i], m[i], now);
    PassTurn(Ticked(m[..i], now), m, i, (m[i].0, TickEntry(m[i].1, now)));
    TickedSnoc(m[..i], m[i], now);
  }

  lemma SumsTurn(m: Entries<Entry>, i: nat, now: int)
    requires i < |m| && Passable(m[..i], now) && Passable(m[..i + 1], now) && Passes(m[i].1, now)
    ensures Skips(m[..i + 1]) == Skips(m[..i]) + m[i].1.skipped
    ensures Misses(m[..i + 1]) == Misses(m[..i]) + m[i].1.missed
    ensures Skips(Ticked(m[..i + 1], now)) == Skips(Ticked(m[..i], now)) + TickEntry(m[i].1, now).skipped
    ensures Misses(Ticked(m[..i + 1], now)) == Misses(Ticked(m[..i], now)) + TickEntry(m[i].1, now).missed
  {
    assert m[..i] + [m[i]] == m[..i + 1];
    TickedSnoc(m[..i], m[i], now);
    SumsSnoc(m[..i], m[i]);
    SumsSnoc(Ticked(m[..i], now), (m[i].0, TickEntry(m[i].1, now)));
  }

  /** The pass over m has done its first i entries. */
  ghost predicate Passed(m: Entries<Entry>, i: nat, now: int, entries: Entries<Entry>, due: seq<string>,
                         before: PollStats, stats: PollStats)
    requires i <= |m| && Passable(m[..i], now)
  {
    && |Ticked(m[..i], now)| == i && entries == Ticked(m[..i], now) + m[i..] && due == Due(m[..i], now)
    && stats == before.(skippedInFlight := stats.skippedInFlight, missedDeadlines := stats.missedDeadlines)
    && stats.skippedInFlight + Skips(m[..i]) == before.skippedInFlight + Skips(Ticked(m[..i], now))
    && stats.missedDeadlines + Misses(m[..i]) == before.missedDeadlines + Misses(Ticked(m[..i], now))
  }

  function StatsAfter(stats: PollStats, en: Entry, now: int): PollStats
    requires Passes(en, now)
  {
    stats.(skippedInFlight := stats.skippedInFlight + Growth(en.skipped, TickEntry(en, now).skipped),
           missedDeadlines := stats.missedDeadlines + TickEntry(en, now).missed - en.missed)
  }

  lemma PassStarts(m: Entries<Entry>, now: int, stats: PollStats)
    ensures Passable(m[..0], now) && Passed(m, 0, now, m, [], stats, stats)
  {
    assert m[..0] == [] && m[0..] == m;
  }

  /** The next entry is as it was, and an entry that the pass cannot get past stops it. */
  lemma PassReaches(m: Entries<Entry>, i: nat, now: int, entries: Entries<Entry>, due: seq<string>,
                    before: PollStats, stats: PollStats)
    requires i < |m| && Passable(m[..i], now) && Passed(m, i, now, entries, due, before, stats)
    ensures |entries| == |m| && entries[i] == m[i]
    ensures !Passes(m[i].1, now) ==> !Passable(m, now)
  {
    if Passable(m, now) { PassableAtIndex(m, i, now); }
  }

  lemma PassGoesOn(m: Entries<Entry>, i: nat, now: int, entries: Entries<Entry>, due: seq<string>,
                   before: PollStats, stats: PollStats)
    requires i < |m| && Passes(m[i].1, now) && Passable(m[..i], now) && Passed(m, i, now, entries, due, before, stats)
    ensures Passable(m[..i + 1], now)
    ensures Passed(m, i + 1, now, entries[i := (m[i].0, TickEntry(m[i].1, now))],
                   due + (if IsDue(m[i].1, now) then [m[i].0] else []), before, StatsAfter(stats, m[i].1, now))
  {
    TickedTurn(m, i, now);
    SumsTurn(m, i, now);
  }

  /** All entries passed: what the pass was for. */
  lemma PassEnds(m: Entries<Entry>, now: int, entries: Entries<Entry>, due: seq<string>, before: PollStats, stats: PollStats)
    requires Passable(m[..|m|], now) && Passed(m, |m|, now, entries, due, before, stats)
    ensures Passable(m, now)
    ensures entries == Ticked(m, now) && due == Due(m, now)
    ensures stats == before.(skippedInFlight := before.skippedInFlight + Growth(Skips(m), Skips(Ticked(m, now))),
                             missedDeadlines := before.missedDeadlines + Misses(Ticked(m, now)) - Misses(m))
  {
    assert m[..|m|] == m && m[|m|..] == [];
    Theorems.TickedGrows(m, now);
  }

  /** The rebuild of m has done its first i entries. */
  predicate Renewing(m: Entries<Entry>, i: nat, now: int, entries: Entries<Entry>)
    requires i <= |m|
  {
    |Rebuilt(m[..i], now)| == i && entries == Rebuilt(m[..i], now) + m[i..]
  }

  lemma RenewalStarts(m: Entries<Entry>, now: int)
    ensures Renewing(m, 0, now, m)
  {
    assert m[..0] == [] && m[0..] == m;
  }

  lemma RenewalGoesOn(m: Entries<Entry>, i: nat, now: int, entries: Entries<Entry>)
    requires i < |m| && Renewing(m, i, now, entries)
    ensures |entries| == |m| && entries[i] == m[i]
    ensures Renewing(m, i + 1, now, entries[i := (m[i].0, Renewed(m[i].1, now))])
  {
    RebuiltTurn(m, i, now);
  }

  lemma RenewalEnds(m: Entries<Entry>, now: int, entries: Entries<Entry>)
    requires Renewing(m, |m|, now, entries)
    ensures entries == Rebuilt(m, now)
  {
    assert m[..|m|] == m && m[|m|..] == [];
  }

  lemma {:induction false} PassableAtIndex(m: Entries<Entry>, i: nat, now: int)
    requires Passable(m, now) && i < |m|
    ensures Passes(m[i].1, now)
  {
    if i > 0 {
      PassableAtIndex(m[1..], i - 1, now);
    }
  }

  lemma {:induction false} PassableSnoc(m: Entries<Entry>, x: (string, Entry), now: int)
    ensures Passable(m + [x], now) <==> Passable(m, now) && Passes(x.1, now)
  {
    if m == [] {
      assert m + [x] == [x];
    } else {
      assert (m + [x])[1..] == m[1..] + [x];
      PassableSnoc(m[1..], x, now);
    }
  }

  lemma {:induction false} TickedSnoc(m: Entries<Entry>, x: (string, Entry), now: int)
    requires Passable(m, now) && Passes(x.1, now) && Passable(m + [x], now)
    ensures Ticked(m + [x], now) == Ticked(m, now) + [(x.0, TickEntry(x.1, now))]
    ensures Due(m + [x], now) == Due(m, now) + (if IsDue(x.1, now) then [x.0] else [])
  {
    if m == [] {
      assert m + [x] == [x];
    } else {
      assert (m + [x])[1..] == m[1..] + [x];
      TickedSnoc(m[1..], x, now);
    }
  }

  lemma {:induction false} SumsSnoc(m: Entries<Entry>, x: (string, Entry))
    ensures Skips(m + [x]) == Skips(m) + x.1.skipped && Misses(m + [x]) == Misses(m) + x.1.missed
  {
    if m == [] {
      assert m + [x] == [x];
    } else {
      assert (m + [x])[1..] == m[1..] + [x];
      SumsSnoc(m[1..], x);
    }
  }

  lemma {:induction false} EarliestSnoc(m: Entries<Entry>, x: (string, Entry))
    ensures Earliest(m + [x]) ==
            if x.1.once && x.1.onceDone then Earliest(m) else Sooner(Earliest(m), x.1.nextDue)
    ensures AnyOpen(m + [x]) <==> AnyOpen(m) || !(x.1.once && x.1.onceDone)
  {
    if m == [] {
      assert m + [x] == [x];
    } else {
      assert (m + [x])[1..] == m[1..] + [x];
      EarliestSnoc(m[1..], x);
    }
  }

  /** Entry k of the pass over all: what was done, and what is left as it was. */
  lemma PassTurn<T>(done: seq<T>, all: seq<T>, k: nat, x: T)
    requires k < |all| && |done| == k
    ensures (done + all[k..])[k] == all[k]
    ensures (done + all[k..])[k := x] == done + [x] + all[k + 1..]
    ensures all[..k] + [all[k]] == all[..k + 1]
  {
  }

  class DatapointPoller {
    var entries: Entries<Entry>
    var classes: Intervals
    var keepalive: int
    var running: bool
    var paused: bool
    var dirty: bool
    var stats: PollStats

    ghost var outstanding: seq<seq<string>>
    ghost var clean: bool
    ghost var lastTick: int
    ghost var retiredSkipped: nat
    ghost var retiredMissed: int

    ghost function View(): Poller
      reads this
    {
      Poller(entries, classes, keepalive, running, paused, dirty, stats, outstanding, clean, lastTick,
             retiredSkipped, retiredMissed)
    }

    constructor ()
      ensures View() == Initial()
    {
      entries, classes, keepalive := [], DEFAULT_INTERVALS, 240000;
      running, paused, dirty, stats := false, false, true, NO_STATS;
      outstanding, clean, lastTick, retiredSkipped, retiredMissed := [], true, 0, 0, 0;
    }

    method Add(name: string, interval: int)
      modifies this
      ensures View() == PollerState.Add(old(View()), name, interval)
    {
      entries := Put(entries, name, EntryAt(entries, name).(interval := interval, once := false));
      dirty := true;
    }

    method AddOnce(name: string)
      modifies this
      ensures View() == PollerState.AddOnce(old(View()), name)
    {
      entries := Put(entries, name, EntryAt(entries, name).(once := true, onceDone := false));
      dirty := true;
    }

    method RemoveEntry(name: string)
      modifies this
      ensures View() == PollerState.RemoveEntry(old(View()), name)
    {
      retiredSkipped := retiredSkipped + EntryAt(entries, name).skipped;
      retiredMissed := retiredMissed + EntryAt(entries, name).missed;
      entries := Remove(entries, name);
    }

    method StartDefaults(catalog: seq<(string, PollClass)>)
      modifies this
      ensures View() == PollerState.StartDefaults(old(View()), catalog)
    {
      ghost var final := AddDefaults(View(), catalog);
      assert catalog[0..] == catalog;
      for i := 0 to |catalog|
        invariant AddDefaults(View(), catalog[i..]) == final
      {
        var (name, k) := catalog[i];
        assert catalog[i..][1..] == catalog[i + 1..];
        match k {
          case Disabled =>
          case OnConnect => AddOnce(name);
          case _ => Add(name, ClassInterval(classes, k));
        }
      }
      Start();
    }

    method Start()
      modifies this
      ensures View() == PollerState.Start(old(View()))
    {
      running, paused, dirty := true, false, true;
    }

    method Pause()
      modifies this
      ensures View() == old(View()).(paused := true)
    {
      paused := true;
    }

    method Resume()
      modifies this
      ensures View() == old(View()).(paused := false, dirty := true)
    {
      paused, dirty := false, true;
    }

    method Stop()
      modifies this
      ensures View() == old(View()).(running := false)
    {
      running := false;
    }

    method OnReconnected()
      modifies this
      ensures View() == old(View()).(dirty := true)
    {
      dirty := true;
    }

    method ResetRaster(now: int)
      modifies this
      ensures View() == Rebuild(old(View()), now)
    {
      hide Renewing, Rebuilt, Renewed;
      ghost var m := entries;
      retiredSkipped, retiredMissed := retiredSkipped + Skips(entries), retiredMissed + Misses(entries);
      clean := outstanding == [];
      RenewalStarts(m, now);
      for i := 0 to |entries|
        modifies this`entries
        invariant |entries| == |m| && Renewing(m, i, now, entries)
      {
        RenewalGoesOn(m, i, now, entries);
        Renew(i, now);
      }
      RenewalEnds(m, now, entries);
      dirty := false;
    }

    method Renew(i: nat, now: int)
      requires i < |entries|
      modifies this`entries
      ensures entries == old(entries)[i := (old(entries)[i].0, Renewed(old(entries)[i].1, now))]
    {
      var (name, en) := entries[i];
      en := en.(nextDue := now, inFlight := false, origin := now, issued := 0, skipped := 0, missed := 0);
      if en.once {
        en := en.(onceDone := false);
      }
      entries := entries[i := (name, en)];
    }

    /** None is a division by zero. */
    method Tick(now: int, lastTx: int) returns (requests: Option<seq<PollRequest>>)
      modifies this
      ensures requests.Some? <==> CanTick(old(View()), now)
      ensures requests.Some? ==> (View(), requests.value) == PollerState.Tick(old(View()), now, lastTx)
    {
      if !running || paused {
        return Some([]);
      }
      if dirty {
        ResetRaster(now);
      }
      var due :- CollectDue(now);
      if due == [] {
        if keepalive > 0 && now - lastTx >= keepalive {
          stats := stats.(keepalives := stats.keepalives + 1);
          return Some([KeepAlive]);
        }
        return Some([]);
      }
      var asked := RequestChunks(due);
      return Some(asked);
    }

    /** The pass over the entries: who is due, and everyone's next deadline along the grid. */
    method CollectDue(now: int) returns (names: Option<seq<string>>)
      modifies this`entries, this`stats, this`lastTick
      ensures names.Some? <==> Passable(old(entries), now)
      ensures names.Some? ==> names.value == Due(old(entries), now) && View() == Advanced(old(View()), now)
    {
      hide Passed, Ticked, Due, TickEntry, StatsAfter, Skips, Misses, Passable, Passes;
      ghost var m, before := entries, stats;
      var due := [];
      PassStarts(m, now, stats);
      for i := 0 to |entries|
        modifies this`entries, this`stats
        invariant |entries| == |m| && Passable(m[..i], now)
        invariant Passed(m, i, now, entries, due, before, stats)
      {
        PassReaches(m, i, now, entries, due, before, stats);
        ghost var entries0, stats0 := entries, stats;
        var name := entries[i].0;
        var added :- Visit(i, now);
        PassGoesOn(m, i, now, entries0, due, before, stats0);
        due := due + (if added then [name] else []);
      }
      PassEnds(m, now, entries, due, before, stats);
      lastTick := now;
      return Some(due);
    }

    /** The body of the pass, for entry i. */
    method Visit(i: nat, now: int) returns (added: Option<bool>)
      requires i < |entries|
      modifies this`entries, this`stats
      ensures added.Some? <==> Passes(old(entries)[i].1, now)
      ensures added.Some? ==>
              var (name, en) := old(entries)[i];
              && added.value == IsDue(en, now)
              && entries == old(entries)[i := (name, TickEntry(en, now))]
              && stats == StatsAfter(old(stats), en, now)
    {
      var (name, en) := entries[i];
      var due := false;
      if en.once {
        due := !en.onceDone && !en.inFlight;
        if due {
          en := en.(inFlight := true, onceDone := true, issued := en.issued + 1);
        }
      } else if en.nextDue <= now {
        due := !en.inFlight;
        if en.inFlight {
          stats := stats.(skippedInFlight := stats.skippedInFlight + 1);
          en := en.(skipped := en.skipped + 1);
        } else {
          en := en.(inFlight := true, issued := en.issued + 1);
        }
        var next := en.nextDue + en.interval;
        if next <= now {
          if en.interval == 0 {
            return None;
          }
          var cycles := (now - en.nextDue) / en.interval;
          stats := stats.(missedDeadlines := stats.missedDeadlines + cycles);
          next := en.nextDue + (cycles + 1) * en.interval;
          en := en.(missed := en.missed + cycles);
        }
        en := en.(nextDue := next);
      }
      entries := entries[i := (name, en)];
      return Some(due);
    }

    method RequestChunks(due: seq<string>) returns (requests: seq<PollRequest>)
      requires due != []
      modifies this`stats, this`outstanding
      ensures View() == Issue(old(View()), due) && requests == Polls(Chunks(due))
    {
      ghost var p := View();
      stats := stats.(cycles := stats.cycles + 1);
      if |due| > 1 {
        stats := stats.(coalescedPoints := stats.coalescedPoints + |due|);
      }
      ghost var s := stats;
      requests := [];
      var offset := 0;
      assert due[0..] == due;
      while offset < |due|
        invariant 0 <= offset <= |due|
        invariant requests + Polls(Chunks(due[offset..])) == Polls(Chunks(due))
        invariant outstanding + Chunks(due[offset..]) == p.outstanding + Chunks(due)
        invariant stats == s.(requests := stats.requests)
        invariant stats.requests + |Chunks(due[offset..])| == s.requests + |Chunks(due)|
      {
        var end := if |due| < offset + MAX_NAMES_PER_REQUEST then |due| else offset + MAX_NAMES_PER_REQUEST;
        var chunk := due[offset..end];
        ChunksTurn(due, offset, end);
        Regroup(requests, [Poll(chunk)], Polls(Chunks(due[end..])));
        Regroup(outstanding, [chunk], Chunks(due[end..]));
        stats := stats.(requests := stats.requests + 1);
        requests := requests + [Poll(chunk)];
        outstanding := outstanding + [chunk];
        offset := end;
      }
      assert due[offset..] == [];
    }

    lemma ChunksTurn(due: seq<string>, offset: nat, end: nat)
      requires offset < |due|
      requires end == if |due| < offset + MAX_NAMES_PER_REQUEST then |due| else offset + MAX_NAMES_PER_REQUEST
      ensures offset < end <= |due|
      ensures Chunks(due[offset..]) == [due[offset..end]] + Chunks(due[end..])
      ensures Polls(Chunks(due[offset..])) == [Poll(due[offset..end])] + Polls(Chunks(due[end..]))
    {
      var rest := due[offset..];
      if |rest| <= MAX_NAMES_PER_REQUEST {
        assert rest == due[offset..end] && due[end..] == [];
      } else {
        assert rest[..MAX_NAMES_PER_REQUEST] == due[offset..end] && rest[MAX_NAMES_PER_REQUEST..] == due[end..];
      }
      assert Chunks(rest)[0] == due[offset..end] && Chunks(rest)[1..] == Chunks(due[end..]);
    }

    /** The completion that async_read was given for this chunk. */
    method OnCompleted(chunk: seq<string>, ghost i: nat, ok: bool)
      requires i < |outstanding| && outstanding[i] == chunk
      modifies this
      ensures View() == Complete(old(View()), i, ok)
    {
      ghost var m := entries;
      assert chunk[0..] == chunk;
      for k := 0 to |chunk|
        modifies this`entries
        invariant AllLanded(entries, chunk[k..]) == AllLanded(m, chunk)
      {
        assert chunk[k..][1..] == chunk[k + 1..];
        if Has(entries, chunk[k]) {
          entries := Put(entries, chunk[k], Find(entries, chunk[k]).value.(inFlight := false));
        }
      }
      if !ok {
        stats := stats.(failures := stats.failures + 1);
      }
      outstanding := outstanding[..i] + outstanding[i + 1..];
    }

    method NextDeadline(now: int) returns (next: Option<int>)
      ensures next == PollerState.NextDeadline(View(), now)
    {
      if !running || paused {
        return None;
      }
      next := None;
      for i := 0 to |entries|
        invariant !dirty ==> next == Earliest(entries[..i])
        invariant dirty ==> next == if AnyOpen(entries[..i]) then Some(now) else None
      {
        assert entries[..i + 1] == entries[..i] + [entries[i]];
        EarliestSnoc(entries[..i], entries[i]);
        var en := entries[i].1;
        if !(en.once && en.onceDone) {
          next := Sooner(next, if dirty then now else en.nextDue);
        }
      }
      assert entries[..|entries|] == entries;
    }
  }
}
