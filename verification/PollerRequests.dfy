/** The requests that the poller really makes, over every run, and what its ledgers mean by them. */
module PollerRequests {
  import opened OrderedMap
  import opened PollerState
  import opened PollerTheorems

  // ---------------------------------------------------------------- requests since the rebuild

  /** How many of these requests poll the name. */
  function Naming(asked: seq<PollRequest>, name: string): nat {
    if asked == [] then 0
    else (if asked[0].Poll? && name in asked[0].names then 1 else 0) + Naming(asked[1..], name)
  }

  lemma {:induction false} NamingPolls(cs: seq<seq<string>>, name: string)
    ensures Naming(Polls(cs), name) == Count(cs, name)
  {
    if cs != [] {
      NamingPolls(cs[1..], name);
      assert Polls(cs)[1..] == Polls(cs[1..]);
    }
  }

  /** The polls of a name that the ticks have returned since the last rebuild, the rebuilding tick included. */
  function AskedSince(evs: seq<Event>, name: string): nat
    requires Possible(evs)
    decreases |evs|
  {
    if evs == [] then 0
    else
      var before, ev := evs[..|evs| - 1], evs[|evs| - 1];
      var p := Run(before);
      match ev
      case Polled(now, lastTx) =>
        if !p.running || p.paused then AskedSince(before, name)
        else (if p.dirty then 0 else AskedSince(before, name)) + Naming(Tick(p, now, lastTx).1, name)
      case _ => AskedSince(before, name)
  }

  /** A tick's requests poll a name once if its entry is due, and not at all otherwise. */
  lemma TickNames(p: Poller, now: int, lastTx: int, k: string)
    requires Good(p) && p.running && !p.paused && CanTick(p, now)
    ensures Naming(Tick(p, now, lastTx).1, k)
            == if Has(Raster(p, now).entries, k) && IsDue(Find(Raster(p, now).entries, k).value, now) then 1 else 0
  {
    DueIsAskedOnce(p, now, k);
    NamingPolls(Chunks(Due(Raster(p, now).entries, now)), k);
    ChunksPartition(Due(Raster(p, now).entries, now));
  }

  /** The ledger of an entry grows by what the tick asks of it, from nothing if it rebuilds the raster. */
  lemma TickIssues(p: Poller, now: int, lastTx: int, k: string)
    requires Good(p) && p.running && !p.paused && CanTick(p, now) && Has(p.entries, k)
    ensures var r := Tick(p, now, lastTx);
            Has(r.0.entries, k) && Find(r.0.entries, k).value.issued
                                   == (if p.dirty then 0 else Find(p.entries, k).value.issued) + Naming(r.1, k)
  {
    TickNames(p, now, lastTx, k);
    TickOutstanding(p, now, lastTx);
    RasterAt(p, now, k);
    TickedAt(Raster(p, now).entries, now, k);
    hide Tick;
  }

  /** No other step that leaves the raster standing touches the ledger. */
  lemma OtherStepsIssueNothing(p: Poller, ev: Event, k: string)
    requires Good(p) && Allowed(p, ev) && !ev.Polled? && !Step(p, ev).dirty && Has(Step(p, ev).entries, k)
    ensures !p.dirty && Has(p.entries, k)
    ensures Find(Step(p, ev).entries, k).value.issued == Find(p.entries, k).value.issued
  {
    match ev
    case Removed(name) =>
      if Has(p.entries, name) {
        FindAfterRemove(p.entries, name, k);
      } else {
        RemoveAbsent(p.entries, name);
      }
    case Completed(i, ok) => LandedAt(p.entries, p.outstanding[i], k);
    case _ =>
  }

  /** The ledger is no more than a count of requests: `issued` is how often the ticks asked for the name. */
  lemma {:induction false} IssuedIsAsked(evs: seq<Event>, k: string)
    requires Possible(evs) && !Run(evs).dirty && Has(Run(evs).entries, k)
    ensures Find(Run(evs).entries, k).value.issued == AskedSince(evs, k)
    decreases |evs|
  {
    var before, ev := evs[..|evs| - 1], evs[|evs| - 1];
    var p := Run(before);
    if ev.Polled? && p.running && !p.paused {
      PolledHas(p, ev.now, ev.lastTx, k);
      TickIssues(p, ev.now, ev.lastTx, k);
      if !p.dirty {
        IssuedIsAsked(before, k);
      }
    } else {
      if !ev.Polled? {
        OtherStepsIssueNothing(p, ev, k);
      }
      IssuedIsAsked(before, k);
    }
  }

  lemma PolledHas(p: Poller, now: int, lastTx: int, k: string)
    requires Good(p) && p.running && !p.paused && CanTick(p, now) && Has(Tick(p, now, lastTx).0.entries, k)
    ensures Has(p.entries, k)
  {
    TickOutstanding(p, now, lastTx);
    RasterAt(p, now, k);
    TickedAt(Raster(p, now).entries, now, k);
  }

  // ---------------------------------------------------------------- what that means

  lemma EarlierPoint(d: int, x: int, y: int)
    requires d > 0 && y < x
    ensures d * y <= d * x - d
  {
    assert d * y <= d * (x - 1);
  }

  lemma LaterPoint(d: int, x: int, y: int)
    requires d > 0 && x <= y
    ensures d * x <= d * y
  {
  }

  /** No point of the grid lies between now and nextDue. */
  lemma LeastPoint(en: Entry, now: int, n: int)
    requires !en.once && en.interval > 0 && OnGrid(en) && JustAhead(en, now) && OnThePoint(en, n) > now
    ensures en.nextDue <= OnThePoint(en, n)
  {
    var steps := en.issued + en.skipped + en.missed;
    if n < steps {
      EarlierPoint(en.interval, steps, n);
    } else {
      LaterPoint(en.interval, steps, n);
    }
  }

  /**
   The grid: since the raster was rebuilt, every step of a periodic entry is a poll that a tick
   asked for, one skipped because a poll was in flight, or a missed cycle; and its next deadline
   is the least point of its grid after the last tick. With a negative interval it never comes
   to lie ahead.
   */
  lemma GridIsConserved(evs: seq<Event>, k: string)
    requires Possible(evs) && !Run(evs).dirty && Has(Run(evs).entries, k) && !Find(Run(evs).entries, k).value.once
    ensures var p := Run(evs);
            var en := Find(p.entries, k).value;
            && en.interval != 0
            && (en.nextDue - en.origin) == en.interval * (AskedSince(evs, k) + en.skipped + en.missed)
            && (en.nextDue > p.lastTick <==> en.interval > 0)
            && (en.interval > 0 ==>
                  forall n: int {:trigger OnThePoint(en, n)} :: OnThePoint(en, n) > p.lastTick ==> en.nextDue <= OnThePoint(en, n))
  {
    hide Run, AskedSince;
    var p := Run(evs);
    var en := Find(p.entries, k).value;
    assert Settled(en, p.lastTick);
    IssuedIsAsked(evs, k);
    if en.interval > 0 {
      forall n: int | OnThePoint(en, n) > p.lastTick ensures en.nextDue <= OnThePoint(en, n) {
        LeastPoint(en, p.lastTick, n);
      }
    }
  }

  /** Point n of an entry's grid. */
  function OnThePoint(en: Entry, n: int): int { en.origin + en.interval * n }

  /** No stacking, and once-entries once: from a rebuild with nothing open up to the next one. */
  lemma NoStacking(evs: seq<Event>, k: string)
    requires Possible(evs) && !Run(evs).dirty
    ensures var p := Run(evs);
            && (p.clean ==> Count(p.outstanding, k) <= 1)
            && (Has(p.entries, k) && Find(p.entries, k).value.once ==> AskedSince(evs, k) == 1)
  {
    hide Run, AskedSince;
    var p := Run(evs);
    if p.clean {
      assert Unstacked(p.entries, p.outstanding);
    }
    if Has(p.entries, k) {
      assert Settled(Find(p.entries, k).value, p.lastTick);
      IssuedIsAsked(evs, k);
    }
  }

  /** Skips and missed cycles of the statistics are those of the ledgers, past rasters and removed entries included. */
  lemma StatisticsAreSums(evs: seq<Event>)
    requires Possible(evs)
    ensures var p := Run(evs);
            && p.stats.skippedInFlight == p.retiredSkipped + Skips(p.entries)
            && p.stats.missedDeadlines == p.retiredMissed + Misses(p.entries)
  {
    assert Accounted(Run(evs));
  }
}
