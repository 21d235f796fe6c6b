/** Runs of the poller that reach what its theorems warn of. */
module PollerExamples {
  import opened Wrappers
  import opened OrderedMap
  import opened PollerState
  import opened PollerTheorems

  /** every(interval, name), then start(). */
  function Settings(name: string, interval: int): seq<Event> { [] + [Added(name, interval)] + [Started] }

  lemma NothingConfigured()
    ensures Possible([]) && Run([]) == Initial()
  {
  }

  /** The one entry that this configures, and a raster that has to be built. */
  lemma SettingsRun(name: string, interval: int)
    ensures Possible(Settings(name, interval))
    ensures var p := Run(Settings(name, interval));
            && p.entries == [(name, NEW_ENTRY.(interval := interval))] && p.outstanding == []
            && p.running && !p.paused && p.dirty && p.lastTick == 0 && p.keepalive == 240000
  {
    hide Run, Possible, Good;
    NothingConfigured();
    GoesOn([], Added(name, interval));
    GoesOn([] + [Added(name, interval)], Started);
    assert Add(Initial(), name, interval).entries == [(name, NEW_ENTRY.(interval := interval))];
    hide Add;
  }

  /** every(0ms, name): the first tick divides by zero. */
  lemma ZeroIntervalDivides(name: string, now: int)
    ensures Possible(Settings(name, 0)) && !CanTick(Run(Settings(name, 0)), now)
  {
    SettingsRun(name, 0);
    hide Settings, Run, Possible;
    var p := Run(Settings(name, 0));
    assert Has(p.entries, name) && !NonZero(Find(p.entries, name).value);
    CanTickIff(p, now);
  }

  /** Whatever the interval otherwise, the first tick polls the name, and counts it once. */
  lemma FirstTick(name: string, interval: int)
    requires interval != 0
    ensures Possible(Settings(name, interval)) && CanTick(Run(Settings(name, interval)), 0)
    ensures Possible(Settings(name, interval) + [Polled(0, 0)])
    ensures var p := Run(Settings(name, interval) + [Polled(0, 0)]);
            && p.running && !p.paused && Has(p.entries, name) && Count(p.outstanding, name) == 1 && p.lastTick == 0
            && NextOf(p, name) <= interval
  {
    SettingsRun(name, interval);
    hide Settings, Possible, Run;
    var evs := Settings(name, interval);
    var p := Run(evs);
    assert p.entries[1..] == [] && Has(p.entries, name);
    forall k | Has(p.entries, k) ensures k == name {
      assert Find(p.entries[1..], k) == None;
    }
    assert Rebuilt(p.entries, 0) == [(name, Renewed(NEW_ENTRY.(interval := interval), 0))];
    CanTickIff(p, 0);
    GoesOn(evs, Polled(0, 0));
    TickOutstanding(p, 0, 0);
    RebuildStacks(p, 0, 0, name);
    RasterAt(p, 0, name);
    TickedAt(Raster(p, 0).entries, 0, name);
    BehindIsExact(Renewed(NEW_ENTRY.(interval := interval), 0), 0);
  }

  /** The next deadline of an entry. */
  function NextOf(p: Poller, name: string): int { EntryAt(p.entries, name).nextDue }

  /** A reconnect while a poll is open: its name is asked for again, and two polls are open. */
  lemma ReconnectStacks(name: string, interval: int)
    requires interval > 0
    ensures var evs := Settings(name, interval) + [Polled(0, 0)] + [Reconnected] + [Polled(0, 0)];
            Possible(evs) && Count(Run(evs).outstanding, name) == 2
  {
    FirstTick(name, interval);
    hide Settings, Possible, Run, Good;
    var evs := Settings(name, interval) + [Polled(0, 0)];
    GoesOn(evs, Reconnected);
    var p := Run(evs + [Reconnected]);
    AllNonZero(evs);
    CanTickIff(p, 0);
    GoesOn(evs + [Reconnected], Polled(0, 0));
    RebuildStacks(p, 0, 0, name);
  }

  /** After a tick no interval is zero. */
  lemma AllNonZero(evs: seq<Event>)
    requires Possible(evs) && !Run(evs).dirty
    ensures forall k :: Has(Run(evs).entries, k) ==> NonZero(Find(Run(evs).entries, k).value)
  {
    hide Run, Possible;
    var p := Run(evs);
    forall k | Has(p.entries, k) ensures NonZero(Find(p.entries, k).value) {
      assert Settled(Find(p.entries, k).value, p.lastTick);
    }
  }
}
