/**
 The datapoint poller as functions of its state (src/datapoints/poller.cpp). Each entry keeps
 a ledger since the last rebuild of the raster: where its grid starts, and how many polls were
 issued, skipped because one was in flight, and missed.
 */
module PollerState {
  import opened Wrappers
  import opened OrderedMap

  datatype PollClass = Realtime | Status | Config | OnConnect | Disabled

  /** The last four fields are history. */
  datatype Entry = Entry(interval: int, nextDue: int, inFlight: bool, once: bool, onceDone: bool,
                         origin: int, issued: nat, skipped: nat, missed: int)

  datatype PollStats = PollStats(cycles: nat, requests: nat, coalescedPoints: nat, skippedInFlight: nat,
                                 missedDeadlines: int, keepalives: nat, failures: nat)

  /** What a tick hands to DatapointManager::async_read. */
  datatype PollRequest = Poll(names: seq<string>) | KeepAlive

  datatype Intervals = Intervals(realtime: int, status: int, config: int)

  /**
   From `outstanding` on it is history: the polls not yet completed, whether none was open when
   the raster was last rebuilt, the time of the last tick that ran, and what the ledgers of
   removed entries and of earlier rasters held.
   */
  datatype Poller = Poller(entries: Entries<Entry>, classes: Intervals, keepalive: int, running: bool, paused: bool,
                           dirty: bool, stats: PollStats,
                           outstanding: seq<seq<string>>, clean: bool, lastTick: int,
                           retiredSkipped: nat, retiredMissed: int)

  const MAX_NAMES_PER_REQUEST: nat := 100
  const NEW_ENTRY := Entry(0, 0, false, false, false, 0, 0, 0, 0)
  const NO_STATS := PollStats(0, 0, 0, 0, 0, 0, 0)
  const DEFAULT_INTERVALS := Intervals(1000, 5000, 60000)

  function Initial(): Poller {
    Poller([], DEFAULT_INTERVALS, 240000, false, false, true, NO_STATS, [], true, 0, 0, 0)
  }

  // ---------------------------------------------------------------- configuration

  function EntryAt(m: Entries<Entry>, name: string): Entry { Find(m, name).GetOr(NEW_ENTRY) }

  function Add(p: Poller, name: string, interval: int): Poller {
    p.(entries := Put(p.entries, name, EntryAt(p.entries, name).(interval := interval, once := false)), dirty := true)
  }

  function AddOnce(p: Poller, name: string): Poller {
    p.(entries := Put(p.entries, name, EntryAt(p.entries, name).(once := true, onceDone := false)), dirty := true)
  }

  function RemoveEntry(p: Poller, name: string): Poller {
    p.(entries := Remove(p.entries, name),
       retiredSkipped := p.retiredSkipped + EntryAt(p.entries, name).skipped,
       retiredMissed := p.retiredMissed + EntryAt(p.entries, name).missed)
  }

  function ClassInterval(c: Intervals, k: PollClass): int {
    match k
    case Realtime => c.realtime
    case Status => c.status
    case Config => c.config
    case _ => 0
  }

  function AddDefault(p: Poller, name: string, k: PollClass): Poller {
    match k
    case Disabled => p
    case OnConnect => AddOnce(p, name)
    case _ => Add(p, name, ClassInterval(p.classes, k))
  }

  function AddDefaults(p: Poller, catalog: seq<(string, PollClass)>): Poller
    decreases |catalog|
  {
    if catalog == [] then p else AddDefaults(AddDefault(p, catalog[0].0, catalog[0].1), catalog[1..])
  }

  function Start(p: Poller): Poller { p.(running := true, paused := false, dirty := true) }

  function StartDefaults(p: Poller, catalog: seq<(string, PollClass)>): Poller {
    Start(AddDefaults(p, catalog))
  }

  // ---------------------------------------------------------------- tick

  function Renewed(en: Entry, now: int): Entry {
    en.(nextDue := now, inFlight := false, onceDone := if en.once then false else en.onceDone,
        origin := now, issued := 0, skipped := 0, missed := 0)
  }

  function Rebuilt(m: Entries<Entry>, now: int): Entries<Entry> {
    if m == [] then [] else [(m[0].0, Renewed(m[0].1, now))] + Rebuilt(m[1..], now)
  }

  function Skips(m: Entries<Entry>): nat { if m == [] then 0 else m[0].1.skipped + Skips(m[1..]) }

  function Misses(m: Entries<Entry>): int { if m == [] then 0 else m[0].1.missed + Misses(m[1..]) }

  /** reset_raster. */
  function Rebuild(p: Poller, now: int): Poller {
    p.(entries := Rebuilt(p.entries, now), dirty := false, clean := p.outstanding == [],
       retiredSkipped := p.retiredSkipped + Skips(p.entries), retiredMissed := p.retiredMissed + Misses(p.entries))
  }

  predicate IsDue(en: Entry, now: int) {
    if en.once then !en.onceDone && !en.inFlight else en.nextDue <= now && !en.inFlight
  }

  /** The pass divides by the interval of an entry whose deadline has come. */
  predicate Passes(en: Entry, now: int) { en.once || en.nextDue > now || en.interval != 0 }

  predicate Passable(m: Entries<Entry>, now: int) { m == [] || (Passes(m[0].1, now) && Passable(m[1..], now)) }

  /** Whole cycles passed beyond the one that is due; below zero if the interval is. */
  function Behind(en: Entry, now: int): int
    requires en.interval != 0 && en.nextDue <= now
  {
    if en.nextDue + en.interval <= now then (now - en.nextDue) / en.interval else 0
  }

  function TickEntry(en: Entry, now: int): Entry
    requires Passes(en, now)
  {
    if en.once then
      if IsDue(en, now) then en.(inFlight := true, onceDone := true, issued := en.issued + 1) else en
    else if en.nextDue > now then en
    else
      var k := Behind(en, now);
      var en1 := if en.inFlight then en.(skipped := en.skipped + 1) else en.(inFlight := true, issued := en.issued + 1);
      en1.(missed := en.missed + k, nextDue := en.nextDue + (k + 1) * en.interval)
  }

  function Ticked(m: Entries<Entry>, now: int): Entries<Entry>
    requires Passable(m, now)
  {
    if m == [] then [] else [(m[0].0, TickEntry(m[0].1, now))] + Ticked(m[1..], now)
  }

  function Due(m: Entries<Entry>, now: int): seq<string> {
    if m == [] then [] else (if IsDue(m[0].1, now) then [m[0].0] else []) + Due(m[1..], now)
  }

  /** The due names, at most a hundred to a request. */
  function Chunks(due: seq<string>): seq<seq<string>> {
    if due == [] then []
    else if |due| <= MAX_NAMES_PER_REQUEST then [due]
    else [due[..MAX_NAMES_PER_REQUEST]] + Chunks(due[MAX_NAMES_PER_REQUEST..])
  }

  function Polls(cs: seq<seq<string>>): seq<PollRequest> {
    if cs == [] then [] else [Poll(cs[0])] + Polls(cs[1..])
  }

  /** The entries after a tick that runs, with what they added to the statistics. */
  function Advanced(p: Poller, now: int): Poller
    requires Passable(p.entries, now)
  {
    var m := Ticked(p.entries, now);
    p.(entries := m, lastTick := now,
       stats := p.stats.(skippedInFlight := p.stats.skippedInFlight + Growth(Skips(p.entries), Skips(m)),
                         missedDeadlines := p.stats.missedDeadlines + Misses(m) - Misses(p.entries)))
  }

  function Growth(before: nat, after: nat): nat { if before <= after then after - before else 0 }

  function Issue(p: Poller, due: seq<string>): Poller {
    var cs := Chunks(due);
    p.(outstanding := p.outstanding + cs,
       stats := p.stats.(cycles := p.stats.cycles + 1, requests := p.stats.requests + |cs|,
                         coalescedPoints := p.stats.coalescedPoints + (if |due| > 1 then |due| else 0)))
  }

  /** The raster a tick works on: rebuilt, if it has to be. */
  function Raster(p: Poller, now: int): (r: Poller)
    ensures r.keepalive == p.keepalive && r.outstanding == p.outstanding
  {
    if p.dirty then Rebuild(p, now) else p
  }

  /** The tick does not divide by zero. */
  predicate CanTick(p: Poller, now: int) { p.running && !p.paused ==> Passable(Raster(p, now).entries, now) }

  function Tick(p: Poller, now: int, lastTx: int): (Poller, seq<PollRequest>)
    requires CanTick(p, now)
  {
    if !p.running || p.paused then (p, [])
    else
      var p1 := Raster(p, now);
      var due := Due(p1.entries, now);
      var p2 := Advanced(p1, now);
      if due != [] then (Issue(p2, due), Polls(Chunks(due)))
      else if p.keepalive > 0 && now - lastTx >= p.keepalive then
        (p2.(stats := p2.stats.(keepalives := p2.stats.keepalives + 1)), [KeepAlive])
      else (p2, [])
  }

  // ---------------------------------------------------------------- completions

  function Landed(m: Entries<Entry>, name: string): Entries<Entry> {
    if Has(m, name) then Put(m, name, Find(m, name).value.(inFlight := false)) else m
  }

  function AllLanded(m: Entries<Entry>, names: seq<string>): Entries<Entry>
    decreases |names|
  {
    if names == [] then m else AllLanded(Landed(m, names[0]), names[1..])
  }

  /** The completion of the i-th open poll. */
  function Complete(p: Poller, i: nat, ok: bool): Poller
    requires i < |p.outstanding|
  {
    p.(entries := AllLanded(p.entries, p.outstanding[i]),
       outstanding := p.outstanding[..i] + p.outstanding[i + 1..],
       stats := if ok then p.stats else p.stats.(failures := p.stats.failures + 1))
  }

  // ---------------------------------------------------------------- next_deadline

  function Sooner(a: Option<int>, t: int): Option<int> {
    if a.Some? && a.value <= t then a else Some(t)
  }

  function Earliest(m: Entries<Entry>): Option<int> {
    if m == [] then None
    else if m[0].1.once && m[0].1.onceDone then Earliest(m[1..])
    else Sooner(Earliest(m[1..]), m[0].1.nextDue)
  }

  predicate AnyOpen(m: Entries<Entry>) {
    m != [] && (!(m[0].1.once && m[0].1.onceDone) || AnyOpen(m[1..]))
  }

  /** None stands for TimePoint::max(). */
  function NextDeadline(p: Poller, now: int): Option<int> {
    if !p.running || p.paused then None
    else if p.dirty then (if AnyOpen(p.entries) then Some(now) else None)
    else Earliest(p.entries)
  }
}
