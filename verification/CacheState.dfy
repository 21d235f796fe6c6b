/**
 The datapoint cache and its subscriptions as functions of their state
 (src/datapoints/manager.cpp), with the history of everything ingested and delivered.
 */
module CacheState {
  import opened Wrappers
  import opened OrderedMap
  import opened JsonValues

  /** A decoded datapoint value; floats are identified by their digits. */
  datatype Value = Flag(b: bool) | Number(i: int) | Float(digits: string) | Text(s: string)

  datatype Source = ExplicitRead | PeriodicPoll | UnsolicitedReport | WriteReadback

  datatype Quality = Unknown | Good | Stale | Invalid

  datatype Cached = Cached(value: Value, receivedAt: int, source: Source, quality: Quality, report: Option<nat>)

  /** One datapoint of a snapshot. */
  datatype Ingested = Ingested(name: string, value: Value, source: Source)

  datatype Change = Change(name: string, value: Value, previous: Option<Value>, source: Source)

  /** Slot.name is empty for a subscription to all names. */
  datatype Slot = Slot(token: nat, name: string)

  datatype Delivery = Delivery(token: nat, change: Change)

  /**
   The last four components are history: everything ingested, every callback made, how much
   had been ingested when the cache was last marked stale, and how much when each token was
   given out.
   */
  datatype Manager = Manager(cache: Entries<Cached>, slots: seq<Slot>, nextToken: nat,
                             history: seq<Ingested>, deliveries: seq<Delivery>, staleAt: nat,
                             since: map<nat, nat>)

  function Initial(): Manager { Manager([], [], 0, [], [], 0, map[]) }

  // ---------------------------------------------------------------- ingestion

  /** The name has a value. */
  predicate HasValue(m: Entries<Cached>, name: string) {
    Has(m, name) && Find(m, name).value.quality != Unknown
  }

  function OldValue(m: Entries<Cached>, name: string): Option<Value> {
    if HasValue(m, name) then Some(Find(m, name).value.value) else None
  }

  predicate Wants(slot: Slot, name: string) { slot.name == "" || slot.name == name }

  /** The callbacks that are due for a change, in the order of subscription. */
  function Notify(slots: seq<Slot>, change: Change): seq<Delivery> {
    if slots == [] then []
    else (if Wants(slots[0], change.name) then [Delivery(slots[0].token, change)] else []) + Notify(slots[1..], change)
  }

  function ChangeBy(m: Entries<Cached>, x: Ingested): Option<Change> {
    var previous := OldValue(m, x.name);
    if previous == Some(x.value) then None else Some(Change(x.name, x.value, previous, x.source))
  }

  function DueBy(m: Entries<Cached>, slots: seq<Slot>, x: Ingested): seq<Delivery> {
    match ChangeBy(m, x)
    case Some(change) => Notify(slots, change)
    case None => []
  }

  function Ingest(m: Manager, x: Ingested, report: Option<nat>, now: int): Manager {
    m.(cache := Put(m.cache, x.name, Cached(x.value, now, x.source, Good, report)),
       history := m.history + [x],
       deliveries := m.deliveries + DueBy(m.cache, m.slots, x))
  }

  function Labelled(snapshot: Entries<Value>, source: Source): seq<Ingested> {
    if snapshot == [] then [] else [Ingested(snapshot[0].0, snapshot[0].1, source)] + Labelled(snapshot[1..], source)
  }

  function IngestAll(m: Manager, xs: seq<Ingested>, report: Option<nat>, now: int): Manager
    decreases |xs|
  {
    if xs == [] then m else IngestAll(Ingest(m, xs[0], report, now), xs[1..], report, now)
  }

  /** decode_dp_object: names that are unknown or cannot be decoded are left out. */
  function DecodedInto(acc: Entries<Value>, ms: Entries<Json>, decode: (string, Json) -> Option<Value>): Entries<Value>
    decreases |ms|
  {
    if ms == [] then acc
    else
      DecodedInto(match decode(ms[0].0, ms[0].1)
                  case Some(v) => Put(acc, ms[0].0, v)
                  case None => acc, ms[1..], decode)
  }

  function Decoded(dp: Json, decode: (string, Json) -> Option<Value>): Entries<Value> {
    if dp.Obj? then DecodedInto([], dp.members, decode) else []
  }

  // ---------------------------------------------------------------- staleness and subscriptions

  function AgedValue(c: Cached): Cached { if c.quality == Good then c.(quality := Stale) else c }

  function Aged(m: Entries<Cached>): Entries<Cached> {
    if m == [] then [] else [(m[0].0, AgedValue(m[0].1))] + Aged(m[1..])
  }

  function MarkAllStale(m: Manager): Manager { m.(cache := Aged(m.cache), staleAt := |m.history|) }

  function Subscribe(m: Manager, name: string): Manager {
    m.(slots := m.slots + [Slot(m.nextToken + 1, name)], nextToken := m.nextToken + 1,
       since := m.since[m.nextToken + 1 := |m.history|])
  }

  function WithoutToken(slots: seq<Slot>, token: nat): seq<Slot> {
    if slots == [] then [] else (if slots[0].token == token then [] else [slots[0]]) + WithoutToken(slots[1..], token)
  }

  function Unsubscribe(m: Manager, token: nat): Manager { m.(slots := WithoutToken(m.slots, token)) }

  // ---------------------------------------------------------------- what the history says

  /** The last value ingested for a name. */
  function Last(history: seq<Ingested>, name: string): Option<Ingested>
    decreases |history|
  {
    if history == [] then None
    else if history[|history| - 1].name == name then Some(history[|history| - 1])
    else Last(history[..|history| - 1], name)
  }

  function LastValue(history: seq<Ingested>, name: string): Option<Value> {
    match Last(history, name)
    case Some(x) => Some(x.value)
    case None => None
  }

  /** The name was ingested at or after position `from`. */
  predicate IngestedSince(history: seq<Ingested>, from: nat, name: string) {
    exists i :: from <= i < |history| && history[i].name == name
  }

  /**
   What a subscriber to `name` must be told of everything ingested from position `since` on:
   each value of its name that differs from the last one before it, with that one as the old.
   */
  function Changes(history: seq<Ingested>, since: nat, name: string): seq<Change>
    decreases |history|
  {
    if |history| <= since then []
    else
      var before, x := history[..|history| - 1], history[|history| - 1];
      var previous := LastValue(before, x.name);
      Changes(before, since, name) +
      (if (name == "" || name == x.name) && previous != Some(x.value) then [Change(x.name, x.value, previous, x.source)] else [])
  }

  /** The changes delivered to one subscriber, in order. */
  function DeliveredTo(deliveries: seq<Delivery>, token: nat): seq<Change>
    decreases |deliveries|
  {
    if deliveries == [] then []
    else
      var d := deliveries[|deliveries| - 1];
      DeliveredTo(deliveries[..|deliveries| - 1], token) + (if d.token == token then [d.change] else [])
  }
}
