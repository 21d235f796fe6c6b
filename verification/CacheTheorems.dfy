/** The cache is the fold of its history, and each subscriber sees exactly the changes in it. */
module CacheTheorems {
  import opened Wrappers
  import opened OrderedMap
  import opened CacheState

  // ---------------------------------------------------------------- deliveries

  lemma {:induction false} DeliveredToConcat(a: seq<Delivery>, b: seq<Delivery>, token: nat)
    ensures DeliveredTo(a + b, token) == DeliveredTo(a, token) + DeliveredTo(b, token)
    decreases |b|
  {
    if b == [] {
      assert a + b == a;
    } else {
      var n := |b| - 1;
      assert (a + b)[..|a + b| - 1] == a + b[..n];
      DeliveredToConcat(a, b[..n], token);
    }
  }

  predicate DistinctTokens(slots: seq<Slot>) {
    forall i, j :: 0 <= i < j < |slots| ==> slots[i].token != slots[j].token
  }

  /** Tokens are those given out so far. */
  predicate Issued(slots: seq<Slot>, deliveries: seq<Delivery>, next: nat) {
    && (forall i :: 0 <= i < |slots| ==> slots[i].token <= next)
    && (forall i :: 0 <= i < |deliveries| ==> deliveries[i].token <= next)
  }

  lemma {:induction false} NobodyElse(slots: seq<Slot>, change: Change, token: nat)
    requires forall i :: 0 <= i < |slots| ==> slots[i].token != token
    ensures DeliveredTo(Notify(slots, change), token) == []
  {
    if slots != [] {
      NobodyElse(slots[1..], change, token);
      var first := if Wants(slots[0], change.name) then [Delivery(slots[0].token, change)] else [];
      DeliveredToConcat(first, Notify(slots[1..], change), token);
      OneDelivery(slots[0].token, change, token);
    }
  }

  lemma OneDelivery(to: nat, change: Change, token: nat)
    ensures DeliveredTo([Delivery(to, change)], token) == if to == token then [change] else []
  {
    assert [Delivery(to, change)][..0] == [];
    assert DeliveredTo([], token) == [];
  }

  /** Slot i is told of a change exactly once if it wants it, and otherwise not at all. */
  lemma {:induction false} NotifiedOnce(slots: seq<Slot>, change: Change, i: nat)
    requires i < |slots| && DistinctTokens(slots)
    ensures DeliveredTo(Notify(slots, change), slots[i].token) == if Wants(slots[i], change.name) then [change] else []
  {
    var first := if Wants(slots[0], change.name) then [Delivery(slots[0].token, change)] else [];
    DeliveredToConcat(first, Notify(slots[1..], change), slots[i].token);
    OneDelivery(slots[0].token, change, slots[i].token);
    if i == 0 {
      NobodyElse(slots[1..], change, slots[0].token);
    } else {
      NotifiedOnce(slots[1..], change, i - 1);
    }
  }

  lemma {:induction false} NotifyIsIssued(slots: seq<Slot>, change: Change, next: nat)
    requires forall i :: 0 <= i < |slots| ==> slots[i].token <= next
    ensures forall i :: 0 <= i < |Notify(slots, change)| ==> Notify(slots, change)[i].token <= next
  {
    if slots != [] {
      NotifyIsIssued(slots[1..], change, next);
    }
  }

  lemma {:induction false} NothingDelivered(deliveries: seq<Delivery>, token: nat)
    requires forall i :: 0 <= i < |deliveries| ==> deliveries[i].token < token
    ensures DeliveredTo(deliveries, token) == []
    decreases |deliveries|
  {
    if deliveries != [] {
      NothingDelivered(deliveries[..|deliveries| - 1], token);
    }
  }

  // ---------------------------------------------------------------- the invariant

  /** The entry of a name is the last thing ingested for it, Good if that came after the last marking. */
  ghost predicate Reflects(m: Entries<Cached>, history: seq<Ingested>, staleAt: nat, k: string) {
    match Last(history, k)
    case None => !Has(m, k)
    case Some(x) =>
      && Has(m, k) && Find(m, k).value.value == x.value && Find(m, k).value.source == x.source
      && Find(m, k).value.quality == if IngestedSince(history, staleAt, k) then Good else Stale
  }

  ghost predicate Told(slot: Slot, since: map<nat, nat>, history: seq<Ingested>, deliveries: seq<Delivery>) {
    && slot.token in since && since[slot.token] <= |history|
    && DeliveredTo(deliveries, slot.token) == Changes(history, since[slot.token], slot.name)
  }

  ghost predicate Sound(m: Manager) {
    && m.staleAt <= |m.history|
    && (forall k :: Reflects(m.cache, m.history, m.staleAt, k))
    && DistinctTokens(m.slots) && Issued(m.slots, m.deliveries, m.nextToken)
    && (forall i :: 0 <= i < |m.slots| ==> Told(m.slots[i], m.since, m.history, m.deliveries))
  }

  lemma OldValueIsLast(m: Manager, k: string)
    requires Sound(m)
    ensures OldValue(m.cache, k) == LastValue(m.history, k)
  {
    assert Reflects(m.cache, m.history, m.staleAt, k);
  }

  lemma IngestedSinceSnoc(history: seq<Ingested>, x: Ingested, from: nat, k: string)
    requires from <= |history|
    ensures IngestedSince(history + [x], from, k) <==> IngestedSince(history, from, k) || x.name == k
  {
    var more := history + [x];
    if IngestedSince(history, from, k) {
      var i :| from <= i < |history| && history[i].name == k;
      assert more[i].name == k;
    }
    if x.name == k {
      assert more[|history|].name == k;
    }
  }

  lemma IngestReflects(m: Manager, x: Ingested, report: Option<nat>, now: int, k: string)
    requires m.staleAt <= |m.history| && Reflects(m.cache, m.history, m.staleAt, k)
    ensures Reflects(Ingest(m, x, report, now).cache, m.history + [x], m.staleAt, k)
  {
    FindAfterPut(m.cache, x.name, Cached(x.value, now, x.source, Good, report), k);
    IngestedSinceSnoc(m.history, x, m.staleAt, k);
    assert (m.history + [x])[..|m.history|] == m.history;
  }

  lemma IngestTells(m: Manager, x: Ingested, report: Option<nat>, now: int, i: nat)
    requires Sound(m) && i < |m.slots|
    ensures Told(m.slots[i], m.since, m.history + [x], Ingest(m, x, report, now).deliveries)
  {
    var slot := m.slots[i];
    assert Told(slot, m.since, m.history, m.deliveries);
    assert (m.history + [x])[..|m.history|] == m.history;
    OldValueIsLast(m, x.name);
    match ChangeBy(m.cache, x)
    case Some(change) =>
      NotifiedOnce(m.slots, change, i);
      DeliveredToConcat(m.deliveries, Notify(m.slots, change), slot.token);
    case None =>
      assert m.deliveries + [] == m.deliveries;
  }

  lemma IngestKeepsSound(m: Manager, x: Ingested, report: Option<nat>, now: int)
    requires Sound(m)
    ensures Sound(Ingest(m, x, report, now))
  {
    forall k ensures Reflects(Ingest(m, x, report, now).cache, m.history + [x], m.staleAt, k) {
      IngestReflects(m, x, report, now, k);
    }
    forall i | 0 <= i < |m.slots| ensures Told(m.slots[i], m.since, m.history + [x], Ingest(m, x, report, now).deliveries) {
      IngestTells(m, x, report, now, i);
    }
    match ChangeBy(m.cache, x)
    case Some(change) => NotifyIsIssued(m.slots, change, m.nextToken);
    case None =>
  }

  lemma {:induction false} IngestAllKeepsSound(m: Manager, xs: seq<Ingested>, report: Option<nat>, now: int)
    requires Sound(m)
    ensures Sound(IngestAll(m, xs, report, now)) && IngestAll(m, xs, report, now).history == m.history + xs
    decreases |xs|
  {
    if xs == [] {
      assert m.history + xs == m.history;
    } else {
      IngestKeepsSound(m, xs[0], report, now);
      IngestAllKeepsSound(Ingest(m, xs[0], report, now), xs[1..], report, now);
      assert m.history + xs == m.history + [xs[0]] + xs[1..];
    }
  }

  lemma {:induction false} AgedAt(m: Entries<Cached>, k: string)
    ensures Has(Aged(m), k) <==> Has(m, k)
    ensures Has(m, k) ==> Find(Aged(m), k).value == AgedValue(Find(m, k).value)
  {
    if m != [] {
      assert Aged(m)[1..] == Aged(m[1..]);
      AgedAt(m[1..], k);
    }
  }

  lemma MarkKeepsSound(m: Manager)
    requires Sound(m)
    ensures Sound(MarkAllStale(m))
  {
    forall k ensures Reflects(Aged(m.cache), m.history, |m.history|, k) {
      AgedAt(m.cache, k);
      assert Reflects(m.cache, m.history, m.staleAt, k);
    }
  }

  lemma NewSlotIsTold(m: Manager, name: string)
    requires Sound(m)
    ensures Told(Slot(m.nextToken + 1, name), Subscribe(m, name).since, m.history, m.deliveries)
  {
    NothingDelivered(m.deliveries, m.nextToken + 1);
  }

  lemma OldSlotsStayTold(m: Manager, name: string, i: nat)
    requires Sound(m) && i < |m.slots|
    ensures Told(m.slots[i], Subscribe(m, name).since, m.history, m.deliveries)
  {
    assert Told(m.slots[i], m.since, m.history, m.deliveries);
    assert m.slots[i].token <= m.nextToken;
  }

  lemma SubscribeKeepsSound(m: Manager, name: string)
    requires Sound(m)
    ensures Sound(Subscribe(m, name))
  {
    var r := Subscribe(m, name);
    NewSlotIsTold(m, name);
    forall i | 0 <= i < |m.slots| ensures Told(m.slots[i], r.since, m.history, m.deliveries) {
      OldSlotsStayTold(m, name, i);
    }
    SoundFrom(m, r, Slot(m.nextToken + 1, name));
  }

  lemma SoundFrom(m: Manager, r: Manager, slot: Slot)
    requires Sound(m) && r == m.(slots := m.slots + [slot], nextToken := r.nextToken, since := r.since)
    requires m.nextToken < slot.token == r.nextToken && Told(slot, r.since, m.history, m.deliveries)
    requires forall i :: 0 <= i < |m.slots| ==> Told(m.slots[i], r.since, m.history, m.deliveries)
    ensures Sound(r)
  {
    hide Reflects, Told;
  }

  lemma {:induction false} WithoutTokenIsPart(slots: seq<Slot>, token: nat)
    requires DistinctTokens(slots)
    ensures DistinctTokens(WithoutToken(slots, token))
    ensures forall i :: 0 <= i < |WithoutToken(slots, token)| ==> WithoutToken(slots, token)[i] in slots
  {
    if slots != [] {
      assert forall i :: 0 <= i < |slots[1..]| ==> slots[1..][i] == slots[i + 1];
      WithoutTokenIsPart(slots[1..], token);
    }
  }

  lemma UnsubscribeKeepsSound(m: Manager, token: nat)
    requires Sound(m)
    ensures Sound(Unsubscribe(m, token))
  {
    WithoutTokenIsPart(m.slots, token);
  }

  // ---------------------------------------------------------------- runs

  datatype Event =
    | Reported(snapshot: Entries<Value>, source: Source, report: Option<nat>, now: int)
    | MarkedStale
    | Subscribed(name: string)
    | Unsubscribed(token: nat)

  function Step(m: Manager, ev: Event): Manager {
    match ev
    case Reported(snapshot, source, report, now) => IngestAll(m, Labelled(snapshot, source), report, now)
    case MarkedStale => MarkAllStale(m)
    case Subscribed(name) => Subscribe(m, name)
    case Unsubscribed(token) => Unsubscribe(m, token)
  }

  lemma StepKeepsSound(m: Manager, ev: Event)
    requires Sound(m)
    ensures Sound(Step(m, ev))
  {
    match ev
    case Reported(snapshot, source, report, now) => IngestAllKeepsSound(m, Labelled(snapshot, source), report, now);
    case MarkedStale => MarkKeepsSound(m);
    case Subscribed(name) => SubscribeKeepsSound(m, name);
    case Unsubscribed(token) => UnsubscribeKeepsSound(m, token);
  }

  lemma InitialIsSound()
    ensures Sound(Initial())
  {
  }

  /** The state after a run: cache and deliveries agree with the history. */
  function Run(evs: seq<Event>): (m: Manager)
    ensures Sound(m)
    decreases |evs|
  {
    if evs == [] then
      InitialIsSound();
      Initial()
    else
      StepKeepsSound(Run(evs[..|evs| - 1]), evs[|evs| - 1]);
      Step(Run(evs[..|evs| - 1]), evs[|evs| - 1])
  }

  /** The cache holds the last value ingested for each name, Good exactly if it came since the last marking. */
  lemma CacheIsTheFold(evs: seq<Event>, name: string)
    ensures var m := Run(evs);
            && OldValue(m.cache, name) == LastValue(m.history, name)
            && (HasValue(m.cache, name) ==>
                  (Find(m.cache, name).value.quality == Good <==> IngestedSince(m.history, m.staleAt, name))
                  && (Find(m.cache, name).value.quality == Stale <==> !IngestedSince(m.history, m.staleAt, name)))
  {
    var m := Run(evs);
    OldValueIsLast(m, name);
    assert Reflects(m.cache, m.history, m.staleAt, name);
  }

  /**
   Each subscriber that is still registered was told of exactly the changes in what was
   ingested since it subscribed, in order; marking the cache stale plays no part in it.
   */
  lemma SubscribersSeeTheChanges(evs: seq<Event>, i: nat)
    requires i < |Run(evs).slots|
    ensures var m := Run(evs);
            var slot := m.slots[i];
            && slot.token in m.since && m.since[slot.token] <= |m.history|
            && DeliveredTo(m.deliveries, slot.token) == Changes(m.history, m.since[slot.token], slot.name)
  {
    var m := Run(evs);
    assert Told(m.slots[i], m.since, m.history, m.deliveries);
  }

  /** The value a subscriber to a name holds after its changes is the last one ingested. */
  lemma {:induction false} ChangesEndAtLast(history: seq<Ingested>, since: nat, name: string)
    requires name != "" && since <= |history|
    ensures var cs := Changes(history, since, name);
            LastValue(history, name) == if cs == [] then LastValue(history[..since], name) else Some(cs[|cs| - 1].value)
    decreases |history|
  {
    if |history| == since {
      assert history[..since] == history;
    } else {
      var before := history[..|history| - 1];
      assert before[..since] == history[..since];
      ChangesEndAtLast(before, since, name);
    }
  }

  /**
   For one name the changes are the values ingested with consecutive repeats removed: each
   one differs from its old value, and that is the value of the change before it, or what the
   cache held when the subscription began.
   */
  lemma {:induction false} ChangesFormAChain(history: seq<Ingested>, since: nat, name: string, j: nat)
    requires name != "" && since <= |history| && j < |Changes(history, since, name)|
    ensures var cs := Changes(history, since, name);
            && cs[j].name == name && cs[j].previous != Some(cs[j].value)
            && cs[j].previous == if j == 0 then LastValue(history[..since], name) else Some(cs[j - 1].value)
    decreases |history|
  {
    var before := history[..|history| - 1];
    var cs := Changes(before, since, name);
    assert before[..since] == history[..since];
    if j < |cs| {
      ChangesFormAChain(before, since, name, j);
    } else {
      ChangesEndAtLast(before, since, name);
    }
  }
}
