/**
 DatapointManager's cache as the source runs it: a map and a list of subscriptions updated in
 place, callbacks collected during an update and called after it (src/datapoints/manager.cpp).
 */
module CacheObject {
  import opened Wrappers
  import opened Sequences
  import opened OrderedMap
  import opened JsonValues
  import opened CacheState

  lemma {:induction false} AgedSnoc(m: Entries<Cached>, x: (string, Cached))
    ensures Aged(m + [x]) == Aged(m) + [(x.0, AgedValue(x.1))]
  {
    if m == [] {
      assert m + [x] == [x];
    } else {
      assert (m + [x])[1..] == m[1..] + [x];
      AgedSnoc(m[1..], x);
    }
  }

  lemma AgedTurn(m: Entries<Cached>, i: nat)
    requires i < |m| && |Aged(m[..i])| == i
    ensures (Aged(m[..i]) + m[i..])[i] == m[i] && |Aged(m[..i + 1])| == i + 1
    ensures (Aged(m[..i]) + m[i..])[i := (m[i].0, AgedValue(m[i].1))] == Aged(m[..i + 1]) + m[i + 1..]
  {
    assert m[..i + 1] == m[..i] + [m[i]];
    AgedSnoc(m[..i], m[i]);
  }

  lemma {:induction false} WithoutTokenSnoc(slots: seq<Slot>, s: Slot, token: nat)
    ensures WithoutToken(slots + [s], token) == WithoutToken(slots, token) + (if s.token == token then [] else [s])
  {
    if slots == [] {
      assert slots + [s] == [s];
    } else {
      assert (slots + [s])[1..] == slots[1..] + [s];
      WithoutTokenSnoc(slots[1..], s, token);
      Regroup(if slots[0].token == token then [] else [slots[0]], WithoutToken(slots[1..], token),
              if s.token == token then [] else [s]);
    }
  }

  lemma {:induction false} NotifySnoc(slots: seq<Slot>, s: Slot, change: Change)
    ensures Notify(slots + [s], change) ==
            Notify(slots, change) + (if Wants(s, change.name) then [Delivery(s.token, change)] else [])
  {
    if slots == [] {
      assert slots + [s] == [s];
    } else {
      assert (slots + [s])[1..] == slots[1..] + [s];
      NotifySnoc(slots[1..], s, change);
      Regroup(if Wants(slots[0], change.name) then [Delivery(slots[0].token, change)] else [], Notify(slots[1..], change),
              if Wants(s, change.name) then [Delivery(s.token, change)] else []);
    }
  }

  class DatapointManager {
    const decode: (string, Json) -> Option<Value>
    var cache: Entries<Cached>
    var slots: seq<Slot>
    var nextToken: nat

    ghost var history: seq<Ingested>
    ghost var deliveries: seq<Delivery>
    ghost var staleAt: nat
    ghost var since: map<nat, nat>

    ghost function View(): Manager
      reads this
    {
      Manager(cache, slots, nextToken, history, deliveries, staleAt, since)
    }

    constructor (decode: (string, Json) -> Option<Value>)
      ensures this.decode == decode && View() == Initial()
    {
      this.decode := decode;
      cache, slots, nextToken := [], [], 0;
      history, deliveries, staleAt, since := [], [], 0, map[];
    }

    method SubscribeRaw(name: string) returns (token: nat)
      modifies this
      ensures View() == Subscribe(old(View()), name) && token == nextToken
    {
      nextToken := nextToken + 1;
      token := nextToken;
      slots := slots + [Slot(token, name)];
      since := since[token := |history|];
    }

    /** erase_if by token. */
    method Unsubscribe(token: nat)
      modifies this
      ensures View() == CacheState.Unsubscribe(old(View()), token)
    {
      var kept, all := [], slots;
      for i := 0 to |all|
        modifies {}
        invariant kept == WithoutToken(all[..i], token)
      {
        assert all[..i + 1] == all[..i] + [all[i]];
        WithoutTokenSnoc(all[..i], all[i], token);
        if all[i].token != token {
          kept := kept + [all[i]];
        }
      }
      assert all[..|all|] == all;
      slots := kept;
    }

    method DecodeObject(dp: Json) returns (snapshot: Entries<Value>)
      ensures snapshot == Decoded(dp, decode)
    {
      snapshot := [];
      if !dp.Obj? {
        return;
      }
      assert dp.members[0..] == dp.members;
      for i := 0 to |dp.members|
        invariant DecodedInto(snapshot, dp.members[i..], decode) == Decoded(dp, decode)
      {
        var (name, raw) := dp.members[i];
        assert dp.members[i..][1..] == dp.members[i + 1..];
        match decode(name, raw) {
          case Some(v) => snapshot := Put(snapshot, name, v);
          case None =>
        }
      }
    }

    method IngestReport(dp: Json, source: Source, report: Option<nat>, now: int) returns (snapshot: Entries<Value>)
      modifies this
      ensures snapshot == Decoded(dp, decode)
      ensures View() == IngestAll(old(View()), Labelled(snapshot, source), report, now)
    {
      snapshot := DecodeObject(dp);
      var notifications := UpdateCache(snapshot, source, report, now);
      for i := 0 to |notifications|
        modifies this`deliveries
        invariant deliveries == old(deliveries) + notifications[..i]
      {
        CallBack(notifications[i]);
      }
      assert notifications[..|notifications|] == notifications;
    }

    ghost method CallBack(d: Delivery)
      modifies this`deliveries
      ensures deliveries == old(deliveries) + [d]
    {
      deliveries := deliveries + [d];
    }

    /** Apply the snapshot and collect the callbacks that are due. */
    method UpdateCache(snapshot: Entries<Value>, source: Source, report: Option<nat>, now: int)
      returns (notifications: seq<Delivery>)
      modifies this`cache, this`history
      ensures View().(deliveries := deliveries + notifications)
           == IngestAll(old(View()), Labelled(snapshot, source), report, now)
    {
      notifications := [];
      ghost var final := IngestAll(View(), Labelled(snapshot, source), report, now);
      assert snapshot[0..] == snapshot && deliveries + [] == deliveries;
      for i := 0 to |snapshot|
        modifies this`cache, this`history
        invariant IngestAll(View().(deliveries := deliveries + notifications), Labelled(snapshot[i..], source), report, now)
               == final
      {
        ghost var x := Ingested(snapshot[i].0, snapshot[i].1, source);
        assert Labelled(snapshot[i..], source) == [x] + Labelled(snapshot[i + 1..], source);
        ghost var before := View().(deliveries := deliveries + notifications);
        var due := Apply(snapshot[i].0, snapshot[i].1, source, report, now);
        Regroup(deliveries, notifications, due);
        notifications := notifications + due;
        assert View().(deliveries := deliveries + notifications) == Ingest(before, x, report, now);
      }
    }

    /** One entry of a snapshot. */
    method Apply(name: string, value: Value, source: Source, report: Option<nat>, now: int) returns (due: seq<Delivery>)
      modifies this`cache, this`history
      ensures due == DueBy(old(cache), slots, Ingested(name, value, source))
      ensures View() == Ingest(old(View()), Ingested(name, value, source), report, now).(deliveries := deliveries)
    {
      ghost var x := Ingested(name, value, source);
      var previous := OldValue(cache, name);
      var changed := previous.None? || previous.value != value;
      cache := Put(cache, name, Cached(value, now, source, Good, report));
      history := history + [x];
      due := [];
      if changed {
        due := CollectDue(Change(name, value, previous, source));
      }
    }

    method CollectDue(change: Change) returns (due: seq<Delivery>)
      ensures due == Notify(slots, change)
    {
      due := [];
      for i := 0 to |slots|
        invariant due == Notify(slots[..i], change)
      {
        assert slots[..i + 1] == slots[..i] + [slots[i]];
        NotifySnoc(slots[..i], slots[i], change);
        if slots[i].name == "" || slots[i].name == change.name {
          due := due + [Delivery(slots[i].token, change)];
        }
      }
      assert slots[..|slots|] == slots;
    }

    method MarkAllStale()
      modifies this
      ensures View() == CacheState.MarkAllStale(old(View()))
    {
      ghost var m := cache;
      assert m[0..] == m;
      for i := 0 to |cache|
        modifies this`cache
        invariant |cache| == |m| && |Aged(m[..i])| == i && cache == Aged(m[..i]) + m[i..]
      {
        AgedTurn(m, i);
        var (name, entry) := cache[i];
        if entry.quality == Good {
          cache := cache[i := (name, entry.(quality := Stale))];
        } else {
          assert cache[i := (name, entry)] == cache;
        }
      }
      assert m[..|m|] == m && m[|m|..] == [];
      staleAt := |history|;
    }

    method CachedRaw(name: string) returns (found: Option<Cached>)
      ensures found == if HasValue(cache, name) then Find(cache, name) else None
    {
      if !Has(cache, name) || Find(cache, name).value.quality == Unknown {
        return None;
      }
      return Find(cache, name);
    }
  }
}
