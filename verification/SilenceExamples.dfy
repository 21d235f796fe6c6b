/**
 A client that is never heard of again: the poller's typed every() takes a name that is not in
 the catalog (include/fountainer/datapoints/poller.hpp:55-59), async_read refuses each poll of
 it, and while a poll is due no keepalive is asked for (src/datapoints/poller.cpp:251-272).
 */
module SilenceExamples {
  import opened OrderedMap
  import opened DispatcherState
  import Ops = DispatcherOps
  import SessionState
  import SessionRuns
  import SessionExamples
  import opened Link
  import opened PollerState
  import PollerTheorems
  import opened PollerExamples
  import opened ReadFrames
  import opened ClientTick
  import opened Silence

  // ---------------------------------------------------------------- one entry, polled at every tick

  /** The only entry is due again by last + period. */
  predicate Lonely(p: Poller, name: string, last: int, period: int) {
    && p.running && !p.paused && p.outstanding == [] && p.lastTick <= last
    && |p.entries| == 1 && p.entries[0].0 == name
    && var en := p.entries[0].1;
       !en.once && 0 < en.interval <= period && !en.inFlight && (p.dirty || en.nextDue <= last + period)
  }

  /** The entry that a pass comes to. */
  function Met(p: Poller, now: int): Entry
    requires |p.entries| == 1
  {
    if p.dirty then Renewed(p.entries[0].1, now) else p.entries[0].1
  }

  lemma MetAlone(p: Poller, name: string, last: int, period: int, now: int)
    requires Lonely(p, name, last, period) && last + period <= now
    ensures Raster(p, now).entries == [(name, Met(p, now))] && CanTick(p, now)
    ensures !Met(p, now).once && IsDue(Met(p, now), now) && Met(p, now).interval == p.entries[0].1.interval
  {
    assert p.entries == [(name, p.entries[0].1)] && [(name, p.entries[0].1)][1..] == [];
    assert Rebuilt(p.entries, now) == [(name, Renewed(p.entries[0].1, now))];
    assert Raster(p, now).entries[1..] == [];
  }

  /** Such a tick asks for that name alone, and nothing of it is submitted. */
  lemma LonelyTick(p: Poller, name: string, last: int, period: int, known: string -> bool, now: int, lastTx: int)
    requires Lonely(p, name, last, period) && last + period <= now && !known(name)
    ensures CanTick(p, now)
    ensures var (r, asked) := PollerState.Tick(p, now, lastTx);
            && asked == [Poll([name])] && Submitted(asked, known) == []
            && r.outstanding == [[name]] && r.entries == [(name, TickEntry(Met(p, now), now))]
            && r.running && !r.paused && r.lastTick == now && !r.dirty
  {
    MetAlone(p, name, last, period, now);
    var m := [(name, Met(p, now))];
    assert m[1..] == [] && Due(m, now) == [name] && Ticked(m, now) == [(name, TickEntry(Met(p, now), now))];
    assert Chunks([name]) == [[name]] && [[name]][1..] == [] && Polls([[name]]) == [Poll([name])];
    assert [Poll([name])][1..] == [] && Asks(Poll([name]))[0] == name;
  }

  /** The refusal takes the poll back at once: by the next tick the entry is due again. */
  lemma StaysLonely(p: Poller, name: string, last: int, period: int, known: string -> bool, now: int, lastTx: int)
    requires Lonely(p, name, last, period) && last + period <= now && !known(name) && CanTick(p, now)
    ensures Lonely(Refused(PollerState.Tick(p, now, lastTx).0, known, 0), name, now, period)
  {
    LonelyTick(p, name, last, period, known, now, lastTx);
    MetAlone(p, name, last, period, now);
    var r := PollerState.Tick(p, now, lastTx).0;
    var en := TickEntry(Met(p, now), now);
    PollerTheorems.BehindIsExact(Met(p, now), now);
    hide PollerState.Tick;
    assert Asks(Poll([name]))[0] == name;
    var back := Complete(r, 0, false);
    assert [name][1..] == [] && AllLanded(r.entries, [name]) == Landed(r.entries, name);
    assert Put(r.entries, name, en.(inFlight := false)) == [(name, en.(inFlight := false))] by {
      LessIsTotal(name, name);
    }
    assert back.outstanding == [] && Refused(r, known, 0) == Refused(back, known, 0) == back;
  }

  // ---------------------------------------------------------------- the session has nothing to send

  lemma NothingToSend(e: Env, c: Core, now: int)
    requires Ops.Ready(e, c, now) && c.queue == [] && c.pending == []
    ensures var r := Ops.Tick(e, c, now);
            r.queue == [] && r.pending == [] && r.link == c.link && r.sent == c.sent
  {
    Ops.ExpireSteps(e, c, now);
    ExpireKeepsSent(e, c, now);
    Ops.ExpiredQueue(e, c, now);
    ExpiredPending(e, c, now);
    var a := Ops.Expire(e, c, now);
    if a.sendingEnabled && !a.draining {
      Ops.FlagSteps(e, a, true, now);
      assert Ops.DrainLoop(e, a.(draining := true), now) == a.(draining := true);
    }
  }

  /** Nothing waits or is open, and the only entry is not in the catalog. */
  ghost predicate Cut(e: Env, c: Client, name: string, last: int, clock: int, period: int) {
    && SessionRuns.Good(e, c.session, clock) && PollerTheorems.Good(c.poller) && c.session.core.link.state.Running?
    && c.session.core.queue == [] && c.session.core.pending == []
    && Lonely(c.poller, name, last, period) && !c.known(name)
  }

  /** The input: however long the silence has lasted, a tick of such a client sends nothing. */
  lemma CutTick(e: Env, c: Client, name: string, last: int, clock: int, period: int, now: int, at: int)
    requires Cut(e, c, name, last, clock, period) && clock <= now <= at && last + period <= now
    ensures SessionRuns.Good(e, c.session, now) && CanTick(c.poller, now)
    ensures var r := ClientTick.Tick(e, c, now, at);
            && Cut(e, r, name, now, at, period)
            && r.session.core.link == c.session.core.link && r.session.core.sent == c.session.core.sent
  {
    SessionRuns.GoodLater(e, c.session, clock, now);
    NothingToSend(e, c.session.core, now);
    var s := SessionState.Tick(e, c.session, now);
    SessionRuns.TickKeepsGood(e, c.session, now);
    SessionRuns.GoodLater(e, s, now, at);
    LonelyTick(c.poller, name, last, period, c.known, now, s.core.link.lastTx);
    StaysLonely(c.poller, name, last, period, c.known, now, s.core.link.lastTx);
    TickKeepsGood(e, c, now, at);
    assert AskedAt(c, now, s.core.link.lastTx) == [];
  }

  // ---------------------------------------------------------------- for ever

  /** Ticks, at least a period apart. */
  predicate Beats(evs: seq<Event>, last: int, clock: int, period: int) {
    evs == [] ||
    (evs[0].Ticks? && last + period <= evs[0].now && clock <= evs[0].now <= evs[0].at
     && Beats(evs[1..], evs[0].now, evs[0].at, period))
  }

  /** Every event may happen, and none of them sends a frame. */
  ghost predicate StaysMute(e: Env, c: Client, clock: int, evs: seq<Event>)
    requires SessionRuns.Good(e, c.session, clock) && PollerTheorems.Good(c.poller)
    decreases |evs|
  {
    evs == [] ||
    (May(c, clock, evs[0]) &&
     var r := Step(e, c, clock, evs[0]);
     && r.session.core.sent == c.session.core.sent && r.session.core.link.lastTx == c.session.core.link.lastTx
     && SessionRuns.Good(e, r.session, At(evs[0])) && PollerTheorems.Good(r.poller)
     && StaysMute(e, r, At(evs[0]), evs[1..]))
  }

  lemma {:induction false} CutIsMute(e: Env, c: Client, name: string, last: int, clock: int, period: int, evs: seq<Event>)
    requires Cut(e, c, name, last, clock, period) && Beats(evs, last, clock, period)
    ensures StaysMute(e, c, clock, evs)
    decreases |evs|
  {
    if evs != [] {
      CutStep(e, c, name, last, clock, period, evs[0]);
      hide Lonely, May, Step, SessionRuns.Good, PollerTheorems.Good;
      CutIsMute(e, Step(e, c, clock, evs[0]), name, evs[0].now, evs[0].at, period, evs[1..]);
    }
  }

  lemma CutStep(e: Env, c: Client, name: string, last: int, clock: int, period: int, ev: Event)
    requires Cut(e, c, name, last, clock, period) && ev.Ticks? && clock <= ev.now <= ev.at && last + period <= ev.now
    ensures May(c, clock, ev)
    ensures var r := Step(e, c, clock, ev);
            && Cut(e, r, name, ev.now, ev.at, period)
            && r.session.core.link == c.session.core.link && r.session.core.sent == c.session.core.sent
  {
    hide Cut, ClientTick.Tick, Step, Lonely, SessionRuns.Good, PollerTheorems.Good;
    CutIsGood(e, c, name, last, clock, period);
    CutTick(e, c, name, last, clock, period, ev.now, ev.at);
    TickIsStep(e, c, clock, ev);
  }

  lemma CutIsGood(e: Env, c: Client, name: string, last: int, clock: int, period: int)
    requires Cut(e, c, name, last, clock, period)
    ensures SessionRuns.Good(e, c.session, clock) && PollerTheorems.Good(c.poller) && c.poller.lastTick <= last && period > 0
  {
  }

  lemma TickIsStep(e: Env, c: Client, clock: int, ev: Event)
    requires SessionRuns.Good(e, c.session, clock) && PollerTheorems.Good(c.poller) && ev.Ticks? && May(c, clock, ev)
    ensures SessionRuns.Good(e, c.session, ev.now) && Step(e, c, clock, ev) == ClientTick.Tick(e, c, ev.now, ev.at)
  {
    SessionRuns.GoodLater(e, c.session, clock, ev.now);
    hide ClientTick.Tick, CanTick;
  }

  /** The client's ticks: n of them, 100 ms apart, the first at 100 * i. */
  function Ticking(i: nat, n: nat): seq<Event>
    decreases n
  {
    if n == 0 then [] else [Ticks(100 * i, 100 * i)] + Ticking(i + 1, n - 1)
  }

  lemma {:induction false} TickingBeats(i: nat, n: nat, clock: int)
    requires clock <= 100 * i
    ensures Beats(Ticking(i + 1, n), 100 * i, clock, 100)
    decreases n
  {
    if n > 0 {
      assert Ticking(i + 1, n)[1..] == Ticking(i + 2, n - 1);
      TickingBeats(i + 1, n - 1, 100 * (i + 1));
    }
  }

  /**
   The run: a handshake, then say every(50ms, "Foo"), start(), and the client's ticks every
   100 ms. No frame is sent in any number of them, although the session runs and the keepalive
   is on: the silence outlasts every limit.
   */
  lemma UnknownIsMute(e: Env, known: string -> bool, name: string, interval: int) returns (evs: seq<SessionRuns.Event>)
    requires SessionExamples.Welcomes(e) && !known(name) && 0 < interval <= 100
    ensures SessionRuns.Schedule(evs) && SessionRuns.Run(e, evs).core.link.state.Running?
    ensures PollerTheorems.Possible(Settings(name, interval))
    ensures var c := Client(SessionRuns.Run(e, evs), PollerTheorems.Run(Settings(name, interval)), known);
            && Attentive(c, DEFAULT_KEEPALIVE) && SessionRuns.Good(e, c.session, 0)
            && forall n: nat :: StaysMute(e, c, 0, Ticking(1, n))
  {
    SettingsRun(name, interval);
    assert Lonely(PollerTheorems.Run(Settings(name, interval)), name, 0, 100);
    hide PollerTheorems.Run, PollerTheorems.Possible, PollerTheorems.Good, Settings, StaysMute, Lonely;
    evs := SessionExamples.RunsIdle(e);
    hide SessionRuns.Run, SessionRuns.Schedule, SessionRuns.Good, SessionExamples.Welcomes;
    NoneIsHeard(e, Client(SessionRuns.Run(e, evs), PollerTheorems.Run(Settings(name, interval)), known), name);
  }

  lemma NoneIsHeard(e: Env, c: Client, name: string)
    requires Cut(e, c, name, 0, 0, 100)
    ensures forall n: nat :: StaysMute(e, c, 0, Ticking(1, n))
  {
    hide StaysMute, Lonely;
    forall n: nat ensures StaysMute(e, c, 0, Ticking(1, n)) {
      TickingBeats(0, n, 0);
      CutIsMute(e, c, name, 0, 0, 100, Ticking(1, n));
    }
  }
}
