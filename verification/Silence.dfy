/** How long a client can be silent, over every run of its session and its poller. */
module Silence {
  import opened Wrappers
  import opened OrderedMap
  import opened JsonValues
  import opened Link
  import opened DispatcherState
  import Ops = DispatcherOps
  import Theorems = DispatcherTheorems
  import SessionState
  import SessionRuns
  import PollerState
  import PollerTheorems
  import opened ReadFrames
  import opened ClientTick
  import CanonicalJson
  import Auth

  // ---------------------------------------------------------------- runs of the client

  /** What happens while the session runs and the poller is on; poller settings and completions carry a time. */
  datatype Event =
    | OnSession(event: SessionRuns.Event)
    | OnPoller(setting: PollerTheorems.Event, time: int)
    | Ticks(now: int, at: int)

  function At(ev: Event): int {
    match ev
    case OnSession(event) => event.at
    case OnPoller(_, time) => time
    case Ticks(_, at) => at
  }

  predicate May(c: Client, clock: int, ev: Event) {
    match ev
    case OnSession(event) => clock <= event.at && !event.Opened? && !event.Lost? && SessionRuns.Possible(event)
    case OnPoller(setting, time) => clock <= time && PollerTheorems.Allowed(c.poller, setting) && !setting.Polled?
    case Ticks(now, at) => clock <= now <= at && c.poller.lastTick <= now && PollerState.CanTick(c.poller, now)
  }

  ghost function Step(e: Env, c: Client, clock: int, ev: Event): Client
    requires SessionRuns.Good(e, c.session, clock) && PollerTheorems.Good(c.poller) && May(c, clock, ev)
  {
    match ev
    case OnSession(event) =>
      SessionRuns.GoodLater(e, c.session, clock, event.at);
      c.(session := SessionRuns.Step(e, c.session, event))
    case OnPoller(setting, _) => c.(poller := PollerTheorems.Step(c.poller, setting))
    case Ticks(now, at) =>
      SessionRuns.GoodLater(e, c.session, clock, now);
      Tick(e, c, now, at)
  }

  lemma StepKeepsGood(e: Env, c: Client, clock: int, keepalive: int, ev: Event)
    requires Calm(e, c, clock, keepalive) && May(c, clock, ev)
    ensures var r := Step(e, c, clock, ev);
            SessionRuns.Good(e, r.session, At(ev)) && PollerTheorems.Good(r.poller) && r.known == c.known
  {
    match ev
    case OnSession(event) =>
      SessionRuns.GoodLater(e, c.session, clock, event.at);
      SessionRuns.StepKeepsGood(e, c.session, event);
    case OnPoller(setting, time) =>
      SessionRuns.GoodLater(e, c.session, clock, time);
      PollerTheorems.StepKeepsGood(c.poller, setting);
    case Ticks(now, at) =>
      SessionRuns.GoodLater(e, c.session, clock, now);
      TickKeepsGood(e, c, now, at);
  }

  lemma TickKeepsGood(e: Env, c: Client, now: int, at: int)
    requires SessionRuns.Good(e, c.session, now) && now <= at && c.poller.lastTick <= now
    requires PollerTheorems.Good(c.poller) && PollerState.CanTick(c.poller, now)
    ensures var r := Tick(e, c, now, at);
            SessionRuns.Good(e, r.session, at) && PollerTheorems.Good(r.poller) && r.known == c.known
            && forall k :: Has(r.poller.entries, k) ==> Has(c.poller.entries, k)
  {
    SessionRuns.TickKeepsGood(e, c.session, now);
    var s := SessionState.Tick(e, c.session, now);
    SessionRuns.GoodLater(e, s, now, at);
    PollerTheorems.StepKeepsGood(c.poller, PollerTheorems.Polled(now, s.core.link.lastTx));
    var p := PollerState.Tick(c.poller, now, s.core.link.lastTx).0;
    RefusedKeepsGood(p, c.known, |c.poller.outstanding|);
    forall k | Has(p.entries, k) ensures Has(c.poller.entries, k) {
      PollerTheorems.TickNamesStay(c.poller, now, s.core.link.lastTx, k);
    }
  }

  lemma TextStamps(e: Env, s: Session, message: Option<Json>, at: int)
    requires Ops.Ready(e, s.core, at) && s.core.link.state.Running? && (message.Some? ==> message.value.Obj?)
    ensures SessionState.OnText(e, s, message, at).core.link.lastTx in {s.core.link.lastTx, at}
  {
    if message.Some? {
      FollowsSent(e, s.core, SessionState.Replies.OnMessage(e, s.core, message.value, at).0, at);
    }
  }

  /** A frame that goes out while the session runs is stamped with the time of the step. */
  lemma SessionStamps(e: Env, s: Session, event: SessionRuns.Event)
    requires SessionRuns.Good(e, s, event.at) && s.core.link.state.Running? && SessionRuns.Possible(event)
    requires !event.Opened? && !event.Lost?
    ensures SessionRuns.Step(e, s, event).core.link.lastTx in {s.core.link.lastTx, event.at}
  {
    match event
    case Received(message, at) => TextStamps(e, s, message, at);
    case Ticked(at) => FollowsSent(e, s.core, Ops.Tick(e, s.core, at), at);
    case Asked(request, at) => FollowsSent(e, s.core, Ops.Submit(e, s.core, request, at), at);
    case Posted(kind, body, at) =>
  }

  lemma TickStamps(e: Env, c: Client, now: int, at: int)
    requires SessionRuns.Good(e, c.session, now) && c.session.core.link.state.Running? && now <= at
    requires PollerState.CanTick(c.poller, now)
    ensures Tick(e, c, now, at).session.core.link.lastTx in {c.session.core.link.lastTx, now, at}
  {
    SessionRuns.TickKeepsGood(e, c.session, now);
    var s := SessionState.Tick(e, c.session, now);
    FollowsSent(e, c.session.core, s.core, now);
    SessionRuns.GoodLater(e, s, now, at);
    FollowsSent(e, s.core, AskEach(e, s, AskedAt(c, now, s.core.link.lastTx), at).core, at);
  }

  /** The time of the latest tick, after one more event. */
  function LastTick(last: int, ev: Event): int { if ev.Ticks? then ev.now else last }

  /** What is configured is in the catalog. */
  predicate FromCatalog(known: string -> bool, setting: PollerTheorems.Event) {
    match setting
    case Added(name, _) => known(name)
    case AddedOnce(name) => known(name)
    case Defaulted(catalog) => forall i :: 0 <= i < |catalog| ==> known(catalog[i].0)
    case _ => true
  }

  /** A tick that finds such a silence meets a transport that takes the next frame, and an id is left for it. */
  ghost predicate LineIsUp(e: Env, c: Client, clock: int, ev: Event, keepalive: int)
    requires SessionRuns.Good(e, c.session, clock) && May(c, clock, ev)
  {
    match ev
    case Ticks(now, _) =>
      SessionRuns.GoodLater(e, c.session, clock, now);
      now - c.session.core.link.lastTx >= keepalive ==>
        var l := SessionState.Tick(e, c.session, now).core.link;
        e.transport(l.attempts) && IdsLeft(l, 1)
    case _ => true
  }

  /**
   The events keep the session running, the poller on, what it polls in the catalog and every
   timeout below the keepalive interval; each comes no later than d after the latest tick; and
   the transport takes the frame that is to break a silence.
   */
  ghost predicate Undisturbed(e: Env, c: Client, last: int, clock: int, evs: seq<Event>, keepalive: int, d: int)
    requires Calm(e, c, clock, keepalive)
    decreases |evs|
  {
    evs == [] ||
    (May(c, clock, evs[0]) && At(evs[0]) <= last + d && LineIsUp(e, c, clock, evs[0], keepalive) &&
     (evs[0].OnPoller? ==> FromCatalog(c.known, evs[0].setting)) &&
     (StepKeepsGood(e, c, clock, keepalive, evs[0]);
      var r := Step(e, c, clock, evs[0]);
      Attentive(r, keepalive) && TimeoutsBelow(r.session.core, keepalive) &&
      Undisturbed(e, r, LastTick(last, evs[0]), At(evs[0]), evs[1..], keepalive, d)))
  }

  /** No event of the run comes so long after the last frame before it. */
  ghost predicate NeverSilent(e: Env, c: Client, last: int, clock: int, evs: seq<Event>, keepalive: int, d: int)
    requires Calm(e, c, clock, keepalive) && Undisturbed(e, c, last, clock, evs, keepalive, d)
    decreases |evs|
  {
    evs == [] ||
    (At(evs[0]) - c.session.core.link.lastTx < keepalive + d &&
     (StepKeepsGood(e, c, clock, keepalive, evs[0]);
      NeverSilent(e, Step(e, c, clock, evs[0]), LastTick(last, evs[0]), At(evs[0]), evs[1..], keepalive, d)))
  }

  lemma StepBreaksSilence(e: Env, c: Client, last: int, clock: int, ev: Event, keepalive: int)
    requires Calm(e, c, clock, keepalive) && Able(e, keepalive) && Framed(e) && May(c, clock, ev)
    requires InCatalog(c.poller, c.known) && ShortCatalog(c.known)
    requires last <= clock && last - c.session.core.link.lastTx < keepalive
    requires LineIsUp(e, c, clock, ev, keepalive)
    ensures LastTick(last, ev) - Step(e, c, clock, ev).session.core.link.lastTx < keepalive
  {
    match ev
    case OnSession(event) =>
      SessionRuns.GoodLater(e, c.session, clock, event.at);
      SessionStamps(e, c.session, event);
    case OnPoller(_, _) =>
    case Ticks(now, at) =>
      SessionRuns.GoodLater(e, c.session, clock, now);
      TickStamps(e, c, now, at);
      if now - c.session.core.link.lastTx >= keepalive {
        SilentTickTransmits(e, c, now, at, keepalive);
      }
  }

  /** The condition is met by every client whose entries are in the catalog: one frame taken is enough. */
  lemma SilentTickTransmits(e: Env, c: Client, now: int, at: int, keepalive: int)
    requires Calm(e, c, now, keepalive) && Able(e, keepalive) && Framed(e) && now <= at
    requires InCatalog(c.poller, c.known) && ShortCatalog(c.known)
    requires now - c.session.core.link.lastTx >= keepalive && PollerState.CanTick(c.poller, now)
    requires var l := SessionState.Tick(e, c.session, now).core.link; e.transport(l.attempts) && IdsLeft(l, 1)
    ensures |Tick(e, c, now, at).session.core.sent| > |c.session.core.sent|
    ensures Tick(e, c, now, at).session.core.link.lastTx in {now, at}
  {
    var s := SessionState.Tick(e, c.session, now);
    SilentSessionTick(e, c, now, at, keepalive);
    var asked := AskedAt(c, now, s.core.link.lastTx);
    FollowsSent(e, s.core, AskEach(e, s, asked, at).core, at);
    if |s.core.sent| == |c.session.core.sent| {
      AskedIsShort(c, now, s.core.link.lastTx);
      SilentTickAsks(c, now, s.core.link.lastTx);
      FirstReadTransmits(e, s, asked, keepalive, at);
    } else {
      SentIsStamped(e, c.session, now);
    }
  }

  lemma SentIsStamped(e: Env, s: Session, now: int)
    requires SessionRuns.Good(e, s, now) && s.core.link.state.Running?
    requires |SessionState.Tick(e, s, now).core.sent| > |s.core.sent|
    ensures SessionState.Tick(e, s, now).core.link.lastTx == now
  {
    FollowsSent(e, s.core, Ops.Tick(e, s.core, now), now);
  }

  lemma FirstReadTransmits(e: Env, s: Session, asked: seq<PollRequest>, keepalive: int, at: int)
    requires SessionRuns.Good(e, s, at) && Able(e, keepalive) && Framed(e) && Idle(s.core)
    requires asked != [] && AllShort(asked) && e.transport(s.core.link.attempts) && IdsLeft(s.core.link, 1)
    ensures |AskEach(e, s, asked, at).core.sent| > |s.core.sent|
  {
    OneRead(e, s.core, asked[0], keepalive, at);
    SessionRuns.AskKeepsGood(e, s, ReadRequest(asked[0]), at);
    var a := SessionState.Ask(e, s, ReadRequest(asked[0]), at);
    FollowsSent(e, a.core, AskEach(e, a, asked[1..], at).core, at);
  }

  lemma StepStaysInCatalog(e: Env, c: Client, clock: int, keepalive: int, ev: Event)
    requires Calm(e, c, clock, keepalive) && May(c, clock, ev) && InCatalog(c.poller, c.known)
    requires ev.OnPoller? ==> FromCatalog(c.known, ev.setting)
    ensures InCatalog(Step(e, c, clock, ev).poller, c.known)
  {
    match ev
    case OnSession(_) =>
    case OnPoller(setting, _) => SettingStaysInCatalog(c.poller, c.known, setting);
    case Ticks(now, at) =>
      SessionRuns.GoodLater(e, c.session, clock, now);
      TickKeepsGood(e, c, now, at);
  }

  lemma SettingStaysInCatalog(p: Poller, known: string -> bool, setting: PollerTheorems.Event)
    requires InCatalog(p, known) && PollerTheorems.Good(p) && PollerTheorems.Allowed(p, setting) && FromCatalog(known, setting)
    ensures InCatalog(PollerTheorems.Step(p, setting), known)
  {
    match setting
    case Added(name, interval) =>
      PutStaysInCatalog(p, known, name, PollerState.EntryAt(p.entries, name).(interval := interval, once := false));
    case AddedOnce(name) =>
      PutStaysInCatalog(p, known, name, PollerState.EntryAt(p.entries, name).(once := true, onceDone := false));
    case Removed(name) =>
      if Has(p.entries, name) {
        forall k { FindAfterRemove(p.entries, name, k); }
      } else {
        PollerTheorems.RemoveAbsent(p.entries, name);
      }
    case Defaulted(catalog) => DefaultsStayInCatalog(p, known, catalog);
    case Polled(now, lastTx) =>
      forall k | Has(PollerState.Tick(p, now, lastTx).0.entries, k) ensures Has(p.entries, k) {
        PollerTheorems.TickNamesStay(p, now, lastTx, k);
      }
    case Completed(i, ok) => forall k { PollerTheorems.LandedAt(p.entries, p.outstanding[i], k); }
    case _ =>
  }

  lemma PutStaysInCatalog(p: Poller, known: string -> bool, name: string, en: PollerState.Entry)
    requires InCatalog(p, known) && known(name)
    ensures InCatalog(p.(entries := Put(p.entries, name, en), dirty := true), known)
  {
    forall k { FindAfterPut(p.entries, name, en, k); }
  }

  lemma {:induction false} DefaultsStayInCatalog(p: Poller, known: string -> bool, catalog: seq<(string, PollerState.PollClass)>)
    requires InCatalog(p, known) && forall i :: 0 <= i < |catalog| ==> known(catalog[i].0)
    ensures InCatalog(PollerState.AddDefaults(p, catalog), known)
    decreases |catalog|
  {
    if catalog != [] {
      var (name, k) := catalog[0];
      var en := PollerState.EntryAt(p.entries, name);
      if k != PollerState.Disabled {
        PutStaysInCatalog(p, known, name, if k == PollerState.OnConnect then en.(once := true, onceDone := false)
                                          else en.(interval := PollerState.ClassInterval(p.classes, k), once := false));
      }
      DefaultsStayInCatalog(PollerState.AddDefault(p, name, k), known, catalog[1..]);
    }
  }

  /**
   Bounded silence: from any moment at which the latest tick came less than the keepalive
   interval after the last frame, two consecutive frames are never keepalive + d or more apart,
   and no event ever sees a longer silence, as long as what is polled is in the catalog.
   */
  lemma {:induction false} SilenceIsBounded(e: Env, c: Client, last: int, clock: int, evs: seq<Event>, keepalive: int, d: int)
    requires Calm(e, c, clock, keepalive) && Able(e, keepalive) && Framed(e)
    requires InCatalog(c.poller, c.known) && ShortCatalog(c.known)
    requires last <= clock && last - c.session.core.link.lastTx < keepalive
    requires Undisturbed(e, c, last, clock, evs, keepalive, d)
    ensures NeverSilent(e, c, last, clock, evs, keepalive, d)
    decreases |evs|
  {
    if evs != [] {
      StepKeepsGood(e, c, clock, keepalive, evs[0]);
      StepBreaksSilence(e, c, last, clock, evs[0], keepalive);
      StepStaysInCatalog(e, c, clock, keepalive, evs[0]);
      SilenceIsBounded(e, Step(e, c, clock, evs[0]), LastTick(last, evs[0]), At(evs[0]), evs[1..], keepalive, d);
    }
  }

  const DEFAULT_KEEPALIVE := 240000
  const DEVICE_IDLE_LIMIT := 300000

  /** The default budget and keepalive meet the conditions, and leave the device's limit a minute's margin for d. */
  lemma DefaultsStayBelowTheLimit(e: Env, d: int)
    requires e.budget == Theorems.DEFAULT_BUDGET && e.defaultTimeout > 0 && d <= 60000
    ensures Able(e, DEFAULT_KEEPALIVE) && PollerState.Initial().keepalive == DEFAULT_KEEPALIVE
    ensures DEFAULT_KEEPALIVE + d <= DEVICE_IDLE_LIMIT
  {
    assert Accrued(e.budget, DEFAULT_KEEPALIVE) == 960.0;
  }

  // ---------------------------------------------------------------- the conditions can be met

  /** A client with the default budget, frames as long as their text, and a transport that takes all of them. */
  function PlainEnv(clock: int -> int): Env {
    Env.Env(Auth.Crypto((key, text) => "", text => []), Theorems.DEFAULT_BUDGET, 10000, 15000, "1", "", true,
            (device, kid) => Success([]), m => None, n => true, m => |CanonicalJson.Canonical(m)|, clock)
  }

  lemma PlainEnvIsAble(clock: int -> int)
    requires forall t: int :: -TWO63 <= clock(t) < TWO63
    ensures Able(PlainEnv(clock), DEFAULT_KEEPALIVE) && Framed(PlainEnv(clock))
    ensures forall n: nat :: PlainEnv(clock).transport(n)
    ensures ShortCatalog(name => name == "System_Uptime")
  {
    var e := PlainEnv(clock);
    DefaultsStayBelowTheLimit(e, 0);
    assert TextFrames(e) && Dated(e);
  }
}
