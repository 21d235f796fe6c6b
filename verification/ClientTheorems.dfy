/** Completions are called at most once, and the backoff doubles up to its limit, over every run. */
module ClientTheorems {
  import opened Wrappers
  import opened Errors
  import opened ClientState

  // ---------------------------------------------------------------- completions

  function Completed(replies: seq<Reply>): multiset<nat> {
    if replies == [] then multiset{} else multiset{replies[0].completion} + Completed(replies[1..])
  }

  lemma {:induction false} CompletedConcat(a: seq<Reply>, b: seq<Reply>)
    ensures Completed(a + b) == Completed(a) + Completed(b)
  {
    if a == [] {
      assert a + b == b;
    } else {
      assert (a + b)[1..] == a[1..] + b;
      CompletedConcat(a[1..], b);
    }
  }

  lemma {:induction false} CompletedReplies(ids: seq<nat>, result: Result<(), Error>)
    ensures Completed(RepliesTo(ids, result)) == multiset(ids)
  {
    if ids != [] {
      CompletedReplies(ids[1..], result);
      assert RepliesTo(ids, result)[1..] == RepliesTo(ids[1..], result);
      assert ids == [ids[0]] + ids[1..];
    }
  }

  /** Every completion handed in was called or still waits, never both. */
  ghost predicate Accounted(c: Client) {
    && c.handed == Completed(c.replies) + multiset(c.completions)
    && c.asked == multiset(c.released) + multiset(c.waiters)
  }

  // ---------------------------------------------------------------- backoff

  function Pow2(k: nat): nat { if k == 0 then 1 else 2 * Pow2(k - 1) }

  function Least(a: nat, b: nat): nat { if a < b then a else b }

  /** min(max, initial * 2^(k-1)) after k losses. */
  function Backoff(o: Options, losses: nat): nat {
    if losses == 0 then 0 else Least(o.max, o.initial * Pow2(losses - 1))
  }

  lemma DoublesTheProduct(a: nat, p: nat)
    ensures a * (2 * p) == 2 * (a * p)
  {
  }

  lemma {:induction false} Pow2IsPositive(k: nat)
    ensures Pow2(k) >= 1
  {
    if k > 0 { Pow2IsPositive(k - 1); }
  }

  lemma ProductIsPositive(a: nat, p: nat)
    requires a > 0 && p > 0
    ensures a * p > 0
  {
  }

  lemma BackoffDoubles(o: Options, losses: nat)
    requires 0 < o.initial <= o.max
    ensures Doubled(o, Backoff(o, losses)) == Backoff(o, losses + 1)
  {
    if losses > 0 {
      Pow2IsPositive(losses - 1);
      ProductIsPositive(o.initial, Pow2(losses - 1));
      DoublesTheProduct(o.initial, Pow2(losses - 1));
      assert Pow2(losses) == 2 * Pow2(losses - 1);
    } else {
      assert Pow2(0) == 1;
    }
  }

  /** An armed timer waits the authentication delay, or the backoff and at most a quarter more. */
  ghost predicate TimerIsFair(o: Options, c: Client, losses: nat) {
    c.timer.Some? ==>
      c.timer.value == o.authentication || (losses > 0 && c.backoff <= c.timer.value <= c.backoff + c.backoff / 4)
  }

  /** The backoff, and the timer, after so many losses. */
  ghost predicate Paced(o: Options, c: Client, losses: nat) {
    c.backoff == Backoff(o, losses) && TimerIsFair(o, c, losses)
  }

  // ---------------------------------------------------------------- the invariant

  ghost predicate Sound(c: Client) {
    && !c.state.Closing?
    && (c.dialing <==> c.state.Resolving?)
    && (c.connected <==> c.state.FountainHandshaking? || c.state.Ready?)
    && (c.completions != [] ==> c.state.Resolving? || c.state.FountainHandshaking?)
    && (c.waiters != [] ==> c.userDisconnect && (c.dialing || c.connected))
    && (c.state.Reconnecting? ==> !c.userDisconnect)
    && (c.state.Disconnected? && c.locked ==> !c.userDisconnect)
    && (c.state.Ready? ==> c.wasReady)
    && (c.timer.Some? ==> c.state.Reconnecting?)
    && (!c.state.Disconnected? ==> c.locked)
    && Accounted(c)
  }

  lemma CompleteConnectAccounts(c: Client, result: Result<(), Error>)
    requires Accounted(c)
    ensures Accounted(CompleteConnect(c, result))
  {
    CompletedConcat(c.replies, RepliesTo(c.completions, result));
    CompletedReplies(c.completions, result);
  }

  lemma CompleteDisconnectAccounts(c: Client)
    requires Accounted(c)
    ensures Accounted(CompleteDisconnect(c))
  {
  }

  lemma HandedAccounts(c: Client, completion: Option<nat>)
    requires Accounted(c)
    ensures Accounted(Handed(c, completion))
  {
  }

  lemma AnsweredAccounts(c: Client, completion: Option<nat>, result: Result<(), Error>)
    requires Accounted(c)
    ensures Accounted(Answered(c, completion, result))
  {
    if completion.Some? {
      CompletedConcat(c.replies, [Reply(completion.value, result)]);
      assert [Reply(completion.value, result)][1..] == [];
    }
  }

  lemma BeginKeepsSound(c: Client, completion: Option<nat>, prep: Preparation)
    requires Sound(c)
    ensures Sound(BeginConnect(c, completion, prep))
  {
    if c.state.Ready? {
      AnsweredAccounts(c, completion, Success(()));
    } else {
      HandedAccounts(c, completion);
      if c.state.Disconnected? || c.state.Reconnecting? {
        AttemptIsSound(Handed(c, completion).(timer := None), prep);
      }
    }
  }

  lemma AttemptIsSound(c: Client, prep: Preparation)
    requires Accounted(c) && (c.state.Disconnected? || c.state.Reconnecting?) && c.timer.None?
    requires !c.dialing && !c.connected && c.waiters == []
    requires c.state.Reconnecting? ==> c.locked
    requires c.locked ==> !c.userDisconnect
    ensures Sound(Attempt(c, prep))
  {
    match prep
    case Invalid(error) => CompleteConnectAccounts(c, Failure(error));
    case NoContext(error) => CompleteConnectAccounts(Locked(c), Failure(error));
    case Prepared =>
  }

  /** What the state is once the transport, or the dialer, has gone. */
  ghost predicate Parted(c: Client) {
    && Accounted(c) && !c.dialing && !c.connected && c.timer.None? && c.locked
    && (c.waiters != [] ==> c.userDisconnect)
  }

  lemma LostIsSound(o: Options, c: Client, cause: Error, roll: nat)
    requires Parted(c)
    ensures Sound(ConnectionLost(o, c, cause, roll))
  {
    hide Accounted, Doubled, Jittered, RepliesTo;
    var r := ConnectionLost(o, c, cause, roll);
    if c.userDisconnect {
      var c1 := Settled(c);
      SameAccounts(c, c1);
      var result := Failure(Error(Cancelled, CancelledByUser));
      CompleteConnectAccounts(c1, result);
      CompleteDisconnectAccounts(CompleteConnect(c1, result));
    } else {
      CompleteConnectAccounts(c, Failure(cause));
      SameAccounts(CompleteConnect(c, Failure(cause)), r);
    }
  }

  lemma SameAccounts(c: Client, r: Client)
    requires Accounted(c) && r.handed == c.handed && r.replies == c.replies && r.completions == c.completions
    requires r.asked == c.asked && r.released == c.released && r.waiters == c.waiters
    ensures Accounted(r)
  {
  }

  // ---------------------------------------------------------------- runs

  datatype Event =
    | Connecting(completion: Option<nat>, prep: Preparation)
    | TimerExpires
    | TimerRuns(prep: Preparation)
    | DialDone(refusal: Option<Error>, roll: nat)
    | SessionReady
    | SessionFailed(error: Error)
    | TransportLost(error: Error, roll: nat)
    | Disconnecting(done: Option<nat>)

  /**
   What the timer, the transport and the session can report in a state; on_ready comes once,
   from the handshake. The user can connect and disconnect at any time.
   */
  predicate Possible(c: Client, ev: Event) {
    match ev
    case TimerExpires => c.timer.Some?
    case TimerRuns(_) => c.queued > 0
    case DialDone(_, _) => c.dialing
    case SessionReady => c.state.FountainHandshaking?
    case SessionFailed(_) => c.connected
    case TransportLost(_, _) => c.connected
    case _ => true
  }

  function Step(o: Options, c: Client, ev: Event): Client
    requires Possible(c, ev)
  {
    match ev
    case Connecting(completion, prep) => BeginConnect(c, completion, prep)
    case TimerExpires => TimerExpired(c)
    case TimerRuns(prep) => TimerFired(c, prep)
    case DialDone(error, roll) => Opened(o, c, error, roll)
    case SessionReady => BecameReady(c)
    case SessionFailed(error) => c.(failure := Some(error))
    case TransportLost(error, roll) => HandleTransportClosed(o, c, error, roll)
    case Disconnecting(done) => RequestDisconnect(c, done)
  }

  lemma DialKeepsSound(o: Options, c: Client, refusal: Option<Error>, roll: nat)
    requires Sound(c) && c.dialing
    ensures Sound(Opened(o, c, refusal, roll))
  {
    if refusal.Some? {
      SameAccounts(c, c.(dialing := false));
      LostIsSound(o, c.(dialing := false), refusal.value, roll);
    } else {
      SameAccounts(c, Opened(o, c, refusal, roll));
    }
  }

  lemma ReadyKeepsSound(c: Client)
    requires Sound(c) && c.state.FountainHandshaking?
    ensures Sound(BecameReady(c))
  {
    var c1 := c.(wasReady := true, backoff := 0, state := Ready);
    SameAccounts(c, c1);
    CompleteConnectAccounts(c1, Success(()));
  }

  lemma LossKeepsSound(o: Options, c: Client, error: Error, roll: nat)
    requires Sound(c) && c.connected
    ensures Sound(HandleTransportClosed(o, c, error, roll))
  {
    SameAccounts(c, c.(connected := false));
    LostIsSound(o, c.(connected := false), c.failure.GetOr(error), roll);
  }

  lemma DisconnectKeepsSound(c: Client, done: Option<nat>)
    requires Sound(c)
    ensures Sound(RequestDisconnect(c, done))
  {
    hide Sound;
    if c.connected || c.dialing {
      AwaitingIsSound(c, done);
    } else {
      ReleasedIsSound(c, done);
    }
  }

  lemma AwaitingIsSound(c: Client, done: Option<nat>)
    requires Sound(c) && (c.connected || c.dialing)
    ensures Sound(Awaiting(c.(userDisconnect := true, timer := None), done))
  {
    hide Completed;
  }

  lemma ReleasedIsSound(c: Client, done: Option<nat>)
    requires Sound(c) && !c.connected && !c.dialing
    ensures Sound(Released(Settled(c.(userDisconnect := true, timer := None)), done))
  {
    hide Completed;
  }

  /** A handler that runs late finds an attempt in progress, or begins one, unless the user has disconnected. */
  lemma TimerKeepsSound(c: Client, prep: Preparation)
    requires Sound(c) && c.queued > 0
    ensures Sound(TimerFired(c, prep))
  {
    SameAccounts(c, c.(queued := c.queued - 1));
    if !c.userDisconnect {
      BeginKeepsSound(c.(queued := c.queued - 1), None, prep);
    }
  }

  lemma StepKeepsSound(o: Options, c: Client, ev: Event)
    requires Sound(c) && Possible(c, ev)
    ensures Sound(Step(o, c, ev))
  {
    match ev
    case Connecting(completion, prep) => BeginKeepsSound(c, completion, prep);
    case TimerExpires => SameAccounts(c, TimerExpired(c));
    case TimerRuns(prep) => TimerKeepsSound(c, prep);
    case DialDone(refusal, roll) => DialKeepsSound(o, c, refusal, roll);
    case SessionReady => ReadyKeepsSound(c);
    case SessionFailed(error) => SameAccounts(c, Step(o, c, ev));
    case TransportLost(error, roll) => LossKeepsSound(o, c, error, roll);
    case Disconnecting(done) => DisconnectKeepsSound(c, done);
  }

  predicate Allowed(o: Options, evs: seq<Event>)
    decreases |evs|, 0
  {
    evs == [] || (Allowed(o, evs[..|evs| - 1]) && Possible(Run(o, evs[..|evs| - 1]), evs[|evs| - 1]))
  }

  function Run(o: Options, evs: seq<Event>): (c: Client)
    requires Allowed(o, evs)
    ensures Sound(c)
    decreases |evs|, 1
  {
    if evs == [] then InitialIsSound(); Initial()
    else
      StepKeepsSound(o, Run(o, evs[..|evs| - 1]), evs[|evs| - 1]);
      Step(o, Run(o, evs[..|evs| - 1]), evs[|evs| - 1])
  }

  lemma InitialIsSound()
    ensures Sound(Initial())
  {
  }

  // ---------------------------------------------------------------- what each step shows

  lemma BeginShows(c: Client, completion: Option<nat>, prep: Preparation)
    ensures var r := BeginConnect(c, completion, prep);
            var tries := c.state.Disconnected? || c.state.Reconnecting?;
            && r.wasReady == c.wasReady && r.backoff == c.backoff && r.queued == c.queued
            && r.timer == (if tries then None else c.timer)
            && r.state == (if tries && prep.Prepared? then Resolving else c.state)
            && (r.locked <==> c.locked || (tries && !prep.Invalid?))
  {
    hide Attempt, Handed;
    HandedShows(c, completion);
    if c.state.Disconnected? || c.state.Reconnecting? {
      AttemptShows(Handed(c, completion).(timer := None), prep);
    }
  }

  lemma HandedShows(c: Client, completion: Option<nat>)
    ensures Handed(c, completion) == c.(completions := Handed(c, completion).completions, handed := Handed(c, completion).handed)
  {
  }

  lemma AttemptShows(c: Client, prep: Preparation)
    ensures var r := Attempt(c, prep);
            && r.wasReady == c.wasReady && r.backoff == c.backoff && r.queued == c.queued && r.timer == c.timer
            && r.state == (if prep.Prepared? then Resolving else c.state)
            && (r.locked <==> c.locked || !prep.Invalid?)
  {
  }

  lemma LostShows(o: Options, c: Client, cause: Error, roll: nat)
    ensures var r := ConnectionLost(o, c, cause, roll);
            var again := c.wasReady && o.enabled && !c.userDisconnect;
            && r.wasReady == c.wasReady && r.queued == c.queued
            && r.state == (if again then Reconnecting else Lifecycle.Disconnected)
            && (r.locked <==> again && c.locked)
            && r.backoff == (if again && !cause.domain.Authentication? then Doubled(o, c.backoff) else c.backoff)
            && r.timer == (if !again then c.timer
                           else if cause.domain.Authentication? then Some(o.authentication)
                           else Some(Jittered(o, r.backoff, roll)))
  {
    hide Doubled, Jittered;
  }

  lemma DisconnectShows(c: Client, done: Option<nat>)
    ensures var r := RequestDisconnect(c, done);
            && r.wasReady == c.wasReady && r.backoff == c.backoff && r.queued == c.queued && r.timer == None
            && r.state == (if c.connected || c.dialing then c.state else Lifecycle.Disconnected)
            && (r.locked <==> c.locked && (c.connected || c.dialing))
  {
  }

  /** Everything but the user's requests, and attempts of the timer, in one table. */
  lemma QuietStepShows(o: Options, c: Client, ev: Event)
    requires Possible(c, ev) && LossCause(c, ev).None? && Tried(c, ev).None? && !ev.Disconnecting?
    ensures var r := Step(o, c, ev);
            && (r.wasReady <==> c.wasReady || ev.SessionReady?)
            && r.backoff == (if ev.SessionReady? then 0 else c.backoff)
            && r.queued == (if ev.TimerExpires? then c.queued + 1 else if ev.TimerRuns? then c.queued - 1 else c.queued)
            && r.timer == (if ev.TimerExpires? then None else c.timer)
            && r.locked == c.locked
            && r.state == (match ev case DialDone(_, _) => FountainHandshaking case SessionReady => Ready case _ => c.state)
  {
  }

  lemma AttemptStep(o: Options, c: Client, ev: Event)
    requires Possible(c, ev) && Tried(c, ev).Some?
    ensures var r, prep := Step(o, c, ev), Tried(c, ev).value;
            var tries := c.state.Disconnected? || c.state.Reconnecting?;
            && r.wasReady == c.wasReady && r.backoff == c.backoff
            && r.queued == (if ev.TimerRuns? then c.queued - 1 else c.queued)
            && r.timer == (if tries then None else c.timer)
            && r.state == (if tries && prep.Prepared? then Resolving else c.state)
            && (r.locked <==> c.locked || (tries && !prep.Invalid?))
  {
    hide BeginConnect;
    if ev.Connecting? {
      BeginShows(c, ev.completion, ev.prep);
    } else {
      BeginShows(c.(queued := c.queued - 1), None, ev.prep);
    }
  }

  lemma LossStep(o: Options, c: Client, ev: Event)
    requires Possible(c, ev) && LossCause(c, ev).Some?
    ensures var r, cause := Step(o, c, ev), LossCause(c, ev).value;
            var again := c.wasReady && o.enabled && !c.userDisconnect;
            && r.wasReady == c.wasReady && r.queued == c.queued
            && r.state == (if again then Reconnecting else Lifecycle.Disconnected)
            && (r.locked <==> again && c.locked)
            && r.backoff == (if again && !cause.domain.Authentication? then Doubled(o, c.backoff) else c.backoff)
            && r.timer == (if !again then c.timer
                           else if cause.domain.Authentication? then Some(o.authentication)
                           else Some(Jittered(o, r.backoff, ev.roll)))
  {
    hide ConnectionLost, Doubled, Jittered;
    LostShows(o, if ev.DialDone? then c.(dialing := false) else c.(connected := false), LossCause(c, ev).value, ev.roll);
  }

  /** What an attempt that begins with an event meets. */
  function Tried(c: Client, ev: Event): Option<Preparation> {
    match ev
    case Connecting(_, prep) => Some(prep)
    case TimerRuns(prep) => if c.userDisconnect then None else Some(prep)
    case _ => None
  }

  /** What the connection, or the attempt at one, was lost to; the session knows the more precise cause. */
  function LossCause(c: Client, ev: Event): Option<Error> {
    match ev
    case DialDone(refusal, _) => refusal
    case TransportLost(error, _) => Some(c.failure.GetOr(error))
    case _ => None
  }

  /** The four kinds of events, and what each shows. */
  lemma StepShows(o: Options, c: Client, ev: Event)
    requires Sound(c) && Possible(c, ev)
    ensures var r := Step(o, c, ev);
            && (r.wasReady <==> c.wasReady || ev.SessionReady?)
            && (LossCause(c, ev).Some? ==>
                  (r.state.Reconnecting? <==> c.wasReady && o.enabled && !c.userDisconnect))
            && (LossCause(c, ev).None? && !ev.SessionReady? ==> r.backoff == c.backoff && (r.timer.Some? ==> r.timer == c.timer))
            && (Stalled(r) <==> c.state.Reconnecting? && FailsToDial(c, ev) && c.queued == if ev.TimerRuns? then 1 else 0)
            && (Jammed(r) <==> Jams(c, ev) || (Jammed(c) && FailsToDial(c, ev)))
  {
    SoundBasics(c);
    hide Step, Sound;
    if LossCause(c, ev).Some? {
      LossStep(o, c, ev);
    } else if Tried(c, ev).Some? {
      AttemptStep(o, c, ev);
    } else if ev.Disconnecting? {
      DisconnectStep(o, c, ev);
    } else {
      QuietStepShows(o, c, ev);
    }
  }

  lemma DisconnectStep(o: Options, c: Client, ev: Event)
    requires ev.Disconnecting?
    ensures Step(o, c, ev) == RequestDisconnect(c, ev.done)
    ensures var r := Step(o, c, ev);
            && r.wasReady == c.wasReady && r.backoff == c.backoff && r.queued == c.queued && r.timer == None
            && r.state == (if c.connected || c.dialing then c.state else Lifecycle.Disconnected)
            && (r.locked <==> c.locked && (c.connected || c.dialing))
  {
    hide RequestDisconnect;
    DisconnectShows(c, ev.done);
  }

  /** The last event of a run. */
  lemma LastStep(o: Options, evs: seq<Event>)
    requires Allowed(o, evs) && evs != []
    ensures var before, ev := evs[..|evs| - 1], evs[|evs| - 1];
            && Allowed(o, before) && Possible(Run(o, before), ev) && Sound(Run(o, before))
            && Run(o, evs) == Step(o, Run(o, before), ev)
  {
    hide Step, Possible, Sound;
  }

  // ---------------------------------------------------------------- completions over runs

  lemma {:induction false} CompletedCount(replies: seq<Reply>, id: nat)
    ensures Completed(replies)[id] == |RepliesFor(replies, id)|
  {
    if replies != [] {
      CompletedCount(replies[1..], id);
    }
  }

  function RepliesFor(replies: seq<Reply>, id: nat): seq<Reply> {
    if replies == [] then []
    else (if replies[0].completion == id then [replies[0]] else []) + RepliesFor(replies[1..], id)
  }

  /**
   A completion is called no more often than it was handed in, and exactly as often once no
   attempt is in progress; the same for those who wait for a disconnect. Closing is never entered.
   */
  lemma CompletedAtMostOnce(o: Options, evs: seq<Event>, id: nat)
    requires Allowed(o, evs)
    ensures var c := Run(o, evs);
            && |RepliesFor(c.replies, id)| <= c.handed[id]
            && (c.completions != [] ==> c.state.Resolving? || c.state.FountainHandshaking?)
            && (!c.state.Resolving? && !c.state.FountainHandshaking? ==> |RepliesFor(c.replies, id)| == c.handed[id])
            && (!c.dialing && !c.connected ==> multiset(c.released)[id] == c.asked[id])
            && !c.state.Closing?
  {
    CompletedCount(Run(o, evs).replies, id);
  }

  // ---------------------------------------------------------------- losses and the backoff over runs

  /** A loss that is no authentication failure and leaves the client reconnecting. */
  predicate CountedLoss(o: Options, c: Client, ev: Event)
    requires Possible(c, ev)
  {
    LossCause(c, ev).Some? && !LossCause(c, ev).value.domain.Authentication? && Step(o, c, ev).state.Reconnecting?
  }

  /** The number of these since the session last became ready. */
  function LossesSinceReady(o: Options, evs: seq<Event>): nat
    requires Allowed(o, evs)
  {
    if evs == [] then 0
    else
      var before, ev := evs[..|evs| - 1], evs[|evs| - 1];
      if ev.SessionReady? then 0
      else LossesSinceReady(o, before) + if CountedLoss(o, Run(o, before), ev) then 1 else 0
  }

  predicate BeenReady(evs: seq<Event>) { exists i :: 0 <= i < |evs| && evs[i].SessionReady? }

  lemma BeenReadySnoc(evs: seq<Event>, ev: Event)
    ensures BeenReady(evs + [ev]) <==> BeenReady(evs) || ev.SessionReady?
  {
    if i :| 0 <= i < |evs| && evs[i].SessionReady? {
      assert (evs + [ev])[i].SessionReady?;
    }
    if ev.SessionReady? {
      assert (evs + [ev])[|evs|].SessionReady?;
    }
  }

  lemma {:induction false} WasReadyIff(o: Options, evs: seq<Event>)
    requires Allowed(o, evs)
    ensures Run(o, evs).wasReady <==> BeenReady(evs)
  {
    hide Step, Possible, Sound;
    if evs != [] {
      var n := |evs| - 1;
      var before := evs[..n];
      WasReadyIff(o, before);
      LastStep(o, evs);
      StepShows(o, Run(o, before), evs[n]);
      BeenReadySnoc(before, evs[n]);
      assert before + [evs[n]] == evs;
    }
  }

  /**
   The automatic reconnect: a loss leads to it exactly if the session has been ready before,
   reconnecting is enabled and the user has not asked to disconnect.
   */
  lemma ReconnectsIff(o: Options, evs: seq<Event>)
    requires Allowed(o, evs) && evs != []
    ensures var before, ev := evs[..|evs| - 1], evs[|evs| - 1];
            var c := Run(o, before);
            LossCause(c, ev).Some? ==>
              (Run(o, evs).state.Reconnecting? <==> o.enabled && BeenReady(before) && !c.userDisconnect)
  {
    LastStep(o, evs);
    WasReadyIff(o, evs[..|evs| - 1]);
    StepShows(o, Run(o, evs[..|evs| - 1]), evs[|evs| - 1]);
    hide Run, Allowed, Step, Possible, Sound, BeenReady;
  }

  lemma JitterIsAQuarter(o: Options, delay: nat, roll: nat)
    ensures delay <= Jittered(o, delay, roll) <= delay + delay / 4
  {
  }

  lemma LossIsPaced(o: Options, c: Client, ev: Event, losses: nat)
    requires Paced(o, c, losses) && Sound(c) && Possible(c, ev) && LossCause(c, ev).Some? && 0 < o.initial <= o.max
    ensures Paced(o, Step(o, c, ev), if CountedLoss(o, c, ev) then losses + 1 else losses)
  {
    assert c.timer.None?;
    LossStep(o, c, ev);
    BackoffDoubles(o, losses);
    JitterIsAQuarter(o, Doubled(o, c.backoff), ev.roll);
    hide Backoff, Doubled, Jittered, Step, Sound;
  }

  lemma OthersArePaced(o: Options, c: Client, ev: Event, losses: nat)
    requires Paced(o, c, losses) && Sound(c) && Possible(c, ev) && LossCause(c, ev).None? && !ev.SessionReady?
    ensures Paced(o, Step(o, c, ev), losses)
  {
    hide Backoff, Step, Sound;
    StepShows(o, c, ev);
  }

  lemma ReadyIsPaced(o: Options, c: Client, ev: Event)
    requires Sound(c) && Possible(c, ev) && ev.SessionReady?
    ensures Paced(o, Step(o, c, ev), 0)
  {
    SoundBasics(c);
    QuietStepShows(o, c, ev);
    hide Step, Sound;
  }

  /**
   The backoff is min(max, initial * 2^(k-1)) after the k losses since the session was last
   ready that count: authentication failures leave it alone. A timer waits for the backoff and
   at most a quarter more, or for the authentication delay.
   */
  lemma {:induction false} BackoffOverRuns(o: Options, evs: seq<Event>)
    requires Allowed(o, evs) && 0 < o.initial <= o.max
    ensures Paced(o, Run(o, evs), LossesSinceReady(o, evs))
  {
    hide Step, Possible, Sound, Paced, CountedLoss;
    if evs == [] {
      InitialIsPaced(o);
    } else {
      var before, ev := evs[..|evs| - 1], evs[|evs| - 1];
      LastStep(o, evs);
      BackoffOverRuns(o, before);
      var c, k := Run(o, before), LossesSinceReady(o, before);
      if LossCause(c, ev).Some? {
        LossIsPaced(o, c, ev, k);
      } else if ev.SessionReady? {
        ReadyIsPaced(o, c, ev);
      } else {
        OthersArePaced(o, c, ev, k);
        OthersAreNotCounted(o, c, ev);
      }
    }
  }

  lemma OthersAreNotCounted(o: Options, c: Client, ev: Event)
    requires Possible(c, ev) && LossCause(c, ev).None?
    ensures !CountedLoss(o, c, ev)
  {
    hide Step;
  }

  lemma InitialIsPaced(o: Options)
    ensures Paced(o, Initial(), 0)
  {
  }

  // ---------------------------------------------------------------- a client that stops reconnecting

  /** Reconnecting with no timer armed and no handler on its way. */
  predicate Stalled(c: Client) { c.state.Reconnecting? && c.timer.None? && c.queued == 0 }

  predicate FailsToDial(c: Client, ev: Event) { Tried(c, ev).Some? && !Tried(c, ev).value.Prepared? }

  /**
   The client stalls exactly when an attempt out of Reconnecting ends before it dials, in
   validate() or at the TLS context, and no other handler is on its way.
   */
  lemma StallsIff(o: Options, evs: seq<Event>)
    requires Allowed(o, evs) && evs != []
    ensures var c, ev := Run(o, evs[..|evs| - 1]), evs[|evs| - 1];
            Stalled(Run(o, evs)) <==>
              c.state.Reconnecting? && FailsToDial(c, ev) && c.queued == if ev.TimerRuns? then 1 else 0
  {
    LastStep(o, evs);
    StepShows(o, Run(o, evs[..|evs| - 1]), evs[|evs| - 1]);
    hide Run, Allowed, Step, Possible, Sound, Stalled;
  }

  lemma SoundBasics(c: Client)
    requires Sound(c)
    ensures (c.dialing <==> c.state.Resolving?) && (c.connected <==> c.state.FountainHandshaking? || c.state.Ready?)
    ensures c.state.Reconnecting? ==> !c.userDisconnect
    ensures c.timer.Some? ==> c.state.Reconnecting?
    ensures c.state.Disconnected? && c.locked ==> !c.userDisconnect
    ensures !c.state.Disconnected? ==> c.locked
  {
  }

  predicate ByTheUser(ev: Event) { ev.Connecting? || ev.Disconnecting? }

  /** A reconnecting client goes on without its user exactly as long as it has not stalled. */
  lemma GoesOnIff(o: Options, evs: seq<Event>)
    requires Allowed(o, evs) && Run(o, evs).state.Reconnecting?
    ensures (exists ev :: Possible(Run(o, evs), ev) && !ByTheUser(ev)) <==> !Stalled(Run(o, evs))
  {
    var c := Run(o, evs);
    if !Stalled(c) {
      assert Possible(c, if c.timer.Some? then TimerExpires else TimerRuns(Prepared));
    }
  }

  /**
   Once stalled, whatever happens next is a connect or a disconnect; and it stays stalled until
   a disconnect, or a connect that gets to dial.
   */
  lemma {:induction false} StalledUntilAsked(o: Options, evs: seq<Event>, more: seq<Event>)
    requires Allowed(o, evs) && Stalled(Run(o, evs)) && Allowed(o, evs + more)
    requires forall i :: 0 <= i < |more| ==> !more[i].Disconnecting? && !(more[i].Connecting? && more[i].prep.Prepared?)
    ensures Stalled(Run(o, evs + more))
    ensures forall i :: 0 <= i < |more| ==> more[i].Connecting?
  {
    hide Step, Sound, Possible, Run, Allowed, Stalled, FailsToDial;
    if more == [] {
      assert evs + more == evs;
    } else {
      var most := more[..|more| - 1];
      LastStep(o, evs + more);
      assert (evs + more)[..|evs + more| - 1] == evs + most && (evs + more)[|evs + more| - 1] == more[|more| - 1];
      StalledUntilAsked(o, evs, most);
      StallsIff(o, evs + more);
      StalledMoves(o, Run(o, evs + most), more[|more| - 1]);
    }
  }

  lemma StalledMoves(o: Options, c: Client, ev: Event)
    requires Sound(c) && Stalled(c) && Possible(c, ev) && !ev.Disconnecting?
    ensures ev.Connecting? && (FailsToDial(c, ev) <==> !ev.prep.Prepared?) && c.state.Reconnecting? && c.queued == 0
  {
  }

  // ---------------------------------------------------------------- a configuration that stays locked

  /** Disconnected, and yet the security configuration is locked against changes. */
  predicate Jammed(c: Client) { c.state.Disconnected? && c.locked }

  /** An attempt out of Disconnected that ends at the TLS context. */
  predicate Jams(c: Client, ev: Event) {
    c.state.Disconnected? && Tried(c, ev).Some? && Tried(c, ev).value.NoContext?
  }

  lemma JammedStep(o: Options, evs: seq<Event>)
    requires Allowed(o, evs) && evs != []
    ensures var c, ev := Run(o, evs[..|evs| - 1]), evs[|evs| - 1];
            Jammed(Run(o, evs)) <==> Jams(c, ev) || (Jammed(c) && FailsToDial(c, ev))
  {
    LastStep(o, evs);
    StepShows(o, Run(o, evs[..|evs| - 1]), evs[|evs| - 1]);
    hide Run, Allowed, Step, Possible, Sound, Jammed, Jams;
  }

  /** Event k jams the configuration, and everything after it is an attempt that ends before it dials. */
  ghost predicate JammedSince(o: Options, evs: seq<Event>, k: nat)
    requires Allowed(o, evs) && k < |evs|
  {
    var before, ev := evs[..|evs| - 1], evs[|evs| - 1];
    if k == |evs| - 1 then Jams(Run(o, before), ev)
    else JammedSince(o, before, k) && FailsToDial(Run(o, before), ev)
  }

  ghost predicate EverJammed(o: Options, evs: seq<Event>)
    requires Allowed(o, evs)
  {
    exists k: nat :: k < |evs| && JammedSince(o, evs, k)
  }

  lemma JammedSinceStep(o: Options, evs: seq<Event>)
    requires Allowed(o, evs) && evs != []
    ensures var before, ev := evs[..|evs| - 1], evs[|evs| - 1];
            EverJammed(o, evs) <==> Jams(Run(o, before), ev) || (EverJammed(o, before) && FailsToDial(Run(o, before), ev))
  {
    hide Run, Jams, FailsToDial;
    var n := |evs| - 1;
    var before, c := evs[..n], Run(o, evs[..n]);
    if k: nat :| k < n && JammedSince(o, evs, k) {
      assert JammedSince(o, before, k);
    }
    if Jams(c, evs[n]) {
      assert JammedSince(o, evs, n);
    }
    if EverJammed(o, before) && FailsToDial(c, evs[n]) {
      var k: nat :| k < |before| && JammedSince(o, before, k);
      assert JammedSince(o, evs, k);
    }
  }

  /**
   A disconnected client has its configuration locked exactly if an attempt out of Disconnected
   ended at the TLS context and nothing has come since but attempts that ended before they dialled.
   */
  lemma {:induction false} LockedWhileDisconnectedIff(o: Options, evs: seq<Event>)
    requires Allowed(o, evs)
    ensures Jammed(Run(o, evs)) <==> EverJammed(o, evs)
  {
    hide Step, Sound, Jammed, Jams, FailsToDial, JammedSince;
    if evs == [] {
      InitialIsOpen();
    } else {
      var n := |evs| - 1;
      var before := evs[..n];
      LastStep(o, evs);
      LockedWhileDisconnectedIff(o, before);
      JammedStep(o, evs);
      JammedSinceStep(o, evs);
    }
  }

  lemma InitialIsOpen()
    ensures !Jammed(Initial())
  {
  }
}
