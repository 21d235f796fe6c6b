/** Runs of the client that reach what its theorems warn of. */
module ClientExamples {
  import opened Wrappers
  import opened Errors
  import opened ClientState
  import opened ClientTheorems

  /** One more event. */
  lemma GoesOn(o: Options, evs: seq<Event>, ev: Event)
    requires Allowed(o, evs) && Possible(Run(o, evs), ev)
    ensures Allowed(o, evs + [ev]) && Run(o, evs + [ev]) == Step(o, Run(o, evs), ev)
  {
    hide Step, Possible, Sound;
    assert (evs + [ev])[..|evs|] == evs;
  }

  /** Connect, dial, ready, and the loss of the connection: the timer is armed. */
  lemma LossArmsTheTimer(o: Options, loss: Error) returns (evs: seq<Event>)
    requires o.enabled
    ensures Allowed(o, evs)
    ensures var c := Run(o, evs); c.state.Reconnecting? && c.timer.Some? && c.queued == 0 && !c.userDisconnect
  {
    hide Run, Allowed, Sound;
    NothingYet(o);
    GoesOn(o, [], Connecting(None, Prepared));
    evs := [] + [Connecting(None, Prepared)];
    GoesOn(o, evs, DialDone(None, 0));
    evs := evs + [DialDone(None, 0)];
    GoesOn(o, evs, SessionReady);
    evs := evs + [SessionReady];
    GoesOn(o, evs, TransportLost(loss, 0));
    evs := evs + [TransportLost(loss, 0)];
    hide Doubled, Jittered;
  }

  lemma NothingYet(o: Options)
    ensures Allowed(o, []) && Run(o, []) == Initial()
  {
  }

  /** The timer expires, and the attempt ends in validate(): the client has stalled. */
  lemma StallIsReached(o: Options, loss: Error, error: Error) returns (evs: seq<Event>)
    requires o.enabled
    ensures Allowed(o, evs) && Stalled(Run(o, evs))
  {
    evs := LossArmsTheTimer(o, loss);
    hide Run, Allowed, Sound, Step, Stalled;
    var c := Run(o, evs);
    ExpiryThenFailure(o, c, error);
    GoesOn(o, evs, TimerExpires);
    evs := evs + [TimerExpires];
    GoesOn(o, evs, TimerRuns(Invalid(error)));
    evs := evs + [TimerRuns(Invalid(error))];
  }

  lemma ExpiryThenFailure(o: Options, c: Client, error: Error)
    requires c.state.Reconnecting? && c.timer.Some? && c.queued == 0 && !c.userDisconnect
    ensures Possible(c, TimerExpires) && Possible(Step(o, c, TimerExpires), TimerRuns(Invalid(error)))
    ensures Stalled(Step(o, Step(o, c, TimerExpires), TimerRuns(Invalid(error))))
  {
    AttemptStep(o, Step(o, c, TimerExpires), TimerRuns(Invalid(error)));
    hide BeginConnect;
  }

  /** A first connect that ends at the TLS context leaves the configuration locked. */
  lemma JamIsReached(o: Options, error: Error) returns (evs: seq<Event>)
    ensures Allowed(o, evs) && Jammed(Run(o, evs))
  {
    hide Run, Allowed, Sound;
    NothingYet(o);
    GoesOn(o, [], Connecting(None, NoContext(error)));
    evs := [] + [Connecting(None, NoContext(error))];
  }
}
