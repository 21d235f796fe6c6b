/** What the dispatcher's invariant means for its callers and for the device. */
module DispatcherTheorems {
  import opened Link
  import opened DispatcherState
  import opened DispatcherInvariants
  import opened DispatcherOps

  // ---------------------------------------------------------------- exactly once

  /** Calls that went to the submission t, and how often it was submitted. */
  lemma {:induction false} CalledCount(called: seq<Call>, t: Ticket)
    ensures CalledTickets(called)[t] == |CallsTo(called, t)|
  {
    if called != [] {
      CalledCount(called[1..], t);
    }
  }

  function CallsTo(called: seq<Call>, t: Ticket): seq<Call> {
    if called == [] then []
    else (if called[0].ticket == t then [called[0]] else []) + CallsTo(called[1..], t)
  }

  /**
   A handler is called no more often than it was submitted; and when nothing is left in the
   dispatcher it has been called exactly as often.
   */
  lemma ExactlyOnce(e: Env, s: Core, t: Ticket)
    requires Inv(e, s)
    ensures |CallsTo(s.called, t)| <= s.submitted[t]
    ensures s.queue == [] && s.pending == [] && s.calling == multiset{} ==> |CallsTo(s.called, t)| == s.submitted[t]
    ensures s.calling == multiset{} ==>
              s.submitted[t] == |CallsTo(s.called, t)| + QueueTickets(s.queue)[t] + PendingTickets(s.pending)[t]
  {
    CalledCount(s.called, t);
  }

  // ---------------------------------------------------------------- strict priority

  /**
   While a safety-control request waits, only safety-control requests are sent: if one was
   waiting in s and is still waiting in r, every frame of the steps in between has its priority.
   */
  lemma UrgentMeansSafety(s: Core, r: Core, j: nat)
    requires UrgentFirst(s, r) && j < |r.queue| && r.queue[j].sequence <= s.sequence
    requires forall i :: 0 <= i < |s.queue| && s.queue[i].sequence == r.queue[j].sequence ==>
               s.queue[i].spec.priority == SafetyControl
    ensures forall k :: |s.sent| <= k < |r.sent| ==> r.sent[k].request.spec.priority == SafetyControl
  {
    var i :| 0 <= i < |s.queue| && StillWaits(s, r, i, j);
    forall k | |s.sent| <= k < |r.sent| ensures r.sent[k].request.spec.priority == SafetyControl {
      assert !Precedes(s.queue[i], r.sent[k].request);
    }
  }

  // ---------------------------------------------------------------- the drain makes progress

  /**
   With nothing open, a token and room in flight, a drain of a non-empty queue transmits,
   unless every request in it, and every one submitted by their handlers, fails to be sent.
   */
  lemma {:induction false} DrainTransmits(e: Env, s: Core, now: int)
    requires Draining(e, s, now) && e.budget.maxInFlight >= 1 && e.budget.rate >= 0.0
    requires s.pending == [] && s.tokens >= 1.0
    ensures var r := DrainLoop(e, s, now);
            |r.sent| > |s.sent| || (r.queue == [] && r.pending == [] && r.tokens >= 1.0)
    decreases QueueLoad(s.queue)
  {
    if s.queue != [] {
      var i := MinIndex(s.queue);
      var (link, result) := EncodeAndSend(e, s.link, s.queue[i].spec, now);
      match result
      case Failure(error) =>
        FailureTurn(e, s, now, link, error);
        DrainTransmits(e, Complete(e, TakenFailed(s, i, link), s.queue[i].tickets, Failed(error), now), now);
      case Success(id) =>
        SuccessTurn(e, s, now, link, id);
        GrowsOnly(e, TakenSent(s, i, link, id, now), now);
    }
  }

  lemma GrowsOnly(e: Env, s: Core, now: int)
    requires Draining(e, s, now)
    ensures |DrainLoop(e, s, now).sent| >= |s.sent|
  {
    assert OpenFollows(0);
    assert Follows(e, s, DrainLoop(e, s, now), now);
  }

  // ---------------------------------------------------------------- the device's own bucket

  /** Tokens a device has left after charging one for each frame, starting full. */
  function DeviceLevel(capacity: real, rate: real, sent: seq<Sent>): real {
    if sent == [] then capacity
    else if |sent| == 1 then capacity - 1.0
    else
      var n := |sent|;
      var before := DeviceLevel(capacity, rate, sent[..n - 1]) + Gain(rate, sent[n - 1].at - sent[n - 2].at);
      Min(capacity, before) - 1.0
  }

  /** The level is what the frames since some moment of fullness have left. */
  lemma {:induction false} LevelSince(capacity: real, rate: real, sent: seq<Sent>) returns (i: nat)
    requires sent != []
    ensures i < |sent|
    ensures DeviceLevel(capacity, rate, sent) ==
            capacity - (|sent| - i) as real + Gain(rate, sent[|sent| - 1].at - sent[i].at)
  {
    var n := |sent|;
    i := n - 1;
    if n > 1 {
      var front := sent[..n - 1];
      var j := LevelSince(capacity, rate, front);
      var before := DeviceLevel(capacity, rate, front) + Gain(rate, sent[n - 1].at - sent[n - 2].at);
      if before < capacity {
        i := j;
        GainAdds(rate, sent[n - 2].at - sent[j].at, sent[n - 1].at - sent[n - 2].at);
      }
    }
  }

  lemma GainAdds(rate: real, x: int, y: int)
    ensures Gain(rate, x) + Gain(rate, y) == Gain(rate, x + y)
  {
  }

  lemma GainGrows(low: real, high: real, ms: int)
    requires low <= high && ms >= 0
    ensures Gain(low, ms) <= Gain(high, ms)
  {
    assert low * (ms as real) <= high * (ms as real);
  }

  /**
   A device bucket that refills at least as fast as the budget never falls below its capacity
   minus the budget's burst, after any number of the frames sent.
   */
  lemma DeviceNeverBelow(e: Env, s: Core, capacity: real, rate: real, n: nat)
    requires Inv(e, s) && n <= |s.sent| && e.budget.rate <= rate && e.budget.burst >= 0.0
    ensures DeviceLevel(capacity, rate, s.sent[..n]) >= capacity - e.budget.burst
  {
    MeteredLevel(e.budget, s.sent, capacity, rate, n);
  }

  lemma MeteredLevel(b: RateBudget, sent: seq<Sent>, capacity: real, rate: real, n: nat)
    requires forall i, j :: 0 <= i <= j < |sent| ==> sent[i].at <= sent[j].at
    requires forall i, j :: 0 <= i <= j < |sent| ==>
               (j - i + 1) as real <= b.burst + Accrued(b, sent[j].at - sent[i].at)
    requires n <= |sent| && b.rate <= rate && b.burst >= 0.0
    ensures DeviceLevel(capacity, rate, sent[..n]) >= capacity - b.burst
  {
    if n > 0 {
      var i := LevelSince(capacity, rate, sent[..n]);
      var ms := sent[n - 1].at - sent[i].at;
      GainGrows(b.rate, rate, ms);
      assert (n - 1 - i + 1) as real <= b.burst + Accrued(b, ms);
      assert DeviceLevel(capacity, rate, sent[..n]) == capacity - (n - i) as real + Gain(rate, ms);
    }
  }

  const DEFAULT_BUDGET: RateBudget := RateBudget(4.0, 8.0, 4)

  /** With the default budget the firmware's bucket of 20 tokens at 5 per second keeps at least 12. */
  lemma DefaultBudgetLeavesTwelve(e: Env, s: Core, n: nat)
    requires Inv(e, s) && e.budget == DEFAULT_BUDGET && n <= |s.sent|
    ensures DeviceLevel(20.0, 5.0, s.sent[..n]) >= 12.0
  {
    DeviceNeverBelow(e, s, 20.0, 5.0, n);
  }

  /** The bound itself: frames i to j of the log never outnumber the burst and what accrued. */
  lemma RateBound(e: Env, s: Core, from: int, to: int, i: nat, j: nat)
    requires Inv(e, s) && e.budget.rate >= 0.0 && i <= j < |s.sent|
    requires from <= s.sent[i].at && s.sent[j].at <= to
    ensures (j - i + 1) as real <= e.budget.burst + Accrued(e.budget, to - from)
  {
    AccruedGrows(e.budget, s.sent[j].at - s.sent[i].at, to - from);
  }
}
