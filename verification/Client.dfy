/**
 The connection part of Client::Impl as the source runs it: one object whose fields the
 handlers on the IO thread update (src/client.cpp).
 */
module ClientObject {
  import opened Wrappers
  import opened Errors
  import opened ClientState

  lemma {:induction false} RepliesToSnoc(ids: seq<nat>, id: nat, result: Result<(), Error>)
    ensures RepliesTo(ids + [id], result) == RepliesTo(ids, result) + [Reply(id, result)]
  {
    if ids == [] {
      assert ids + [id] == [id];
    } else {
      assert (ids + [id])[1..] == ids[1..] + [id];
      RepliesToSnoc(ids[1..], id, result);
    }
  }

  class Connector {
    const options: Options
    var state: Lifecycle
    var dialing: bool
    var connected: bool
    var completions: seq<nat>
    var waiters: seq<nat>
    var backoff: nat
    var userDisconnect: bool
    var wasReady: bool
    var failure: Option<Error>
    var locked: bool
    var timer: Option<nat>

    ghost var queued: nat
    ghost var handed: multiset<nat>
    ghost var replies: seq<Reply>
    ghost var asked: multiset<nat>
    ghost var released: seq<nat>

    ghost function View(): ClientState.Client
      reads this
    {
      ClientState.Client(state, dialing, connected, completions, waiters, backoff, userDisconnect, wasReady, failure,
                         locked, timer, queued, handed, replies, asked, released)
    }

    constructor (options: Options)
      ensures this.options == options && View() == Initial()
    {
      this.options := options;
      state, dialing, connected, completions, waiters := Lifecycle.Disconnected, false, false, [], [];
      backoff, userDisconnect, wasReady, failure, locked, timer := 0, false, false, None, false, None;
      queued, handed, replies, asked, released := 0, multiset{}, [], multiset{}, [];
    }

    /** completion(result). */
    ghost method Call(id: nat, result: Result<(), Error>)
      modifies this`replies
      ensures replies == old(replies) + [Reply(id, result)]
    {
      replies := replies + [Reply(id, result)];
    }

    method CompleteConnect(result: Result<(), Error>)
      modifies this`completions, this`replies
      ensures View() == ClientState.CompleteConnect(old(View()), result)
    {
      var taken := completions;
      completions := [];
      for i := 0 to |taken|
        modifies this`replies
        invariant replies == old(replies) + RepliesTo(taken[..i], result)
      {
        assert taken[..i + 1] == taken[..i] + [taken[i]];
        RepliesToSnoc(taken[..i], taken[i], result);
        Call(taken[i], result);
      }
      assert taken[..|taken|] == taken;
    }

    method CompleteDisconnect()
      modifies this`waiters, this`released
      ensures View() == ClientState.CompleteDisconnect(old(View()))
    {
      released := released + waiters;
      waiters := [];
    }

    method BeginConnect(completion: Option<nat>, prep: Preparation)
      modifies this
      ensures View() == ClientState.BeginConnect(old(View()), completion, prep)
    {
      hide ClientState.Attempt;
      if state == Ready {
        Answer(completion, Success(()));
        return;
      }
      if state == Closing {
        Answer(completion, Failure(Error(Internal, InvalidState)));
        return;
      }
      Enlist(completion);
      if state != Lifecycle.Disconnected && state != Reconnecting {
        return;
      }
      timer := None;
      Attempt(prep);
    }

    ghost method Answer(completion: Option<nat>, result: Result<(), Error>)
      modifies this`handed, this`replies
      ensures View() == Answered(old(View()), completion, result)
    {
      if completion.Some? {
        handed := handed + multiset{completion.value};
        Call(completion.value, result);
      }
    }

    method Enlist(completion: Option<nat>)
      modifies this`handed, this`completions
      ensures View() == Handed(old(View()), completion)
    {
      if completion.Some? {
        handed := handed + multiset{completion.value};
        completions := completions + [completion.value];
      }
    }

    method Attempt(prep: Preparation)
      modifies this
      ensures View() == ClientState.Attempt(old(View()), prep)
    {
      hide ClientState.CompleteConnect;
      if prep.Invalid? {
        CompleteConnect(Failure(prep.error));
        return;
      }
      Lock();
      if prep.NoContext? {
        CompleteConnect(Failure(prep.error));
        return;
      }
      state := Resolving;
      dialing := true;
    }

    method Lock()
      modifies this`locked, this`userDisconnect, this`failure
      ensures View() == Locked(old(View()))
    {
      locked := true;
      userDisconnect := false;
      failure := None;
    }

    method OnOpened(refusal: Option<Error>, roll: nat)
      modifies this
      ensures View() == Opened(options, old(View()), refusal, roll)
    {
      hide ConnectionLost;
      dialing := false;
      if refusal.Some? {
        HandleConnectionLost(refusal.value, roll);
        return;
      }
      connected := true;
      state := FountainHandshaking;
    }

    method OnReady()
      modifies this
      ensures View() == BecameReady(old(View()))
    {
      wasReady := true;
      backoff := 0;
      state := Ready;
      CompleteConnect(Success(()));
    }

    method OnFailed(error: Error)
      modifies this
      ensures View() == old(View()).(failure := Some(error))
    {
      failure := Some(error);
    }

    method HandleTransportClosed(error: Error, roll: nat)
      modifies this
      ensures View() == ClientState.HandleTransportClosed(options, old(View()), error, roll)
    {
      hide ConnectionLost;
      connected := false;
      var cause := if failure.Some? then failure.value else error;
      HandleConnectionLost(cause, roll);
    }

    method HandleConnectionLost(cause: Error, roll: nat)
      modifies this
      ensures View() == ConnectionLost(options, old(View()), cause, roll)
    {
      hide ClientState.CompleteConnect, ClientState.CompleteDisconnect, Scheduled;
      if userDisconnect {
        Settle();
        CompleteConnect(Failure(Error(Cancelled, CancelledByUser)));
        CompleteDisconnect();
        return;
      }
      var reconnect := wasReady && options.enabled;
      CompleteConnect(Failure(cause));
      if !reconnect {
        Settle();
        return;
      }
      Schedule(cause, roll);
    }

    method Settle()
      modifies this`locked, this`state
      ensures View() == Settled(old(View()))
    {
      locked := false;
      state := Lifecycle.Disconnected;
    }

    method Schedule(cause: Error, roll: nat)
      modifies this`state, this`timer, this`backoff
      ensures View() == Scheduled(options, old(View()), cause, roll)
    {
      var delay := options.authentication;
      if cause.domain != Authentication {
        backoff := if backoff == 0 then options.initial else if options.max <= 2 * backoff then options.max else 2 * backoff;
        delay := backoff;
        if options.jitter && delay > 1 {
          delay := delay + roll % (delay / 4 + 1);
        }
      }
      state := Reconnecting;
      timer := Some(delay);
    }

    /** The timer service: the wait is over. */
    method Expire()
      requires timer.Some?
      modifies this`timer, this`queued
      ensures View() == TimerExpired(old(View()))
    {
      timer := None;
      queued := queued + 1;
    }

    method OnTimer(prep: Preparation)
      requires queued > 0
      modifies this
      ensures View() == TimerFired(old(View()), prep)
    {
      hide ClientState.BeginConnect;
      queued := queued - 1;
      if userDisconnect {
        return;
      }
      BeginConnect(None, prep);
    }

    method RequestDisconnect(done: Option<nat>)
      modifies this
      ensures View() == ClientState.RequestDisconnect(old(View()), done)
    {
      hide Awaiting, Released;
      userDisconnect := true;
      timer := None;
      if connected || dialing {
        Await(done);
        return;
      }
      Settle();
      Release(done);
    }

    method Await(done: Option<nat>)
      modifies this`waiters, this`asked
      ensures View() == Awaiting(old(View()), done)
    {
      if done.Some? {
        waiters := waiters + [done.value];
        asked := asked + multiset{done.value};
      }
    }

    /** done(), at once. */
    ghost method Release(done: Option<nat>)
      modifies this`released, this`asked
      ensures View() == Released(old(View()), done)
    {
      if done.Some? {
        released := released + [done.value];
        asked := asked + multiset{done.value};
      }
    }
  }
}
