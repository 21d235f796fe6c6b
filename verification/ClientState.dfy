/**
 The client's connect, reconnect and disconnect as functions of its state (src/client.cpp),
 with a history of the completions handed in and called.
 */
module ClientState {
  import opened Wrappers
  import opened Errors

  datatype Lifecycle = Disconnected | Resolving | FountainHandshaking | Ready | Reconnecting | Closing

  /** ReconnectOptions; delays are in seconds. */
  datatype Options = Options(enabled: bool, initial: nat, max: nat, authentication: nat, jitter: bool)

  datatype Reply = Reply(completion: nat, result: Result<(), Error>)

  /**
   Completions are identified by numbers. `dialing` and `connected` stand for the dialer and the
   transport, `timer` for the delay of an armed reconnect timer, `queued` for the handlers of
   timers that have expired and wait for the IO thread: cancelling the timer does not recall
   them. From `handed` on it is history: completions handed to begin_connect and replies given,
   waiters handed to request_disconnect and released.
   */
  datatype Client = Client(state: Lifecycle, dialing: bool, connected: bool, completions: seq<nat>, waiters: seq<nat>,
                           backoff: nat, userDisconnect: bool, wasReady: bool, failure: Option<Error>, locked: bool,
                           timer: Option<nat>, queued: nat,
                           handed: multiset<nat>, replies: seq<Reply>, asked: multiset<nat>, released: seq<nat>)

  function Initial(): Client {
    Client(Lifecycle.Disconnected, false, false, [], [], 0, false, false, None, false, None, 0,
           multiset{}, [], multiset{}, [])
  }

  /** What an attempt meets before it dials: validate() and the TLS context. */
  datatype Preparation = Prepared | Invalid(error: Error) | NoContext(error: Error)

  function RepliesTo(ids: seq<nat>, result: Result<(), Error>): seq<Reply> {
    if ids == [] then [] else [Reply(ids[0], result)] + RepliesTo(ids[1..], result)
  }

  /** complete_connect. */
  function CompleteConnect(c: Client, result: Result<(), Error>): Client {
    c.(completions := [], replies := c.replies + RepliesTo(c.completions, result))
  }

  function CompleteDisconnect(c: Client): Client {
    c.(waiters := [], released := c.released + c.waiters)
  }

  function Handed(c: Client, completion: Option<nat>): Client {
    match completion
    case Some(id) => c.(completions := c.completions + [id], handed := c.handed + multiset{id})
    case None => c
  }

  function Answered(c: Client, completion: Option<nat>, result: Result<(), Error>): Client {
    match completion
    case Some(id) => c.(handed := c.handed + multiset{id}, replies := c.replies + [Reply(id, result)])
    case None => c
  }

  function BeginConnect(c: Client, completion: Option<nat>, prep: Preparation): Client {
    if c.state.Ready? then Answered(c, completion, Success(()))
    else if c.state.Closing? then Answered(c, completion, Failure(Error(Internal, InvalidState)))
    else
      var c1 := Handed(c, completion);
      if !c.state.Disconnected? && !c.state.Reconnecting? then c1
      else Attempt(c1.(timer := None), prep)
  }

  /** The attempt itself: validate, lock, set up TLS, dial. */
  function Attempt(c: Client, prep: Preparation): Client {
    match prep
    case Invalid(error) => CompleteConnect(c, Failure(error))
    case NoContext(error) => CompleteConnect(Locked(c), Failure(error))
    case Prepared => Locked(c).(state := Resolving, dialing := true)
  }

  function Locked(c: Client): Client { c.(locked := true, userDisconnect := false, failure := None) }

  /** The completion of the dial. */
  function Opened(o: Options, c: Client, error: Option<Error>, roll: nat): Client {
    var c1 := c.(dialing := false);
    match error
    case Some(why) => ConnectionLost(o, c1, why, roll)
    case None => c1.(connected := true, state := FountainHandshaking)
  }

  /** on_ready. */
  function BecameReady(c: Client): Client {
    CompleteConnect(c.(wasReady := true, backoff := 0, state := Ready), Success(()))
  }

  function HandleTransportClosed(o: Options, c: Client, error: Error, roll: nat): Client {
    ConnectionLost(o, c.(connected := false), c.failure.GetOr(error), roll)
  }

  function Doubled(o: Options, backoff: nat): nat {
    if backoff == 0 then o.initial else if 2 * backoff < o.max then 2 * backoff else o.max
  }

  /** A roll of the dice between 0 and a quarter of the delay. */
  function Jittered(o: Options, delay: nat, roll: nat): nat {
    if o.jitter && delay > 1 then delay + roll % (delay / 4 + 1) else delay
  }

  function ConnectionLost(o: Options, c: Client, cause: Error, roll: nat): Client {
    if c.userDisconnect then
      CompleteDisconnect(CompleteConnect(Settled(c), Failure(Error(Cancelled, CancelledByUser))))
    else if !c.wasReady || !o.enabled then Settled(CompleteConnect(c, Failure(cause)))
    else Scheduled(o, CompleteConnect(c, Failure(cause)), cause, roll)
  }

  function Settled(c: Client): Client { c.(locked := false, state := Lifecycle.Disconnected) }

  /** The automatic reconnect. */
  function Scheduled(o: Options, c: Client, cause: Error, roll: nat): Client {
    if cause.domain.Authentication? then c.(state := Reconnecting, timer := Some(o.authentication))
    else
      var backoff := Doubled(o, c.backoff);
      c.(state := Reconnecting, backoff := backoff, timer := Some(Jittered(o, backoff, roll)))
  }

  function RequestDisconnect(c: Client, done: Option<nat>): Client {
    if c.connected || c.dialing then Awaiting(c.(userDisconnect := true, timer := None), done)
    else Released(Settled(c.(userDisconnect := true, timer := None)), done)
  }

  /** Those who asked are told once the connection has really gone. */
  function Awaiting(c: Client, done: Option<nat>): Client {
    match done
    case Some(id) => c.(waiters := c.waiters + [id], asked := c.asked + multiset{id})
    case None => c
  }

  function Released(c: Client, done: Option<nat>): Client {
    match done
    case Some(id) => c.(released := c.released + [id], asked := c.asked + multiset{id})
    case None => c
  }

  /** The reconnect timer expires: its handler is queued. */
  function TimerExpired(c: Client): Client { c.(timer := None, queued := c.queued + 1) }

  /** A queued handler runs. */
  function TimerFired(c: Client, prep: Preparation): Client
    requires c.queued > 0
  {
    var c1 := c.(queued := c.queued - 1);
    if c.userDisconnect then c1 else BeginConnect(c1, None, prep)
  }
}
