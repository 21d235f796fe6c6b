/**
 State of the request dispatcher and its elementary steps (src/protocol/dispatcher.cpp), on
 values and with a history: what was submitted, sent and called.
 */
module DispatcherState {
  import opened Errors
  import opened OrderedMap
  import opened JsonValues
  import opened Link

  /** What a handler reads of a reply: the client's services read members, a raw request hands the message on. */
  datatype Reader = Anything | DatapointReader | StatusReader | BatchReader | AckReader

  /**
   A response handler. When it is called with anything but a timeout it submits its
   follow-ups from within the callback.
   */
  datatype Handler = Handler(id: nat, reader: Reader, followUps: seq<Request>)
  datatype Request = Request(spec: RequestSpec, handler: Handler)

  /** One submission: its handler, when it was made, its own deadline, the type it asked for and its key. */
  datatype Ticket = Ticket(handler: Handler, at: int, due: int, kind: string, key: string)

  datatype Waiting = Waiting(spec: RequestSpec, tickets: seq<Ticket>, deadline: int, sequence: nat)
  datatype Pending = Pending(kind: string, tickets: seq<Ticket>, deadline: int)

  datatype Outcome = Answered(message: Json) | TimedOut | Failed(error: Error)
  datatype Call = Call(ticket: Ticket, outcome: Outcome, at: int)

  /** A request that went out, as it was taken from the queue. */
  datatype Sent = Sent(id: string, request: Waiting, at: int)

  datatype Metrics = Metrics(submitted: nat, sent: nat, completed: nat, timeouts: nat, sendFailures: nat,
                             disconnectFailures: nat, coalesced: nat, deferrals: nat, unexpected: nat)

  /**
   The last five components are history: tickets submitted, tickets taken out of the
   dispatcher whose handler is about to be called, calls made, requests sent, and the number
   of requests sent before the current connection.
   */
  datatype Core = Core(link: Link, queue: seq<Waiting>, pending: Entries<Pending>, sequence: nat,
                       tokens: real, lastRefill: int, refillInitialised: bool, sendingEnabled: bool,
                       draining: bool, metrics: Metrics,
                       submitted: multiset<Ticket>, calling: multiset<Ticket>, called: seq<Call>,
                       sent: seq<Sent>, epoch: nat)

  // ---------------------------------------------------------------- multisets of tickets

  function QueueTickets(q: seq<Waiting>): multiset<Ticket> {
    if q == [] then multiset{} else multiset(q[0].tickets) + QueueTickets(q[1..])
  }

  function PendingTickets(p: Entries<Pending>): multiset<Ticket> {
    if p == [] then multiset{} else multiset(p[0].1.tickets) + PendingTickets(p[1..])
  }

  function CalledTickets(c: seq<Call>): multiset<Ticket> {
    if c == [] then multiset{} else multiset{c[0].ticket} + CalledTickets(c[1..])
  }

  function CallsOf(ts: seq<Ticket>, outcome: Outcome, at: int): (c: seq<Call>)
    ensures |c| == |ts|
    ensures forall i :: 0 <= i < |ts| ==> c[i] == Call(ts[i], outcome, at)
  {
    if ts == [] then [] else [Call(ts[0], outcome, at)] + CallsOf(ts[1..], outcome, at)
  }

  lemma {:induction false} QueueTicketsConcat(a: seq<Waiting>, b: seq<Waiting>)
    ensures QueueTickets(a + b) == QueueTickets(a) + QueueTickets(b)
  {
    if a == [] {
      assert a + b == b;
    } else {
      assert (a + b)[1..] == a[1..] + b;
      QueueTicketsConcat(a[1..], b);
    }
  }

  lemma QueueTicketsAt(q: seq<Waiting>, i: nat)
    requires i < |q|
    ensures QueueTickets(q) == QueueTickets(q[..i] + q[i + 1..]) + multiset(q[i].tickets)
  {
    assert q == q[..i] + ([q[i]] + q[i + 1..]);
    QueueTicketsConcat(q[..i], [q[i]] + q[i + 1..]);
    QueueTicketsConcat(q[..i], q[i + 1..]);
    assert ([q[i]] + q[i + 1..])[1..] == q[i + 1..];
  }

  lemma {:induction false} CalledTicketsConcat(a: seq<Call>, b: seq<Call>)
    ensures CalledTickets(a + b) == CalledTickets(a) + CalledTickets(b)
  {
    if a == [] {
      assert a + b == b;
    } else {
      assert (a + b)[1..] == a[1..] + b;
      CalledTicketsConcat(a[1..], b);
    }
  }

  lemma {:induction false} CalledTicketsOf(ts: seq<Ticket>, outcome: Outcome, at: int)
    ensures CalledTickets(CallsOf(ts, outcome, at)) == multiset(ts)
  {
    if ts != [] {
      CalledTicketsOf(ts[1..], outcome, at);
      assert CallsOf(ts, outcome, at)[1..] == CallsOf(ts[1..], outcome, at);
      assert ts == [ts[0]] + ts[1..];
    }
  }

  lemma {:induction false} PendingTicketsPut(p: Entries<Pending>, id: string, v: Pending)
    requires !Has(p, id)
    ensures PendingTickets(Put(p, id, v)) == PendingTickets(p) + multiset(v.tickets)
    ensures |Put(p, id, v)| == |p| + 1
  {
    if p == [] || Less(id, p[0].0) {
      assert Put(p, id, v)[1..] == p;
    } else {
      assert Put(p, id, v)[1..] == Put(p[1..], id, v);
      PendingTicketsPut(p[1..], id, v);
    }
  }

  lemma {:induction false} PendingTicketsRemove(p: Entries<Pending>, id: string)
    requires Has(p, id)
    ensures PendingTickets(p) == PendingTickets(Remove(p, id)) + multiset(Find(p, id).value.tickets)
    ensures |Remove(p, id)| == |p| - 1
  {
    if p[0].0 != id {
      assert Remove(p, id)[1..] == Remove(p[1..], id);
      PendingTicketsRemove(p[1..], id);
    }
  }

  // ---------------------------------------------------------------- expiry

  function LiveQueue(q: seq<Waiting>, now: int): seq<Waiting> {
    if q == [] then [] else (if q[0].deadline > now then [q[0]] else []) + LiveQueue(q[1..], now)
  }

  function LivePending(p: Entries<Pending>, now: int): Entries<Pending> {
    if p == [] then [] else (if p[0].1.deadline > now then [p[0]] else []) + LivePending(p[1..], now)
  }

  /** The calls that report the entries with a passed deadline, in queue order. */
  function QueueTimeouts(q: seq<Waiting>, now: int): seq<Call> {
    if q == [] then []
    else (if q[0].deadline > now then [] else CallsOf(q[0].tickets, TimedOut, now)) + QueueTimeouts(q[1..], now)
  }

  function PendingTimeouts(p: Entries<Pending>, now: int): seq<Call> {
    if p == [] then []
    else (if p[0].1.deadline > now then [] else CallsOf(p[0].1.tickets, TimedOut, now)) + PendingTimeouts(p[1..], now)
  }

  // ---------------------------------------------------------------- elementary steps

  /** Tokens gained in so many milliseconds at a rate per second. */
  function Gain(rate: real, ms: int): real { rate * (ms as real) / 1000.0 }

  function Accrued(b: RateBudget, ms: int): real { Gain(b.rate, ms) }

  function Refill(e: Env, s: Core, now: int): Core {
    if !s.refillInitialised then s.(lastRefill := now, refillInitialised := true)
    else if now <= s.lastRefill then s
    else
      var full := s.tokens + Accrued(e.budget, now - s.lastRefill);
      s.(lastRefill := now, tokens := if full < e.budget.burst then full else e.budget.burst)
  }

  function ExpireQueue(s: Core, now: int): Core {
    var live := LiveQueue(s.queue, now);
    s.(queue := live, called := s.called + QueueTimeouts(s.queue, now),
       metrics := s.metrics.(timeouts := s.metrics.timeouts + CountDown(|s.queue|, |live|)))
  }

  function ExpirePending(s: Core, now: int): Core {
    var live := LivePending(s.pending, now);
    s.(pending := live, called := s.called + PendingTimeouts(s.pending, now),
       metrics := s.metrics.(timeouts := s.metrics.timeouts + CountDown(|s.pending|, |live|)))
  }

  /** How many went, when `before` entries became `after`. */
  function CountDown(before: nat, after: nat): nat { if after <= before then before - after else 0 }

  function Timeout(e: Env, spec: RequestSpec): int { spec.timeout.GetOr(e.defaultTimeout) }

  function TicketFor(e: Env, req: Request, now: int): Ticket {
    Ticket(req.handler, now, now + Timeout(e, req.spec), req.spec.kind, req.spec.coalesceKey)
  }

  /** Position of the first waiting request with the key, or |q|. */
  function KeyIndex(q: seq<Waiting>, key: string): (i: nat)
    ensures i <= |q|
    ensures i < |q| ==> q[i].spec.coalesceKey == key
    ensures forall j :: 0 <= j < i ==> q[j].spec.coalesceKey != key
  {
    if q == [] then 0 else if q[0].spec.coalesceKey == key then 0 else 1 + KeyIndex(q[1..], key)
  }

  predicate Joins(s: Core, spec: RequestSpec) {
    spec.coalesceKey != "" && KeyIndex(s.queue, spec.coalesceKey) < |s.queue|
  }

  function JoinedEntry(w: Waiting, spec: RequestSpec, t: Ticket): Waiting {
    w.(tickets := w.tickets + [t],
       spec := if spec.priority.Rank() < w.spec.priority.Rank() then w.spec.(priority := spec.priority) else w.spec,
       deadline := if w.deadline < t.due then t.due else w.deadline)
  }

  function Joined(s: Core, spec: RequestSpec, t: Ticket): Core
    requires Joins(s, spec)
  {
    var i := KeyIndex(s.queue, spec.coalesceKey);
    s.(queue := s.queue[i := JoinedEntry(s.queue[i], spec, t)], submitted := s.submitted + multiset{t},
       metrics := s.metrics.(submitted := s.metrics.submitted + 1, coalesced := s.metrics.coalesced + 1))
  }

  function Appended(s: Core, spec: RequestSpec, t: Ticket): Core {
    s.(queue := s.queue + [Waiting(spec, [t], t.due, s.sequence + 1)], sequence := s.sequence + 1,
       submitted := s.submitted + multiset{t}, metrics := s.metrics.(submitted := s.metrics.submitted + 1))
  }

  /** The handler of a ticket that was taken out is called. */
  function Logged(s: Core, t: Ticket, outcome: Outcome, now: int): Core {
    s.(calling := s.calling - multiset{t}, called := s.called + [Call(t, outcome, now)])
  }

  predicate Precedes(a: Waiting, b: Waiting) {
    var x, y := a.spec.priority.Rank(), b.spec.priority.Rank();
    x < y || (x == y && a.sequence < b.sequence)
  }

  /** min_element: the first of the least entries. */
  function MinIndex(q: seq<Waiting>): (i: nat)
    requires q != []
    ensures i < |q|
    ensures forall j :: 0 <= j < |q| ==> !Precedes(q[j], q[i])
  {
    if |q| == 1 then 0
    else
      var j := 1 + MinIndex(q[1..]);
      if Precedes(q[j], q[0]) then j else
        assert forall k :: 0 < k < |q| ==> q[k] == q[1..][k - 1];
        0
  }

  function Without(q: seq<Waiting>, i: nat): seq<Waiting>
    requires i < |q|
  {
    q[..i] + q[i + 1..]
  }

  /** An entry leaves the queue because its frame could not be sent. */
  function TakenFailed(s: Core, i: nat, link: Link): Core
    requires i < |s.queue|
  {
    s.(link := link, queue := Without(s.queue, i), calling := s.calling + multiset(s.queue[i].tickets),
       metrics := s.metrics.(sendFailures := s.metrics.sendFailures + 1))
  }

  /** An entry leaves the queue and is pending under the id of its frame. */
  function TakenSent(s: Core, i: nat, link: Link, id: string, now: int): Core
    requires i < |s.queue|
  {
    var w := s.queue[i];
    s.(link := link, queue := Without(s.queue, i),
       pending := Emplace(s.pending, id, Pending(w.spec.kind, w.tickets, w.deadline)),
       tokens := s.tokens - 1.0, metrics := s.metrics.(sent := s.metrics.sent + 1),
       sent := s.sent + [Sent(id, w, now)])
  }

  function Deferred(s: Core): Core {
    s.(metrics := s.metrics.(deferrals := s.metrics.deferrals + 1))
  }

  /** A reply with an allowed or an unexpected type takes its request out of pending. */
  function TakenReply(s: Core, id: string, allowed: bool): Core
    requires Has(s.pending, id)
  {
    s.(pending := Remove(s.pending, id), calling := s.calling + multiset(Find(s.pending, id).value.tickets),
       metrics := if allowed then s.metrics.(completed := s.metrics.completed + 1)
                  else s.metrics.(unexpected := s.metrics.unexpected + 1))
  }

  /** fail_all takes everything out before it calls any handler. */
  function TakenAll(s: Core): Core {
    s.(pending := [], queue := [],
       calling := s.calling + PendingTickets(s.pending) + QueueTickets(s.queue),
       metrics := s.metrics.(disconnectFailures := s.metrics.disconnectFailures + |s.pending| + |s.queue|))
  }

  /** A dispatcher as its session constructs it: a full bucket, sending blocked. */
  function Fresh(e: Env, link: Link): Core {
    Core(link, [], [], 0, e.budget.burst, 0, false, false, false, Metrics(0, 0, 0, 0, 0, 0, 0, 0, 0),
         multiset{}, multiset{}, [], [], 0)
  }
}
