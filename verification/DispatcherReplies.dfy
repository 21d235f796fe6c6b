/** Replies and disconnects: on_message and fail_all (src/protocol/dispatcher.cpp:185-243). */
module DispatcherReplies {
  import opened Errors
  import opened OrderedMap
  import opened JsonValues
  import opened Messages
  import opened Link
  import opened DispatcherState
  import opened DispatcherInvariants
  import opened DispatcherSteps
  import opened DispatcherOps

  // ---------------------------------------------------------------- on_message

  function ReplyOutcome(kind: string, message: Json): Outcome {
    if ResponseAllowed(kind, message.StringAt("type")) then Answered(message)
    else Failed(Error(Protocol, UnexpectedResponseType))
  }

  /**
   The new state, and whether the message was consumed. Follow-ups of the handlers are
   submitted at `now`.
   */
  function OnMessage(e: Env, s: Core, message: Json, now: int): (r: (Core, bool))
    requires Ready(e, s, now)
    ensures Ready(e, r.0, now) && Follows(e, s, r.0, now) && r.0.calling == s.calling
    ensures r.1 <==> message.StringAt("in_reply_to") != ""
    ensures !Has(s.pending, message.StringAt("in_reply_to")) ==> r.0 == s
  {
    var id := message.StringAt("in_reply_to");
    FollowsSelf(e, s, now);
    if id == "" then
      EmptyIdIsNotPending(e, s, now);
      (s, false)
    else if !Has(s.pending, id) then (s, true)
    else
      var p := Find(s.pending, id).value;
      var a := TakenReply(s, id, ResponseAllowed(p.kind, message.StringAt("type")));
      ReplySteps(e, s, message, now);
      var r := Complete(e, a, p.tickets, ReplyOutcome(p.kind, message), now);
      FollowsTrans(e, s, a, r, now);
      (r, true)
  }

  lemma EmptyIdIsNotPending(e: Env, s: Core, now: int)
    requires Ready(e, s, now)
    ensures !Has(s.pending, "")
  {
    assert OpenReady(0);
    assert forall k: nat :: "" != MsgId(k);
  }

  lemma ReplyLives(e: Env, s: Core, id: string, allowed: bool, now: int)
    requires Has(s.pending, id) && Ascending(s.pending)
    ensures Follows(e, s, TakenReply(s, id, allowed), now)
  {
    ShorterQueueUrgentFirst(s, TakenReply(s, id, allowed));
    forall q | Has(Remove(s.pending, id), q)
      ensures Has(s.pending, q) && Find(s.pending, q) == Find(Remove(s.pending, id), q)
    {
      FindAfterRemove(s.pending, id, q);
    }
  }

  lemma ReplyIsJustified(s: Core, message: Json)
    requires PendingSent(s.pending, s.sent, s.epoch)
    requires Has(s.pending, message.StringAt("in_reply_to"))
    ensures var p := Find(s.pending, message.StringAt("in_reply_to")).value;
            AllJustified(s.sent, p.tickets, ReplyOutcome(p.kind, message))
  {
    var id := message.StringAt("in_reply_to");
    var p := Find(s.pending, id).value;
    var k :| s.epoch <= k < |s.sent| && IsOf(s.sent[k], id, p);
    if ResponseAllowed(p.kind, message.StringAt("type")) {
      forall i | 0 <= i < |p.tickets| ensures Justified(s.sent, p.tickets[i], Answered(message)) {
        assert Answers(s.sent[k], p.tickets[i], message);
      }
    }
  }

  lemma ReplySteps(e: Env, s: Core, message: Json, now: int)
    requires Ready(e, s, now) && Has(s.pending, message.StringAt("in_reply_to"))
    ensures var id := message.StringAt("in_reply_to");
            var p := Find(s.pending, id).value;
            var a := TakenReply(s, id, ResponseAllowed(p.kind, message.StringAt("type")));
            && Ready(e, a, now) && Follows(e, s, a, now)
            && MayComplete(e, a, p.tickets, ReplyOutcome(p.kind, message), now)
  {
    var id := message.StringAt("in_reply_to");
    var allowed := ResponseAllowed(Find(s.pending, id).value.kind, message.StringAt("type"));
    assert OpenReady(0);
    ReplyLives(e, s, id, allowed, now);
    ReplyIsJustified(s, message);
    TakenReplyKeepsInv(e, s, id, allowed);
  }

  // ---------------------------------------------------------------- fail_all

  /** The handler lists that fail_all completes: open requests in id order, then the queue. */
  function PendingGroups(p: Entries<Pending>): seq<seq<Ticket>> {
    if p == [] then [] else [p[0].1.tickets] + PendingGroups(p[1..])
  }

  function QueueGroups(q: seq<Waiting>): seq<seq<Ticket>> {
    if q == [] then [] else [q[0].tickets] + QueueGroups(q[1..])
  }

  function GroupTickets(gs: seq<seq<Ticket>>): multiset<Ticket> {
    if gs == [] then multiset{} else multiset(gs[0]) + GroupTickets(gs[1..])
  }

  lemma {:induction false} GroupTicketsOfPending(p: Entries<Pending>)
    ensures GroupTickets(PendingGroups(p)) == PendingTickets(p)
  {
    if p != [] {
      GroupTicketsOfPending(p[1..]);
      assert PendingGroups(p)[1..] == PendingGroups(p[1..]);
    }
  }

  lemma {:induction false} GroupTicketsOfQueue(q: seq<Waiting>)
    ensures GroupTickets(QueueGroups(q)) == QueueTickets(q)
  {
    if q != [] {
      GroupTicketsOfQueue(q[1..]);
      assert QueueGroups(q)[1..] == QueueGroups(q[1..]);
    }
  }

  lemma FirstGroup(gs: seq<seq<Ticket>>, calling: multiset<Ticket>)
    requires gs != [] && GroupTickets(gs) <= calling
    ensures multiset(gs[0]) <= calling && GroupTickets(gs[1..]) <= calling - multiset(gs[0])
    ensures calling - multiset(gs[0]) - GroupTickets(gs[1..]) == calling - GroupTickets(gs)
  {
  }

  /** complete on each list in turn. */
  function FailGroups(e: Env, s: Core, gs: seq<seq<Ticket>>, error: Error, now: int): (r: Core)
    requires Ready(e, s, now) && GroupTickets(gs) <= s.calling
    ensures Ready(e, r, now) && Follows(e, s, r, now) && r.calling == s.calling - GroupTickets(gs)
    ensures r.draining == s.draining && r.sendingEnabled == s.sendingEnabled
    decreases |gs|
  {
    FollowsSelf(e, s, now);
    if gs == [] then s
    else
      FirstGroup(gs, s.calling);
      var a := Complete(e, s, gs[0], Failed(error), now);
      var r := FailGroups(e, a, gs[1..], error, now);
      FollowsTrans(e, s, a, r, now);
      r
  }

  /** What is left once everything is taken out satisfies the invariant. */
  ghost predicate Closing(e: Env, s: Core, now: int) { Ready(e, TakenAll(s), now) }

  function FailAll(e: Env, s: Core, error: Error, now: int): (r: Core)
    requires Closing(e, s, now)
    ensures Ready(e, r, now) && Follows(e, TakenAll(s), r, now) && r.calling == s.calling
    ensures r.draining == s.draining && r.sendingEnabled == s.sendingEnabled
  {
    hide FailGroups, PendingGroups, QueueGroups;
    GroupTicketsOfPending(s.pending);
    GroupTicketsOfQueue(s.queue);
    var a := FailGroups(e, TakenAll(s), PendingGroups(s.pending), error, now);
    var r := FailGroups(e, a, QueueGroups(s.queue), error, now);
    FollowsTrans(e, TakenAll(s), a, r, now);
    r
  }

  /** Leaving a state for Closed is what makes way for fail_all. */
  lemma ClosedIsClosing(e: Env, s: Core, now: int)
    requires Ready(e, s, now)
    ensures Closing(e, s.(link := s.link.(state := Closed), sendingEnabled := false), now)
  {
    assert OpenReady(0);
    TakenAllKeepsInv(e, s.(link := s.link.(state := Closed), sendingEnabled := false));
  }
}
