/** Matching replies from agents to the requests that wait for them: a table of one-shot channels, a cleaner
    per request that closes the channel once the request's context is done, and any number of deliveries
    (app/registry.go). What a delivery or a cleaner does under the mutex of a request is one step. */
module ResponseRendezvous {
  datatype Event = Event(id: string, payload: string)

  datatype Waiter = Waiting | Got(reply: Event) | GaveUp

  /** One request: its channel of capacity one with what was sent on it and how often it was closed, the flag that stops
      deliveries, its context, and the goroutine waiting for it. */
  datatype Request = Request(
    id: string, buffer: seq<Event>, sent: seq<Event>, closes: nat, isClose: bool, done: bool, waiter: Waiter)

  /** An event whose request has been looked up in the table, not yet handed over. */
  datatype Delivery = Delivery(event: Event, request: nat)

  datatype State = State(
    requests: seq<Request>, table: map<string, nat>, inFlight: multiset<Delivery>, panicked: bool, sentOnClosed: bool)

  /** What happens to one request by itself: its context ends, its cleaner runs, or its waiter leaves with a reply,
      on a closed channel, on the context, or because sending the request failed. */
  datatype Turn = Expire | CleanUp | TakeReply | TakeClosed | TakeDone | SendFails

  datatype Action =
    | Open(id: string)
    | LookUp(event: Event)
    | HandOver(delivery: Delivery)
    | DropIt(delivery: Delivery)   // the mutex is taken
    | On(request: nat, turn: Turn)

  const FRESH_STATE := State([], map[], multiset{}, false, false)

  /** Leaving `SendEventWaitResponse` cancels the context. */
  function Left(r: Request, waiter: Waiter): Request {
    r.(waiter := waiter, done := true)
  }

  function Turned(r: Request, turn: Turn): Request {
    match turn
    case Expire => r.(done := true)
    case CleanUp => if r.done && r.closes == 0 then r.(isClose := true, closes := r.closes + 1) else r // runs once
    case TakeReply =>
      if r.waiter.Waiting? && r.buffer != [] then Left(r, Got(r.buffer[0])).(buffer := r.buffer[1..]) else r
    case TakeClosed => if r.waiter.Waiting? && r.buffer == [] && r.closes > 0 then Left(r, GaveUp) else r
    case TakeDone => if r.waiter.Waiting? && r.done then Left(r, GaveUp) else r
    case SendFails => if r.waiter.Waiting? then Left(r, GaveUp) else r
  }

  function Sent(r: Request, event: Event): Request {
    r.(buffer := r.buffer + [event], sent := r.sent + [event], isClose := true)
  }

  function Step(s: State, a: Action): State {
    match a
    case Open(id) =>
      s.(requests := s.requests + [Request(id, [], [], 0, false, false, Waiting)],
         table := s.table[id := |s.requests|])
    case LookUp(event) =>
      if event.id !in s.table then s
      else s.(inFlight := s.inFlight + multiset{Delivery(event, s.table[event.id])})
    case HandOver(d) =>
      if d !in s.inFlight || d.request >= |s.requests| then s else
      var r := s.requests[d.request];
      var rest := s.(inFlight := s.inFlight - multiset{d});
      if r.isClose then rest
      else if |r.buffer| >= 1 then rest.(panicked := true)
      else rest.(requests := s.requests[d.request := Sent(r, d.event)],
                 sentOnClosed := s.sentOnClosed || r.closes > 0)
    case DropIt(d) => s.(inFlight := s.inFlight - multiset{d})
    case On(k, turn) =>
      if k >= |s.requests| then s else
      var r := s.requests[k];
      s.(requests := s.requests[k := Turned(r, turn)],
         // leaving also takes the id out of the table
         table := if r.waiter.Waiting? && !Turned(r, turn).waiter.Waiting? then s.table - {r.id} else s.table)
  }

  function Run(s: State, actions: seq<Action>): State {
    if actions == [] then s else Step(Run(s, actions[..|actions| - 1]), actions[|actions| - 1])
  }

  /** At most one event is ever sent; it carries the request's id and is either still in the channel or is
      the reply; deliveries are stopped exactly when something was sent or the channel closed; a closed channel or a
      waiter that has left means that the context is done. */
  predicate RequestGood(r: Request) {
    && |r.sent| <= 1
    && r.sent == (if r.waiter.Got? then [r.waiter.reply] else []) + r.buffer
    && (forall e :: e in r.sent ==> e.id == r.id)
    && r.closes <= 1
    && (r.sent != [] || r.closes > 0 <==> r.isClose)
    && (r.closes > 0 || !r.waiter.Waiting? ==> r.done)
  }

  /** The entry leads to a request with that id whose waiter is still there. */
  predicate Listed(s: State, id: string)
    requires id in s.table
  {
    && s.table[id] < |s.requests|
    && s.requests[s.table[id]].id == id && s.requests[s.table[id]].waiter.Waiting?
  }

  ghost predicate Good(s: State) {
    && !s.panicked && !s.sentOnClosed
    && (forall k :: 0 <= k < |s.requests| ==> RequestGood(s.requests[k]))
    && (forall id :: id in s.table ==> Listed(s, id))
    && (forall d :: d in s.inFlight ==> d.request < |s.requests| && s.requests[d.request].id == d.event.id)
  }

  lemma TurnKeepsGood(r: Request, turn: Turn)
    ensures RequestGood(r) ==> RequestGood(Turned(r, turn))
    ensures Turned(r, turn).id == r.id
    ensures !r.waiter.Waiting? ==> Turned(r, turn).waiter == r.waiter
  {
  }

  /** Requests are only added, and keep their ids; a waiter leaves only in a turn of its own. */
  lemma RequestsStay(s: State, a: Action, k: nat)
    requires k < |s.requests|
    ensures k < |Step(s, a).requests| && Step(s, a).requests[k].id == s.requests[k].id
    ensures !(a.On? && a.request == k) ==> Step(s, a).requests[k].waiter == s.requests[k].waiter
  {
    match a
    case On(j, turn) =>
      if j < |s.requests| { TurnKeepsGood(s.requests[j], turn); }
    case HandOver(d) =>
    case _ =>
  }

  lemma RequestStaysGood(s: State, a: Action, k: nat)
    requires Good(s) && k < |Step(s, a).requests|
    ensures RequestGood(Step(s, a).requests[k])
  {
    if k < |s.requests| {
      assert RequestGood(s.requests[k]);
      if a.On? && a.request == k {
        TurnKeepsGood(s.requests[k], a.turn);
      }
    }
  }

  /** A request whose channel is full or closed takes no more deliveries, so no step panics or sends on a closed
      channel. */
  lemma NothingBreaks(s: State, a: Action)
    requires Good(s)
    ensures !Step(s, a).panicked && !Step(s, a).sentOnClosed
  {
    match a
    case HandOver(d) =>
      if d in s.inFlight { assert RequestGood(s.requests[d.request]); }
    case On(k, turn) =>
    case _ =>
  }

  /** Nothing is left behind in the table by a waiter that has gone. */
  lemma TableStays(s: State, a: Action)
    requires Good(s)
    ensures forall id :: id in Step(s, a).table ==> Listed(Step(s, a), id)
  {
    forall id | id in Step(s, a).table ensures Listed(Step(s, a), id) {
      EntryStays(s, a, id);
    }
  }

  lemma EntryStays(s: State, a: Action, id: string)
    requires Good(s) && id in Step(s, a).table
    ensures Listed(Step(s, a), id)
  {
    if !(a.Open? && a.id == id) {
      assert Listed(s, id) && Step(s, a).table[id] == s.table[id];
      RequestsStay(s, a, s.table[id]);
      if a.On? && a.request == s.table[id] {
        TurnKeepsGood(s.requests[a.request], a.turn);
      }
    }
  }

  lemma InFlightStays(s: State, a: Action)
    requires Good(s)
    ensures var next := Step(s, a);
            forall d :: d in next.inFlight ==> d.request < |next.requests| && next.requests[d.request].id == d.event.id
  {
    var next := Step(s, a);
    forall d | d in next.inFlight ensures d.request < |next.requests| && next.requests[d.request].id == d.event.id {
      assert d in s.inFlight || (a.LookUp? && a.event.id in s.table && d == Delivery(a.event, s.table[a.event.id]));
      RequestsStay(s, a, d.request);
    }
  }

  lemma StepKeepsGood(s: State, a: Action)
    requires Good(s)
    ensures Good(Step(s, a))
  {
    var next := Step(s, a);
    assert forall k :: 0 <= k < |next.requests| ==> RequestGood(next.requests[k]) by {
      forall k | 0 <= k < |next.requests| ensures RequestGood(next.requests[k]) {
        RequestStaysGood(s, a, k);
      }
    }
    NothingBreaks(s, a);
    TableStays(s, a);
    InFlightStays(s, a);
  }

  /** Every interleaving, whatever ids requests use: the "channel is full" panic is unreachable, nothing is sent
      on a closed channel, no channel is closed twice, and a waiter gets at most one reply, with its own id. */
  lemma {:induction false} EveryRunIsGood(actions: seq<Action>)
    ensures var s := Run(FRESH_STATE, actions);
            && Good(s) && !s.panicked && !s.sentOnClosed
            && (forall k :: 0 <= k < |s.requests| ==> s.requests[k].closes <= 1 && |s.requests[k].sent| <= 1)
            && (forall k :: 0 <= k < |s.requests| && s.requests[k].waiter.Got? ==>
                  s.requests[k].sent == [s.requests[k].waiter.reply]
                  && s.requests[k].waiter.reply.id == s.requests[k].id)
            && (forall id :: id in s.table ==>
                  s.table[id] < |s.requests| && s.requests[s.table[id]].id == id
                  && s.requests[s.table[id]].waiter.Waiting?)
  {
    if actions != [] {
      var front := actions[..|actions| - 1];
      EveryRunIsGood(front);
      StepKeepsGood(Run(FRESH_STATE, front), actions[|actions| - 1]);
    }
  }

  /** An answered request stays answered, with the same reply. */
  lemma AnswerIsFinal(s: State, a: Action, k: nat)
    requires k < |s.requests| && !s.requests[k].waiter.Waiting?
    ensures k < |Step(s, a).requests| && Step(s, a).requests[k].waiter == s.requests[k].waiter
  {
  }

  // ----- what distinct ids are for -----

  /** A reply to a waiting request finds it in the table. */
  ghost predicate Reachable(s: State) {
    forall k :: 0 <= k < |s.requests| && s.requests[k].waiter.Waiting? ==>
      s.requests[k].id in s.table && s.table[s.requests[k].id] == k
  }

  /** Opening a request keeps every waiting one reachable exactly when none of them has the same id. */
  lemma OpenKeepsReachableIff(s: State, id: string)
    requires Good(s) && Reachable(s)
    ensures Reachable(Step(s, Open(id))) <==>
            forall k :: 0 <= k < |s.requests| && s.requests[k].waiter.Waiting? ==> s.requests[k].id != id
  {
    var next := Step(s, Open(id));
    assert forall k :: 0 <= k < |s.requests| ==> next.requests[k] == s.requests[k];
    if Reachable(next) {
      forall k | 0 <= k < |s.requests| && s.requests[k].waiter.Waiting? ensures s.requests[k].id != id {
        assert next.requests[k].waiter.Waiting?;
      }
    }
  }

  /** All other steps keep it; so with ids distinct among outstanding requests no reply misses its request. */
  lemma OthersKeepReachable(s: State, a: Action)
    requires Good(s) && Reachable(s) && !a.Open?
    ensures Reachable(Step(s, a))
  {
    var next := Step(s, a);
    forall k | 0 <= k < |next.requests| && next.requests[k].waiter.Waiting?
      ensures next.requests[k].id in next.table && next.table[next.requests[k].id] == k
    {
      WaitersWereWaiting(s, a, k);
      RequestsStay(s, a, k);
      if a.On? && a.request < |s.requests| {
        var r := s.requests[a.request];
        assert a.request != k && r.waiter.Waiting? ==> r.id != s.requests[k].id;
      }
    }
  }

  lemma WaitersWereWaiting(s: State, a: Action, k: nat)
    requires !a.Open? && k < |Step(s, a).requests| && Step(s, a).requests[k].waiter.Waiting?
    ensures k < |s.requests| && s.requests[k].waiter.Waiting?
  {
    match a
    case On(j, turn) =>
      if j < |s.requests| { TurnKeepsGood(s.requests[j], turn); }
    case HandOver(d) =>
    case _ =>
  }

  ghost predicate OpensApart(actions: seq<Action>) {
    forall n :: 0 <= n < |actions| && actions[n].Open? ==>
      var at := Run(FRESH_STATE, actions[..n]);
      forall k :: 0 <= k < |at.requests| && at.requests[k].waiter.Waiting? ==> at.requests[k].id != actions[n].id
  }

  lemma {:induction false} WaitingRequestsAreReachable(actions: seq<Action>)
    requires OpensApart(actions)
    ensures Reachable(Run(FRESH_STATE, actions))
  {
    if actions != [] {
      var n := |actions| - 1;
      var front := actions[..n];
      assert forall m :: 0 <= m < n ==> front[..m] == actions[..m] && front[m] == actions[m];
      WaitingRequestsAreReachable(front);
      EveryRunIsGood(front);
      var s := Run(FRESH_STATE, front);
      if actions[n].Open? {
        OpenKeepsReachableIff(s, actions[n].id);
      } else {
        OthersKeepReachable(s, actions[n]);
      }
    }
  }

  // ----- a reply reaches its waiter -----

  /** The waiter takes what was sent, and nothing is lost on the way. */
  lemma TakingGetsWhatWasSent(s: State, k: nat)
    requires Good(s) && k < |s.requests| && s.requests[k].waiter.Waiting? && s.requests[k].buffer != []
    ensures var r := Step(s, On(k, TakeReply)).requests[k];
            r.waiter == Got(s.requests[k].sent[0]) && r.buffer == [] && r.done
  {
    assert RequestGood(s.requests[k]);
  }

  /** The turns in which a waiter leaves without looking into the channel. */
  predicate TurnsAway(a: Action, k: nat) {
    a.On? && a.request == k && (a.turn.TakeDone? || a.turn.SendFails?)
  }

  lemma BufferedStays(s: State, a: Action, k: nat, e: Event)
    requires Good(s) && k < |s.requests| && s.requests[k].waiter.Waiting? && s.requests[k].buffer == [e]
    requires !TurnsAway(a, k)
    ensures var next := Step(s, a);
            k < |next.requests|
            && (next.requests[k].waiter == Got(e)
                || (next.requests[k].waiter.Waiting? && next.requests[k].buffer == [e]))
  {
    assert RequestGood(s.requests[k]);
    match a
    case HandOver(d) =>
    case On(j, turn) =>
    case _ =>
  }

  ghost predicate HasOrGot(s: State, k: nat, e: Event) {
    && Good(s) && k < |s.requests|
    && (s.requests[k].waiter == Got(e) || (s.requests[k].waiter.Waiting? && s.requests[k].buffer == [e]))
  }

  /** Whatever else happens, an event on the channel of a waiting request is the reply that it takes, unless it leaves
      on its context or because the request could not be sent. */
  lemma {:induction false} SentEventIsTaken(s: State, actions: seq<Action>, k: nat, e: Event)
    requires HasOrGot(s, k, e)
    requires forall a :: a in actions ==> !TurnsAway(a, k)
    ensures HasOrGot(Run(s, actions), k, e)
    ensures Step(Run(s, actions), On(k, TakeReply)).requests[k].waiter == Got(e)
  {
    if actions != [] {
      var n := |actions| - 1;
      SentEventIsTaken(s, actions[..n], k, e);
      HasOrGotStays(Run(s, actions[..n]), actions[n], k, e);
    }
    HasOrGotStays(Run(s, actions), On(k, TakeReply), k, e);
  }

  lemma HasOrGotStays(s: State, a: Action, k: nat, e: Event)
    requires HasOrGot(s, k, e) && !TurnsAway(a, k)
    ensures HasOrGot(Step(s, a), k, e)
    ensures a == On(k, TakeReply) ==> Step(s, a).requests[k].waiter == Got(e)
  {
    StepKeepsGood(s, a);
    if s.requests[k].waiter == Got(e) {
      AnswerIsFinal(s, a, k);
    } else {
      BufferedStays(s, a, k, e);
    }
  }

  /** From every good state: a new request is found by a delivery of its event, the hand-over puts the event on its
      channel, and the waiter returns with it. */
  lemma RequestIsAnswered(s: State, e: Event)
    requires Good(s)
    ensures var k := |s.requests|;
            var last := Step(Step(Step(Step(s, Open(e.id)), LookUp(e)), HandOver(Delivery(e, k))), On(k, TakeReply));
            last.requests[k].waiter == Got(e) && e.id !in last.table && last.inFlight == s.inFlight
  {
    var k := |s.requests|;
    var ready := Step(s, Open(e.id));
    StepKeepsGood(s, Open(e.id));
    DeliveryIsTaken(ready, k, e);
  }

  /** And so is every waiting request that the table leads to and that nothing has been handed to yet. */
  lemma DeliveryIsTaken(s: State, k: nat, e: Event)
    requires Good(s) && e.id in s.table && s.table[e.id] == k && !s.requests[k].isClose
    ensures var last := Step(Step(Step(s, LookUp(e)), HandOver(Delivery(e, k))), On(k, TakeReply));
            last.requests[k].waiter == Got(e) && e.id !in last.table && last.inFlight == s.inFlight
  {
    assert Listed(s, e.id) && RequestGood(s.requests[k]);
    var found := s.(inFlight := s.inFlight + multiset{Delivery(e, k)});
    var handed := s.(requests := s.requests[k := Sent(s.requests[k], e)]);
    assert Step(s, LookUp(e)) == found;
    assert Step(found, HandOver(Delivery(e, k))) == handed by {
      assert found.inFlight - multiset{Delivery(e, k)} == s.inFlight;
    }
    SentIsTaken(s.requests[k], e);
  }

  lemma SentIsTaken(r: Request, e: Event)
    requires r.waiter.Waiting? && r.buffer == []
    ensures Turned(Sent(r, e), TakeReply).waiter == Got(e) && Sent(r, e).id == r.id
  {
  }

  /** A new request waits, and nothing but an event, its context or a failed send makes it leave. */
  lemma NewRequestWaits(s: State, id: string, turn: Turn)
    requires !turn.SendFails?
    ensures var k, ready := |s.requests|, Step(s, Open(id));
            && ready.requests[k] == Request(id, [], [], 0, false, false, Waiting) && ready.table[id] == k
            && Step(ready, On(k, turn)).requests[k].waiter.Waiting?
  {
  }

  /** Nobody gives up while the context is alive, unless the request could not be sent. */
  lemma NobodyGivesUpEarly(s: State, a: Action, k: nat)
    requires Good(s) && k < |s.requests| && s.requests[k].waiter.Waiting? && !s.requests[k].done
    requires Step(s, a).requests[k].waiter.GaveUp?
    ensures a == On(k, SendFails)
  {
    assert RequestGood(s.requests[k]);
    RequestsStay(s, a, k);
  }

  /** What the theorems exclude would be seen: handing over to a full channel panics, and to a closed one fails. */
  lemma BadHandOverIsSeen(s: State, d: Delivery)
    requires d in s.inFlight && d.request < |s.requests| && !s.requests[d.request].isClose
    ensures Step(s, HandOver(d)).panicked <==> s.panicked || s.requests[d.request].buffer != []
    ensures s.requests[d.request].buffer == [] ==>
              (Step(s, HandOver(d)).sentOnClosed <==> s.sentOnClosed || s.requests[d.request].closes > 0)
  {
  }

  /** A waiter whose context is done, or whose channel is closed, has a way out: with the reply if there is one, and
      otherwise without. */
  lemma WaiterCanLeave(s: State, k: nat)
    requires Good(s) && k < |s.requests| && s.requests[k].waiter.Waiting?
    ensures s.requests[k].done ==> Step(s, On(k, TakeDone)).requests[k].waiter == GaveUp
    ensures s.requests[k].closes > 0 ==>
              var turn := if s.requests[k].buffer != [] then TakeReply else TakeClosed;
              !Step(s, On(k, turn)).requests[k].waiter.Waiting?
    ensures Step(s, On(k, SendFails)).requests[k].waiter == GaveUp
    ensures !s.requests[k].isClose ==>
              var cleaned := Step(Step(s, On(k, Expire)), On(k, CleanUp)).requests[k];
              cleaned.isClose && cleaned.closes == 1 && cleaned.waiter.Waiting?
  {
    assert RequestGood(s.requests[k]);
  }
}
