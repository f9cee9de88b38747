/** Request and response matching of `PiClient`: every request issued is pending or settled once, nothing is pending
    while the client is not connected, and a result reaches only the request with its id and its command. */
module Requests {
  import opened Seqs
  import opened Promises

  datatype Kind = List | Create | Attach | Detach | Prompt | Steer | Abort | SetModel | SetThinking

  datatype Command = Command(kind: Kind, body: nat)

  datatype Reply = Failed(error: nat) | Succeeded(kind: Kind, body: nat)

  datatype Outcome =
    | Delivered(kind: Kind, body: nat)
    | Refused(error: nat)
    | Mismatched
    | NotEncoded
    | Lost
    | ClientDisposed

  /** `#pendingRequests` and the request sequence, with the commands issued so far, the one with number k at index
      k - 1, and the promises settled so far. */
  datatype Desk = Desk(
    connected: bool,
    disposed: bool,
    sequence: nat,
    pending: map<nat, Command>,
    issued: seq<Command>,
    settled: seq<Settlement<Outcome>>)

  const NEW: Desk := Desk(false, false, 0, map[], [], [])

  /** How the frame of a request fares: handed to the transport, too long to encode, or refused by the transport. */
  datatype Sending = Sent | NotEncodable | SendThrows

  datatype Event =
    | Request(command: Command, sending: Sending)
    | Response(id: nat, reply: Reply)
    | Up
    | Down
    | Dispose

  /** The rejections of `#rejectPendingRequests`, oldest request first, among the requests up to number n. */
  function Rejections(pending: map<nat, Command>, n: nat, outcome: Outcome): seq<Settlement<Outcome>> {
    if n == 0 then [] else Rejections(pending, n - 1, outcome) + (if n in pending then [Settlement(n, outcome)] else [])
  }

  function RejectAll(d: Desk, outcome: Outcome): Desk {
    d.(pending := map[], settled := d.settled + Rejections(d.pending, d.sequence, outcome))
  }

  /** The connection fails or is closed. */
  function GoDown(d: Desk): Desk {
    if d.connected then RejectAll(d.(connected := false), Lost) else d
  }

  /** A pending request is taken and settled. */
  function Settle(d: Desk, id: nat, outcome: Outcome): Desk {
    d.(pending := d.pending - {id}, settled := d.settled + [Settlement(id, outcome)])
  }

  function Step(d: Desk, e: Event): Desk {
    match e
    case Request(command, sending) =>
      if d.disposed || !d.connected then d
      else
        var id := d.sequence + 1;
        var asked := d.(sequence := id, pending := d.pending[id := command], issued := d.issued + [command]);
        match sending {
          case Sent => asked
          case NotEncodable => Settle(asked, id, NotEncoded)
          case SendThrows => GoDown(asked)
        }
    case Response(id, reply) =>
      if !d.connected then d
      else if id !in d.pending then GoDown(d)
      else if reply.Failed? then Settle(d, id, Refused(reply.error))
      else if reply.kind != d.pending[id].kind then GoDown(Settle(d, id, Mismatched))
      else Settle(d, id, Delivered(reply.kind, reply.body))
    case Up => if d.disposed then d else d.(connected := true)
    case Down => GoDown(d)
    case Dispose => if d.disposed then d else GoDown(RejectAll(d.(disposed := true), ClientDisposed))
  }

  function Run(d: Desk, events: seq<Event>): Desk {
    if events == [] then d else Step(Run(d, events[..|events| - 1]), events[|events| - 1])
  }

  /** Each request issued is pending or settled, never both, and settled at most once. */
  ghost predicate Accounted(d: Desk) {
    && |d.issued| == d.sequence
    && SettledOnce(d.settled)
    && (forall id | id in d.pending :: 1 <= id <= d.sequence && d.issued[id - 1] == d.pending[id])
    && (forall id: nat :: 1 <= id <= d.sequence <==> (id in d.pending || IsSettled(d.settled, id)))
    && (forall id | id in d.pending :: !IsSettled(d.settled, id))
  }

  ghost predicate Inv(d: Desk) {
    Accounted(d) && (!d.connected ==> d.pending == map[])
  }

  /** A delivered result is that of a response with the request's own id, for the command it asked for. */
  ghost predicate DeliveredRightly(d: Desk, events: seq<Event>) {
    forall i | 0 <= i < |d.settled| && d.settled[i].outcome.Delivered? ::
      && 1 <= d.settled[i].id <= |d.issued|
      && d.issued[d.settled[i].id - 1].kind == d.settled[i].outcome.kind
      && Response(d.settled[i].id, Succeeded(d.settled[i].outcome.kind, d.settled[i].outcome.body)) in events
  }

  lemma SettleKeeps(d: Desk, id: nat, outcome: Outcome)
    requires Accounted(d) && id in d.pending
    ensures Accounted(Settle(d, id, outcome))
  {
    SettleMore(d.settled, Settlement(id, outcome));
    hide SettledOnce, IsSettled;
  }

  lemma {:induction false} RejectionsSettle(settled: seq<Settlement<Outcome>>, pending: map<nat, Command>, n: nat,
      outcome: Outcome)
    requires SettledOnce(settled) && forall id | id in pending :: !IsSettled(settled, id)
    ensures var more := settled + Rejections(pending, n, outcome);
      && SettledOnce(more)
      && forall id: nat :: IsSettled(more, id) <==> IsSettled(settled, id) || (1 <= id <= n && id in pending)
  {
    if n == 0 {
      assert settled + [] == settled;
    } else {
      RejectionsSettle(settled, pending, n - 1, outcome);
      var less := settled + Rejections(pending, n - 1, outcome);
      if n in pending {
        SettleMore(less, Settlement(n, outcome));
        assert less + [Settlement(n, outcome)] == settled + Rejections(pending, n, outcome);
      } else {
        assert Rejections(pending, n, outcome) == Rejections(pending, n - 1, outcome);
      }
      hide SettledOnce, IsSettled;
    }
  }

  lemma RejectAllKeeps(d: Desk, outcome: Outcome)
    requires Accounted(d)
    ensures Accounted(RejectAll(d, outcome))
  {
    RejectionsSettle(d.settled, d.pending, d.sequence, outcome);
    hide SettledOnce, IsSettled, Rejections;
  }

  lemma GoDownKeeps(d: Desk)
    requires Accounted(d) && (!d.connected ==> d.pending == map[])
    ensures Inv(GoDown(d))
  {
    RejectAllKeeps(d.(connected := false), Lost);
  }

  lemma AskedKeeps(d: Desk, command: Command)
    requires Accounted(d)
    ensures Accounted(d.(sequence := d.sequence + 1, pending := d.pending[d.sequence + 1 := command],
        issued := d.issued + [command]))
  {
    hide SettledOnce, IsSettled;
  }

  lemma StepKeeps(d: Desk, e: Event)
    requires Inv(d)
    ensures Inv(Step(d, e))
  {
    match e
    case Request(command, sending) =>
      if !d.disposed && d.connected {
        AskedKeeps(d, command);
        var id := d.sequence + 1;
        var asked := d.(sequence := id, pending := d.pending[id := command], issued := d.issued + [command]);
        SettleKeeps(asked, id, NotEncoded);
        GoDownKeeps(asked);
        hide Accounted;
      }
    case Response(id, reply) =>
      if id in d.pending {
        var outcome := if reply.Failed? then Refused(reply.error)
                       else if reply.kind != d.pending[id].kind then Mismatched
                       else Delivered(reply.kind, reply.body);
        SettleKeeps(d, id, outcome);
        GoDownKeeps(Settle(d, id, Mismatched)) by {
          SettleKeeps(d, id, Mismatched);
        }
      }
      GoDownKeeps(d);
      hide Accounted;
    case Up =>
    case Down => GoDownKeeps(d);
    case Dispose =>
      RejectAllKeeps(d.(disposed := true), ClientDisposed);
      GoDownKeeps(RejectAll(d.(disposed := true), ClientDisposed));
      hide Accounted;
  }

  /** A settled list that grew by outcomes none of which is a delivery. */
  ghost predicate OnlyRejects(before: seq<Settlement<Outcome>>, after: seq<Settlement<Outcome>>) {
    && before <= after
    && forall i | |before| <= i < |after| :: !after[i].outcome.Delivered?
  }

  lemma {:induction false} RejectionsDeliverNothing(before: seq<Settlement<Outcome>>, pending: map<nat, Command>,
      n: nat, outcome: Outcome)
    requires !outcome.Delivered?
    ensures OnlyRejects(before, before + Rejections(pending, n, outcome))
  {
    if n == 0 {
      assert before + [] == before;
    } else {
      RejectionsDeliverNothing(before, pending, n - 1, outcome);
      Associative(before, Rejections(pending, n - 1, outcome), if n in pending then [Settlement(n, outcome)] else []);
    }
  }

  /** Only a response delivers, and it delivers one result. */
  lemma StepDelivers(d: Desk, e: Event)
    requires Inv(d)
    ensures d.issued <= Step(d, e).issued
    ensures var after := Step(d, e).settled;
      || OnlyRejects(d.settled, after)
      || (&& e.Response? && e.id in d.pending && e.reply.Succeeded? && e.reply.kind == d.pending[e.id].kind
          && after == d.settled + [Settlement(e.id, Delivered(e.reply.kind, e.reply.body))])
  {
    var pending :=
      if e.Request? then d.pending[d.sequence + 1 := e.command]
      else if e.Response? then d.pending - {e.id}
      else d.pending;
    var settled := if e.Response? && e.id in d.pending then d.settled + [Settlement(e.id, Mismatched)] else d.settled;
    RejectionsDeliverNothing(settled, pending, if e.Request? then d.sequence + 1 else d.sequence, Lost);
    RejectionsDeliverNothing(d.settled, d.pending, d.sequence, Lost);
    RejectionsDeliverNothing(d.settled, d.pending, d.sequence, ClientDisposed);
    RejectionsDeliverNothing(d.settled + Rejections(d.pending, d.sequence, ClientDisposed), map[], d.sequence, Lost);
    hide Rejections, Inv;
  }

  /** Deliveries stay right when a step adds no delivery, or the right one. */
  lemma DeliveredStep(d: Desk, d': Desk, past: seq<Event>, e: Event)
    requires DeliveredRightly(d, past) && d.issued <= d'.issued
    requires || OnlyRejects(d.settled, d'.settled)
             || (&& e.Response? && 1 <= e.id <= |d.issued| && e.reply.Succeeded?
                 && e.reply.kind == d.issued[e.id - 1].kind
                 && d'.settled == d.settled + [Settlement(e.id, Delivered(e.reply.kind, e.reply.body))])
    ensures DeliveredRightly(d', past + [e])
  {
    forall i | 0 <= i < |d'.settled| && d'.settled[i].outcome.Delivered?
      ensures && 1 <= d'.settled[i].id <= |d'.issued|
              && d'.issued[d'.settled[i].id - 1].kind == d'.settled[i].outcome.kind
              && Response(d'.settled[i].id, Succeeded(d'.settled[i].outcome.kind,
                  d'.settled[i].outcome.body)) in past + [e]
    {
      if i < |d.settled| {
        assert d'.settled[i] == d.settled[i];
      }
    }
  }

  /** Over every run: the requests issued are accounted for, nothing is pending while not connected, and every
      delivery is right. */
  lemma {:induction false} EveryRun(events: seq<Event>)
    ensures Inv(Run(NEW, events)) && DeliveredRightly(Run(NEW, events), events)
  {
    if events != [] {
      var past, e := events[..|events| - 1], events[|events| - 1];
      var d := Run(NEW, past);
      EveryRun(past);
      StepKeeps(d, e);
      StepDelivers(d, e);
      hide Step, SettledOnce, IsSettled, DeliveredRightly;
      DeliveredStep(d, Step(d, e), past, e);
      assert events == past + [e];
    }
  }

  /** A response leaves the connection up exactly when it answers a pending request, with an error or with a result
      for the command asked; then it settles that request and touches no other. Otherwise nothing stays pending. */
  lemma AnswersItsOwn(d: Desk, id: nat, reply: Reply)
    requires Inv(d) && d.connected
    ensures var d' := Step(d, Response(id, reply));
      && (d'.connected <==> id in d.pending && (reply.Failed? || reply.kind == d.pending[id].kind))
      && (d'.connected ==>
            d'.pending == d.pending - {id} && |d'.settled| == |d.settled| + 1 && IsSettled(d'.settled, id))
      && (!d'.connected ==> d'.pending == map[] && forall k: nat :: 1 <= k <= d.sequence ==> IsSettled(d'.settled, k))
  {
    var d' := Step(d, Response(id, reply));
    StepKeeps(d, Response(id, reply));
    if d'.connected {
      assert d'.settled[|d.settled|].id == id;
    }
    hide SettledOnce, Rejections;
  }

  /** The request methods of `PiClient`. */
  class RequestDesk {
    var connected: bool
    var disposed: bool
    var sequence: nat
    var pending: map<nat, Command>
    var issued: seq<Command>
    var settled: seq<Settlement<Outcome>>

    function View(): Desk
      reads this
    {
      Desk(connected, disposed, sequence, pending, issued, settled)
    }

    ghost predicate Valid()
      reads this
    {
      Inv(View())
    }

    constructor ()
      ensures Valid() && View() == NEW
    {
      connected, disposed, sequence, pending, issued, settled := false, false, 0, map[], [], [];
      new;
      EveryRun([]);
    }

    /** Takes the request out, if it is there. */
    method TakePendingRequest(id: nat) returns (taken: Option<Command>)
      modifies this`pending
      ensures taken == if id in old(pending) then Some(old(pending)[id]) else None
      ensures pending == old(pending) - {id}
    {
      taken := None;
      if id in pending {
        taken := Some(pending[id]);
      }
      pending := pending - {id};
    }

    method SettleRequest(id: nat, outcome: Outcome)
      modifies this`settled
      ensures settled == old(settled) + [Settlement(id, outcome)]
    {
      settled := settled + [Settlement(id, outcome)];
    }

    /** Rejects everything pending, oldest first. */
    method RejectPendingRequests(outcome: Outcome)
      modifies this`pending, this`settled
      ensures View() == RejectAll(old(View()), outcome)
    {
      var requests := pending;
      pending := map[];
      var n := 0;
      assert settled + [] == settled;
      while n < sequence
        invariant 0 <= n <= sequence && pending == map[]
        invariant settled == old(settled) + Rejections(requests, n, outcome)
      {
        n := n + 1;
        if n in requests {
          Associative(old(settled), Rejections(requests, n - 1, outcome), [Settlement(n, outcome)]);
          SettleRequest(n, outcome);
        }
      }
    }

    method ConnectionDown()
      modifies this`connected, this`pending, this`settled
      ensures View() == GoDown(old(View()))
    {
      if connected {
        connected := false;
        RejectPendingRequests(Lost);
      }
    }

    /** Issues a request and returns its number, or refuses it while disposed or not connected. */
    method Ask(command: Command, sending: Sending) returns (id: Option<nat>)
      requires Valid()
      modifies this
      ensures Valid() && View() == Step(old(View()), Request(command, sending))
      ensures id == if old(disposed) || !old(connected) then None else Some(sequence)
    {
      StepKeeps(View(), Request(command, sending));
      hide Inv;
      if disposed || !connected {
        return None;
      }
      sequence := sequence + 1;
      id := Some(sequence);
      pending := pending[sequence := command];
      issued := issued + [command];
      if sending == NotEncodable {
        var taken := TakePendingRequest(sequence);
        if taken.Some? {
          SettleRequest(sequence, NotEncoded);
        }
      } else if sending == SendThrows {
        ConnectionDown();
      }
    }

    method HandleResponse(id: nat, reply: Reply)
      requires Valid() && connected
      modifies this
      ensures Valid() && View() == Step(old(View()), Response(id, reply))
    {
      StepKeeps(View(), Response(id, reply));
      hide Inv;
      var taken := TakePendingRequest(id);
      if taken == None {
        assert pending == old(pending);
        ConnectionDown();
      } else if reply.Failed? {
        SettleRequest(id, Refused(reply.error));
      } else if reply.kind != taken.value.kind {
        SettleRequest(id, Mismatched);
        ConnectionDown();
      } else {
        SettleRequest(id, Delivered(reply.kind, reply.body));
      }
    }

    method Connected()
      requires Valid() && !disposed
      modifies this`connected
      ensures Valid() && View() == Step(old(View()), Up)
    {
      StepKeeps(View(), Up);
      hide Inv;
      connected := true;
    }

    method Disconnected()
      requires Valid()
      modifies this
      ensures Valid() && View() == Step(old(View()), Down)
    {
      StepKeeps(View(), Down);
      hide Inv;
      ConnectionDown();
    }

    method DisposeClient()
      requires Valid()
      modifies this
      ensures Valid() && View() == Step(old(View()), Dispose)
    {
      StepKeeps(View(), Dispose);
      hide Inv;
      if disposed {
        return;
      }
      disposed := true;
      RejectPendingRequests(ClientDisposed);
      ConnectionDown();
    }
  }
}
