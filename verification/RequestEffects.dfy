/** What becomes of each request, told one request at a time: which event of a run gives it which outcome. */
module RequestEffects {
  import opened Promises
  import opened Requests
  import opened Seqs

  /** The client takes the command and gives it a number. */
  predicate Takes(d: Desk, e: Event) {
    e.Request? && d.connected && !d.disposed
  }

  /** A request without an outcome, counting the one this event issues. */
  predicate IsOpen(d: Desk, e: Event, id: nat) {
    id in d.pending || (Takes(d, e) && id == d.sequence + 1)
  }

  /** A response that no pending request can have. */
  predicate Misplaced(d: Desk, e: Event) {
    e.Response? && (e.id in d.pending ==> e.reply.Succeeded? && e.reply.kind != d.pending[e.id].kind)
  }

  predicate BreaksConnection(d: Desk, e: Event) {
    e.Down? || e.Dispose? || Misplaced(d, e) || (Takes(d, e) && e.sending.SendThrows?)
  }

  /** When an open request gets this outcome: a result or an error only from the response with its own number, a result
      only for the command it asked, and anything else only for the reason the outcome names. */
  predicate Gets(d: Desk, e: Event, id: nat, outcome: Outcome) {
    match outcome
    case Delivered(kind, body) =>
      e == Response(id, Succeeded(kind, body)) && id in d.pending && d.pending[id].kind == kind
    case Refused(error) => e == Response(id, Reply.Failed(error))
    case Mismatched => e.Response? && e.id == id && Misplaced(d, e)
    case NotEncoded => Takes(d, e) && e.sending.NotEncodable? && id == d.sequence + 1
    case Lost => e.Down? || (Misplaced(d, e) && e.id != id) || (Takes(d, e) && e.sending.SendThrows?)
    case ClientDisposed => e.Dispose?
  }

  /** The settlements a step adds. */
  function News(d: Desk, e: Event): seq<Settlement<Outcome>> {
    if |d.settled| <= |Step(d, e).settled| then Step(d, e).settled[|d.settled|..] else []
  }

  /** Oldest request first, among those with one outcome. */
  predicate OldestFirst(news: seq<Settlement<Outcome>>) {
    forall i, j | 0 <= i < j < |news| && news[i].outcome == news[j].outcome :: news[i].id < news[j].id
  }

  lemma {:induction false} RejectionsAre(pending: map<nat, Command>, n: nat, outcome: Outcome)
    ensures var r := Rejections(pending, n, outcome);
      && (forall id: nat, o: Outcome :: Settlement(id, o) in r <==> 1 <= id <= n && id in pending && o == outcome)
      && OldestFirst(r)
  {
    if n > 0 {
      RejectionsAre(pending, n - 1, outcome);
      var less := Rejections(pending, n - 1, outcome);
      forall i | 0 <= i < |less|
        ensures less[i].id < n
      {
        assert Settlement(less[i].id, less[i].outcome) in less;
      }
    }
  }

  /** The step settles these requests and no other, and what was open stays open otherwise. */
  ghost predicate Gives(d: Desk, e: Event) {
    var d' := Step(d, e);
    && d'.settled == d.settled + News(d, e) && OldestFirst(News(d, e))
    && (forall id: nat, o: Outcome :: Settlement(id, o) in News(d, e) <==> IsOpen(d, e, id) && Gets(d, e, id, o))
    && (forall id: nat :: id in d'.pending <==>
          IsOpen(d, e, id) && forall o: Outcome :: Settlement(id, o) !in News(d, e))
  }

  lemma NewsAre(d: Desk, e: Event, news: seq<Settlement<Outcome>>)
    requires Step(d, e).settled == d.settled + news
    ensures News(d, e) == news
  {
  }

  lemma QuietGives(d: Desk, e: Event)
    requires Inv(d) && d.connected && !d.disposed && (e.Up? || (e.Request? && e.sending.Sent?))
    ensures Gives(d, e)
  {
    assert d.settled == d.settled + [];
    NewsAre(d, e, []);
    hide Inv, News;
  }

  lemma OwnGives(d: Desk, e: Event)
    requires Inv(d) && d.connected && !d.disposed
    requires (e.Request? && e.sending.NotEncodable?) || (e.Response? && !Misplaced(d, e))
    ensures Gives(d, e)
  {
    var own := if e.Request? then d.sequence + 1 else e.id;
    var outcome := if e.Request? then NotEncoded
                   else if e.reply.Failed? then Refused(e.reply.error) else Delivered(e.reply.kind, e.reply.body);
    OwnSettles(d, e, own, outcome);
    NewsAre(d, e, [Settlement(own, outcome)]);
    hide Inv, News, Step;
    assert forall id: nat, o: Outcome | IsOpen(d, e, id) :: Gets(d, e, id, o) <==> id == own && o == outcome;
    hide Gets, Misplaced;
  }

  lemma OwnSettles(d: Desk, e: Event, own: nat, outcome: Outcome)
    requires Inv(d) && d.connected && !d.disposed
    requires (e.Request? && e.sending.NotEncodable?) || (e.Response? && !Misplaced(d, e))
    requires e.Request? ==> own == d.sequence + 1 && outcome == NotEncoded
    requires e.Response? ==>
      && own == e.id
      && outcome == if e.reply.Failed? then Refused(e.reply.error) else Delivered(e.reply.kind, e.reply.body)
    ensures Step(d, e).settled == d.settled + [Settlement(own, outcome)]
    ensures IsOpen(d, e, own) && forall id: nat :: id in Step(d, e).pending <==> IsOpen(d, e, id) && id != own
  {
    hide SettledOnce, IsSettled;
  }

  /** The requests open before an event, by number, with their commands. */
  function Open(d: Desk, e: Event): map<nat, Command> {
    if Takes(d, e) then d.pending[d.sequence + 1 := e.command] else d.pending
  }

  lemma AllSettle(d: Desk, e: Event, n: nat, outcome: Outcome)
    requires d.connected && !d.disposed
    requires e.Down? || e.Dispose? || (e.Request? && e.sending.SendThrows?)
    requires n == (if e.Request? then d.sequence + 1 else d.sequence)
        && outcome == (if e.Dispose? then ClientDisposed else Lost)
    ensures Step(d, e).pending == map[] && Step(d, e).settled == d.settled + Rejections(Open(d, e), n, outcome)
  {
    NothingRejected(d.sequence, Lost);
    assert d.settled + Rejections(Open(d, e), n, outcome) + [] == d.settled + Rejections(Open(d, e), n, outcome);
    hide Rejections;
  }

  /** All requests open get one outcome. */
  lemma AllGive(d: Desk, e: Event)
    requires Inv(d) && d.connected && !d.disposed
    requires e.Down? || e.Dispose? || (e.Request? && e.sending.SendThrows?)
    ensures Gives(d, e)
  {
    var n := if e.Request? then d.sequence + 1 else d.sequence;
    var outcome := if e.Dispose? then ClientDisposed else Lost;
    RejectionsAre(Open(d, e), n, outcome);
    AllSettle(d, e, n, outcome);
    InRange(d, e);
    hide Step, Rejections, OldestFirst, Inv;
    EachGets(d, e, Rejections(Open(d, e), n, outcome), _ => outcome);
  }

  lemma {:induction false} NothingRejected(n: nat, outcome: Outcome)
    ensures Rejections(map[], n, outcome) == []
  {
    if n > 0 {
      NothingRejected(n - 1, outcome);
    }
  }

  /** The request with the number of a misplaced response, if there is one, and the settlement it gets. */
  function Own(d: Desk, id: nat): (own: seq<Settlement<Outcome>>)
    ensures forall k: nat, o: Outcome :: Settlement(k, o) in own <==> k == id && id in d.pending && o == Mismatched
  {
    if id in d.pending then [Settlement(id, Mismatched)] else []
  }

  lemma MisplacedSettles(d: Desk, e: Event)
    requires d.connected && Misplaced(d, e)
    ensures Step(d, e).settled == d.settled + (Own(d, e.id) + Rejections(d.pending - {e.id}, d.sequence, Lost))
    ensures Step(d, e).pending == map[]
  {
    var lost := Rejections(d.pending - {e.id}, d.sequence, Lost);
    if e.id in d.pending {
      Associative(d.settled, Own(d, e.id), lost);
    } else {
      assert d.pending - {e.id} == d.pending && [] + lost == lost;
    }
    hide Rejections;
  }

  lemma MisplacedGives(d: Desk, e: Event)
    requires Inv(d) && d.connected && !d.disposed && Misplaced(d, e)
    ensures Gives(d, e)
  {
    var lost := Rejections(d.pending - {e.id}, d.sequence, Lost);
    RejectionsAre(d.pending - {e.id}, d.sequence, Lost);
    MisplacedSettles(d, e);
    OwnThenLost(Own(d, e.id), lost);
    hide Step, Rejections, OldestFirst;
    InRange(d, e);
    hide Inv;
    forall id: nat, o: Outcome
      ensures Settlement(id, o) in Own(d, e.id) + lost
        <==> IsOpen(d, e, id) && o == if id == e.id then Mismatched else Lost
    {
      hide Own, Misplaced;
    }
    EachGets(d, e, Own(d, e.id) + lost, id => if id == e.id then Mismatched else Lost);
  }

  lemma InRange(d: Desk, e: Event)
    requires Inv(d)
    ensures forall id: nat | IsOpen(d, e, id) :: 1 <= id <= if Takes(d, e) then d.sequence + 1 else d.sequence
  {
    hide SettledOnce, IsSettled;
  }

  /** Every open request gets an outcome. */
  lemma EachGets(d: Desk, e: Event, news: seq<Settlement<Outcome>>, outcome: nat -> Outcome)
    requires Step(d, e).settled == d.settled + news && Step(d, e).pending == map[] && OldestFirst(news)
    requires forall id: nat, o: Outcome :: Settlement(id, o) in news <==> IsOpen(d, e, id) && o == outcome(id)
    requires forall id: nat, o: Outcome | IsOpen(d, e, id) :: Gets(d, e, id, o) <==> o == outcome(id)
    ensures Gives(d, e)
  {
    NewsAre(d, e, news);
    hide Step, Gets, IsOpen, News, OldestFirst;
    assert forall id: nat | IsOpen(d, e, id) :: Settlement(id, outcome(id)) in news;
  }

  lemma OwnThenLost(own: seq<Settlement<Outcome>>, lost: seq<Settlement<Outcome>>)
    requires |own| <= 1 && OldestFirst(lost)
    requires forall id: nat, o: Outcome :: Settlement(id, o) in own ==> o == Mismatched
    requires forall id: nat, o: Outcome :: Settlement(id, o) in lost ==> o == Lost
    ensures OldestFirst(own + lost)
  {
    assert forall i | 0 <= i < |own| :: own[i].outcome == Mismatched by {
      assert forall i | 0 <= i < |own| :: own[i] == Settlement(own[i].id, own[i].outcome) && own[i] in own;
    }
    assert forall i | 0 <= i < |lost| :: lost[i].outcome == Lost by {
      assert forall i | 0 <= i < |lost| :: lost[i] == Settlement(lost[i].id, lost[i].outcome) && lost[i] in lost;
    }
  }

  /** What one event does: the requests that get an outcome by it are settled with it, all others stay open, and the
      connection stays up unless the event breaks it. */
  lemma StepGives(d: Desk, e: Event)
    requires Inv(d) && d.connected && !d.disposed
    ensures Gives(d, e)
    ensures Step(d, e).connected <==> !BreaksConnection(d, e)
  {
    match e
    case Up => QuietGives(d, e);
    case Request(_, Sent) => QuietGives(d, e);
    case Request(_, NotEncodable) => OwnGives(d, e);
    case Response(_, _) =>
      if Misplaced(d, e) {
        MisplacedGives(d, e);
      } else {
        OwnGives(d, e);
      }
    case _ => AllGive(d, e);
    hide Inv, Gives, Rejections;
  }

  /** A command taken is recorded under the next number, only a dispose disposes, and a client that is not connected
      comes up exactly by a connection, unless it is disposed. */
  lemma StepKeepsRecord(d: Desk, e: Event)
    ensures var d' := Step(d, e);
      && d'.issued == d.issued + (if Takes(d, e) then [e.command] else [])
      && d'.sequence == d.sequence + (if Takes(d, e) then 1 else 0)
      && (d'.disposed <==> d.disposed || e.Dispose?)
      && (!d.connected ==> (d'.connected <==> e.Up? && !d.disposed))
  {
  }

  lemma DisposedIsDown(events: seq<Event>)
    ensures Run(NEW, events).disposed ==> !Run(NEW, events).connected
  {
  }

  lemma DownGivesNothing(d: Desk, e: Event)
    requires Inv(d) && !d.connected
    ensures Step(d, e).settled == d.settled
  {
    NothingRejected(d.sequence, ClientDisposed);
    assert d.settled + [] == d.settled;
  }

  lemma StepSettles(d: Desk, e: Event, id: nat, outcome: Outcome)
    requires Inv(d) && (d.disposed ==> !d.connected)
    ensures Settlement(id, outcome) in Step(d, e).settled <==>
      Settlement(id, outcome) in d.settled || (d.connected && IsOpen(d, e, id) && Gets(d, e, id, outcome))
  {
    if d.connected {
      StepGives(d, e);
    } else {
      DownGivesNothing(d, e);
    }
    hide Inv, Step, News, Gets, IsOpen;
  }

  /** Event k of a run, coming while the client is connected, gives request id this outcome. */
  predicate GivenAt(events: seq<Event>, k: nat, id: nat, outcome: Outcome)
    requires k < |events|
  {
    var d := Run(NEW, events[..k]);
    d.connected && IsOpen(d, events[k], id) && Gets(d, events[k], id, outcome)
  }

  lemma GivenBefore(events: seq<Event>, n: nat, id: nat, outcome: Outcome)
    requires n <= |events|
    ensures forall k | 0 <= k < n :: GivenAt(events[..n], k, id, outcome) == GivenAt(events, k, id, outcome)
  {
    hide Gets, IsOpen;
    forall k | 0 <= k < n
      ensures GivenAt(events[..n], k, id, outcome) == GivenAt(events, k, id, outcome)
    {
      assert events[..n][..k] == events[..k];
    }
  }

  /** Over every run a request has an outcome exactly when one of its events gave it. */
  lemma {:induction false} EverySettlement(events: seq<Event>, id: nat, outcome: Outcome)
    ensures Settlement(id, outcome) in Run(NEW, events).settled
      <==> exists k :: 0 <= k < |events| && GivenAt(events, k, id, outcome)
  {
    hide Inv, DeliveredRightly, Step, Gets, IsOpen;
    if events != [] {
      var n := |events| - 1;
      EverySettlement(events[..n], id, outcome);
      LastSettles(events, id, outcome);
      GivenBefore(events, n, id, outcome);
      hide Run, GivenAt;
    }
  }

  lemma LastSettles(events: seq<Event>, id: nat, outcome: Outcome)
    requires events != []
    ensures var n := |events| - 1;
      Settlement(id, outcome) in Run(NEW, events).settled <==>
        Settlement(id, outcome) in Run(NEW, events[..n]).settled || GivenAt(events, n, id, outcome)
  {
    hide Inv, DeliveredRightly, Step, Gets, IsOpen;
    var n := |events| - 1;
    EveryRun(events[..n]);
    DisposedIsDown(events[..n]);
    StepSettles(Run(NEW, events[..n]), events[n], id, outcome);
  }
}
