/** What a publication achieves: when it takes effect, and the only reasons why it may not. */
module PublicationEffects {
  import opened Publication
  import opened Seqs

  /** The refresh a publication belongs to is the provider's latest and was not aborted. */
  predicate Fresh(r: Registry, j: Job) {
    && Signal(j.provider, j.generation) !in r.aborted
    && j.provider in r.generations && r.generations[j.provider] == j.generation
  }

  /** Its turn has come: the publication it queued behind, if any, has finished. */
  predicate ItsTurn(r: Registry, j: nat)
    requires j < |r.jobs|
  {
    match r.jobs[j].previous
    case None => true
    case Some(i) => i < |r.jobs| && Finished(r.jobs[i].phase)
  }

  /** Only the phase of job j has changed. */
  predicate OnlyPhase(r: Registry, r': Registry, j: nat, p: Phase)
    requires j < |r.jobs|
  {
    r' == r.(jobs := r'.jobs) && r'.jobs == r.jobs[j := r.jobs[j].(phase := p)]
  }

  /** Job j has taken effect: it is published, with one more update, its own. */
  predicate TookEffect(r: Registry, r': Registry, j: nat)
    requires j < |r.jobs|
  {
    && r' == r.(jobs := r'.jobs, updates := r'.updates)
    && r'.jobs == r.jobs[j := r.jobs[j].(phase := Published)]
    && r'.updates == r.updates + [Update(j, r.jobs[j].provider, r.jobs[j].generation)]
  }

  /** A publication whose turn has come does not wait longer: it is skipped if its refresh is over, and otherwise goes
      to the store, or takes effect if there is nothing to store. */
  lemma Starts(r: Registry, j: nat)
    requires j < |r.jobs| && r.jobs[j].phase == Waiting && ItsTurn(r, j)
    ensures var r' := Step(r, EStart(j));
      if !Fresh(r, r.jobs[j]) then OnlyPhase(r, r', j, Skipped)
      else if r.jobs[j].persist then OnlyPhase(r, r', j, Persisting)
      else TookEffect(r, r', j)
  {
  }

  /** A publication whose store operation succeeded takes effect unless its refresh is over; one whose store operation
      failed does not. */
  lemma Settles(r: Registry, j: nat, ok: bool)
    requires j < |r.jobs| && r.jobs[j].phase == Persisting
    ensures var r' := Step(r, EStoreSettled(j, ok));
      if !ok then OnlyPhase(r, r', j, Failed)
      else if !Fresh(r, r.jobs[j]) then OnlyPhase(r, r', j, Skipped)
      else TookEffect(r, r', j)
  {
  }

  /** The first publication of a provider that has not finished is never held up. */
  lemma NextCanStart(r: Registry, j: nat)
    requires Inv(r) && j < |r.jobs| && r.jobs[j].phase == Waiting
    requires forall i: nat | Later(r.jobs, i, j) :: Finished(r.jobs[i].phase)
    ensures ItsTurn(r, j)
  {
    if r.jobs[j].previous.Some? {
      assert Later(r.jobs, r.jobs[j].previous.value, j);
    }
  }

  /** A new refresh has a new generation, the controller of which is not aborted; the one before is. */
  lemma Begins(r: Registry, p: ProviderId)
    ensures var r' := Step(r, EBegin(p));
      && Generation(r', p) == Generation(r, p) + 1
      && p in r'.controllers && r'.controllers[p] == Generation(r', p)
      && (p in r.controllers ==> Signal(p, r.controllers[p]) in r'.aborted)
      && r'.aborted <= r.aborted + (if p in r.controllers then {Signal(p, r.controllers[p])} else {})
      && r'.jobs == r.jobs && r'.chains == r.chains && r'.updates == r.updates
      && forall x: ProviderId :: x != p ==> Generation(r', x) == Generation(r, x)
  {
  }

  /** Superseding a provider's refreshes ends the one under way: its generation is past, and its controller is aborted
      and gone. */
  lemma Supersedes(r: Registry, p: ProviderId)
    ensures var r' := Step(r, ESupersede(p));
      && Generation(r', p) == Generation(r, p) + 1
      && r'.controllers.Keys == r.controllers.Keys - {p}
      && (forall x | x in r'.controllers :: r'.controllers[x] == r.controllers[x])
      && r'.aborted == r.aborted + (if p in r.controllers then {Signal(p, r.controllers[p])} else {})
      && r'.jobs == r.jobs && r'.chains == r.chains && r'.updates == r.updates
      && forall x: ProviderId :: x != p ==> Generation(r', x) == Generation(r, x)
  {
  }

  /** A refresh that ends takes away its own controller, and leaves that of a later one. */
  lemma EndsOwn(r: Registry, p: ProviderId, generation: nat)
    ensures var r' := Step(r, EEnd(p, generation));
      && r' == r.(controllers := r'.controllers)
      && r'.controllers.Keys == r.controllers.Keys
         - (if p in r.controllers && r.controllers[p] == generation then {p} else {})
      && forall x | x in r'.controllers :: r'.controllers[x] == r.controllers[x]
  {
  }

  /** A chain is forgotten once its last publication has finished, and not while another is queued behind. */
  lemma CleansUp(r: Registry, j: nat)
    requires j < |r.jobs| && Finished(r.jobs[j].phase)
    ensures var r', p := Step(r, ECleanUp(j)), r.jobs[j].provider;
      && r' == r.(chains := r'.chains)
      && r'.chains.Keys == r.chains.Keys - (if p in r.chains && r.chains[p] == j then {p} else {})
      && forall x | x in r'.chains :: r'.chains[x] == r.chains[x]
  {
  }

  /** A call to publish queues one publication, behind the provider's latest if its chain is not done. */
  lemma Queues(r: Registry, p: ProviderId, generation: nat, persist: bool)
    ensures var r' := Step(r, EPublish(p, generation, persist));
      && |r'.jobs| == |r.jobs| + 1 && r'.jobs[..|r.jobs|] == r.jobs
      && r'.jobs[|r.jobs|].provider == p && r'.jobs[|r.jobs|].generation == generation
      && r'.jobs[|r.jobs|].persist == persist && r'.jobs[|r.jobs|].phase == Waiting
      && (p in r.chains ==> r'.jobs[|r.jobs|].previous == Some(r.chains[p]))
      && (p !in r.chains ==> r'.jobs[|r.jobs|].previous == None)
      && p in r'.chains && r'.chains[p] == |r.jobs|
      && r'.generations == r.generations && r'.aborted == r.aborted && r'.updates == r.updates
  {
  }

  /** No generation of a provider's refreshes is used twice: what was aborted belongs to a past one or the present. */
  ghost predicate PastAborts(r: Registry) {
    && (forall p | p in r.controllers :: r.controllers[p] <= Generation(r, p))
    && (forall s | s in r.aborted :: s.generation <= Generation(r, s.provider))
  }

  /** An ordinary refresh: with no publication of the provider unfinished, it begins, publishes, and, if there is
      something to store and the store operation succeeds, its models are shown. */
  lemma RefreshIsShown(r: Registry, p: ProviderId, persist: bool)
    requires Inv(r) && PastAborts(r)
    requires forall i | 0 <= i < |r.jobs| && r.jobs[i].provider == p :: Finished(r.jobs[i].phase)
    ensures var g, j := Generation(r, p) + 1, |r.jobs|;
      var started := Step(Step(Step(r, EBegin(p)), EPublish(p, g, persist)), EStart(j));
      var shown := if persist then Step(started, EStoreSettled(j, true)) else started;
      && j < |shown.jobs| && shown.jobs[j].phase == Published
      && shown.updates == r.updates + [Update(j, p, g)]
  {
    var g, j := Generation(r, p) + 1, |r.jobs|;
    var begun := Step(r, EBegin(p));
    Begins(r, p);
    Queues(begun, p, g, persist);
    var queued := Step(begun, EPublish(p, g, persist));
    assert ItsTurn(queued, j) by {
      if p in r.chains {
        assert r.jobs[r.chains[p]].provider == p;
        assert queued.jobs[r.chains[p]] == r.jobs[r.chains[p]];
      }
    }
    assert p in begun.generations;
    assert Fresh(queued, queued.jobs[j]);
    hide Step, Inv;
    Starts(queued, j);
    if persist {
      Settles(Step(queued, EStart(j)), j, true);
    }
  }

  /** What one step does to a publication there is: it keeps what it is, and once finished it stays so. */
  ghost predicate Moves(r: Registry, e: Event, j: nat)
    requires j < |r.jobs|
  {
    var r' := Step(r, e);
    && j < |r'.jobs| && r'.jobs[j] == r.jobs[j].(phase := r'.jobs[j].phase)
    && (Finished(r.jobs[j].phase) ==> r'.jobs[j].phase == r.jobs[j].phase)
    && (!Finished(r.jobs[j].phase) && r'.jobs[j].phase != r.jobs[j].phase ==> Reason(r, e, j, r'.jobs[j].phase))
  }

  /** Why a publication moves on to this phase. */
  predicate Reason(r: Registry, e: Event, j: nat, p: Phase)
    requires j < |r.jobs|
  {
    var job := r.jobs[j];
    match p
    case Waiting => false
    case Persisting => e == EStart(j) && job.phase == Waiting && job.persist && Fresh(r, job)
    case Published =>
      && Fresh(r, job)
      && ((e == EStart(j) && job.phase == Waiting && !job.persist)
          || (e == EStoreSettled(j, true) && job.phase == Persisting))
    case Skipped =>
      && !Fresh(r, job)
      && ((e == EStart(j) && job.phase == Waiting) || (e == EStoreSettled(j, true) && job.phase == Persisting))
    case Failed => e == EStoreSettled(j, false) && job.phase == Persisting
  }

  lemma StepMoves(r: Registry, e: Event, j: nat)
    requires j < |r.jobs|
    ensures Moves(r, e, j)
  {
    match e
    case EStart(k) => JobMoves(r, e, k, j);
    case EStoreSettled(k, _) => JobMoves(r, e, k, j);
    case _ => hide Reason;
  }

  lemma JobMoves(r: Registry, e: Event, k: nat, j: nat)
    requires j < |r.jobs| && (e == EStart(k) || e == EStoreSettled(k, true) || e == EStoreSettled(k, false))
    ensures Moves(r, e, j)
  {
    if k != j {
      hide Reason, Current;
    }
  }

  /** Why a publication finished: at some moment of the run it was skipped because its refresh was over, or it failed
      because its store operation did, or it took effect, being fresh then, with its store operation successful if it
      had one. */
  lemma {:induction false} WhyFinished(events: seq<Event>, j: nat) returns (n: nat)
    requires j < |Run(NEW, events).jobs| && Finished(Run(NEW, events).jobs[j].phase)
    ensures n < |events|
    ensures var r := Run(NEW, events[..n]);
      && j < |r.jobs| && !Finished(r.jobs[j].phase)
      && r.jobs[j] == Run(NEW, events).jobs[j].(phase := r.jobs[j].phase)
      && Reason(r, events[n], j, Run(NEW, events).jobs[j].phase)
  {
    var k := |events| - 1;
    var r := Run(NEW, events[..k]);
    if j < |r.jobs| {
      StepMoves(r, events[k], j);
      if Finished(r.jobs[j].phase) {
        n := WhyFinished(events[..k], j);
        assert events[..k][..n] == events[..n];
      } else {
        n := k;
      }
    } else {
      NewIsWaiting(r, events[k], j);
    }
    hide Step, Reason;
  }

  lemma NewIsWaiting(r: Registry, e: Event, j: nat)
    requires |r.jobs| <= j < |Step(r, e).jobs|
    ensures Step(r, e).jobs[j].phase == Waiting
  {
    hide Current, CanStart, Generation;
  }

  /** A publication at the store has something to store. */
  lemma {:induction false} PersistingPersists(events: seq<Event>, j: nat)
    requires j < |Run(NEW, events).jobs| && Run(NEW, events).jobs[j].phase == Persisting
    ensures Run(NEW, events).jobs[j].persist
  {
    var k := |events| - 1;
    var r := Run(NEW, events[..k]);
    if j < |r.jobs| {
      StepMoves(r, events[k], j);
      if r.jobs[j].phase == Persisting {
        PersistingPersists(events[..k], j);
      }
    } else {
      NewIsWaiting(r, events[k], j);
    }
    hide Step;
  }

  /** Updates are added by publications that take effect, and never taken away. */
  lemma StepUpdates(r: Registry, e: Event, j: nat)
    requires j < |Step(r, e).jobs|
    ensures r.updates <= Step(r, e).updates
    ensures Step(r, e).jobs[j].phase == Published && !(j < |r.jobs| && r.jobs[j].phase == Published) ==>
      |Step(r, e).updates| == |r.updates| + 1 && Step(r, e).updates[|r.updates|].job == j
  {
    hide Current, CanStart, Generation;
  }

  lemma {:induction false} PublishedShows(events: seq<Event>, j: nat) returns (k: nat)
    requires j < |Run(NEW, events).jobs| && Run(NEW, events).jobs[j].phase == Published
    ensures k < |Run(NEW, events).updates| && Run(NEW, events).updates[k].job == j
  {
    var n := |events| - 1;
    var r := Run(NEW, events[..n]);
    StepUpdates(r, events[n], j);
    if j < |r.jobs| && r.jobs[j].phase == Published {
      k := PublishedShows(events[..n], j);
    } else {
      k := |r.updates|;
    }
    hide Step;
  }

  /** Over any run a publication has one update if it is published, and none otherwise. */
  lemma PublishedOnce(events: seq<Event>, j: nat)
    requires j < |Run(NEW, events).jobs|
    ensures var r := Run(NEW, events);
      && (r.jobs[j].phase == Published <==> exists k :: 0 <= k < |r.updates| && r.updates[k].job == j)
      && (forall k, l | 0 <= k < |r.updates| && 0 <= l < |r.updates| && r.updates[k].job == r.updates[l].job :: k == l)
  {
    var r := Run(NEW, events);
    EveryRun(events);
    if r.jobs[j].phase == Published {
      var k := PublishedShows(events, j);
    }
    hide Run, ChainsOk, QueuesOk, InOrder;
    assert forall k | 0 <= k < |r.updates| :: UpdateOk(r, r.updates[k]);
  }

  /** Only signals of refreshes there have been are aborted. */
  predicate AbortsKnown(r: Registry, e: Event) {
    e.EAbort? ==> e.generation <= Generation(r, e.p)
  }

  lemma {:induction false} AbortsArePast(events: seq<Event>)
    requires forall k | 0 <= k < |events| :: AbortsKnown(Run(NEW, events[..k]), events[k])
    ensures PastAborts(Run(NEW, events))
  {
    if events != [] {
      var n := |events| - 1;
      forall k | 0 <= k < n
        ensures AbortsKnown(Run(NEW, events[..n][..k]), events[..n][k])
      {
        assert events[..n][..k] == events[..k];
      }
      AbortsArePast(events[..n]);
      StepPastAborts(Run(NEW, events[..n]), events[n]);
      hide Step, PastAborts;
    }
  }

  lemma StepPastAborts(r: Registry, e: Event)
    requires PastAborts(r) && AbortsKnown(r, e)
    ensures PastAborts(Step(r, e))
  {
    match e
    case ESupersede(_) =>
    case EBegin(_) =>
    case EAbort(_, _) =>
    case _ => hide Current, CanStart;
  }
}
