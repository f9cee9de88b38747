/** Generation-checked publication of packages/ai/src/models.ts: per provider, publications queue up behind each
    other, persist, and then update, with a check of the refresh's generation and signal before and after the store
    operation. One step per call, per start of a queued publication, per settlement of a store operation, and per
    clean-up of a chain; they interleave freely. */
module Publication {
  import opened Seqs

  type ProviderId = string

  /** The signal of the controller made for one refresh of a provider. */
  datatype Signal = Signal(provider: ProviderId, generation: nat)

  datatype Phase = Waiting | Persisting | Published | Skipped | Failed

  /** A publication: the refresh it belongs to, the publication it queued behind, and whether it has something to
      write or delete in the store. */
  datatype Job = Job(provider: ProviderId, generation: nat, previous: Option<nat>, persist: bool, phase: Phase)

  predicate Finished(p: Phase) {
    p.Published? || p.Skipped? || p.Failed?
  }

  /** An `update` that ran. */
  datatype Update = Update(job: nat, provider: ProviderId, generation: nat)

  /** `refreshGenerations`, `refreshControllers` (by the generation they were made for), the signals aborted so far,
      `publicationChains` (by the last job of the chain), every publication so far and every update that ran. */
  datatype Registry = Registry(
    generations: map<ProviderId, nat>,
    controllers: map<ProviderId, nat>,
    aborted: set<Signal>,
    chains: map<ProviderId, nat>,
    jobs: seq<Job>,
    updates: seq<Update>)

  const NEW: Registry := Registry(map[], map[], {}, map[], [], [])

  function Generation(r: Registry, p: ProviderId): nat {
    if p in r.generations then r.generations[p] else 0
  }

  /** `supersedeProviderRefresh`. */
  function Supersede(r: Registry, p: ProviderId): Registry {
    r.(generations := r.generations[p := Generation(r, p) + 1],
       controllers := r.controllers - {p},
       aborted := if p in r.controllers then r.aborted + {Signal(p, r.controllers[p])} else r.aborted)
  }

  /** `beginProviderRefresh`. */
  function Begin(r: Registry, p: ProviderId): Registry {
    var next := Supersede(r, p);
    next.(controllers := next.controllers[p := Generation(next, p)])
  }

  /** The check before and after the store operation. */
  predicate Current(r: Registry, j: Job) {
    && Signal(j.provider, j.generation) !in r.aborted
    && j.provider in r.generations && r.generations[j.provider] == j.generation
  }

  function Publish(r: Registry, p: ProviderId, generation: nat, persist: bool): Registry {
    var job := Job(p, generation, if p in r.chains then Some(r.chains[p]) else None, persist, Waiting);
    r.(jobs := r.jobs + [job], chains := r.chains[p := |r.jobs|])
  }

  function SetPhase(r: Registry, j: nat, p: Phase): Registry
    requires j < |r.jobs|
  {
    r.(jobs := r.jobs[j := r.jobs[j].(phase := p)])
  }

  function Apply(r: Registry, j: nat): Registry
    requires j < |r.jobs|
  {
    SetPhase(r, j, Published).(updates := r.updates + [Update(j, r.jobs[j].provider, r.jobs[j].generation)])
  }

  /** The previous publication of the chain has settled. */
  predicate CanStart(r: Registry, j: nat)
    requires j < |r.jobs|
  {
    var previous := r.jobs[j].previous;
    r.jobs[j].phase.Waiting? && (previous.Some? ==> previous.value < |r.jobs| && Finished(r.jobs[previous.value].phase))
  }

  function Start(r: Registry, j: nat): Registry
    requires j < |r.jobs|
  {
    if !Current(r, r.jobs[j]) then SetPhase(r, j, Skipped)
    else if r.jobs[j].persist then SetPhase(r, j, Persisting)
    else Apply(r, j)
  }

  function StoreSettled(r: Registry, j: nat, ok: bool): Registry
    requires j < |r.jobs|
  {
    if !ok then SetPhase(r, j, Failed)
    else if !Current(r, r.jobs[j]) then SetPhase(r, j, Skipped)
    else Apply(r, j)
  }

  datatype Event =
    | ESupersede(p: ProviderId)
    | EBegin(p: ProviderId)
    | EEnd(p: ProviderId, generation: nat)
    | EAbort(p: ProviderId, generation: nat)
    | EPublish(p: ProviderId, generation: nat, persist: bool)
    | EStart(j: nat)
    | EStoreSettled(j: nat, ok: bool)
    | ECleanUp(j: nat)

  function Step(r: Registry, e: Event): Registry {
    match e
    case ESupersede(p) => Supersede(r, p)
    case EBegin(p) => Begin(r, p)
    case EEnd(p, g) => if p in r.controllers && r.controllers[p] == g then r.(controllers := r.controllers - {p}) else r
    case EAbort(p, g) => r.(aborted := r.aborted + {Signal(p, g)})
    case EPublish(p, g, persist) => Publish(r, p, g, persist)
    case EStart(j) => if j < |r.jobs| && CanStart(r, j) then Start(r, j) else r
    case EStoreSettled(j, ok) => if j < |r.jobs| && r.jobs[j].phase.Persisting? then StoreSettled(r, j, ok) else r
    case ECleanUp(j) =>
      if j < |r.jobs| && Finished(r.jobs[j].phase) && r.jobs[j].provider in r.chains
          && r.chains[r.jobs[j].provider] == j
      then r.(chains := r.chains - {r.jobs[j].provider}) else r
  }

  function Run(r: Registry, events: seq<Event>): Registry {
    if events == [] then r else Step(Run(r, events[..|events| - 1]), events[|events| - 1])
  }

  /** Job j comes after job i in the same provider's order of calls. */
  predicate Later(jobs: seq<Job>, i: nat, j: nat) {
    i < j < |jobs| && jobs[i].provider == jobs[j].provider
  }

  /** A chain entry is the provider's last publication; without one, none is unfinished. */
  ghost predicate ChainsOk(r: Registry) {
    && (forall p | p in r.chains :: r.chains[p] < |r.jobs| && r.jobs[r.chains[p]].provider == p)
    && (forall p, i | p in r.chains && r.chains[p] < i < |r.jobs| :: r.jobs[i].provider != p)
    && (forall i | 0 <= i < |r.jobs| && r.jobs[i].provider !in r.chains :: Finished(r.jobs[i].phase))
  }

  /** Job j, called later than job i, waits for job i or for one called after it, or found job i finished. */
  predicate Behind(jobs: seq<Job>, i: nat, j: nat)
    requires i < |jobs| && j < |jobs|
  {
    match jobs[j].previous
    case Some(last) => i <= last
    case None => Finished(jobs[i].phase)
  }

  /** A publication queued behind the one called just before it, or behind nothing if all before had finished. */
  ghost predicate QueuesOk(r: Registry) {
    && (forall j | 0 <= j < |r.jobs| && r.jobs[j].previous.Some? :: Later(r.jobs, r.jobs[j].previous.value, j))
    && (forall i: nat, j: nat | Later(r.jobs, i, j) :: Behind(r.jobs, i, j))
  }

  /** A publication has only started once all those called before it have finished. */
  ghost predicate InOrder(r: Registry) {
    forall i: nat, j: nat | Later(r.jobs, i, j) && !r.jobs[j].phase.Waiting? :: Finished(r.jobs[i].phase)
  }

  /** Updates belong to published jobs, never run ahead of the generation, and per provider go up in call order
      and in generation. */
  ghost predicate UpdatesOk(r: Registry) {
    && (forall k | 0 <= k < |r.updates| :: UpdateOk(r, r.updates[k]))
    && (forall k, l | 0 <= k < l < |r.updates| && r.updates[k].provider == r.updates[l].provider ::
          r.updates[k].job < r.updates[l].job && r.updates[k].generation <= r.updates[l].generation)
  }

  predicate UpdateOk(r: Registry, u: Update) {
    && u.job < |r.jobs| && r.jobs[u.job].phase.Published?
    && r.jobs[u.job].provider == u.provider && r.jobs[u.job].generation == u.generation
    && u.generation <= Generation(r, u.provider)
  }

  ghost predicate Inv(r: Registry) {
    ChainsOk(r) && QueuesOk(r) && InOrder(r) && UpdatesOk(r)
  }

  lemma PublishChains(r: Registry, p: ProviderId, generation: nat, persist: bool)
    requires Inv(r)
    ensures ChainsOk(Publish(r, p, generation, persist)) && UpdatesOk(Publish(r, p, generation, persist))
  {
    hide QueuesOk, InOrder;
  }

  lemma PublishQueues(r: Registry, p: ProviderId, generation: nat, persist: bool)
    requires Inv(r)
    ensures QueuesOk(Publish(r, p, generation, persist)) && InOrder(Publish(r, p, generation, persist))
  {
    var r' := Publish(r, p, generation, persist);
    forall i: nat, j: nat | Later(r'.jobs, i, j)
      ensures Behind(r'.jobs, i, j)
      ensures r'.jobs[j].phase.Waiting? || Finished(r'.jobs[i].phase)
    {
      assert r'.jobs[i] == r.jobs[i];
      if j < |r.jobs| {
        assert Later(r.jobs, i, j);
      }
      hide UpdatesOk;
    }
    hide UpdatesOk;
  }

  lemma PublishKeeps(r: Registry, p: ProviderId, generation: nat, persist: bool)
    requires Inv(r)
    ensures Inv(Publish(r, p, generation, persist))
  {
    PublishChains(r, p, generation, persist);
    PublishQueues(r, p, generation, persist);
  }

  /** All publications called before one whose predecessor is done are done. */
  lemma StartersAreNext(r: Registry, j: nat, i: nat)
    requires Inv(r) && j < |r.jobs| && CanStart(r, j) && Later(r.jobs, i, j)
    ensures Finished(r.jobs[i].phase)
  {
    var previous := r.jobs[j].previous;
    if previous.Some? && i != previous.value {
      assert Later(r.jobs, i, previous.value);
    }
  }

  lemma MoveOrder(r: Registry, j: nat, p: Phase)
    requires Inv(r) && j < |r.jobs| && !Finished(r.jobs[j].phase) && !p.Waiting?
    requires forall i: nat | Later(r.jobs, i, j) :: Finished(r.jobs[i].phase)
    ensures QueuesOk(SetPhase(r, j, p)) && InOrder(SetPhase(r, j, p))
  {
    var r' := SetPhase(r, j, p);
    forall i: nat, k: nat | Later(r'.jobs, i, k)
      ensures Behind(r'.jobs, i, k)
      ensures r'.jobs[k].phase.Waiting? || Finished(r'.jobs[i].phase)
    {
      assert Later(r.jobs, i, k);
      hide UpdatesOk, ChainsOk;
    }
    hide UpdatesOk, ChainsOk;
  }

  /** A phase moves on, to one that is not waiting. */
  lemma MoveKeeps(r: Registry, j: nat, p: Phase)
    requires Inv(r) && j < |r.jobs| && !Finished(r.jobs[j].phase) && !p.Waiting?
    requires forall i: nat | Later(r.jobs, i, j) :: Finished(r.jobs[i].phase)
    ensures Inv(SetPhase(r, j, p))
  {
    MoveOrder(r, j, p);
    hide QueuesOk, InOrder;
  }

  /** Nothing called after an unfinished publication has started. */
  lemma LaterNotDone(r: Registry, i: nat, j: nat)
    requires InOrder(r) && i < |r.jobs| && !Finished(r.jobs[i].phase)
    requires j < |r.jobs| && r.jobs[i].provider == r.jobs[j].provider
    requires Finished(r.jobs[j].phase)
    ensures j < i
  {
    if i < j {
      assert Later(r.jobs, i, j);
    }
  }

  lemma ApplyKeeps(r: Registry, j: nat)
    requires Inv(r) && j < |r.jobs| && !Finished(r.jobs[j].phase) && Current(r, r.jobs[j])
    requires forall i: nat | Later(r.jobs, i, j) :: Finished(r.jobs[i].phase)
    ensures Inv(Apply(r, j))
  {
    MoveKeeps(r, j, Published);
    forall k | 0 <= k < |r.updates| && r.updates[k].provider == r.jobs[j].provider
      ensures r.updates[k].job < j
    {
      assert UpdateOk(r, r.updates[k]);
      LaterNotDone(r, j, r.updates[k].job);
    }
    assert UpdatesOk(Apply(r, j)) by {
      hide QueuesOk, InOrder, ChainsOk;
    }
    hide UpdatesOk;
  }

  lemma SupersedeKeeps(r: Registry, p: ProviderId)
    requires Inv(r)
    ensures Inv(Supersede(r, p)) && Inv(Begin(r, p))
  {
    var a, b := Supersede(r, p), Begin(r, p);
    assert forall k | 0 <= k < |r.updates| :: UpdateOk(r, r.updates[k]);
    assert ChainsOk(a) && QueuesOk(a) && InOrder(a) && UpdatesOk(a);
    assert ChainsOk(b) && QueuesOk(b) && InOrder(b) && UpdatesOk(b);
  }

  lemma CleanUpKeeps(r: Registry, j: nat)
    requires Inv(r)
    ensures Inv(Step(r, ECleanUp(j)))
  {
    var r' := Step(r, ECleanUp(j));
    if r' != r {
      var p := r.jobs[j].provider;
      forall i | 0 <= i < |r.jobs| && r.jobs[i].provider == p
        ensures Finished(r.jobs[i].phase)
      {
        assert !Later(r.jobs, j, i);
        if i < j {
          assert Later(r.jobs, i, j);
        }
      }
      assert ChainsOk(r') && QueuesOk(r') && InOrder(r') && UpdatesOk(r');
    }
  }

  lemma StepKeeps(r: Registry, e: Event)
    requires Inv(r)
    ensures Inv(Step(r, e))
  {
    match e
    case ESupersede(p) => SupersedeKeeps(r, p);
    case EBegin(p) => SupersedeKeeps(r, p);
    case EEnd(p, g) => AsideKeeps(r, Step(r, e));
    case EAbort(p, g) => AsideKeeps(r, Step(r, e));
    case EPublish(p, g, persist) => PublishKeeps(r, p, g, persist);
    case EStart(j) =>
      if j < |r.jobs| && CanStart(r, j) {
        forall i: nat | Later(r.jobs, i, j)
          ensures Finished(r.jobs[i].phase)
        {
          StartersAreNext(r, j, i);
        }
        MoveKeeps(r, j, if Current(r, r.jobs[j]) then Persisting else Skipped);
        if Current(r, r.jobs[j]) { ApplyKeeps(r, j); }
        hide Inv;
      }
    case EStoreSettled(j, ok) =>
      if j < |r.jobs| && r.jobs[j].phase.Persisting? {
        assert forall i: nat | Later(r.jobs, i, j) :: Finished(r.jobs[i].phase);
        MoveKeeps(r, j, if ok then Skipped else Failed);
        if Current(r, r.jobs[j]) { ApplyKeeps(r, j); }
        hide Inv;
      }
    case ECleanUp(j) => CleanUpKeeps(r, j);
  }

  lemma AsideKeeps(r: Registry, r': Registry)
    requires Inv(r) && r'.generations == r.generations && r'.chains == r.chains
    requires r'.jobs == r.jobs && r'.updates == r.updates
    ensures Inv(r')
  {
  }

  lemma {:induction false} EveryRun(events: seq<Event>)
    ensures Inv(Run(NEW, events))
  {
    if events != [] {
      EveryRun(events[..|events| - 1]);
      StepKeeps(Run(NEW, events[..|events| - 1]), events[|events| - 1]);
    }
  }

  /** Updates of job j come after those of job i and are of no earlier generation. */
  ghost predicate UpdatesFollow(updates: seq<Update>, i: nat, j: nat) {
    forall k, l | 0 <= k < |updates| && 0 <= l < |updates| && updates[k].job == i && updates[l].job == j ::
      k < l && updates[k].generation <= updates[l].generation
  }

  /** Over any interleaving: two publications of a provider are never under way together, the one called first goes
      first, an absent chain entry means nothing is unfinished, and the updates that ran did so in call order with
      generations that never go down. */
  lemma Publications(events: seq<Event>, i: nat, j: nat)
    requires Later(Run(NEW, events).jobs, i, j)
    ensures var r := Run(NEW, events);
      && (!r.jobs[j].phase.Waiting? ==> Finished(r.jobs[i].phase))
      && !(r.jobs[i].phase.Persisting? && r.jobs[j].phase.Persisting?)
      && (r.jobs[i].provider !in r.chains ==> Finished(r.jobs[i].phase) && Finished(r.jobs[j].phase))
      && UpdatesFollow(r.updates, i, j)
  {
    EveryRun(events);
    hide Run, Inv;
    InCallOrder(Run(NEW, events), i, j);
    UpdatesInOrder(Run(NEW, events), i, j);
  }

  lemma InCallOrder(r: Registry, i: nat, j: nat)
    requires Inv(r) && Later(r.jobs, i, j)
    ensures !r.jobs[j].phase.Waiting? ==> Finished(r.jobs[i].phase)
    ensures r.jobs[i].provider !in r.chains ==> Finished(r.jobs[i].phase) && Finished(r.jobs[j].phase)
  {
    hide QueuesOk, UpdatesOk;
  }

  lemma UpdatesInOrder(r: Registry, i: nat, j: nat)
    requires Inv(r) && Later(r.jobs, i, j)
    ensures UpdatesFollow(r.updates, i, j)
  {
    hide QueuesOk, ChainsOk, InOrder;
    forall k, l | 0 <= k < |r.updates| && 0 <= l < |r.updates| && r.updates[k].job == i && r.updates[l].job == j
      ensures k < l && r.updates[k].generation <= r.updates[l].generation
    {
      assert UpdateOk(r, r.updates[k]) && UpdateOk(r, r.updates[l]);
    }
  }

  /** The refresh a publication belongs to has been superseded or aborted. */
  predicate Superseded(r: Registry, j: Job) {
    Signal(j.provider, j.generation) in r.aborted || j.generation < Generation(r, j.provider)
  }

  /** Between the two states, publication j stayed without effect. */
  ghost predicate StaysOut(r: Registry, r': Registry, j: nat) {
    && j < |r'.jobs| && Superseded(r', r'.jobs[j]) && !r'.jobs[j].phase.Published?
    && r.updates <= r'.updates && forall k | |r.updates| <= k < |r'.updates| :: r'.updates[k].job != j
  }

  lemma SupersededMove(r: Registry, i: nat, ok: bool, j: nat)
    requires i < |r.jobs| && j < |r.jobs| && Superseded(r, r.jobs[j]) && !r.jobs[j].phase.Published?
    ensures StaysOut(r, Start(r, i), j) && StaysOut(r, StoreSettled(r, i, ok), j)
  {
    assert !Current(r, r.jobs[j]);
    hide Current, Generation;
  }

  lemma SupersededStep(r: Registry, e: Event, j: nat)
    requires j < |r.jobs| && Superseded(r, r.jobs[j]) && !r.jobs[j].phase.Published?
    ensures StaysOut(r, Step(r, e), j)
  {
    match e
    case EStart(i) => if i < |r.jobs| { SupersededMove(r, i, true, j); hide Start, Generation; }
    case EStoreSettled(i, ok) => if i < |r.jobs| { SupersededMove(r, i, ok, j); hide StoreSettled, Generation; }
    case _ => hide CanStart, Current;
  }

  /** Once its refresh is superseded or aborted, a publication that has not taken effect never will. */
  lemma {:induction false} SupersededNeverUpdates(r: Registry, events: seq<Event>, j: nat)
    requires j < |r.jobs| && Superseded(r, r.jobs[j]) && !r.jobs[j].phase.Published?
    ensures StaysOut(r, Run(r, events), j)
  {
    if events != [] {
      var r' := Run(r, events[..|events| - 1]);
      SupersededNeverUpdates(r, events[..|events| - 1], j);
      SupersededStep(r', events[|events| - 1], j);
      hide Step, Superseded;
    }
  }

  /** The refresh bookkeeping of `ModelsImpl`. */
  class ModelsRegistry {
    var generations: map<ProviderId, nat>
    var controllers: map<ProviderId, nat>
    var aborted: set<Signal>
    var chains: map<ProviderId, nat>
    var jobs: seq<Job>
    var updates: seq<Update>

    function View(): Registry
      reads this
    {
      Registry(generations, controllers, aborted, chains, jobs, updates)
    }

    ghost predicate Valid()
      reads this
    {
      Inv(View())
    }

    constructor ()
      ensures Valid() && View() == NEW
    {
      generations, controllers, aborted, chains, jobs, updates := map[], map[], {}, map[], [], [];
      new;
      EveryRun([]);
    }

    method SupersedeProviderRefresh(p: ProviderId) returns (generation: nat)
      requires Valid()
      modifies this
      ensures Valid() && View() == Step(old(View()), ESupersede(p))
      ensures generation == Generation(old(View()), p) + 1
    {
      StepKeeps(View(), ESupersede(p));
      hide Inv;
      generation := 1;
      if p in generations {
        generation := generations[p] + 1;
      }
      generations := generations[p := generation];
      if p in controllers {
        var previous := controllers[p];
        controllers := controllers - {p};
        aborted := aborted + {Signal(p, previous)};
      }
      assert p !in old(controllers) ==> controllers == old(controllers) - {p};
    }

    method BeginProviderRefresh(p: ProviderId) returns (generation: nat)
      requires Valid()
      modifies this
      ensures Valid() && View() == Step(old(View()), EBegin(p))
      ensures generation == Generation(View(), p)
    {
      StepKeeps(View(), EBegin(p));
      hide Inv;
      generation := SupersedeProviderRefresh(p);
      controllers := controllers[p := generation];
    }

    /** The end of a refresh: its controller goes, unless a newer refresh has put its own there. */
    method EndProviderRefresh(p: ProviderId, generation: nat)
      requires Valid()
      modifies this`controllers
      ensures Valid() && View() == Step(old(View()), EEnd(p, generation))
    {
      StepKeeps(View(), EEnd(p, generation));
      hide Inv;
      if p in controllers && controllers[p] == generation {
        controllers := controllers - {p};
      }
    }

    /** The signal of a refresh is aborted, by a caller's own signal too. */
    method RefreshAborted(p: ProviderId, generation: nat)
      requires Valid()
      modifies this`aborted
      ensures Valid() && View() == Step(old(View()), EAbort(p, generation))
    {
      StepKeeps(View(), EAbort(p, generation));
      hide Inv;
      aborted := aborted + {Signal(p, generation)};
    }

    /** Queues a publication behind the provider's chain and returns its number. */
    method PublishProviderModels(p: ProviderId, generation: nat, persist: bool) returns (job: nat)
      requires Valid()
      modifies this`chains, this`jobs
      ensures Valid() && View() == Step(old(View()), EPublish(p, generation, persist))
      ensures job == |old(jobs)|
    {
      StepKeeps(View(), EPublish(p, generation, persist));
      hide Inv;
      var previous := None;
      if p in chains {
        previous := Some(chains[p]);
      }
      job := |jobs|;
      jobs := jobs + [Job(p, generation, previous, persist, Waiting)];
      chains := chains[p := job];
    }

    method FinishPublication(j: nat)
      requires j < |jobs|
      modifies this`jobs, this`updates
      ensures View()
           == if Current(old(View()), old(jobs)[j]) then Apply(old(View()), j) else SetPhase(old(View()), j, Skipped)
    {
      var job := jobs[j];
      if Signal(job.provider, job.generation) in aborted || job.provider !in generations
          || generations[job.provider] != job.generation {
        jobs := jobs[j := job.(phase := Skipped)];
        return;
      }
      jobs := jobs[j := job.(phase := Published)];
      updates := updates + [Update(j, job.provider, job.generation)];
    }

    /** A queued publication whose turn has come. */
    method StartPublication(j: nat)
      requires Valid() && j < |jobs| && CanStart(View(), j)
      modifies this`jobs, this`updates
      ensures Valid() && View() == Step(old(View()), EStart(j))
    {
      StepKeeps(View(), EStart(j));
      hide Inv;
      if Current(View(), jobs[j]) && jobs[j].persist {
        jobs := jobs[j := jobs[j].(phase := Persisting)];
      } else {
        FinishPublication(j);
      }
    }

    method StoreOperationSettled(j: nat, ok: bool)
      requires Valid() && j < |jobs| && jobs[j].phase.Persisting?
      modifies this`jobs, this`updates
      ensures Valid() && View() == Step(old(View()), EStoreSettled(j, ok))
    {
      StepKeeps(View(), EStoreSettled(j, ok));
      hide Inv;
      if ok {
        FinishPublication(j);
      } else {
        jobs := jobs[j := jobs[j].(phase := Failed)];
      }
    }

    /** Takes the chain down if nothing has been queued behind this publication. */
    method CleanUpChain(j: nat)
      requires Valid() && j < |jobs| && Finished(jobs[j].phase)
      modifies this`chains
      ensures Valid() && View() == Step(old(View()), ECleanUp(j))
    {
      StepKeeps(View(), ECleanUp(j));
      hide Inv;
      var p := jobs[j].provider;
      if p in chains && chains[p] == j {
        chains := chains - {p};
      }
    }
  }
}
