/** Stale handles: a lease that an invalidation hit stays dead whatever happens afterwards, and releasing it changes
    nothing but the handle itself. And what goes wrong when an invalidation comes while an acquire is under way. */
module LeaseSafety {
  import opened Leases
  import opened LeaseInvariant
  import opened LeaseRecovery

  /** Released, or of a generation that has passed. */
  predicate Dead(c: Client, t: Token) {
    && t in c.holders
    && (c.holders[t].phase.Over?
        || (c.holders[t].phase.Active? && c.holders[t].phase.generation < Generation(c.books, c.holders[t].session)))
  }

  /** Generations never go back. */
  lemma GenerationsGrow(c: Client, e: Event, s: SessionId)
    ensures Generation(Step(c, e).books, s) >= Generation(c.books, s)
  {
    match e
    case EAcquire(t, x, mode) => AcquireGrows(c, t, x, mode, s);
    case EContinue(t) => if t in c.holders { ContinueGrows(c, t, s); hide Continue; }
    case _ => hide Wake, Drained, MayGoOn;
  }

  lemma AfterReconcileGrows(c: Client, t: Token, reconciled: bool, s: SessionId)
    requires t in c.holders
    ensures Generation(AfterReconcile(c, t, reconciled).books, s) == Generation(c.books, s)
  {
  }

  lemma AfterDetachGrows(c: Client, t: Token, s: SessionId)
    requires t in c.holders
    ensures Generation(AfterDetach(c, t).books, s) == Generation(c.books, s)
  {
    AfterReconcileGrows(c, t, false, s);
    hide AfterReconcile;
  }

  lemma AcquireGrows(c: Client, t: Token, x: SessionId, mode: Mode, s: SessionId)
    ensures Generation(Acquire(c, t, x, mode).books, s) == Generation(c.books, s)
  {
    AfterDetachGrows(c.(books := Reserve(c.books, x, t, mode),
        holders := c.holders[t := Holder(x, mode, ReadyAfterDetach)]), t, s);
    hide Refuses, Count, AfterDetach;
  }

  lemma AfterCreateGrows(c: Client, t: Token, s: SessionId)
    requires t in c.holders
    ensures Generation(AfterCreate(c, t).books, s) == Generation(c.books, s)
  {
    hide Refuses, Count;
  }

  lemma ContinueGrows(c: Client, t: Token, s: SessionId)
    requires t in c.holders
    ensures Generation(Continue(c, t).books, s) == Generation(c.books, s)
  {
    AfterDetachGrows(c, t, s);
    AfterReconcileGrows(c, t, true, s);
    AfterCreateGrows(c, t, s);
    hide Count, AfterDetach, AfterReconcile, AfterCreate, Wake;
  }

  /** No step brings a released lease back, and an active one can only be released. */
  predicate Remains(h: Holder, holders: map<Token, Holder>, t: Token) {
    t in holders && holders[t].session == h.session && (holders[t] == h || holders[t].phase.Over?)
  }

  /** An acquire that goes on touches its own holder only. */
  lemma AfterDetachTouches(c: Client, u: Token, t: Token)
    requires u in c.holders && t in c.holders && t != u
    ensures t in AfterDetach(c, u).holders && AfterDetach(c, u).holders[t] == c.holders[t]
    ensures forall r: bool :: t in AfterReconcile(c, u, r).holders && AfterReconcile(c, u, r).holders[t] == c.holders[t]
  {
    hide Generation;
  }

  lemma AcquireTouches(c: Client, u: Token, s: SessionId, mode: Mode, t: Token)
    requires u !in c.holders && t in c.holders
    ensures t in Acquire(c, u, s, mode).holders && Acquire(c, u, s, mode).holders[t] == c.holders[t]
  {
    AfterDetachTouches(c.(books := Reserve(c.books, s, u, mode),
        holders := c.holders[u := Holder(s, mode, ReadyAfterDetach)]), u, t);
    hide Refuses, Reserve, AfterDetach, Generation;
  }

  lemma ContinueTouches(c: Client, u: Token, t: Token)
    requires u in c.holders && Dead(c, t)
    ensures t in Continue(c, u).holders && Continue(c, u).holders[t] == c.holders[t]
  {
    if t != u {
      DeadSleeps(c, c.holders[u].session, AwaitDetach(u), ReadyAfterDetach, t);
      AfterDetachTouches(c, u, t);
      hide Unreserve, AfterDetach, AfterReconcile, Generation, Wake, Refuses, Reserve;
    }
  }

  lemma DeadSleeps(c: Client, s: SessionId, from: Phase, to: Phase, t: Token)
    requires Dead(c, t) && !from.Active? && !from.Over?
    ensures t in Wake(c.holders, s, from, to) && Wake(c.holders, s, from, to)[t] == c.holders[t]
  {
  }

  lemma DeadStaysDetached(c: Client, u: Token, ok: bool, t: Token)
    requires Dead(c, t) && u in c.holders && c.holders[u].phase.Releasing?
    ensures Remains(c.holders[t], DetachSettled(c, u, ok).holders, t)
  {
    DeadSleeps(c, c.holders[u].session, AwaitDetach(u), ReadyAfterDetach, t);
    hide Unreserve, Generation, Wake;
  }

  lemma DeadHolderStays(c: Client, e: Event, t: Token)
    requires Dead(c, t)
    ensures Remains(c.holders[t], Step(c, e).holders, t)
  {
    match e
    case EAcquire(u, s, mode) => if u !in c.holders { AcquireTouches(c, u, s, mode, t); hide Acquire; }
    case ECreated(u, s) =>
    case EContinue(u) => if u in c.holders { ContinueTouches(c, u, t); hide Continue, MayGoOn; }
    case ERelease(u, _) => hide Unreserve, SendsDetach;
    case EDetachSettled(u, ok) =>
      if u in c.holders && c.holders[u].phase.Releasing? {
        DeadStaysDetached(c, u, ok, t);
        hide DetachSettled, MayGoOn;
      }
    case EReconcileSettled(s, ok) =>
      DeadSleeps(c, s, AwaitReconcile, if ok then ReadyReconciled else ReadyFailed, t);
      hide Drained, Wake;
    case EAttachSettled(s, ok) =>
      DeadSleeps(c, s, AwaitAttach, if ok then ReadyAttached else ReadyFailed, t);
      hide Drained, Wake;
    case ERemoved(s) => hide Invalidate;
    case EDisconnected => hide InvalidateAll;
    case _ =>
  }

  lemma DeadStays(c: Client, e: Event, t: Token)
    requires Dead(c, t)
    ensures Dead(Step(c, e), t)
  {
    DeadHolderStays(c, e, t);
    GenerationsGrow(c, e, c.holders[t].session);
    hide Step, Generation;
  }

  lemma {:induction false} DeadForever(c: Client, more: seq<Event>, t: Token)
    requires Dead(c, t)
    ensures Dead(Run(c, more), t)
  {
    if more != [] {
      DeadForever(c, more[..|more| - 1], t);
      DeadStays(Run(c, more[..|more| - 1]), more[|more| - 1], t);
    }
  }

  function Bury(c: Client, t: Token): Client
    requires t in c.holders
  {
    SetPhase(c, t, Over)
  }

  lemma BuryPut(c: Client, t: Token, u: Token, p: Phase)
    requires t in c.holders && u in c.holders && t != u
    ensures SetPhase(Bury(c, t), u, p) == Bury(SetPhase(c, u, p), t)
  {
    var a, b := SetPhase(Bury(c, t), u, p), Bury(SetPhase(c, u, p), t);
    assert a.holders == b.holders;
  }

  lemma BuryNew(c: Client, t: Token, u: Token, h: Holder)
    requires t in c.holders && u !in c.holders
    ensures Bury(c, t).holders[u := h] == Bury(c.(holders := c.holders[u := h]), t).holders
  {
  }

  lemma BuryCreateLease(c: Client, t: Token, u: Token)
    requires t in c.holders && u in c.holders && t != u
    ensures CreateLease(Bury(c, t), u) == Bury(CreateLease(c, u), t)
  {
    var s := c.holders[u].session;
    var g := Generation(c.books, s);
    BuryPut(c.(books := c.books.(generations := c.books.generations[s := g])), t, u, Active(g));
    hide Generation;
  }

  lemma BuryAfterReconcile(c: Client, t: Token, u: Token, reconciled: bool)
    requires t in c.holders && u in c.holders && t != u
    ensures AfterReconcile(Bury(c, t), u, reconciled) == Bury(AfterReconcile(c, u, reconciled), t)
  {
    BuryPut(c.(attaching := c.attaching + {c.holders[u].session}), t, u, AwaitAttach);
    BuryCreateLease(c, t, u);
    hide CreateLease;
  }

  lemma BuryAfterDetach(c: Client, t: Token, u: Token)
    requires t in c.holders && u in c.holders && t != u
    ensures AfterDetach(Bury(c, t), u) == Bury(AfterDetach(c, u), t)
  {
    BuryPut(c.(reconciling := c.reconciling + {c.holders[u].session}), t, u, AwaitReconcile);
    BuryAfterReconcile(c, t, u, false);
    hide AfterReconcile;
  }

  lemma BuryGiveUp(c: Client, t: Token, u: Token)
    requires t in c.holders && u in c.holders && t != u
    ensures GiveUp(Bury(c, t), u) == Bury(GiveUp(c, u), t)
  {
    BuryPut(c.(books := Unreserve(c.books, c.holders[u].session, u)), t, u, Over);
    hide Unreserve;
  }

  lemma BuryAcquire(c: Client, t: Token, u: Token, s: SessionId, mode: Mode)
    requires t in c.holders && u !in c.holders
    ensures Acquire(Bury(c, t), u, s, mode) == Bury(Acquire(c, u, s, mode), t)
  {
    var reserved := c.(books := Reserve(c.books, s, u, mode),
        holders := c.holders[u := Holder(s, mode, ReadyAfterDetach)]);
    BuryNew(c, t, u, Holder(s, mode, ReadyAfterDetach));
    assert Bury(c, t).(books := reserved.books, holders := Bury(c, t).holders[u := Holder(s, mode,
        ReadyAfterDetach)]) == Bury(reserved, t);
    BuryAfterDetach(reserved, t, u);
    if s in c.detaching {
      BuryPut(reserved, t, u, AwaitDetach(c.detaching[s]));
    }
    hide Reserve, Refuses, AfterDetach;
  }

  lemma BuryCreated(c: Client, t: Token, u: Token, s: SessionId)
    requires t in c.holders && u !in c.holders
    ensures Created(Bury(c, t), u, s) == Bury(Created(c, u, s), t)
  {
    BuryNew(c, t, u, Holder(s, Exclusive, CreateAnswered));
  }

  lemma BuryAfterCreate(c: Client, t: Token, u: Token)
    requires t in c.holders && u in c.holders && t != u
    ensures AfterCreate(Bury(c, t), u) == Bury(AfterCreate(c, u), t)
  {
    BuryPut(c, t, u, Over);
    BuryCreateLease(c.(books := Reserve(c.books, c.holders[u].session, u, Exclusive)), t, u);
    hide Reserve, Refuses, CreateLease;
  }

  lemma BuryTwice(c: Client, t: Token)
    requires t in c.holders
    ensures Bury(Bury(c, t), t) == Bury(c, t)
  {
    assert Bury(Bury(c, t), t).holders == Bury(c, t).holders;
  }

  lemma BuryContinue(c: Client, t: Token, u: Token)
    requires Dead(c, t) && u in c.holders
    ensures Continue(Bury(c, t), u) == Bury(Continue(c, u), t)
  {
    if t != u {
      hide AfterDetach, AfterReconcile, CreateLease, AfterCreate, Landed, Unreserve, Dead;
      match c.holders[u].phase
      case ReadyAfterDetach => BuryAfterDetach(c, t, u);
      case ReadyReconciled => BuryAfterReconcile(c, t, u, true);
      case ReadyAttached => BuryCreateLease(c, t, u);
      case ReadyFailed => BuryGiveUp(c, t, u);
      case CreateAnswered => BuryAfterCreate(c, t, u);
      case Releasing(_, _, true) =>
        BuryLanded(c, t, u);
        BuryGiveUp(Landed(c, u), t, u);
      case _ =>
    } else {
      BuryTwice(c, t);
    }
  }

  lemma BuryRelease(c: Client, t: Token, u: Token, relinquish: bool)
    requires Dead(c, t) && u in c.holders
    ensures Release(Bury(c, t), u, relinquish) == Bury(Release(c, u, relinquish), t)
  {
    if t == u {
      BuryTwice(c, t);
    } else {
      var h := c.holders[u];
      if h.phase.Active? {
        BuryGiveUp(c, t, u);
        BuryPut(c, t, u, Over);
        BuryPut(c.(detaching := c.detaching[h.session := u]), t, u, Releasing(h.phase.generation, relinquish, false));
      }
      hide GiveUp, Count, Generation;
    }
  }

  lemma BuryWoken(c: Client, t: Token, s: SessionId, from: Phase, to: Phase)
    requires Dead(c, t) && !from.Active? && !from.Over?
    ensures t in Wake(c.holders, s, from, to)
    ensures Bury(c, t).(holders := Wake(Bury(c, t).holders, s, from,
        to)) == Bury(c.(holders := Wake(c.holders, s, from, to)), t)
  {
    WakePut(c.holders, t, c.holders[t].(phase := Over), s, from, to);
    assert Wake(c.holders, s, from, to)[t] == c.holders[t];
    hide Wake;
  }

  lemma BuryLanded(c: Client, t: Token, u: Token)
    requires Dead(c, t) && u in c.holders && t != u
    ensures t in Landed(c, u).holders && u in Landed(c, u).holders
    ensures Landed(Bury(c, t), u) == Bury(Landed(c, u), t)
  {
    BuryWoken(c, t, c.holders[u].session, AwaitDetach(u), ReadyAfterDetach);
    hide Wake;
  }

  lemma BuryDetachSettled(c: Client, t: Token, u: Token, ok: bool)
    requires Dead(c, t) && u in c.holders && c.holders[u].phase.Releasing?
    ensures DetachSettled(Bury(c, t), u, ok) == Bury(DetachSettled(c, u, ok), t)
  {
    var h := c.holders[u];
    BuryPut(c.(attached := c.attached - {h.session}), t, u, h.phase.(confirmed := true));
    BuryLanded(c, t, u);
    assert Landed(c, u).holders[u] == h;
    BuryGiveUp(Landed(c, u), t, u);
    BuryPut(Landed(c, u), t, u, Over);
    BuryPut(Landed(c, u), t, u, Active(h.phase.generation));
    hide GiveUp, Generation, Landed;
  }

  lemma BuryMayGoOn(c: Client, t: Token, u: Token)
    requires Dead(c, t) && u in c.holders
    ensures t != u ==> (MayGoOn(Bury(c, t), u) <==> MayGoOn(c, u))
  {
    var s := c.holders[u].session;
    if CreateDue(c, s) {
      var w :| w in c.holders && c.holders[w].session == s && c.holders[w].phase == CreateAnswered;
      assert w in Bury(c, t).holders && Bury(c, t).holders[w].phase == CreateAnswered;
    }
  }

  lemma BuryDrained(c: Client, t: Token, s: SessionId)
    requires Dead(c, t)
    ensures Drained(Bury(c, t), s) <==> Drained(c, s)
  {
    assert Drained(c, s) ==> Drained(Bury(c, t), s);
    forall u | u in c.holders && c.holders[u].session == s && Drained(Bury(c, t), s)
      ensures !Ready(c.holders[u].phase)
    {
      assert u in Bury(c, t).holders;
    }
  }

  lemma BuryWake(c: Client, t: Token, s: SessionId, ok: bool)
    requires Dead(c, t)
    ensures ReconcileSettled(Bury(c, t), s, ok) == Bury(ReconcileSettled(c, s, ok), t)
    ensures AttachSettled(Bury(c, t), s, ok) == Bury(AttachSettled(c, s, ok), t)
  {
    BuryWoken(c, t, s, AwaitReconcile, if ok then ReadyReconciled else ReadyFailed);
    BuryWoken(c, t, s, AwaitAttach, if ok then ReadyAttached else ReadyFailed);
    hide Wake;
  }

  lemma BuryContinueStep(c: Client, t: Token, u: Token)
    requires Dead(c, t) && u in c.holders
    ensures t in Step(c, EContinue(u)).holders && Step(Bury(c, t), EContinue(u)) == Bury(Step(c, EContinue(u)), t)
  {
    DeadHolderStays(c, EContinue(u), t);
    BuryMayGoOn(c, t, u);
    BuryContinue(c, t, u);
    if t == u {
      assert Continue(c, u) == c && Continue(Bury(c, t), u) == Bury(c, t);
    }
    hide Continue, MayGoOn;
  }

  lemma BuryDetachStep(c: Client, t: Token, u: Token, ok: bool)
    requires Dead(c, t) && u in c.holders
    ensures t in Step(c, EDetachSettled(u, ok)).holders
    ensures Step(Bury(c, t), EDetachSettled(u, ok)) == Bury(Step(c, EDetachSettled(u, ok)), t)
  {
    DeadHolderStays(c, EDetachSettled(u, ok), t);
    BuryMayGoOn(c, t, u);
    if c.holders[u].phase.Releasing? {
      BuryDetachSettled(c, t, u, ok);
    }
    hide DetachSettled, MayGoOn;
  }

  /** Burying a dead handle commutes with every step: no step looks at it. */
  lemma BuryCommutes(c: Client, e: Event, t: Token)
    requires Dead(c, t)
    ensures t in Step(c, e).holders && Step(Bury(c, t), e) == Bury(Step(c, e), t)
  {
    DeadHolderStays(c, e, t);
    match e
    case EAcquire(u, s, mode) => if u !in c.holders { BuryAcquire(c, t, u, s, mode); hide Acquire; }
    case ECreated(u, s) => if u !in c.holders { BuryCreated(c, t, u, s); hide Created; }
    case EContinue(u) => if u in c.holders { BuryContinueStep(c, t, u); hide Step; }
    case ERelease(u, relinquish) => if u in c.holders { BuryRelease(c, t, u, relinquish); hide Release; }
    case EDetachSettled(u, ok) => if u in c.holders { BuryDetachStep(c, t, u, ok); hide Step; }
    case EReconcileSettled(s, ok) =>
      BuryDrained(c, t, s);
      BuryWake(c, t, s, ok);
      hide ReconcileSettled, AttachSettled, Drained;
    case EAttachSettled(s, ok) =>
      BuryDrained(c, t, s);
      BuryWake(c, t, s, ok);
      hide ReconcileSettled, AttachSettled, Drained;
    case _ =>
  }

  lemma {:induction false} BuryRun(c: Client, more: seq<Event>, t: Token)
    requires Dead(c, t)
    ensures t in Run(c, more).holders && Run(Bury(c, t), more) == Bury(Run(c, more), t)
  {
    if more != [] {
      var k := |more| - 1;
      BuryRun(c, more[..k], t);
      DeadForever(c, more[..k], t);
      BuryCommutes(Run(c, more[..k]), more[k], t);
    }
  }

  /** A lease that is live when its session is removed or the connection drops is never live again, in any
      continuation at all; and whether or not it is released on the way, everything but its own handle goes
      exactly as it would have gone. */
  lemma StaleForever(c: Client, e: Event, t: Token, relinquish: bool, before: seq<Event>, after: seq<Event>)
    requires Inv(c) && Live(c, t) && (e == EDisconnected || (e == ERemoved(c.holders[t].session) && c.connected))
    ensures var c' := Run(Step(c, e), before);
      var released := Step(c', ERelease(t, relinquish));
      && !Live(c', t) && t in c'.holders && t in Run(c', after).holders
      && Run(released, after) == Bury(Run(c', after), t)
      && Run(released, after).books == Run(c', after).books
  {
    InvalidatedIsDead(c, e, t);
    DeadForever(Step(c, e), before, t);
    var c' := Run(Step(c, e), before);
    assert Step(c', ERelease(t, relinquish)) == Bury(c', t) by {
      assert c'.holders[t := c'.holders[t]] == c'.holders;
    }
    BuryRun(c', after, t);
    hide Run, Step;
  }

  lemma InvalidatedIsDead(c: Client, e: Event, t: Token)
    requires Inv(c) && Live(c, t) && (e == EDisconnected || (e == ERemoved(c.holders[t].session) && c.connected))
    ensures Dead(Step(c, e), t)
  {
    var s := c.holders[t].session;
    assert SessionOk(c, s) && t in Sharers(c, s);
    HitBooks(c, e, s);
    hide Generation;
  }

  const SOME_SESSION: SessionId := "s"

  /** A session is removed while an acquire of it waits for its attach. */
  const DISORDERLY: seq<Event> := [
    EConnected({}), EAcquire(0, SOME_SESSION, Shared), ERemoved(SOME_SESSION), EAttachSettled(SOME_SESSION, true),
        EContinue(0),
    EAcquire(1, SOME_SESSION, Exclusive)]

  const DRAWN: Client := Client(
    Books(map[SOME_SESSION := 1], map[], map[], {}), map[0 := Holder(SOME_SESSION, Shared, AwaitAttach)], {}, map[],
        {}, {SOME_SESSION}, true)

  const GONE: Books := Books(map[], map[], map[SOME_SESSION := 1], {})

  const REMOVED: Client := DRAWN.(books := GONE)

  const ATTACHED: Client := Client(GONE, map[0 := Holder(SOME_SESSION, Shared, ReadyAttached)], {SOME_SESSION}, map[],
      {}, {}, true)

  const CREATED: Client := ATTACHED.(holders := map[0 := Holder(SOME_SESSION, Shared, Active(1))])

  lemma AcquireDraws()
    ensures Run(START, DISORDERLY[..2]) == DRAWN
  {
    assert DISORDERLY[..1] == [EConnected({})];
    assert DISORDERLY[..2] == [EConnected({}), EAcquire(0, SOME_SESSION, Shared)];
    assert [EConnected({}), EAcquire(0, SOME_SESSION, Shared)][..1] == [EConnected({})];
    var c1 := Run(START, [EConnected({})]);
    assert c1 == Step(START, EConnected({}));
    assert c1 == START.(connected := true);
    var c2 := Step(c1, EAcquire(0, SOME_SESSION, Shared));
    assert c2.holders == DRAWN.holders && c2.attaching == DRAWN.attaching && c2.books.counts == DRAWN.books.counts;
  }

  lemma DrawnIsUnderWay()
    ensures !Orderly(DRAWN, ERemoved(SOME_SESSION))
  {
    assert 0 in DRAWN.holders && DRAWN.holders[0].session == SOME_SESSION && DRAWN.holders[0].phase == AwaitAttach;
    assert MidFlight(DRAWN, SOME_SESSION);
  }

  lemma RemovalForgets()
    ensures Step(DRAWN, ERemoved(SOME_SESSION)) == REMOVED
  {
    assert Step(DRAWN, ERemoved(SOME_SESSION)).books == GONE;
    assert Step(DRAWN, ERemoved(SOME_SESSION)).attached == {};
  }

  lemma AttachAnswers()
    ensures Step(REMOVED, EAttachSettled(SOME_SESSION, true)) == ATTACHED
  {
    var c := AttachSettled(REMOVED, SOME_SESSION, true);
    assert Drained(REMOVED, SOME_SESSION);
    assert c.holders == ATTACHED.holders && c.attached == ATTACHED.attached && c.attaching == {};
  }

  lemma AcquireGoesOn()
    ensures Step(ATTACHED, EContinue(0)) == CREATED
  {
    var c := CreateLease(ATTACHED, 0);
    assert c.holders == CREATED.holders && c.books.generations == GONE.generations;
  }

  lemma NextPrefix(k: nat)
    requires k < |DISORDERLY|
    ensures Run(START, DISORDERLY[..k + 1]) == Step(Run(START, DISORDERLY[..k]), DISORDERLY[k])
  {
    assert DISORDERLY[..k + 1][..k] == DISORDERLY[..k];
    hide Step;
  }

  lemma RemovalIsDisorderly()
    ensures !OrderlyRun(START, DISORDERLY) && !TimelyRun(START, DISORDERLY)
  {
    AcquireDraws();
    DrawnIsUnderWay();
    assert DISORDERLY[2] == ERemoved(SOME_SESSION);
    assert !Timely(DRAWN, ERemoved(SOME_SESSION));
    hide Orderly, Timely, Run, Step;
    assert !Orderly(Run(START, DISORDERLY[..2]), DISORDERLY[2]) && !Timely(Run(START, DISORDERLY[..2]), DISORDERLY[2]);
  }

  lemma RunToLease()
    ensures Run(START, DISORDERLY[..5]) == CREATED
  {
    hide Run, Step;
    AcquireDraws();
    NextPrefix(2);
    RemovalForgets();
    assert Run(START, DISORDERLY[..3]) == REMOVED;
    NextPrefix(3);
    AttachAnswers();
    assert Run(START, DISORDERLY[..4]) == ATTACHED;
    NextPrefix(4);
    AcquireGoesOn();
  }

  lemma LastAcquire()
    ensures var c := Step(CREATED, EAcquire(1, SOME_SESSION, Exclusive));
      && Live(c, 0) && Live(c, 1) && c.holders[0].session == c.holders[1].session == SOME_SESSION
      && c.holders[1].mode == Exclusive && Count(c.books, SOME_SESSION) == 1
  {
  }

  /** Without the run assumption ownership fails: this run ends with a shared and an exclusive lease of one session
      live together, on a count of 1. */
  lemma SharedBesideExclusive()
    ensures !OrderlyRun(START, DISORDERLY) && !TimelyRun(START, DISORDERLY)
    ensures var c := Run(START, DISORDERLY);
      && Live(c, 0) && Live(c, 1) && c.holders[0].session == c.holders[1].session == SOME_SESSION
      && c.holders[1].mode == Exclusive && Count(c.books, SOME_SESSION) == 1
  {
    RemovalIsDisorderly();
    RunToLease();
    NextPrefix(5);
    assert DISORDERLY[..6] == DISORDERLY;
    LastAcquire();
    hide Run, Step, OrderlyRun, TimelyRun;
  }
}
