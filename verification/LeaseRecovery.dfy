/** Disconnects: they need not be orderly. After a disconnect the books no longer count what was under way, but every
    request in flight is rejected, and once each of them has given up the books are right again before the next
    connection. What a disconnect must not meet is an attach or a create that has been answered and not yet gone on. */
module LeaseRecovery {
  import opened LeaseAttachment
  import opened LeaseInvariant
  import opened Leases
  import opened Seqs

  function WaitingOn(holders: map<Token, Holder>, s: SessionId): set<Token> {
    set t | t in holders && holders[t].session == s && Waiting(holders[t].phase)
  }

  /** While disconnected: no lease is live, and a release under way is its session's detach in flight. */
  predicate Idle(c: Client, h: Holder, t: Token) {
    match h.phase
    case ReadyAttached => false
    case CreateAnswered => false
    case Active(g) => g < Generation(c.books, h.session)
    case Releasing(g, _, _) =>
      g < Generation(c.books, h.session) && h.session in c.detaching && c.detaching[h.session] == t
    case _ => true
  }

  /** Every share on record belongs to an acquire that is still waiting. */
  predicate Covered(c: Client, s: SessionId) {
    var waiting := WaitingOn(c.holders, s);
    Count(c.books, s) <= |waiting| && (Owner(c.books, s).Some? ==> Owner(c.books, s).value in waiting)
  }

  ghost predicate DetachesNamed(c: Client) {
    forall s | s in c.detaching ::
      c.detaching[s] in c.holders && c.holders[c.detaching[s]].session == s
          && c.holders[c.detaching[s]].phase.Releasing?
  }

  /** The books between a disconnect and the next connection. */
  ghost predicate Down(c: Client) {
    && c.attached == {} && c.books.cleanup == {} && DetachesNamed(c)
    && (forall s: SessionId :: Covered(c, s))
    && (forall t | t in c.holders :: Idle(c, c.holders[t], t))
  }

  /** What every timely run keeps. */
  ghost predicate Steady(c: Client) {
    if c.connected then Inv(c) else Down(c)
  }

  ghost predicate Quiet(c: Client) {
    forall t | t in c.holders :: c.holders[t].phase.Active? || c.holders[t].phase.Over?
  }

  /** An attach or a create was answered, and the call has not gone on: its next step makes a lease. */
  predicate Answered(c: Client, t: Token) {
    t in c.holders && (c.holders[t].phase == ReadyAttached || c.holders[t].phase == CreateAnswered)
  }

  /** The run assumption: a session is removed only while nothing on it is under way; a disconnect meets no attach and
      no create that was answered and has not gone on; and all that a disconnect rejected has given up before the next
      connection. */
  ghost predicate Timely(c: Client, e: Event) {
    match e
    case ERemoved(s) => c.connected ==> !MidFlight(c, s)
    case EDisconnected => c.connected ==> forall t :: !Answered(c, t)
    case EConnected(_) => !c.connected ==> Quiet(c)
    case _ => true
  }

  ghost predicate TimelyRun(c: Client, events: seq<Event>) {
    forall k | 0 <= k < |events| :: Timely(Run(c, events[..k]), events[k])
  }

  /** After a disconnect no session has a count or an owner. */
  lemma DisconnectForgets(c: Client, s: SessionId)
    requires Inv(c)
    ensures var b := Step(c, EDisconnected).books;
      && Count(b, s) == 0 && Owner(b, s).None?
      && Generation(b, s) == Generation(c.books, s) + (if Count(c.books, s) > 0 then 1 else 0)
  {
    assert SessionOk(c, s);
    HitBooks(c, EDisconnected, s);
    hide Sharers, Step;
  }

  lemma DisconnectIdles(c: Client, t: Token)
    requires Inv(c) && t in c.holders && !Answered(c, t)
    ensures Idle(Step(c, EDisconnected), c.holders[t], t)
  {
    var s := c.holders[t].session;
    DisconnectForgets(c, s);
    assert SessionOk(c, s) && PhaseOk(c, c.holders[t], t);
    if Counts(c.holders[t].phase, Generation(c.books, s)) {
      assert t in Sharers(c, s);
    }
    hide Count, Generation;
  }

  lemma DisconnectKeeps(c: Client)
    requires Inv(c) && forall t :: !Answered(c, t)
    ensures Down(Step(c, EDisconnected))
  {
    var c' := Step(c, EDisconnected);
    forall s: SessionId
      ensures Covered(c', s)
    {
      DisconnectForgets(c, s);
    }
    forall t | t in c'.holders
      ensures Idle(c', c'.holders[t], t)
    {
      DisconnectIdles(c, t);
    }
    hide Idle, Covered, SessionOk;
  }

  /** One holder moves on; the other sessions and the detaches in flight stay as they are. */
  lemma DownPut(c: Client, c': Client, t: Token, h: Holder)
    requires Down(c) && c'.attached == {} && c'.books.cleanup == {} && c'.detaching == c.detaching
    requires c'.holders == c.holders[t := h] && SameGenerations(c.books, c'.books)
    requires t in c.holders ==> c.holders[t].session == h.session && !c.holders[t].phase.Releasing?
    requires forall x: SessionId :: x != h.session ==>
      Count(c'.books, x) == Count(c.books, x) && Owner(c'.books, x) == Owner(c.books, x)
    requires Covered(c', h.session) && Idle(c', h, t)
    ensures Down(c')
  {
    forall x: SessionId
      ensures Covered(c', x)
    {
      if x != h.session {
        assert Covered(c, x);
        assert WaitingOn(c'.holders, x) == WaitingOn(c.holders, x);
      }
    }
    hide Covered, Count, Generation, Owner;
    forall u | u in c'.holders
      ensures Idle(c', c'.holders[u], u)
    {
      if u != t {
        assert Idle(c, c.holders[u], u);
      }
    }
  }

  lemma WaitingPut(holders: map<Token, Holder>, t: Token, h: Holder)
    requires t in holders ==> holders[t].session == h.session
    ensures WaitingOn(holders[t := h], h.session)
         == WaitingOn(holders, h.session) - {t} + (if Waiting(h.phase) then {t} else {})
  {
  }

  /** A waiting acquire goes on to ask for an attach. */
  lemma AskKeeps(c: Client, t: Token, reconciled: bool)
    requires Down(c) && t in c.holders && Waiting(c.holders[t].phase)
    ensures Down(AfterReconcile(c, t, reconciled)) && Down(AfterDetach(c, t))
    ensures AfterDetach(c, t) == AfterReconcile(c, t, reconciled)
  {
    var c', h := AfterReconcile(c, t, reconciled), c.holders[t].(phase := AwaitAttach);
    WaitingPut(c.holders, t, h);
    assert Covered(c, h.session);
    assert WaitingOn(c'.holders, h.session) == WaitingOn(c.holders, h.session);
    DownPut(c, c', t, h);
    hide Covered, Down;
  }

  lemma DownReserve(c: Client, t: Token, s: SessionId, mode: Mode, p: Phase)
    requires Down(c) && t !in c.holders && !Refuses(c.books, s, mode) && Waiting(p) && p != ReadyAttached
    ensures Down(c.(books := Reserve(c.books, s, t, mode), holders := c.holders[t := Holder(s, mode, p)]))
  {
    var h := Holder(s, mode, p);
    var c' := c.(books := Reserve(c.books, s, t, mode), holders := c.holders[t := h]);
    WaitingPut(c.holders, t, h);
    assert Covered(c, s);
    assert t !in WaitingOn(c.holders, s);
    DownPut(c, c', t, h);
  }

  lemma DownAcquire(c: Client, t: Token, s: SessionId, mode: Mode)
    requires Down(c) && t !in c.holders
    ensures Down(Acquire(c, t, s, mode))
  {
    if !Refuses(c.books, s, mode) {
      hide Down, Refuses, Reserve;
      if s in c.detaching {
        DownReserve(c, t, s, mode, AwaitDetach(c.detaching[s]));
        assert c.holders[t := Holder(s, mode, ReadyAfterDetach)][t := Holder(s, mode, AwaitDetach(c.detaching[s]))]
            == c.holders[t := Holder(s, mode, AwaitDetach(c.detaching[s]))];
      } else {
        DownReserve(c, t, s, mode, ReadyAfterDetach);
        AskKeeps(Reserving(c, t, s, mode), t, false);
      }
    }
  }

  /** A rejected acquire gives up: its share, if it still has one, goes with it. */
  lemma DownGiveUp(c: Client, t: Token)
    requires Down(c) && t in c.holders && Waiting(c.holders[t].phase)
    ensures Down(GiveUp(c, t))
  {
    var c', h := GiveUp(c, t), c.holders[t].(phase := Over);
    WaitingPut(c.holders, t, h);
    assert Covered(c, h.session);
    assert t in WaitingOn(c.holders, h.session);
    DownPut(c, c', t, h);
  }

  lemma DownContinue(c: Client, t: Token)
    requires Down(c) && t in c.holders
    ensures Down(Continue(c, t))
  {
    assert Idle(c, c.holders[t], t);
    hide Down;
    match c.holders[t].phase
    case ReadyAfterDetach => AskKeeps(c, t, false);
    case ReadyReconciled => AskKeeps(c, t, true);
    case ReadyFailed => DownGiveUp(c, t);
    case Releasing(_, _, true) => DownDetached(c, t);
    case _ =>
  }

  /** No lease is current, so a release only closes the handle. */
  lemma DownRelease(c: Client, t: Token, relinquish: bool)
    requires Down(c) && t in c.holders
    ensures Down(Release(c, t, relinquish))
  {
    assert Idle(c, c.holders[t], t);
    if c.holders[t].phase.Active? {
      var h := c.holders[t].(phase := Over);
      WaitingPut(c.holders, t, h);
      assert Covered(c, h.session);
      assert WaitingOn(c.holders[t := h], h.session) == WaitingOn(c.holders, h.session);
      DownPut(c, SetPhase(c, t, Over), t, h);
    }
  }

  lemma WaitingWake(holders: map<Token, Holder>, s: SessionId, from: Phase, to: Phase, x: SessionId)
    requires Waiting(from) && Waiting(to)
    ensures WaitingOn(Wake(holders, s, from, to), x) == WaitingOn(holders, x)
  {
  }

  /** The rejections wake who waited for them. */
  lemma DownWake(c: Client, c': Client, s: SessionId, from: Phase, to: Phase)
    requires Down(c) && Waiting(from) && Waiting(to) && to != ReadyAttached
    requires c'.holders == Wake(c.holders, s, from, to) && c'.detaching == c.detaching && c'.books == c.books
        && c'.attached == c.attached
    ensures Down(c')
  {
    forall x: SessionId
      ensures Covered(c', x)
    {
      assert Covered(c, x);
      WaitingWake(c.holders, s, from, to, x);
      hide Wake, WaitingOn, Idle, DetachesNamed;
    }
    hide Covered, Generation;
    WakeIdle(c, c', s, from, to);
    hide Idle;
  }

  lemma WakeIdle(c: Client, c': Client, s: SessionId, from: Phase, to: Phase)
    requires forall t | t in c.holders :: Idle(c, c.holders[t], t)
    requires Waiting(from) && Waiting(to) && to != ReadyAttached
    requires c'.holders == Wake(c.holders, s, from, to) && c'.detaching == c.detaching && c'.books == c.books
    ensures forall t | t in c'.holders :: Idle(c', c'.holders[t], t)
  {
    hide Generation;
    forall t | t in c'.holders
      ensures Idle(c', c'.holders[t], t)
    {
      assert Idle(c, c.holders[t], t);
    }
  }

  lemma DownLanded(c: Client, t: Token, woken: Client)
    requires Down(c) && t in c.holders && c.holders[t].phase.Releasing?
    requires woken == c.(holders := Wake(c.holders, c.holders[t].session, AwaitDetach(t), ReadyAfterDetach))
    ensures Down(woken) && t in woken.holders && woken.holders[t] == c.holders[t]
    ensures Landed(c, t) == woken.(detaching := c.detaching - {c.holders[t].session})
  {
    assert Idle(c, c.holders[t], t);
    DownWake(c, woken, c.holders[t].session, AwaitDetach(t), ReadyAfterDetach);
    hide Wake, Down;
  }

  /** A rejected detach of a lease of a past generation. */
  lemma DownDetachSettled(c: Client, t: Token)
    requires Down(c) && t in c.holders && c.holders[t].phase.Releasing?
    ensures Down(DetachSettled(c, t, false))
  {
    var woken := c.(holders := Wake(c.holders, c.holders[t].session, AwaitDetach(t), ReadyAfterDetach));
    DownLanded(c, t, woken);
    assert Idle(c, c.holders[t], t);
    hide Wake, Down, Landed;
    assert DetachSettled(c, t, false) == SetPhase(Landed(c, t), t, Over);
    DownLand(woken, t);
  }

  /** A detach confirmed before the disconnect: the release gives back a share that is not its own any more, which
      leaves fewer on record. */
  lemma DownDetached(c: Client, t: Token)
    requires Down(c) && t in c.holders && c.holders[t].phase.Releasing?
    ensures Down(AfterDetached(c, t))
  {
    var s := c.holders[t].session;
    var woken := c.(holders := Wake(c.holders, s, AwaitDetach(t), ReadyAfterDetach));
    DownLanded(c, t, woken);
    hide Wake, Landed;
    DownLand(woken, t);
    var landed := SetPhase(woken.(detaching := woken.detaching - {s}), t, Over);
    assert AfterDetached(c, t) == landed.(books := Unreserve(c.books, s, t));
    DownUnreserve(landed, t);
  }

  lemma DownUnreserve(c: Client, t: Token)
    requires Down(c) && t in c.holders && c.holders[t].phase.Over?
    ensures Down(c.(books := Unreserve(c.books, c.holders[t].session, t)))
  {
    var s := c.holders[t].session;
    var c' := c.(books := Unreserve(c.books, s, t));
    assert Covered(c, s);
    assert t !in WaitingOn(c.holders, s);
    assert c.holders[t := c.holders[t]] == c.holders;
    DownPut(c, c', t, c.holders[t]);
  }

  lemma DownLand(c: Client, t: Token)
    requires Down(c) && t in c.holders && c.holders[t].phase.Releasing?
    ensures Down(SetPhase(c.(detaching := c.detaching - {c.holders[t].session}), t, Over))
  {
    var s := c.holders[t].session;
    var c' := SetPhase(c.(detaching := c.detaching - {s}), t, Over);
    assert Idle(c, c.holders[t], t);
    forall x: SessionId
      ensures Covered(c', x)
    {
      assert Covered(c, x);
      assert WaitingOn(c'.holders, x) == WaitingOn(c.holders, x);
    }
    hide Covered, Generation;
    forall u | u in c'.holders
      ensures Idle(c', c'.holders[u], u)
    {
      if u != t {
        assert Idle(c, c.holders[u], u);
      }
    }
  }

  /** Another disconnect: what waits is forgotten again. */
  lemma DownAgain(c: Client)
    requires Down(c)
    ensures Down(Step(c, EDisconnected))
  {
    var c' := Step(c, EDisconnected);
    forall x: SessionId
      ensures Covered(c', x) && Generation(c'.books, x) >= Generation(c.books, x)
    {
      assert Covered(c, x);
    }
    hide Covered, Generation, Step;
    forall u | u in c'.holders
      ensures Idle(c', c'.holders[u], u)
    {
      assert Idle(c, c.holders[u], u);
    }
  }

  /** While disconnected nothing that happens makes a lease live. */
  lemma DownKeeps(c: Client, e: Event)
    requires Down(c) && !c.connected && !e.EConnected?
    ensures Down(Step(c, e)) && !Step(c, e).connected
  {
    hide Down;
    match e
    case EAcquire(t, s, mode) => if t !in c.holders { DownAcquire(c, t, s, mode); }
    case EContinue(t) => if t in c.holders && MayGoOn(c, t) { DownContinue(c, t); }
    case ERelease(t, relinquish) => if t in c.holders { DownRelease(c, t, relinquish); }
    case EDetachSettled(t, ok) => if DetachSettles(c, t, ok) { DownDetachSettled(c, t); }
    case EReconcileSettled(s, ok) => if !ok { DownWake(c, ReconcileSettled(c, s, ok), s, AwaitReconcile, ReadyFailed); }
    case EAttachSettled(s, ok) => if !ok { DownWake(c, AttachSettled(c, s, ok), s, AwaitAttach, ReadyFailed); }
    case EDisconnected => DownAgain(c);
    case _ =>
  }

  /** Once everything rejected has given up, the books are right again. */
  lemma Recovered(c: Client, c': Client)
    requires Down(c) && Quiet(c) && c'.books == c.books && c'.holders == c.holders && c'.detaching == c.detaching
    ensures Inv(c')
  {
    forall s: SessionId
      ensures SessionOk(c', s)
    {
      assert Covered(c, s);
      assert WaitingOn(c.holders, s) == {};
      forall t | t in c.holders
        ensures t !in Sharers(c', s)
      {
        assert Idle(c, c.holders[t], t);
      }
      assert Sharers(c', s) == {};
    }
    hide Generation, Covered;
    forall t | t in c'.holders
      ensures PhaseOk(c', c'.holders[t], t)
    {
      assert Idle(c, c.holders[t], t);
    }
    hide SessionOk, Idle;
  }

  /** The only events a timely run has beyond an orderly one are disconnects, and removals while disconnected. */
  lemma TimelyStepIsOrderly(c: Client, e: Event)
    requires c.connected && Timely(c, e) && !e.EDisconnected?
    ensures Orderly(c, e)
  {
  }

  lemma SteadyStep(c: Client, e: Event)
    requires Steady(c) && Timely(c, e)
    ensures Steady(Step(c, e))
  {
    if !c.connected {
      if e.EConnected? {
        Recovered(c, Step(c, e));
      } else {
        DownKeeps(c, e);
      }
    } else if e.EDisconnected? {
      DisconnectKeeps(c);
    } else {
      TimelyStepIsOrderly(c, e);
      StepKeeps(c, e);
      StaysConnected(c, e);
    }
    hide Down, Inv, Timely;
  }

  lemma StaysConnected(c: Client, e: Event)
    requires c.connected && !e.EDisconnected?
    ensures Step(c, e).connected
  {
  }

  lemma StartSteady()
    ensures Steady(START)
  {
    forall s: SessionId
      ensures Covered(START, s)
    {
      assert WaitingOn(START.holders, s) == {};
    }
  }

  lemma TimelyPrefix(c: Client, events: seq<Event>)
    requires TimelyRun(c, events) && events != []
    ensures TimelyRun(c, events[..|events| - 1]) && Timely(Run(c, events[..|events| - 1]), events[|events| - 1])
  {
    var k := |events| - 1;
    forall i | 0 <= i < k
      ensures Timely(Run(c, events[..k][..i]), events[..k][i])
    {
      assert events[..k][..i] == events[..i];
    }
  }

  /** Every timely run, with any number of disconnects and reconnects whatever is under way then, has its books right
      whenever it is connected, and no live lease while it is not. */
  lemma {:induction false} TimelyRunKeeps(events: seq<Event>)
    requires TimelyRun(START, events)
    ensures var c := Run(START, events);
      Steady(c) && (c.connected ==> Inv(c)) && (!c.connected ==> forall t :: !Live(c, t))
  {
    if events == [] {
      StartSteady();
    } else {
      TimelyPrefix(START, events);
      TimelyRunKeeps(events[..|events| - 1]);
      SteadyStep(Run(START, events[..|events| - 1]), events[|events| - 1]);
    }
    hide Inv, TimelyRun, Step, Timely;
    NoneLive(Run(START, events));
  }

  lemma NoneLive(c: Client)
    requires Steady(c)
    ensures !c.connected ==> forall t :: !Live(c, t)
  {
    if !c.connected {
      forall t
        ensures !Live(c, t)
      {
        if t in c.holders {
          assert Idle(c, c.holders[t], t);
        }
      }
    }
  }

  /** The event ends every lease of the session. */
  predicate Strikes(e: Event, s: SessionId) {
    e == EDisconnected || e == ERemoved(s)
  }

  lemma StruckBooks(c: Client, e: Event, s: SessionId)
    requires Inv(c) && c.connected && Strikes(e, s)
    ensures var c' := Step(c, e);
      && c'.holders == c.holders && s !in c'.attached && s !in c'.books.cleanup
      && Count(c'.books, s) == 0 && Owner(c'.books, s).None? && (e.EDisconnected? ==> !c'.connected)
      && Generation(c'.books, s)
         == Generation(c.books, s) + (if e.EDisconnected? && Count(c.books, s) == 0 then 0 else 1)
  {
    assert SessionOk(c, s);
    HitBooks(c, e, s);
    if e.EDisconnected? {
      DisconnectForgets(c, s);
    }
    hide Sharers, Generation;
  }

  /** An attach answered just before a disconnect or a removal: its continuation makes a lease live that has no share
      in any count and is on no attached session. */
  lemma LateAttach(c: Client, e: Event, t: Token)
    requires Inv(c) && c.connected && t in c.holders && c.holders[t].phase == ReadyAttached
    requires Strikes(e, c.holders[t].session) && MayGoOn(c, t)
    ensures var c' := Step(Step(c, e), EContinue(t));
      && Live(c', t) && c'.holders[t].session !in c'.attached && (e.EDisconnected? ==> !c'.connected)
      && Count(c'.books, c'.holders[t].session) == 0 && !Inv(c')
  {
    var s, struck := c.holders[t].session, Step(c, e);
    StruckBooks(c, e, s);
    assert MayGoOn(struck, t);
    var c' := Step(struck, EContinue(t));
    assert c' == CreateLease(struck, t);
    assert Generation(c'.books, s) == Generation(struck.books, s);
    assert t in Sharers(c', s);
    assert !SessionOk(c', s);
    hide Generation, Inv;
  }

  /** A create answered just before a disconnect or a removal: its continuation makes an exclusive lease live on a
      session that is not attached. No acquire of the session is granted then, and the lease cannot be released. */
  lemma LateCreate(c: Client, e: Event, t: Token)
    requires Inv(c) && c.connected && t in c.holders && c.holders[t].phase == CreateAnswered
    requires Strikes(e, c.holders[t].session)
    ensures var s, c' := c.holders[t].session, Step(Step(c, e), EContinue(t));
      && Live(c', t) && c'.holders[t] == Holder(s, Exclusive, c'.holders[t].phase) && s !in c'.attached
      && Count(c'.books, s) == 1 && Owner(c'.books, s) == Some(t) && (e.EDisconnected? ==> !c'.connected)
      && (forall u, mode :: Step(c', EAcquire(u, s, mode)) == c')
      && (forall relinquish :: Step(c', ERelease(t, relinquish)) == c')
  {
    var s, struck := c.holders[t].session, Step(c, e);
    StruckBooks(c, e, s);
    assert PhaseOk(c, c.holders[t], t);
    hide Inv;
    assert Step(struck, EContinue(t)) == AfterCreate(struck, t);
    GrantedCreate(struck, t);
    hide AfterCreate, Count, Generation;
  }

  lemma GrantedCreate(c: Client, t: Token)
    requires t in c.holders && c.holders[t].phase == CreateAnswered && c.holders[t].mode == Exclusive
    requires var s := c.holders[t].session; Count(c.books, s) == 0 && s !in c.attached
    ensures var s, c' := c.holders[t].session, AfterCreate(c, t);
      && Live(c', t) && c'.holders[t] == Holder(s, Exclusive, c'.holders[t].phase) && c'.attached == c.attached
      && Count(c'.books, s) == 1 && Owner(c'.books, s) == Some(t) && c'.connected == c.connected
      && (forall mode :: Refuses(c'.books, s, mode))
      && (forall relinquish :: Release(c', t, relinquish) == c')
  {
  }

  /** Nothing but an answered attach or create makes a lease live where the session is not attached. */
  lemma OthersMakeNone(c: Client, t: Token)
    requires t in c.holders && c.holders[t].session !in c.attached && !Answered(c, t) && !Live(c, t)
    ensures !Live(Step(c, EContinue(t)), t)
  {
    hide Unreserve, Landed;
  }

  /** The exact condition for a disconnect or a removal to leave no lease live, whichever call goes on next: no attach
      and no create it strikes was answered without having gone on. */
  lemma InvalidationClosesAllIff(c: Client, e: Event)
    requires Inv(c) && c.connected && (e.EDisconnected? || e.ERemoved?)
    ensures (forall t :: Answered(c, t) ==> !Strikes(e, c.holders[t].session)) <==>
      forall t | t in c.holders && Strikes(e, c.holders[t].session) :: !Live(Step(Step(c, e), EContinue(t)), t)
  {
    if t :| Answered(c, t) && Strikes(e, c.holders[t].session) {
      if u :| u in c.holders && c.holders[u].session == c.holders[t].session && c.holders[u].phase == CreateAnswered {
        LateCreate(c, e, u);
      } else {
        LateAttach(c, e, t);
      }
    } else {
      forall t | t in c.holders && Strikes(e, c.holders[t].session)
        ensures !Live(Step(Step(c, e), EContinue(t)), t)
      {
        StruckBooks(c, e, c.holders[t].session);
        StruckIsStale(c, e, t);
        OthersMakeNone(Step(c, e), t);
        hide Step, Inv, Live;
      }
    }
  }

  lemma StruckIsStale(c: Client, e: Event, t: Token)
    requires Inv(c) && c.connected && t in c.holders && Strikes(e, c.holders[t].session)
    ensures !Live(Step(c, e), t)
  {
    var s := c.holders[t].session;
    StruckBooks(c, e, s);
    assert SessionOk(c, s) && PhaseOk(c, c.holders[t], t);
    if Live(c, t) {
      assert t in Sharers(c, s);
    }
    hide Step, Generation, Count;
  }

  /** What is left of the attachment invariant while disconnected: whoever asked is still waiting for the answer. */
  ghost predicate Asked(c: Client) {
    forall s: SessionId ::
      (s in c.attaching ==> SomeoneIn(c, s, AwaitAttach)) && (s in c.reconciling ==> SomeoneIn(c, s, AwaitReconcile))
  }

  ghost predicate SteadilyAttached(c: Client) {
    if c.connected then Attached(c) else Asked(c)
  }

  lemma SomeonePut(c: Client, c': Client, t: Token, h: Holder, s: SessionId, p: Phase)
    requires c'.holders == c.holders[t := h] && SomeoneIn(c, s, p)
    requires t in c.holders ==> c.holders[t].phase != p
    ensures SomeoneIn(c', s, p)
  {
    var u :| u in c.holders && c.holders[u].session == s && c.holders[u].phase == p;
    assert u in c'.holders && c'.holders[u].phase == p;
  }

  /** A holder that waited for no answer moves on; perhaps it asks for an attach now. */
  lemma AskedPut(c: Client, c': Client, t: Token, h: Holder)
    requires Asked(c) && c'.holders == c.holders[t := h] && c'.reconciling == c.reconciling
    requires t in c.holders ==> c.holders[t].phase != AwaitAttach && c.holders[t].phase != AwaitReconcile
    requires c'.attaching == c.attaching || (h.phase == AwaitAttach && c'.attaching == c.attaching + {h.session})
    ensures Asked(c')
  {
    forall s: SessionId
      ensures s in c'.attaching ==> SomeoneIn(c', s, AwaitAttach)
      ensures s in c'.reconciling ==> SomeoneIn(c', s, AwaitReconcile)
    {
      if s in c.attaching {
        SomeonePut(c, c', t, h, s, AwaitAttach);
      }
      if s in c.reconciling {
        SomeonePut(c, c', t, h, s, AwaitReconcile);
      }
      if s in c'.attaching && s !in c.attaching {
        assert t in c'.holders && c'.holders[t].phase == AwaitAttach;
      }
      hide SomeoneIn;
    }
    hide SomeoneIn;
  }

  lemma SomeoneWake(c: Client, c': Client, x: SessionId, from: Phase, to: Phase, s: SessionId, p: Phase)
    requires c'.holders == Wake(c.holders, x, from, to) && SomeoneIn(c, s, p) && (s != x || p != from)
    ensures SomeoneIn(c', s, p)
  {
    var u :| u in c.holders && c.holders[u].session == s && c.holders[u].phase == p;
    assert u in c'.holders && c'.holders[u] == c.holders[u];
  }

  lemma AskedWake(c: Client, c': Client, x: SessionId, from: Phase, to: Phase)
    requires Asked(c) && c'.holders == Wake(c.holders, x, from, to)
    requires c'.attaching == if from == AwaitAttach then c.attaching - {x} else c.attaching
    requires c'.reconciling == if from == AwaitReconcile then c.reconciling - {x} else c.reconciling
    ensures Asked(c')
  {
    forall s: SessionId
      ensures s in c'.attaching ==> SomeoneIn(c', s, AwaitAttach)
      ensures s in c'.reconciling ==> SomeoneIn(c', s, AwaitReconcile)
    {
      if s in c'.attaching {
        SomeoneWake(c, c', x, from, to, s, AwaitAttach);
      }
      if s in c'.reconciling {
        SomeoneWake(c, c', x, from, to, s, AwaitReconcile);
      }
      hide SomeoneIn;
    }
    hide SomeoneIn;
  }

  lemma AskedLanded(c: Client, c': Client, t: Token)
    requires Asked(c) && t in c.holders && c.holders[t].phase.Releasing? && t in c'.holders
    requires c'.holders == Landed(c, t).holders[t := c'.holders[t]]
    requires c'.attaching == c.attaching && c'.reconciling == c.reconciling
    ensures Asked(c')
  {
    var s := c.holders[t].session;
    var woken := c.(holders := Wake(c.holders, s, AwaitDetach(t), ReadyAfterDetach));
    AskedWake(c, woken, s, AwaitDetach(t), ReadyAfterDetach);
    assert woken.holders[t] == c.holders[t];
    AskedPut(woken, c', t, c'.holders[t]);
    hide Asked, Wake;
  }

  lemma AskedDetachSettled(c: Client, t: Token)
    requires Asked(c) && t in c.holders && c.holders[t].phase.Releasing?
    ensures Asked(DetachSettled(c, t, false)) && Asked(AfterDetached(c, t))
  {
    assert Landed(c, t).holders[t] == c.holders[t];
    hide Asked, Wake;
    AskedLanded(c, DetachSettled(c, t, false), t);
    AskedLanded(c, AfterDetached(c, t), t);
  }

  lemma AskedAcquire(c: Client, t: Token, s: SessionId, mode: Mode)
    requires Asked(c) && Down(c) && t !in c.holders
    ensures Asked(Acquire(c, t, s, mode))
  {
    hide Asked, Refuses, DetachesNamed, Idle, Covered, Count;
    var c' := Acquire(c, t, s, mode);
    if !Refuses(c.books, s, mode) {
      AskedPut(c, c', t, c'.holders[t]);
    }
  }

  lemma AskedContinue(c: Client, t: Token)
    requires Asked(c) && Down(c) && t in c.holders
    ensures Asked(Continue(c, t))
  {
    var c' := Continue(c, t);
    assert Idle(c, c.holders[t], t);
    if Ready(c.holders[t].phase) {
      AskedPut(c, c', t, c'.holders[t]);
    } else if c.holders[t].phase.Releasing? && c.holders[t].phase.confirmed {
      AskedDetachSettled(c, t);
    }
    hide Asked, Unreserve, Generation, Idle, AfterDetached;
  }

  lemma AskedRelease(c: Client, t: Token, relinquish: bool)
    requires Asked(c) && Down(c) && t in c.holders
    ensures Asked(Release(c, t, relinquish))
  {
    assert Idle(c, c.holders[t], t);
    if c.holders[t].phase.Active? {
      AskedPut(c, SetPhase(c, t, Over), t, c.holders[t].(phase := Over));
    }
    hide Asked, Generation;
  }

  lemma AskedKeeps(c: Client, e: Event)
    requires Asked(c) && Down(c) && !c.connected && !e.EConnected?
    ensures Asked(Step(c, e))
  {
    hide Asked, Down;
    match e
    case EAcquire(t, s, mode) => if t !in c.holders { AskedAcquire(c, t, s, mode); }
    case EContinue(t) => if t in c.holders && MayGoOn(c, t) { AskedContinue(c, t); }
    case ERelease(t, relinquish) => if t in c.holders { AskedRelease(c, t, relinquish); }
    case EDetachSettled(t, ok) => if DetachSettles(c, t, ok) { AskedDetachSettled(c, t); }
    case EReconcileSettled(s, ok) =>
      if !ok { AskedWake(c, ReconcileSettled(c, s, ok), s, AwaitReconcile, ReadyFailed); }
    case EAttachSettled(s, ok) => if !ok { AskedWake(c, AttachSettled(c, s, ok), s, AwaitAttach, ReadyFailed); }
    case EDisconnected => AskedSame(c, Step(c, e));
    case _ =>
  }

  lemma AskedSame(c: Client, c': Client)
    requires Asked(c) && c'.holders == c.holders && c'.attaching == c.attaching && c'.reconciling == c.reconciling
    ensures Asked(c')
  {
    forall s: SessionId
      ensures SomeoneIn(c', s, AwaitAttach) == SomeoneIn(c, s, AwaitAttach)
      ensures SomeoneIn(c', s, AwaitReconcile) == SomeoneIn(c, s, AwaitReconcile)
    {
    }
    hide SomeoneIn;
  }

  lemma AttachedAsks(c: Client)
    requires Attached(c)
    ensures Asked(Step(c, EDisconnected))
  {
    forall s: SessionId
      ensures s in c.attaching ==> SomeoneIn(c, s, AwaitAttach)
      ensures s in c.reconciling ==> SomeoneIn(c, s, AwaitReconcile)
    {
      assert AttachOk(c, s);
      hide SomeoneIn, TokenOk, WaitsOrReleases;
    }
    AskedSame(c, Step(c, EDisconnected));
  }

  /** A new connection, with nothing under way and nothing attached. */
  lemma AttachedAfresh(c: Client, c': Client, s: SessionId)
    requires Asked(c) && Down(c) && Quiet(c) && c'.connected && c' == c.(connected := true, attached := {})
    ensures AttachOk(c', s)
  {
    assert s !in c.detaching;
    assert !SomeoneIn(c, s, AwaitAttach) && !SomeoneIn(c, s, AwaitReconcile);
    hide SomeoneIn, Generation, Covered;
    forall t | t in c'.holders
      ensures TokenOk(c', c'.holders[t])
    {
      assert Idle(c, c.holders[t], t);
    }
    hide TokenOk;
  }

  lemma SteadilyAttachedStep(c: Client, e: Event)
    requires Steady(c) && SteadilyAttached(c) && Timely(c, e) && Confined(c, e)
    ensures SteadilyAttached(Step(c, e))
  {
    if !c.connected {
      if e.EConnected? {
        forall s: SessionId
          ensures AttachOk(Step(c, e), s)
        {
          AttachedAfresh(c, Step(c, e), s);
        }
      } else {
        DownKeeps(c, e);
        AskedKeeps(c, e);
      }
    } else if e.EDisconnected? {
      AttachedAsks(c);
    } else {
      TimelyStepIsOrderly(c, e);
      StaysConnected(c, e);
      forall s: SessionId
        ensures AttachOk(Step(c, e), s)
      {
        StepAttached(c, e, s);
      }
    }
    hide AttachOk, Asked, Down, Inv, Timely, Confined;
  }

  /** Every timely and confined run keeps the attachment invariant whenever it is connected. */
  lemma {:induction false} TimelyRunAttached(events: seq<Event>)
    requires TimelyRun(START, events) && ConfinedRun(START, events)
    ensures var c := Run(START, events);
      SteadilyAttached(c) && (c.connected ==> Attached(c))
  {
    if events != [] {
      var k := |events| - 1;
      TimelyPrefix(START, events);
      forall i | 0 <= i < k
        ensures Confined(Run(START, events[..k][..i]), events[..k][i])
      {
        assert events[..k][..i] == events[..i];
      }
      TimelyRunKeeps(events[..k]);
      TimelyRunAttached(events[..k]);
      SteadilyAttachedStep(Run(START, events[..k]), events[k]);
    }
    hide Attached, Asked, TimelyRun, Confined, Timely, Steady, Step;
  }
}
