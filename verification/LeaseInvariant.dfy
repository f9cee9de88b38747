/** Ownership: in every orderly run a session's count is the number of its live leases and of the acquires and
    releases under way, and an exclusive lease is alone. */
module LeaseInvariant {
  import opened Seqs
  import opened Leases

  /** Whether a holder has a share in its session's count, given the session's current generation. */
  predicate Counts(p: Phase, g: nat) {
    match p
    case Over => false
    case Active(generation) => generation == g
    case CreateAnswered => false
    case Releasing(generation, _, _) => generation == g
    case _ => true
  }

  function Tally(holders: map<Token, Holder>, s: SessionId, g: nat): set<Token> {
    set t | t in holders && holders[t].session == s && Counts(holders[t].phase, g)
  }

  function Sharers(c: Client, s: SessionId): set<Token> {
    Tally(c.holders, s, Generation(c.books, s))
  }

  /** A lease a caller can use. */
  predicate Live(c: Client, t: Token) {
    && t in c.holders && c.holders[t].phase.Active?
    && c.holders[t].phase.generation == Generation(c.books, c.holders[t].session)
  }

  function Owner(b: Books, s: SessionId): Option<Token> {
    if s in b.exclusive then Some(b.exclusive[s]) else None
  }

  /** The count is the number of sharers; an exclusive token is the only sharer; an exclusive sharer is on record. */
  ghost predicate Balanced(count: nat, owner: Option<Token>, sharers: set<Token>, holders: map<Token, Holder>) {
    && count == |sharers|
    && (owner.Some? ==> sharers == {owner.value} && owner.value in holders && holders[owner.value].mode == Exclusive)
    && (forall t | t in sharers && t in holders && holders[t].mode == Exclusive :: owner == Some(t))
  }

  ghost predicate SessionOk(c: Client, s: SessionId) {
    Balanced(Count(c.books, s), Owner(c.books, s), Sharers(c, s), c.holders)
  }

  /** A release under way is current and is its session's detach in flight; no lease is from the future; a create
      makes an exclusive lease. */
  predicate PhaseOk(c: Client, h: Holder, t: Token) {
    match h.phase
    case Active(g) => g <= Generation(c.books, h.session)
    case Releasing(g, _, _) =>
      g == Generation(c.books, h.session) && h.session in c.detaching && c.detaching[h.session] == t
    case CreateAnswered => h.mode == Exclusive
    case _ => true
  }

  ghost predicate FlightsOk(c: Client) {
    && (forall t | t in c.holders :: PhaseOk(c, c.holders[t], t))
    && (forall s | s in c.detaching :: c.detaching[s] in c.holders && c.holders[c.detaching[s]].session == s
                                       && c.holders[c.detaching[s]].phase.Releasing?)
  }

  ghost predicate Inv(c: Client) {
    && (forall s: SessionId :: SessionOk(c, s))
    && FlightsOk(c)
  }

  ghost predicate SameGenerations(b: Books, b': Books) {
    forall s: SessionId :: Generation(b', s) == Generation(b, s)
  }

  ghost predicate SameBooks(b: Books, b': Books) {
    b'.counts == b.counts && b'.exclusive == b.exclusive && SameGenerations(b, b')
  }

  lemma TallyPut(holders: map<Token, Holder>, t: Token, h: Holder, s: SessionId, g: nat)
    ensures Tally(holders[t := h], s, g)
         == (Tally(holders, s, g) - {t}) + (if h.session == s && Counts(h.phase, g) then {t} else {})
  {
  }

  lemma TallyWake(holders: map<Token, Holder>, s: SessionId, from: Phase, to: Phase, s': SessionId, g: nat)
    requires Counts(from, g) == Counts(to, g)
    ensures Tally(Wake(holders, s, from, to), s', g) == Tally(holders, s', g)
  {
  }

  /** Only the session of the changed holder is touched. */
  lemma Elsewhere(c: Client, c': Client, t: Token, h: Holder, x: SessionId)
    requires SessionOk(c, x) && x != h.session && (t in c.holders ==> c.holders[t].session == h.session)
    requires c'.holders == c.holders[t := h] && Generation(c'.books, x) == Generation(c.books, x)
    requires Count(c'.books, x) == Count(c.books, x) && Owner(c'.books, x) == Owner(c.books, x)
    ensures SessionOk(c', x)
  {
    TallyPut(c.holders, t, h, x, Generation(c.books, x));
    assert t !in Sharers(c, x);
    hide Tally, Generation, Count, Owner;
  }

  lemma Rebalance(count: nat, owner: Option<Token>, sharers: set<Token>, holders: map<Token, Holder>,
      holders': map<Token, Holder>)
    requires Balanced(count, owner, sharers, holders) && sharers <= holders.Keys <= holders'.Keys
    requires forall t | t in holders :: holders'[t].mode == holders[t].mode
    ensures Balanced(count, owner, sharers, holders')
  {
  }

  /** A sharer stays a sharer, and who has no share gets none. */
  lemma StaysHere(c: Client, c': Client, t: Token, h: Holder)
    requires SessionOk(c, h.session)
    requires t in c.holders ==> c.holders[t].session == h.session && c.holders[t].mode == h.mode
    requires c'.holders == c.holders[t := h] && Generation(c'.books, h.session) == Generation(c.books, h.session)
    requires Count(c'.books, h.session) == Count(c.books, h.session)
        && Owner(c'.books, h.session) == Owner(c.books, h.session)
    requires (t in c.holders && Counts(c.holders[t].phase, Generation(c.books, h.session)))
          == Counts(h.phase, Generation(c.books, h.session))
    ensures SessionOk(c', h.session)
  {
    var s := h.session;
    SharersStay(c.holders, t, h, Generation(c.books, s));
    hide Tally, Generation, Count, Owner, Counts, Balanced;
    Rebalance(Count(c.books, s), Owner(c.books, s), Sharers(c, s), c.holders, c'.holders);
  }

  lemma SharersStay(holders: map<Token, Holder>, t: Token, h: Holder, g: nat)
    requires t in holders ==> holders[t].session == h.session
    requires (t in holders && Counts(holders[t].phase, g)) == Counts(h.phase, g)
    ensures Tally(holders[t := h], h.session, g) == Tally(holders, h.session, g) <= holders.Keys
  {
    TallyPut(holders, t, h, h.session, g);
    assert t in Tally(holders, h.session, g) <==> t in holders && Counts(holders[t].phase, g);
    assert Tally(holders, h.session, g) <= holders.Keys;
    hide Tally, Counts;
  }

  lemma EntersHere(c: Client, c': Client, t: Token, h: Holder)
    requires SessionOk(c, h.session) && !Refuses(c.books, h.session, h.mode)
    requires t in c.holders ==>
      c.holders[t].session == h.session && !Counts(c.holders[t].phase, Generation(c.books, h.session))
    requires c'.holders == c.holders[t := h] && Counts(h.phase, Generation(c.books, h.session))
    requires Generation(c'.books, h.session) == Generation(c.books, h.session)
    requires Count(c'.books, h.session) == Count(c.books, h.session) + 1
    requires Owner(c'.books, h.session) == if h.mode == Exclusive then Some(t) else Owner(c.books, h.session)
    ensures SessionOk(c', h.session)
  {
    var s, g := h.session, Generation(c.books, h.session);
    TallyPut(c.holders, t, h, s, g);
    assert t !in Sharers(c, s);
    assert Owner(c.books, s).Some? ==> |Sharers(c, s)| == 1;
    assert h.mode == Exclusive ==> Sharers(c, s) == {};
    hide Tally, Generation, Count, Owner, Counts, Refuses;
    assert Sharers(c', s) == Sharers(c, s) + {t};
  }

  lemma LeavesHere(c: Client, c': Client, t: Token, h: Holder)
    requires SessionOk(c, h.session) && t in c.holders && c.holders[t].session == h.session
        && c.holders[t].mode == h.mode
    requires c'.holders == c.holders[t := h] && !Counts(h.phase, Generation(c.books, h.session))
    requires Counts(c.holders[t].phase, Generation(c.books, h.session))
    requires Generation(c'.books, h.session) == Generation(c.books, h.session)
    requires Count(c'.books, h.session) == if Count(c.books, h.session) <= 1 then 0 else Count(c.books, h.session) - 1
    requires Owner(c'.books, h.session)
          == if Owner(c.books, h.session) == Some(t) then None else Owner(c.books, h.session)
    ensures SessionOk(c', h.session)
  {
    var s, g := h.session, Generation(c.books, h.session);
    TallyPut(c.holders, t, h, s, g);
    assert t in Sharers(c, s);
    hide Tally, Generation, Count, Owner, Counts;
    assert Sharers(c', s) == Sharers(c, s) - {t};
  }

  lemma AllSessions(c: Client, c': Client, t: Token, h: Holder)
    requires (forall x: SessionId :: SessionOk(c, x)) && SessionOk(c', h.session)
    requires t in c.holders ==> c.holders[t].session == h.session
    requires c'.holders == c.holders[t := h] && SameGenerations(c.books, c'.books)
    requires forall x: SessionId :: x != h.session ==>
      Count(c'.books, x) == Count(c.books, x) && Owner(c'.books, x) == Owner(c.books, x)
    ensures forall x: SessionId :: SessionOk(c', x)
  {
    forall x: SessionId
      ensures SessionOk(c', x)
    {
      if x != h.session {
        Elsewhere(c, c', t, h, x);
      }
    }
  }

  /** The detaches in flight stay as they are, and the changed holder is not part of one. */
  lemma FlightsKeep(c: Client, c': Client, t: Token, h: Holder)
    requires FlightsOk(c) && c'.holders == c.holders[t := h] && c'.detaching == c.detaching
        && SameGenerations(c.books, c'.books)
    requires t in c.holders ==> c.holders[t].session == h.session && !c.holders[t].phase.Releasing?
    requires !h.phase.Releasing? && (h.phase.Active? ==> h.phase.generation <= Generation(c.books, h.session))
    requires h.phase.CreateAnswered? ==> h.mode == Exclusive
    ensures FlightsOk(c')
  {
    hide Generation;
  }

  /** Nothing the invariant looks at changes. */
  lemma Inert(c: Client, c': Client)
    requires Inv(c) && SameBooks(c.books, c'.books) && c'.holders == c.holders && c'.detaching == c.detaching
    ensures Inv(c')
  {
    forall s: SessionId
      ensures SessionOk(c', s)
    {
      assert SessionOk(c, s);
    }
    hide Tally, Generation;
  }

  /** A holder goes from one sharing phase to another, or changes a phase that has no share for one that has none. */
  lemma Moves(c: Client, c': Client, t: Token, h: Holder)
    requires Inv(c) && !h.phase.Releasing?
    requires t in c.holders ==>
      c.holders[t].session == h.session && c.holders[t].mode == h.mode && !c.holders[t].phase.Releasing?
    requires c'.holders == c.holders[t := h] && c'.detaching == c.detaching && SameBooks(c.books, c'.books)
    requires (t in c.holders && Counts(c.holders[t].phase, Generation(c.books, h.session)))
          == Counts(h.phase, Generation(c.books, h.session))
    requires h.phase.Active? ==> h.phase.generation <= Generation(c.books, h.session)
    requires h.phase.CreateAnswered? ==> h.mode == Exclusive
    ensures Inv(c')
  {
    StaysHere(c, c', t, h);
    AllSessions(c, c', t, h);
    FlightsKeep(c, c', t, h);
  }

  /** A reservation that is not refused. */
  lemma Enters(c: Client, c': Client, t: Token, h: Holder)
    requires Inv(c) && !Refuses(c.books, h.session, h.mode)
    requires t in c.holders ==> c.holders[t].session == h.session && c.holders[t].phase.CreateAnswered?
    requires c'.holders == c.holders[t := h] && c'.detaching == c.detaching
        && SameBooks(Reserve(c.books, h.session, t, h.mode), c'.books)
    requires Counts(h.phase, Generation(c.books, h.session)) && !h.phase.Releasing?
    requires h.phase.Active? ==> h.phase.generation <= Generation(c.books, h.session)
    ensures Inv(c')
  {
    EntersHere(c, c', t, h);
    AllSessions(c, c', t, h);
    FlightsKeep(c, c', t, h);
  }

  /** A sharer that is not releasing leaves. */
  lemma GiveUpKeeps(c: Client, t: Token)
    requires Inv(c) && t in c.holders && Counts(c.holders[t].phase, Generation(c.books, c.holders[t].session))
    requires !c.holders[t].phase.Releasing?
    ensures Inv(GiveUp(c, t))
  {
    var c', h := GiveUp(c, t), c.holders[t].(phase := Over);
    LeavesHere(c, c', t, h);
    AllSessions(c, c', t, h);
    FlightsKeep(c, c', t, h);
  }

  predicate Waiting(p: Phase) {
    UnderWay(p) && !p.Releasing?
  }

  /** Waiting holders move on together. */
  lemma WakeHere(c: Client, c': Client, s: SessionId, from: Phase, to: Phase, x: SessionId)
    requires SessionOk(c, x) && Waiting(from) && Waiting(to)
    requires c'.holders == Wake(c.holders, s, from, to) && SameBooks(c.books, c'.books)
    ensures SessionOk(c', x)
  {
    TallyWake(c.holders, s, from, to, x, Generation(c.books, x));
    assert Count(c'.books, x) == Count(c.books, x) && Owner(c'.books, x) == Owner(c.books, x);
    assert c'.holders.Keys == c.holders.Keys && forall t | t in c'.holders :: c'.holders[t].mode == c.holders[t].mode;
    assert Sharers(c, x) <= c.holders.Keys;
    hide Tally, Generation, Count, Owner, Balanced, Wake;
    Rebalance(Count(c.books, x), Owner(c.books, x), Sharers(c, x), c.holders, c'.holders);
  }

  lemma WakeFlights(c: Client, c': Client, s: SessionId, from: Phase, to: Phase)
    requires FlightsOk(c) && Waiting(from) && Waiting(to)
    requires c'.holders == Wake(c.holders, s, from, to) && c'.detaching == c.detaching
        && SameGenerations(c.books, c'.books)
    ensures FlightsOk(c')
  {
    hide Generation;
    forall t | t in c'.holders
      ensures PhaseOk(c', c'.holders[t], t)
    {
      assert PhaseOk(c, c.holders[t], t);
    }
  }

  lemma WakeKeeps(c: Client, c': Client, s: SessionId, from: Phase, to: Phase)
    requires Inv(c) && Waiting(from) && Waiting(to)
    requires c'.holders == Wake(c.holders, s, from, to) && c'.detaching == c.detaching && SameBooks(c.books, c'.books)
    ensures Inv(c')
  {
    forall x: SessionId
      ensures SessionOk(c', x)
    {
      WakeHere(c, c', s, from, to, x);
    }
    WakeFlights(c, c', s, from, to);
  }

  lemma AfterReconcileKeeps(c: Client, t: Token, reconciled: bool)
    requires Inv(c) && t in c.holders && Waiting(c.holders[t].phase)
    ensures Inv(AfterReconcile(c, t, reconciled))
  {
    var c' := AfterReconcile(c, t, reconciled);
    Moves(c, c', t, c'.holders[t]);
  }

  lemma AfterDetachKeeps(c: Client, t: Token)
    requires Inv(c) && t in c.holders && Waiting(c.holders[t].phase)
    ensures Inv(AfterDetach(c, t))
  {
    if c.holders[t].session in c.books.cleanup {
      var c' := AfterDetach(c, t);
      Moves(c, c', t, c'.holders[t]);
    } else {
      AfterReconcileKeeps(c, t, false);
    }
  }

  lemma AcquireKeeps(c: Client, t: Token, s: SessionId, mode: Mode)
    requires Inv(c) && t !in c.holders
    ensures Inv(Acquire(c, t, s, mode))
  {
    if !Refuses(c.books, s, mode) {
      var h := Holder(s, mode, ReadyAfterDetach);
      var reserved := c.(books := Reserve(c.books, s, t, mode), holders := c.holders[t := h]);
      Enters(c, reserved, t, h);
      if s in c.detaching {
        Moves(reserved, Acquire(c, t, s, mode), t, h.(phase := AwaitDetach(c.detaching[s])));
      } else {
        AfterDetachKeeps(reserved, t);
      }
    }
  }

  lemma CreatedKeeps(c: Client, t: Token, s: SessionId)
    requires Inv(c) && t !in c.holders
    ensures Inv(Created(c, t, s))
  {
    Moves(c, Created(c, t, s), t, Holder(s, Exclusive, CreateAnswered));
  }

  lemma AfterCreateKeeps(c: Client, t: Token)
    requires Inv(c) && t in c.holders && c.holders[t].phase.CreateAnswered?
    ensures Inv(AfterCreate(c, t))
  {
    assert PhaseOk(c, c.holders[t], t);
    var s, c' := c.holders[t].session, AfterCreate(c, t);
    if Refuses(c.books, s, Exclusive) {
      Moves(c, c', t, c.holders[t].(phase := Over));
    } else {
      Enters(c, c', t, c'.holders[t]);
    }
  }

  /** The last sharer sends its detach. */
  lemma SendKeeps(c: Client, t: Token, relinquish: bool)
    requires Inv(c) && t in c.holders && SendsDetach(c, t)
    ensures Inv(Release(c, t, relinquish))
  {
    var c' := Release(c, t, relinquish);
    var h := c'.holders[t];
    StaysHere(c, c', t, h);
    AllSessions(c, c', t, h);
    NoOtherDetach(c, t);
    SendFlights(c, c', t, h);
  }

  lemma SendFlights(c: Client, c': Client, t: Token, h: Holder)
    requires FlightsOk(c) && c'.holders == c.holders[t := h] && c'.detaching == c.detaching[h.session := t]
        && c'.books == c.books
    requires h.phase.Releasing? && h.phase.generation == Generation(c.books, h.session) && h.session !in c.detaching
    requires forall u | u in c.holders && c.holders[u].session == h.session :: !c.holders[u].phase.Releasing?
    requires forall s | s in c.detaching :: c.detaching[s] != t
    ensures FlightsOk(c')
  {
    hide Generation;
  }

  /** The only sharer of a session has no detach of another lease beside it. */
  lemma NoOtherDetach(c: Client, t: Token)
    requires Inv(c) && t in c.holders && SendsDetach(c, t)
    ensures c.holders[t].session !in c.detaching
    ensures forall u | u in c.holders && c.holders[u].session == c.holders[t].session :: !c.holders[u].phase.Releasing?
  {
    var s := c.holders[t].session;
    assert SessionOk(c, s);
    assert t in Sharers(c, s);
    forall u | u in c.holders && c.holders[u].session == s
      ensures !c.holders[u].phase.Releasing?
    {
      if c.holders[u].phase.Releasing? {
        assert PhaseOk(c, c.holders[u], u);
        assert {t, u} <= Sharers(c, s);
        TwoMembers(Sharers(c, s), t, u);
      }
    }
  }

  lemma TwoMembers<T>(s: set<T>, x: T, y: T)
    requires x in s && y in s && x != y
    ensures |s| >= 2
  {
    assert |s - {x} - {y}| == |s| - 2;
  }

  lemma ReleaseKeeps(c: Client, t: Token, relinquish: bool)
    requires Inv(c) && t in c.holders
    ensures Inv(Release(c, t, relinquish))
  {
    var h := c.holders[t];
    if h.phase.Active? {
      if h.phase.generation != Generation(c.books, h.session) {
        Moves(c, Release(c, t, relinquish), t, h.(phase := Over));
      } else if c.connected && h.session in c.attached {
        if SendsDetach(c, t) {
          SendKeeps(c, t, relinquish);
        } else {
          GiveUpKeeps(c, t);
        }
      }
    }
  }

  /** A detach is no longer in flight and its lease is, for now, back where it was. */
  lemma LandKeeps(c: Client, c': Client, t: Token)
    requires Inv(c) && t in c.holders && c.holders[t].phase.Releasing?
    requires c'.holders == c.holders[t := c.holders[t].(phase := Active(c.holders[t].phase.generation))]
    requires c'.detaching == c.detaching - {c.holders[t].session} && c'.books == c.books
    ensures Inv(c')
  {
    var h := c.holders[t].(phase := Active(c.holders[t].phase.generation));
    assert PhaseOk(c, c.holders[t], t);
    StaysHere(c, c', t, h);
    AllSessions(c, c', t, h);
    LandFlights(c, c', t, h);
  }

  lemma LandFlights(c: Client, c': Client, t: Token, h: Holder)
    requires FlightsOk(c) && c'.holders == c.holders[t := h] && c'.detaching == c.detaching - {h.session}
        && c'.books == c.books
    requires h.phase.Active? && h.phase.generation == Generation(c.books, h.session)
    requires t in c.holders && c.holders[t].session == h.session && c.holders[t].phase.Releasing?
    ensures FlightsOk(c')
  {
    hide Generation;
    assert PhaseOk(c, c.holders[t], t);
  }

  /** A lease that is back where it was before it sent its detach. */
  function Rested(c: Client, t: Token): Client
    requires t in c.holders && c.holders[t].phase.Releasing?
  {
    c.(holders := c.holders[t := c.holders[t].(phase := Active(c.holders[t].phase.generation))],
       detaching := c.detaching - {c.holders[t].session})
  }

  function Woken(c: Client, t: Token): Client
    requires t in c.holders
  {
    c.(holders := Wake(c.holders, c.holders[t].session, AwaitDetach(t), ReadyAfterDetach))
  }

  lemma WakePut(holders: map<Token, Holder>, t: Token, h: Holder, s: SessionId, from: Phase, to: Phase)
    requires t in holders && h.phase != from
    ensures Wake(holders[t := h], s, from, to) == Wake(holders, s, from, to)[t := h]
  {
  }

  /** A release that goes on, by way of a lease back where it was. */
  lemma LandedShape(c: Client, t: Token)
    requires t in c.holders && c.holders[t].phase.Releasing? && PhaseOk(c, c.holders[t], t)
    ensures t in Landed(c, t).holders && Landed(c, t).holders[t] == c.holders[t]
    ensures var woken := Woken(Rested(c, t), t);
      && woken.holders == Landed(c, t).holders[t := c.holders[t].(phase := Active(c.holders[t].phase.generation))]
      && woken == Landed(c, t).(holders := woken.holders)
  {
    var h, s := c.holders[t], c.holders[t].session;
    WakePut(c.holders, t, h.(phase := Active(h.phase.generation)), s, AwaitDetach(t), ReadyAfterDetach);
  }

  lemma WokenKeeps(c: Client, t: Token)
    requires Inv(c) && t in c.holders && c.holders[t].phase.Releasing?
    ensures Inv(Woken(Rested(c, t), t))
  {
    LandKeeps(c, Rested(c, t), t);
    WakeKeeps(Rested(c, t), Woken(Rested(c, t), t), c.holders[t].session, AwaitDetach(t), ReadyAfterDetach);
  }

  /** The release goes through. */
  lemma AfterDetachedKeeps(c: Client, t: Token)
    requires Inv(c) && t in c.holders && c.holders[t].phase.Releasing?
    ensures Inv(AfterDetached(c, t))
  {
    assert PhaseOk(c, c.holders[t], t);
    WokenKeeps(c, t);
    LandedShape(c, t);
    var woken, h := Woken(Rested(c, t), t), c.holders[t].(phase := Over);
    assert woken.holders[t := h] == Landed(c, t).holders[t := h];
    hide Inv, Landed, Woken, Rested, Generation;
    GiveUpKeeps(woken, t);
    assert GiveUp(woken, t) == GiveUp(Landed(c, t), t);
  }

  /** The release fails: the lease is as it was, or given up with its session marked for cleanup. */
  lemma RejectedKeeps(c: Client, t: Token)
    requires Inv(c) && t in c.holders && c.holders[t].phase.Releasing?
    ensures Inv(DetachSettled(c, t, false))
  {
    assert PhaseOk(c, c.holders[t], t);
    AfterDetachedKeeps(c, t);
    WokenKeeps(c, t);
    LandedShape(c, t);
    hide Inv, Landed, Woken, Rested, Unreserve;
    if c.holders[t].phase.relinquish {
      Inert(AfterDetached(c, t), DetachSettled(c, t, false));
    }
  }

  lemma ConfirmedKeeps(c: Client, t: Token)
    requires Inv(c) && t in c.holders && c.holders[t].phase.Releasing?
    ensures Inv(DetachSettled(c, t, true))
  {
    var c', h := DetachSettled(c, t, true), c.holders[t].(phase := c.holders[t].phase.(confirmed := true));
    StaysHere(c, c', t, h);
    AllSessions(c, c', t, h);
    assert PhaseOk(c, c.holders[t], t);
    hide Generation;
    assert FlightsOk(c');
  }

  lemma ContinueKeeps(c: Client, t: Token)
    requires Inv(c) && t in c.holders
    ensures Inv(Continue(c, t))
  {
    match c.holders[t].phase
    case ReadyAfterDetach => AfterDetachKeeps(c, t);
    case ReadyReconciled => AfterReconcileKeeps(c, t, true);
    case ReadyAttached =>
      var c' := CreateLease(c, t);
      Moves(c, c', t, c'.holders[t]);
    case ReadyFailed => GiveUpKeeps(c, t);
    case CreateAnswered => AfterCreateKeeps(c, t);
    case Releasing(_, _, true) => AfterDetachedKeeps(c, t);
    case _ =>
  }

  /** Whatever happens in an orderly way, ownership is kept. */
  lemma StepKeeps(c: Client, e: Event)
    requires Inv(c) && Orderly(c, e)
    ensures Inv(Step(c, e))
  {
    match e
    case EAcquire(t, s, mode) => if t !in c.holders { AcquireKeeps(c, t, s, mode); }
    case ECreated(t, s) => if t !in c.holders { CreatedKeeps(c, t, s); }
    case EContinue(t) => if t in c.holders { ContinueKeeps(c, t); }
    case ERelease(t, relinquish) => if t in c.holders { ReleaseKeeps(c, t, relinquish); }
    case EDetachSettled(t, ok) =>
      if DetachSettles(c, t, ok) {
        if ok { ConfirmedKeeps(c, t); } else { RejectedKeeps(c, t); }
      }
    case EReconcileSettled(s, ok) =>
      WakeKeeps(c, ReconcileSettled(c, s, ok), s, AwaitReconcile, if ok then ReadyReconciled else ReadyFailed);
    case EAttachSettled(s, ok) =>
      WakeKeeps(c, AttachSettled(c, s, ok), s, AwaitAttach, if ok then ReadyAttached else ReadyFailed);
    case ERemoved(s) => if c.connected { InvalidationKeepsIff(c, e); }
    case EDisconnected => InvalidationKeepsIff(c, e);
    case EConnected(attached) => Inert(c, Step(c, e));
    case ESnapshot(attached) => Inert(c, Step(c, e));
  }

  /** A session whose generation has passed: nothing it had counts any more, except what was still waiting. */
  lemma PassedSession(c: Client, c': Client, s: SessionId)
    requires FlightsOk(c) && SessionOk(c, s) && c'.holders == c.holders
        && Generation(c'.books, s) == Generation(c.books, s) + 1
    requires Count(c'.books, s) == 0 && Owner(c'.books, s) == None
    ensures Sharers(c', s) == set t | t in c.holders && c.holders[t].session == s && Waiting(c.holders[t].phase)
    ensures SessionOk(c', s) <==> Sharers(c', s) == {}
  {
    forall t | t in c.holders && c.holders[t].session == s
      ensures t in Sharers(c', s) <==> Waiting(c.holders[t].phase)
    {
      assert PhaseOk(c, c.holders[t], t);
    }
    hide Tally, Generation, Count, Owner, FlightsOk;
  }

  /** The sessions whose leases the event invalidates. */
  predicate Hits(c: Client, e: Event, s: SessionId) {
    match e
    case ERemoved(x) => c.connected && x == s
    case EDisconnected => Count(c.books, s) > 0
    case _ => false
  }

  lemma HitBooks(c: Client, e: Event, s: SessionId)
    requires (e.ERemoved? || e.EDisconnected?) && SessionOk(c, s)
    ensures var b := Step(c, e).books;
      if Hits(c, e, s) then Generation(b, s) == Generation(c.books, s) + 1 && Count(b, s) == 0 && Owner(b, s) == None
      else
        Generation(b, s) == Generation(c.books, s) && Count(b, s) == Count(c.books, s)
        && Owner(b, s) == Owner(c.books, s)
  {
    hide Tally;
  }

  /** Something under way on a session the event does not hit is impossible: it would have a share in a count of 0. */
  lemma UnderWayIsHit(c: Client, e: Event, t: Token)
    requires Inv(c) && t in c.holders && UnderWay(c.holders[t].phase)
    ensures Hits(c, EDisconnected, c.holders[t].session)
  {
    var s := c.holders[t].session;
    assert SessionOk(c, s) && PhaseOk(c, c.holders[t], t);
    assert t in Sharers(c, s);
  }

  /** The exact condition for an invalidation to keep the books right: nothing on the session is under way. */
  lemma InvalidationKeepsIff(c: Client, e: Event)
    requires Inv(c) && (e.EDisconnected? || (e.ERemoved? && c.connected))
    ensures Inv(Step(c, e)) <==> Orderly(c, e)
  {
    if Orderly(c, e) {
      OrderlyInvalidation(c, e);
    } else {
      var t :| t in c.holders && UnderWay(c.holders[t].phase)
               && (e.ERemoved? ==> c.holders[t].session == e.s);
      DisorderlyInvalidation(c, e, t);
    }
  }

  lemma OrderlyInvalidation(c: Client, e: Event)
    requires Inv(c) && (e.EDisconnected? || (e.ERemoved? && c.connected)) && Orderly(c, e)
    ensures Inv(Step(c, e))
  {
    var c' := Step(c, e);
    forall s: SessionId
      ensures SessionOk(c', s)
    {
      assert SessionOk(c, s);
      HitBooks(c, e, s);
      if Hits(c, e, s) {
        PassedSession(c, c', s);
      }
    }
    assert FlightsOk(c');
  }

  lemma DisorderlyInvalidation(c: Client, e: Event, t: Token)
    requires Inv(c) && (e.EDisconnected? || (e.ERemoved? && c.connected))
    requires t in c.holders && UnderWay(c.holders[t].phase)
    requires e.ERemoved? ==> c.holders[t].session == e.s
    ensures !Inv(Step(c, e))
  {
    var c', s := Step(c, e), c.holders[t].session;
    UnderWayIsHit(c, e, t);
    assert SessionOk(c, s) && PhaseOk(c, c.holders[t], t);
    HitBooks(c, e, s);
    PassedSession(c, c', s);
    if Waiting(c.holders[t].phase) {
      assert t in Sharers(c', s);
    } else {
      assert !PhaseOk(c', c'.holders[t], t);
    }
  }

  /** Every orderly run keeps ownership, whatever else happens in it. */
  lemma {:induction false} OrderlyRunKeeps(events: seq<Event>)
    requires OrderlyRun(START, events)
    ensures Inv(Run(START, events))
  {
    if events == [] {
      forall s: SessionId
        ensures SessionOk(START, s)
      {
        assert Sharers(START, s) == {};
      }
    } else {
      var k := |events| - 1;
      forall i | 0 <= i < k
        ensures Orderly(Run(START, events[..k][..i]), events[..k][i])
      {
        assert events[..k][..i] == events[..i];
      }
      OrderlyRunKeeps(events[..k]);
      StepKeeps(Run(START, events[..k]), events[k]);
    }
  }

  function LiveOn(c: Client, s: SessionId): set<Token> {
    set t | t in c.holders && c.holders[t].session == s && Live(c, t)
  }

  /** The acquires and releases of the session that are under way. */
  function UnderWayOn(c: Client, s: SessionId): set<Token> {
    set t | t in c.holders && c.holders[t].session == s && UnderWay(c.holders[t].phase)
  }

  lemma SharersSplit(c: Client, s: SessionId)
    requires Inv(c)
    ensures Sharers(c, s) == LiveOn(c, s) + UnderWayOn(c, s) && LiveOn(c, s) !! UnderWayOn(c, s)
  {
    forall t | t in c.holders && c.holders[t].session == s
      ensures t in Sharers(c, s) <==> t in LiveOn(c, s) + UnderWayOn(c, s)
    {
      assert PhaseOk(c, c.holders[t], t);
    }
    hide Generation, FlightsOk;
  }

  lemma Disjoint<T>(a: set<T>, b: set<T>)
    requires a !! b
    ensures |a + b| == |a| + |b|
  {
  }

  lemma RefusalIff(c: Client, s: SessionId, mode: Mode)
    requires Inv(c)
    ensures Refuses(c.books, s, mode) <==>
      exists t :: t in Sharers(c, s) && (mode == Exclusive || c.holders[t].mode == Exclusive)
  {
    assert SessionOk(c, s);
    hide Inv, Generation;
    if Count(c.books, s) > 0 {
      assert Sharers(c, s) != {};
      var t :| t in Sharers(c, s);
      assert t in c.holders;
    }
    assert s in c.books.exclusive ==> c.books.exclusive[s] in Sharers(c, s);
  }

  /** What ownership means: the count is the live leases plus what is under way; an exclusive holder is alone on its
      session; and `#reserveSessionLease` refuses exactly what conflicts with a lease live or under way. */
  lemma Ownership(c: Client, s: SessionId, mode: Mode)
    requires Inv(c)
    ensures Count(c.books, s) == |LiveOn(c, s)| + |UnderWayOn(c, s)|
    ensures forall t | t in LiveOn(c, s) + UnderWayOn(c, s) && c.holders[t].mode == Exclusive ::
      LiveOn(c, s) + UnderWayOn(c, s) == {t} && Count(c.books, s) == 1
    ensures Refuses(c.books, s, mode) <==>
      exists t :: t in LiveOn(c, s) + UnderWayOn(c, s) && (mode == Exclusive || c.holders[t].mode == Exclusive)
  {
    SharersSplit(c, s);
    Disjoint(LiveOn(c, s), UnderWayOn(c, s));
    RefusalIff(c, s, mode);
    assert SessionOk(c, s);
    hide Tally, Generation, LiveOn, UnderWayOn, Inv, Refuses, Count;
  }
}
