/** Attachment: in orderly runs where a session becomes attached or detached only by attach, detach and create
    replies, an active lease is on an attached session, a detach is sent only when no lease on the session is
    left active, and an attached session nobody holds is marked for cleanup. */
module LeaseAttachment {
  import opened Leases
  import opened LeaseInvariant

  /** What a holder's phase says about its session. */
  predicate TokenOk(c: Client, h: Holder) {
    var s := h.session;
    match h.phase
    case AwaitDetach(u) => s in c.detaching && c.detaching[s] == u && s !in c.books.cleanup
    case AwaitReconcile => s in c.reconciling
    case AwaitAttach => s in c.attaching && s !in c.attached && s !in c.books.cleanup
    case ReadyAfterDetach => true
    case ReadyReconciled => s !in c.attached && s !in c.books.cleanup
    case ReadyAttached => s in c.attached && s !in c.books.cleanup
    case ReadyFailed => s !in c.attached || s in c.books.cleanup
    case Active(g) => g == Generation(c.books, s) ==> s in c.attached && (s in c.books.cleanup ==> h.mode == Exclusive)
    case Releasing(_, _, confirmed) =>
      (s in c.attached <==> !confirmed) && (s in c.books.cleanup ==> h.mode == Exclusive)
    case CreateAnswered => s in c.attached || Count(c.books, s) > 0
    case Over => true
  }

  ghost predicate SomeoneIn(c: Client, s: SessionId, p: Phase) {
    exists t :: t in c.holders && c.holders[t].session == s && c.holders[t].phase == p
  }

  /** While a final detach is in flight, everybody else on the session waits for it. */
  predicate WaitsOrReleases(c: Client, t: Token, s: SessionId) {
    s in c.detaching && t in c.holders ==>
      t == c.detaching[s] || c.holders[t].phase == AwaitDetach(c.detaching[s])
          || !Counts(c.holders[t].phase, Generation(c.books, s))
  }

  ghost predicate AttachOk(c: Client, s: SessionId) {
    && (forall t | t in c.holders && c.holders[t].session == s :: TokenOk(c, c.holders[t]))
    && (forall t | t in c.holders && c.holders[t].session == s :: WaitsOrReleases(c, t, s))
    && (s in c.attached && Count(c.books, s) == 0 ==> s in c.books.cleanup || SomeoneIn(c, s, CreateAnswered))
    && (s in c.reconciling ==> s in c.books.cleanup && SomeoneIn(c, s, AwaitReconcile))
    && (s in c.attaching ==> SomeoneIn(c, s, AwaitAttach))
    && (!c.connected ==> s !in c.attached)
  }

  ghost predicate Attached(c: Client) {
    forall s: SessionId :: AttachOk(c, s)
  }

  ghost predicate SameHolders(c: Client, c': Client, s: SessionId) {
    && (forall t | t in c.holders && c.holders[t].session == s :: t in c'.holders && c'.holders[t] == c.holders[t])
    && (forall t | t in c'.holders && c'.holders[t].session == s :: t in c.holders && c'.holders[t] == c.holders[t])
  }

  predicate SameRest(c: Client, c': Client, s: SessionId) {
    && Generation(c'.books, s) == Generation(c.books, s) && Count(c'.books, s) == Count(c.books, s)
    && (s in c'.books.cleanup <==> s in c.books.cleanup) && (s in c'.attached <==> s in c.attached)
    && (s in c'.detaching <==> s in c.detaching) && (s in c.detaching ==> c'.detaching[s] == c.detaching[s])
    && (s in c'.reconciling <==> s in c.reconciling) && (s in c'.attaching <==> s in c.attaching)
    && (c.connected ==> c'.connected)
  }

  /** The session looks the same in both clients. */
  ghost predicate SameOn(c: Client, c': Client, s: SessionId) {
    SameHolders(c, c', s) && SameRest(c, c', s)
  }

  lemma Untouched(c: Client, c': Client, s: SessionId)
    requires AttachOk(c, s) && SameOn(c, c', s)
    ensures AttachOk(c', s)
  {
    hide Generation, Count;
    forall t | t in c'.holders && c'.holders[t].session == s
      ensures TokenOk(c', c'.holders[t])
    {
      assert TokenOk(c, c.holders[t]);
    }
    SomeoneSame(c, c', s, CreateAnswered);
    SomeoneSame(c, c', s, AwaitReconcile);
    SomeoneSame(c, c', s, AwaitAttach);
    hide SomeoneIn, TokenOk;
  }

  lemma SomeoneSame(c: Client, c': Client, s: SessionId, p: Phase)
    requires SameHolders(c, c', s)
    ensures SomeoneIn(c, s, p) ==> SomeoneIn(c', s, p)
  {
  }

  /** An acquire of the session waits for its attach, is about to send it, or has just seen it fail; or the session's
      final detach was confirmed and its release has not gone on. */
  ghost predicate AttachPending(c: Client, s: SessionId) {
    exists t :: t in c.holders && c.holders[t].session == s && ExpectsDetached(c, c.holders[t])
  }

  predicate ExpectsDetached(c: Client, h: Holder) {
    || h.phase == AwaitAttach
    || h.phase == ReadyReconciled
    || (h.phase.Releasing? && h.phase.confirmed)
    || (h.phase == ReadyFailed && h.session !in c.books.cleanup)
  }

  /** The run assumption of this module: only replies attach; no create reply names a session whose attach is pending;
      and no session is removed, and no connection drops, between a create reply and the step it leads to. */
  ghost predicate Confined(c: Client, e: Event) {
    match e
    case ESnapshot(_) => false
    case EConnected(attached) => attached == {}
    case ECreated(_, s) => !AttachPending(c, s)
    case ERemoved(s) => !CreateDue(c, s)
    case EDisconnected => forall t | t in c.holders :: c.holders[t].phase != CreateAnswered
    case _ => true
  }

  /** Nobody on the session has a share when its count is zero. */
  lemma NobodyThere(c: Client, s: SessionId, t: Token)
    requires Inv(c) && Count(c.books, s) == 0 && t in c.holders && c.holders[t].session == s
    ensures !Counts(c.holders[t].phase, Generation(c.books, s))
  {
    assert SessionOk(c, s);
    assert t !in Sharers(c, s);
  }

  lemma DetachCounts(c: Client, s: SessionId)
    requires Inv(c) && s in c.detaching
    ensures c.detaching[s] in Sharers(c, s) && Count(c.books, s) > 0
  {
    assert SessionOk(c, s) && PhaseOk(c, c.holders[c.detaching[s]], c.detaching[s]);
    assert c.detaching[s] in Sharers(c, s);
  }

  lemma AloneWhenLast(c: Client, s: SessionId, t: Token, u: Token)
    requires Inv(c) && Count(c.books, s) <= 1 && t in Sharers(c, s) && u in Sharers(c, s)
    ensures t == u
  {
    assert SessionOk(c, s);
    if t != u {
      TwoMembers(Sharers(c, s), t, u);
    }
  }

  /** A holder that waits for an attach, joining the one in flight or sending it. */
  lemma AttachSent(c: Client, c': Client, t: Token, h: Holder)
    requires AttachOk(c, h.session) && h.phase == AwaitAttach && h.session !in c.detaching
    requires h.session !in c.attached && h.session !in c.books.cleanup
    requires c' == c.(attaching := c.attaching + {h.session}, holders := c.holders[t := h])
    requires t in c.holders && c.holders[t].session == h.session && c.holders[t].phase != AwaitReconcile
    ensures AttachOk(c', h.session)
  {
    hide Generation, Count;
    assert t in c'.holders && c'.holders[t].phase == AwaitAttach;
  }

  lemma ReconcileSent(c: Client, c': Client, t: Token, h: Holder)
    requires AttachOk(c, h.session) && h.phase == AwaitReconcile && h.session !in c.detaching
        && h.session in c.books.cleanup
    requires c' == c.(reconciling := c.reconciling + {h.session}, holders := c.holders[t := h])
    requires t in c.holders && c.holders[t].session == h.session && c.holders[t].phase == ReadyAfterDetach
    ensures AttachOk(c', h.session)
  {
    hide Generation, Count;
    assert t in c'.holders && c'.holders[t].phase == AwaitReconcile;
  }

  /** A holder whose phase changes without the session looking different to anybody else. */
  lemma PhaseOnly(c: Client, c': Client, t: Token, h: Holder)
    requires AttachOk(c, h.session) && h.session !in c.detaching
    requires t in c.holders && c.holders[t].session == h.session && c.holders[t].phase != AwaitReconcile
        && c.holders[t].phase != AwaitAttach && c.holders[t].phase != CreateAnswered
    requires c'.holders == c.holders[t := h] && TokenOk(c', h)
    requires SameRest(c, c', h.session)
    ensures AttachOk(c', h.session)
  {
    var s := h.session;
    hide Generation, Count;
    forall u | u in c'.holders && c'.holders[u].session == s
      ensures TokenOk(c', c'.holders[u])
    {
      if u != t {
        assert TokenOk(c, c.holders[u]);
      }
    }
    KeepSomeone(c, c', t, h, AwaitReconcile);
    KeepSomeone(c, c', t, h, AwaitAttach);
    KeepSomeone(c, c', t, h, CreateAnswered);
    hide SomeoneIn, TokenOk;
  }

  lemma KeepSomeone(c: Client, c': Client, t: Token, h: Holder, p: Phase)
    requires t in c.holders && c.holders[t].session == h.session && c.holders[t].phase != p
        && c'.holders == c.holders[t := h]
    ensures SomeoneIn(c, h.session, p) ==> SomeoneIn(c', h.session, p)
  {
    if SomeoneIn(c, h.session, p) {
      var u :| u in c.holders && c.holders[u].session == h.session && c.holders[u].phase == p;
      assert u in c'.holders && c'.holders[u].phase == p;
    }
  }

  lemma LeaseCreated(c: Client, t: Token)
    requires t in c.holders && Ready(c.holders[t].phase)
    requires var s := c.holders[t].session;
      AttachOk(c, s) && s !in c.detaching && s in c.attached && s !in c.books.cleanup
    ensures AttachOk(CreateLease(c, t), c.holders[t].session)
  {
    var c' := CreateLease(c, t);
    PhaseOnly(c, c', t, c'.holders[t]);
  }

  lemma AfterDetachAttached(c: Client, t: Token)
    requires t in c.holders && c.holders[t].phase == ReadyAfterDetach
    requires AttachOk(c, c.holders[t].session) && c.holders[t].session !in c.detaching
    ensures AttachOk(AfterDetach(c, t), c.holders[t].session)
  {
    var s, c' := c.holders[t].session, AfterDetach(c, t);
    if s in c.books.cleanup {
      ReconcileSent(c, c', t, c'.holders[t]);
    } else if s !in c.attached {
      AttachSent(c, c', t, c'.holders[t]);
    } else {
      LeaseCreated(c, t);
    }
  }

  /** A lease being given up for the last time is not exclusive if somebody else may come in. */
  lemma DetachIsShared(c: Client, s: SessionId, mode: Mode)
    requires Inv(c) && s in c.detaching && !Refuses(c.books, s, mode)
    ensures c.holders[c.detaching[s]].mode == Shared
  {
    DetachCounts(c, s);
    assert SessionOk(c, s);
    hide Generation, Tally;
  }

  /** A reservation, and what it waits for first. */
  function Reserving(c: Client, t: Token, s: SessionId, mode: Mode): Client {
    var p := if s in c.detaching then AwaitDetach(c.detaching[s]) else ReadyAfterDetach;
    c.(books := Reserve(c.books, s, t, mode), holders := c.holders[t := Holder(s, mode, p)])
  }

  /** Those who were on the session before. */
  lemma ReservedHolder(c: Client, t: Token, s: SessionId, mode: Mode, u: Token)
    requires AttachOk(c, s) && t !in c.holders && u in c.holders && c.holders[u].session == s
    ensures TokenOk(Reserving(c, t, s, mode), c.holders[u]) && WaitsOrReleases(Reserving(c, t, s, mode), u, s)
  {
    assert TokenOk(c, c.holders[u]) && WaitsOrReleases(c, u, s);
    assert Generation(Reserving(c, t, s, mode).books, s) == Generation(c.books, s);
    hide Generation, AttachOk, Count;
  }

  lemma Reserved(c: Client, t: Token, s: SessionId, mode: Mode)
    requires Inv(c) && AttachOk(c, s) && t !in c.holders && !Refuses(c.books, s, mode)
    ensures AttachOk(Reserving(c, t, s, mode), s)
  {
    var h := Holder(s, mode, if s in c.detaching then AwaitDetach(c.detaching[s]) else ReadyAfterDetach);
    var c' := Reserving(c, t, s, mode);
    assert Count(c'.books, s) > 0;
    if s in c.detaching {
      DetachIsShared(c, s, mode);
      assert TokenOk(c, c.holders[c.detaching[s]]);
    }
    assert TokenOk(c', h) && WaitsOrReleases(c', t, s);
    hide Generation, Count, SomeoneIn, Inv, Refuses, TokenOk, WaitsOrReleases;
    JoinSomeone(c, c', t, h, AwaitReconcile);
    JoinSomeone(c, c', t, h, AwaitAttach);
    JoinSomeone(c, c', t, h, CreateAnswered);
    forall u | u in c.holders && c.holders[u].session == s
      ensures TokenOk(c', c'.holders[u]) && WaitsOrReleases(c', u, s)
    {
      ReservedHolder(c, t, s, mode, u);
    }
  }

  lemma JoinSomeone(c: Client, c': Client, t: Token, h: Holder, p: Phase)
    requires t !in c.holders && c'.holders == c.holders[t := h]
    ensures SomeoneIn(c, h.session, p) ==> SomeoneIn(c', h.session, p)
  {
    if SomeoneIn(c, h.session, p) {
      var u :| u in c.holders && c.holders[u].session == h.session && c.holders[u].phase == p;
      assert u in c'.holders && c'.holders[u].phase == p;
    }
  }

  lemma AcquireAttached(c: Client, t: Token, s: SessionId, mode: Mode)
    requires Inv(c) && AttachOk(c, s) && t !in c.holders
    ensures AttachOk(Acquire(c, t, s, mode), s)
  {
    if !Refuses(c.books, s, mode) {
      Reserved(c, t, s, mode);
      if s in c.detaching {
        assert Acquire(c, t, s, mode).holders == Reserving(c, t, s, mode).holders;
      } else {
        AfterDetachAttached(Reserving(c, t, s, mode), t);
      }
    }
  }

  /** The session is attached now, and nobody on it counted on its being detached. */
  lemma CreatedHolder(c: Client, t: Token, s: SessionId, u: Token)
    requires AttachOk(c, s) && u in c.holders && u != t && c.holders[u].session == s
    ensures TokenOk(Created(c, t, s), c.holders[u]) <==> !ExpectsDetached(c, c.holders[u])
  {
    assert TokenOk(c, c.holders[u]);
    hide Generation, Count;
  }

  /** The exact condition for a create reply to keep the attachment invariant. */
  lemma CreateKeepsIff(c: Client, t: Token, s: SessionId)
    requires AttachOk(c, s) && t !in c.holders && c.connected
    ensures AttachOk(Created(c, t, s), s) <==> !AttachPending(c, s)
  {
    var c', h := Created(c, t, s), Holder(s, Exclusive, CreateAnswered);
    if AttachPending(c, s) {
      var u :| u in c.holders && c.holders[u].session == s && ExpectsDetached(c, c.holders[u]);
      CreatedHolder(c, t, s, u);
      assert u in c'.holders && !TokenOk(c', c'.holders[u]);
    } else {
      forall u | u in c.holders && c.holders[u].session == s
        ensures TokenOk(c', c'.holders[u])
      {
        CreatedHolder(c, t, s, u);
      }
      JoinSomeone(c, c', t, h, AwaitReconcile);
      JoinSomeone(c, c', t, h, AwaitAttach);
      assert t in c'.holders && c'.holders[t].phase == CreateAnswered;
      hide Generation, Count, ExpectsDetached;
    }
  }

  /** A create that goes on where somebody has a share already is refused. */
  lemma RefusedAttached(c: Client, t: Token)
    requires t in c.holders && c.holders[t].phase == CreateAnswered && AttachOk(c, c.holders[t].session)
    requires Count(c.books, c.holders[t].session) > 0
    ensures AttachOk(AfterCreate(c, t), c.holders[t].session)
  {
    var s, c', h := c.holders[t].session, AfterCreate(c, t), c.holders[t].(phase := Over);
    assert c' == SetPhase(c, t, Over);
    KeepSomeone(c, c', t, h, AwaitReconcile);
    KeepSomeone(c, c', t, h, AwaitAttach);
    hide Count, Generation, SomeoneIn, Refuses;
    forall u | u in c.holders && c.holders[u].session == s && u != t
      ensures TokenOk(c', c'.holders[u])
    {
      assert TokenOk(c, c.holders[u]);
    }
  }

  /** Where nobody has a share the session is attached still, and the create gets its exclusive lease. */
  lemma GrantedAttached(c: Client, t: Token)
    requires Inv(c) && t in c.holders && c.holders[t].phase == CreateAnswered && AttachOk(c, c.holders[t].session)
    requires Count(c.books, c.holders[t].session) == 0
    ensures AttachOk(AfterCreate(c, t), c.holders[t].session)
  {
    var s, c' := c.holders[t].session, AfterCreate(c, t);
    assert TokenOk(c, c.holders[t]) && PhaseOk(c, c.holders[t], t);
    forall u | u in c.holders && c.holders[u].session == s
      ensures !Counts(c.holders[u].phase, Generation(c.books, s))
    {
      NobodyThere(c, s, u);
    }
    assert Generation(c'.books, s) == Generation(c.books, s) && Count(c'.books, s) > 0;
    assert s !in c.detaching by {
      if s in c.detaching {
        DetachCounts(c, s);
      }
    }
    assert s !in c.reconciling && s !in c.attaching;
    hide Inv, Count, SomeoneIn, Generation;
  }

  lemma NotDetaching(c: Client, t: Token)
    requires Inv(c) && t in c.holders && AttachOk(c, c.holders[t].session) && Ready(c.holders[t].phase)
    ensures c.holders[t].session !in c.detaching
  {
    assert WaitsOrReleases(c, t, c.holders[t].session);
    hide SessionOk;
  }

  lemma FailedAttached(c: Client, t: Token)
    requires Inv(c) && t in c.holders && AttachOk(c, c.holders[t].session) && c.holders[t].phase == ReadyFailed
    requires MayGoOn(c, t)
    ensures AttachOk(GiveUp(c, t), c.holders[t].session)
  {
    var s, c', h := c.holders[t].session, GiveUp(c, t), c.holders[t].(phase := Over);
    NotDetaching(c, t);
    assert Generation(c'.books, s) == Generation(c.books, s) && TokenOk(c, c.holders[t]);
    assert !SomeoneIn(c, s, CreateAnswered);
    hide Count, Inv, Generation;
    KeepSomeone(c, c', t, h, AwaitReconcile);
    KeepSomeone(c, c', t, h, AwaitAttach);
    hide SomeoneIn;
    forall u | u in c.holders && c.holders[u].session == s && u != t
      ensures TokenOk(c', c'.holders[u])
    {
      assert TokenOk(c, c.holders[u]);
    }
  }

  lemma ContinueAttached(c: Client, t: Token)
    requires Inv(c) && t in c.holders && AttachOk(c, c.holders[t].session) && MayGoOn(c, t)
    ensures AttachOk(Continue(c, t), c.holders[t].session)
  {
    hide MayGoOn;
    if c.holders[t].phase == CreateAnswered {
      if Count(c.books, c.holders[t].session) > 0 { RefusedAttached(c, t); } else { GrantedAttached(c, t); }
    } else if c.holders[t].phase.Releasing? && c.holders[t].phase.confirmed {
      AfterDetachedAttached(c, t);
    } else if Ready(c.holders[t].phase) {
      NotDetaching(c, t);
      assert TokenOk(c, c.holders[t]);
      match c.holders[t].phase
      case ReadyAfterDetach => AfterDetachAttached(c, t);
      case ReadyReconciled =>
        var c' := AfterReconcile(c, t, true);
        AttachSent(c, c', t, c'.holders[t]);
      case ReadyAttached => LeaseCreated(c, t);
      case ReadyFailed => FailedAttached(c, t);
      case _ =>
    }
  }

  lemma LastIsAlone(c: Client, t: Token)
    requires Inv(c) && t in c.holders && SendsDetach(c, t)
    ensures forall u | u in c.holders && c.holders[u].session == c.holders[t].session && u != t ::
      !Counts(c.holders[u].phase, Generation(c.books, c.holders[t].session))
  {
    var s := c.holders[t].session;
    assert t in Sharers(c, s);
    forall u | u in c.holders && c.holders[u].session == s && u != t
      ensures !Counts(c.holders[u].phase, Generation(c.books, s))
    {
      if u in Sharers(c, s) {
        AloneWhenLast(c, s, t, u);
      }
    }
  }

  /** The last sharer sends its detach. */
  lemma SendAttached(c: Client, t: Token, relinquish: bool)
    requires Inv(c) && t in c.holders && AttachOk(c, c.holders[t].session) && SendsDetach(c, t)
    ensures AttachOk(Release(c, t, relinquish), c.holders[t].session)
  {
    var s, c', h := c.holders[t].session, Release(c, t, relinquish), Release(c, t, relinquish).holders[t];
    NoOtherDetach(c, t);
    LastIsAlone(c, t);
    assert TokenOk(c, c.holders[t]);
    KeepSomeone(c, c', t, h, AwaitReconcile);
    KeepSomeone(c, c', t, h, AwaitAttach);
    KeepSomeone(c, c', t, h, CreateAnswered);
    hide Generation, Count, SomeoneIn, Inv, Tally;
    forall u | u in c.holders && c.holders[u].session == s && u != t
      ensures TokenOk(c', c'.holders[u])
    {
      assert TokenOk(c, c.holders[u]);
    }
  }

  /** A lease that is not the last one leaves without a word to the server. */
  lemma QuietLeave(c: Client, t: Token)
    requires t in c.holders && AttachOk(c, c.holders[t].session) && c.holders[t].phase.Active?
        && c.holders[t].session !in c.detaching
    requires Count(c.books, c.holders[t].session) > 1
    ensures AttachOk(GiveUp(c, t), c.holders[t].session)
  {
    var s, c', h := c.holders[t].session, GiveUp(c, t), c.holders[t].(phase := Over);
    assert Generation(c'.books, s) == Generation(c.books, s) && Count(c'.books, s) > 0;
    KeepSomeone(c, c', t, h, AwaitReconcile);
    KeepSomeone(c, c', t, h, AwaitAttach);
    KeepSomeone(c, c', t, h, CreateAnswered);
    hide Count, Generation, SomeoneIn;
    forall u | u in c.holders && c.holders[u].session == s && u != t
      ensures TokenOk(c', c'.holders[u])
    {
      assert TokenOk(c, c.holders[u]);
    }
  }

  lemma ActiveNotDetaching(c: Client, t: Token)
    requires Inv(c) && t in c.holders && AttachOk(c, c.holders[t].session) && Live(c, t)
    ensures c.holders[t].session !in c.detaching
  {
    assert WaitsOrReleases(c, t, c.holders[t].session);
    hide SessionOk;
  }

  lemma StaleLeave(c: Client, t: Token)
    requires t in c.holders && AttachOk(c, c.holders[t].session) && c.holders[t].phase.Active? && !Live(c, t)
    ensures AttachOk(SetPhase(c, t, Over), c.holders[t].session)
  {
    var s, c', h := c.holders[t].session, SetPhase(c, t, Over), c.holders[t].(phase := Over);
    KeepSomeone(c, c', t, h, AwaitReconcile);
    KeepSomeone(c, c', t, h, AwaitAttach);
    KeepSomeone(c, c', t, h, CreateAnswered);
    hide Count, Generation, SomeoneIn;
    forall u | u in c.holders && c.holders[u].session == s && u != t
      ensures TokenOk(c', c'.holders[u])
    {
      assert TokenOk(c, c.holders[u]);
    }
  }

  lemma ReleaseAttached(c: Client, t: Token, relinquish: bool)
    requires Inv(c) && t in c.holders && AttachOk(c, c.holders[t].session)
    ensures AttachOk(Release(c, t, relinquish), c.holders[t].session)
  {
    var h := c.holders[t];
    if h.phase.Active? {
      if h.phase.generation != Generation(c.books, h.session) {
        StaleLeave(c, t);
      } else if c.connected && h.session in c.attached {
        if SendsDetach(c, t) {
          SendAttached(c, t, relinquish);
        } else {
          ActiveNotDetaching(c, t);
          QuietLeave(c, t);
        }
      }
    }
  }

  /** The state of every other holder of a session whose final detach is in flight. */
  lemma OthersWait(c: Client, t: Token, u: Token)
    requires Inv(c) && t in c.holders && u in c.holders && u != t && c.holders[u].session == c.holders[t].session
    requires AttachOk(c, c.holders[t].session) && c.holders[t].phase.Releasing?
    ensures c.holders[u].phase == AwaitDetach(t) || !Counts(c.holders[u].phase, Generation(c.books,
        c.holders[t].session))
  {
    assert PhaseOk(c, c.holders[t], t) && WaitsOrReleases(c, u, c.holders[t].session);
    hide SessionOk;
  }

  lemma NobodyElseIn(c: Client, t: Token, p: Phase)
    requires Inv(c) && t in c.holders && AttachOk(c, c.holders[t].session) && c.holders[t].phase.Releasing?
    requires p == AwaitReconcile || p == AwaitAttach
    ensures !SomeoneIn(c, c.holders[t].session, p)
  {
    if SomeoneIn(c, c.holders[t].session, p) {
      var u :| u in c.holders && c.holders[u].session == c.holders[t].session && c.holders[u].phase == p;
      OthersWait(c, t, u);
    }
  }

  /** A session has at most one request in flight that attaches or detaches it. */
  lemma OneRequest(c: Client, s: SessionId)
    requires Inv(c) && AttachOk(c, s)
    ensures !(s in c.attaching && s in c.reconciling) && (s in c.detaching ==> s !in c.attaching && s !in c.reconciling)
  {
    if s in c.detaching {
      NobodyElseIn(c, c.detaching[s], AwaitAttach);
      NobodyElseIn(c, c.detaching[s], AwaitReconcile);
    }
    hide SessionOk, Generation, Count;
    if s in c.attaching {
      var w :| w in c.holders && c.holders[w].session == s && c.holders[w].phase == AwaitAttach;
      assert TokenOk(c, c.holders[w]);
    }
  }

  /** The final detach is confirmed: the session is no longer attached, and still everybody else waits. */
  lemma ConfirmedAttached(c: Client, t: Token)
    requires Inv(c) && t in c.holders && AttachOk(c, c.holders[t].session) && c.holders[t].phase.Releasing?
    ensures AttachOk(DetachSettled(c, t, true), c.holders[t].session)
  {
    var s, c' := c.holders[t].session, DetachSettled(c, t, true);
    var h := c'.holders[t];
    assert PhaseOk(c, c.holders[t], t) && TokenOk(c, c.holders[t]);
    DetachCounts(c, s);
    NobodyElseIn(c, t, AwaitReconcile);
    NobodyElseIn(c, t, AwaitAttach);
    forall u | u in c.holders && c.holders[u].session == s && u != t
      ensures TokenOk(c', c'.holders[u])
    {
      OthersWait(c, t, u);
      assert TokenOk(c, c.holders[u]);
      hide Generation, Inv, AttachOk, Count;
    }
    hide Generation, Inv, SomeoneIn, Count;
  }

  /** The holders of a session once its final detach is no longer in flight. */
  lemma LandedHolder(c: Client, c': Client, t: Token, u: Token)
    requires Inv(c) && t in c.holders && AttachOk(c, c.holders[t].session) && c.holders[t].phase.Releasing?
    requires u in c.holders && c.holders[u].session == c.holders[t].session && u != t && MayGoOn(c, t)
    requires u in c'.holders && c'.holders[u] == Landed(c, t).holders[u]
    requires Generation(c'.books, c.holders[t].session) == Generation(c.books, c.holders[t].session)
    ensures TokenOk(c', c'.holders[u])
  {
    OthersWait(c, t, u);
    assert c.holders[u].phase != CreateAnswered;
    assert PhaseOk(c, c.holders[t], t) && PhaseOk(c, c.holders[u], u);
    hide Generation, Inv, AttachOk, Count;
  }

  /** A release goes on: through, or back, or given up with the session to clean up. */
  lemma LandedAttached(c: Client, c': Client, t: Token)
    requires Inv(c) && t in c.holders && AttachOk(c, c.holders[t].session) && c.holders[t].phase.Releasing?
    requires MayGoOn(c, t) && t in c'.holders && c'.holders == Landed(c, t).holders[t := c'.holders[t]]
    requires c'.holders[t].session == c.holders[t].session && TokenOk(c', c'.holders[t])
    requires c' == Landed(c, t).(holders := c'.holders, books := c'.books)
    requires var s := c.holders[t].session;
      && Generation(c'.books, s) == Generation(c.books, s)
      && (s in c.attached && Count(c'.books, s) == 0 ==> s in c'.books.cleanup)
    ensures AttachOk(c', c.holders[t].session)
  {
    var s := c.holders[t].session;
    assert PhaseOk(c, c.holders[t], t);
    NobodyElseIn(c, t, AwaitReconcile);
    NobodyElseIn(c, t, AwaitAttach);
    assert s !in c.reconciling && s !in c.attaching && s !in c'.detaching;
    forall u | u in c'.holders && c'.holders[u].session == s
      ensures TokenOk(c', c'.holders[u])
    {
      if u != t {
        LandedHolder(c, c', t, u);
      }
    }
    hide TokenOk, Generation, Inv, SomeoneIn, Wake, Count;
  }

  lemma AfterDetachedAttached(c: Client, t: Token)
    requires Inv(c) && t in c.holders && AttachOk(c, c.holders[t].session) && c.holders[t].phase.Releasing?
    requires c.holders[t].phase.confirmed && MayGoOn(c, t)
    ensures AttachOk(AfterDetached(c, t), c.holders[t].session)
  {
    assert TokenOk(c, c.holders[t]) && Landed(c, t).holders[t] == c.holders[t];
    hide AttachOk, Inv, Wake, MayGoOn;
    LandedAttached(c, AfterDetached(c, t), t);
  }

  lemma RejectedAttached(c: Client, t: Token)
    requires Inv(c) && t in c.holders && AttachOk(c, c.holders[t].session) && c.holders[t].phase.Releasing?
    requires !c.holders[t].phase.confirmed && MayGoOn(c, t)
    ensures AttachOk(DetachSettled(c, t, false), c.holders[t].session)
  {
    assert TokenOk(c, c.holders[t]) && PhaseOk(c, c.holders[t], t) && Landed(c, t).holders[t] == c.holders[t];
    DetachCounts(c, c.holders[t].session);
    hide AttachOk, Inv, Wake, MayGoOn;
    LandedAttached(c, DetachSettled(c, t, false), t);
  }

  /** Two sharers of a session are both shared. */
  lemma SharersAreShared(c: Client, s: SessionId, t: Token, u: Token)
    requires Inv(c) && t in Sharers(c, s) && u in Sharers(c, s) && t != u
    ensures c.holders[t].mode == Shared
  {
    assert SessionOk(c, s);
    hide Generation, Tally;
  }

  /** Nobody has a current lease of a session while an acquire waits for its cleanup. */
  lemma NobodyDuringCleanup(c: Client, s: SessionId, w: Token, u: Token)
    requires Inv(c) && AttachOk(c, s) && s in c.books.cleanup
    requires w in c.holders && c.holders[w].session == s && c.holders[w].phase == AwaitReconcile
    requires u in c.holders && c.holders[u].session == s
    ensures !c.holders[u].phase.Releasing?
    ensures c.holders[u].phase.Active? ==> c.holders[u].phase.generation != Generation(c.books, s)
  {
    assert TokenOk(c, c.holders[u]) && PhaseOk(c, c.holders[u], u);
    assert w in Sharers(c, s);
    if u in Sharers(c, s) && u != w {
      SharersAreShared(c, s, u, w);
    }
  }

  lemma ReconcileAttached(c: Client, s: SessionId, ok: bool)
    requires Inv(c) && AttachOk(c, s) && s in c.reconciling && Drained(c, s)
    ensures AttachOk(ReconcileSettled(c, s, ok), s)
  {
    var w :| w in c.holders && c.holders[w].session == s && c.holders[w].phase == AwaitReconcile;
    var c' := ReconcileSettled(c, s, ok);
    if Count(c.books, s) == 0 {
      NobodyThere(c, s, w);
    }
    assert Generation(c'.books, s) == Generation(c.books, s) && Count(c'.books, s) == Count(c.books, s) > 0;
    forall u | u in c.holders && c.holders[u].session == s
      ensures TokenOk(c', c'.holders[u]) && !Counts(c'.holders[u].phase, Generation(c.books,
          s)) == !Counts(c.holders[u].phase, Generation(c.books, s))
      ensures c.holders[u].phase != AwaitAttach && !c.holders[u].phase.Releasing? && !c.holders[u].phase.AwaitDetach?
    {
      assert TokenOk(c, c.holders[u]);
      NobodyDuringCleanup(c, s, w, u);
      hide Generation, SomeoneIn, Count, Inv;
    }
    hide TokenOk, Generation, Counts, Count, Inv;
  }

  lemma AttachSettledAttached(c: Client, s: SessionId, ok: bool)
    requires Inv(c) && AttachOk(c, s) && s in c.attaching && Drained(c, s) && (ok ==> c.connected)
    ensures AttachOk(AttachSettled(c, s, ok), s)
  {
    var c' := AttachSettled(c, s, ok);
    var w :| w in c.holders && c.holders[w].session == s && c.holders[w].phase == AwaitAttach;
    assert TokenOk(c, c.holders[w]);
    if Count(c.books, s) == 0 {
      NobodyThere(c, s, w);
    }
    assert WaitsOrReleases(c, w, s);
    assert Count(c'.books, s) > 0;
    hide SessionOk, Generation, SomeoneIn, Count;
    forall u | u in c.holders && c.holders[u].session == s
      ensures TokenOk(c', c'.holders[u])
    {
      assert TokenOk(c, c.holders[u]) && PhaseOk(c, c.holders[u], u);
    }
    hide TokenOk;
  }

  /** A session that was let go of, with nothing on it active or under way. */
  lemma QuietAttached(c: Client, c': Client, s: SessionId)
    requires AttachOk(c, s) && s !in c'.attached && c'.holders == c.holders && c'.detaching == c.detaching
    requires c'.reconciling == c.reconciling && c'.attaching == c.attaching
    requires Generation(c'.books, s) > Generation(c.books, s)
    requires forall t | t in c.holders && c.holders[t].session == s ::
      c.holders[t].phase.Over? || (c.holders[t].phase.Active? && c.holders[t].phase.generation <= Generation(c.books,
          s))
    ensures AttachOk(c', s)
  {
    assert !SomeoneIn(c, s, AwaitReconcile) && !SomeoneIn(c, s, AwaitAttach);
    hide Generation, Count;
  }

  /** After an orderly invalidation nothing on the session is active or under way. */
  lemma HitAttached(c: Client, e: Event, s: SessionId)
    requires Inv(c) && AttachOk(c, s) && (e.ERemoved? || e.EDisconnected?) && Orderly(c, e) && Hits(c, e, s)
    requires Confined(c, e)
    ensures AttachOk(Step(c, e), s)
  {
    hide AttachOk;
    assert SessionOk(c, s);
    HitBooks(c, e, s);
    OrderlyIsQuiet(c, e, s);
    assert s !in Step(c, e).attached;
    QuietAttached(c, Step(c, e), s);
  }

  lemma OrderlyIsQuiet(c: Client, e: Event, s: SessionId)
    requires FlightsOk(c) && (e.ERemoved? || e.EDisconnected?) && Orderly(c, e) && Hits(c, e, s)
    requires Confined(c, e)
    ensures forall t | t in c.holders && c.holders[t].session == s ::
      c.holders[t].phase.Over? || (c.holders[t].phase.Active? && c.holders[t].phase.generation <= Generation(c.books,
          s))
  {
    forall t | t in c.holders && c.holders[t].session == s
      ensures c.holders[t].phase.Over? || (c.holders[t].phase.Active?
          && c.holders[t].phase.generation <= Generation(c.books, s))
    {
      assert PhaseOk(c, c.holders[t], t);
      assert !MidFlight(c, c.holders[t].session);
      assert c.holders[t].phase != CreateAnswered;
    }
  }

  lemma MissedAttached(c: Client, e: Event, s: SessionId)
    requires Inv(c) && AttachOk(c, s) && e.EDisconnected? && !Hits(c, e, s) && Confined(c, e)
    ensures AttachOk(Step(c, e), s)
  {
    var c' := Step(c, e);
    assert SessionOk(c, s);
    HitBooks(c, e, s);
    forall t | t in c.holders && c.holders[t].session == s
      ensures !Counts(c.holders[t].phase, Generation(c.books, s))
    {
      NobodyThere(c, s, t);
    }
    if s in c.detaching {
      DetachCounts(c, s);
    }
    hide Inv, Generation, Count;
  }

  /** The session an event is about. */
  predicate About(c: Client, e: Event, s: SessionId) {
    match e
    case EAcquire(_, x, _) => x == s
    case ECreated(_, x) => x == s
    case EContinue(t) => t in c.holders && c.holders[t].session == s
    case ERelease(t, _) => t in c.holders && c.holders[t].session == s
    case EDetachSettled(t, _) => t in c.holders && c.holders[t].session == s
    case EReconcileSettled(x, _) => x == s
    case EAttachSettled(x, _) => x == s
    case ERemoved(x) => x == s
    case _ => false
  }

  /** One holder changes, and nothing else of the other sessions. */
  lemma HolderSame(c: Client, c': Client, t: Token, h: Holder, s: SessionId)
    requires c'.holders == c.holders[t := h] && (t in c.holders ==> c.holders[t].session == h.session)
    requires s != h.session && SameRest(c, c', s)
    ensures SameOn(c, c', s)
  {
    hide SameRest;
  }

  lemma AfterReconcileRest(c: Client, t: Token, reconciled: bool, s: SessionId)
    requires t in c.holders && s != c.holders[t].session
    ensures SameRest(c, AfterReconcile(c, t, reconciled), s)
    ensures AfterReconcile(c, t, reconciled).holders == c.holders[t := AfterReconcile(c, t, reconciled).holders[t]]
    ensures AfterReconcile(c, t, reconciled).holders[t].session == c.holders[t].session
  {
  }

  lemma AfterDetachRest(c: Client, t: Token, s: SessionId)
    requires t in c.holders && s != c.holders[t].session
    ensures SameRest(c, AfterDetach(c, t), s)
    ensures AfterDetach(c, t).holders == c.holders[t := AfterDetach(c, t).holders[t]]
    ensures AfterDetach(c, t).holders[t].session == c.holders[t].session
  {
    if c.holders[t].session !in c.books.cleanup {
      AfterReconcileRest(c, t, false, s);
      hide AfterReconcile, SameRest;
    }
  }

  lemma AcquireSame(c: Client, t: Token, x: SessionId, mode: Mode, s: SessionId)
    requires t !in c.holders && s != x
    ensures SameOn(c, Acquire(c, t, x, mode), s)
  {
    var c' := Acquire(c, t, x, mode);
    if Refuses(c.books, x, mode) {
      Reflexive(c, s);
    } else {
      var reserved := c.(books := Reserve(c.books, x, t, mode),
          holders := c.holders[t := Holder(x, mode, ReadyAfterDetach)]);
      assert SameRest(c, reserved, s);
      if x in c.detaching {
        HolderSame(c, c', t, c'.holders[t], s);
      } else {
        AfterDetachRest(reserved, t, s);
        hide AfterDetach, Reserve, Generation, Count;
        HolderSame(c, c', t, c'.holders[t], s);
      }
    }
  }

  lemma CreatedSame(c: Client, t: Token, x: SessionId, s: SessionId)
    requires t !in c.holders && s != x
    ensures SameOn(c, Created(c, t, x), s)
  {
    var c' := Created(c, t, x);
    HolderSame(c, c', t, c'.holders[t], s);
  }

  lemma ContinueSame(c: Client, t: Token, s: SessionId)
    requires t in c.holders && s != c.holders[t].session
    ensures SameOn(c, Continue(c, t), s)
  {
    hide SameOn, AfterDetach, AfterReconcile, CreateLease, GiveUp, AfterCreate, AfterDetached;
    Reflexive(c, s);
    match c.holders[t].phase
    case ReadyAfterDetach => AfterDetachSame(c, t, s);
    case ReadyReconciled => AfterReconcileSame(c, t, s);
    case ReadyAttached => LeaseSame(c, t, s);
    case ReadyFailed => LeaseSame(c, t, s);
    case CreateAnswered => AfterCreateSame(c, t, s);
    case Releasing(_, _, true) => AfterDetachedSame(c, t, s);
    case _ =>
  }

  lemma LeaseSame(c: Client, t: Token, s: SessionId)
    requires t in c.holders && s != c.holders[t].session
    ensures SameOn(c, CreateLease(c, t), s) && SameOn(c, GiveUp(c, t), s)
  {
    assert SameRest(c, CreateLease(c, t), s) && SameRest(c, GiveUp(c, t), s);
    hide SameRest;
    HolderSame(c, CreateLease(c, t), t, CreateLease(c, t).holders[t], s);
    HolderSame(c, GiveUp(c, t), t, GiveUp(c, t).holders[t], s);
  }

  lemma AfterDetachedSame(c: Client, t: Token, s: SessionId)
    requires t in c.holders && c.holders[t].phase.Releasing? && s != c.holders[t].session
    ensures SameOn(c, AfterDetached(c, t), s)
  {
    assert Landed(c, t).holders[t] == c.holders[t];
    hide Wake, SameOn;
    LandedSame(c, AfterDetached(c, t), t, s);
  }

  lemma AfterDetachSame(c: Client, t: Token, s: SessionId)
    requires t in c.holders && s != c.holders[t].session
    ensures SameOn(c, AfterDetach(c, t), s)
  {
    AfterDetachRest(c, t, s);
    hide AfterDetach, SameRest;
    HolderSame(c, AfterDetach(c, t), t, AfterDetach(c, t).holders[t], s);
  }

  lemma AfterReconcileSame(c: Client, t: Token, s: SessionId)
    requires t in c.holders && s != c.holders[t].session
    ensures SameOn(c, AfterReconcile(c, t, true), s)
  {
    AfterReconcileRest(c, t, true, s);
    hide AfterReconcile, SameRest;
    HolderSame(c, AfterReconcile(c, t, true), t, AfterReconcile(c, t, true).holders[t], s);
  }

  lemma AfterCreateSame(c: Client, t: Token, s: SessionId)
    requires t in c.holders && s != c.holders[t].session
    ensures SameOn(c, AfterCreate(c, t), s)
  {
    var c' := AfterCreate(c, t);
    assert SameRest(c, c', s);
    HolderSame(c, c', t, c'.holders[t], s);
  }

  lemma ReleaseSame(c: Client, t: Token, relinquish: bool, s: SessionId)
    requires t in c.holders && s != c.holders[t].session
    ensures SameOn(c, Release(c, t, relinquish), s)
  {
    var c' := Release(c, t, relinquish);
    if c' == c {
      Reflexive(c, s);
    } else {
      HolderSame(c, c', t, c'.holders[t], s);
    }
  }

  lemma WakeSame(c: Client, x: SessionId, from: Phase, to: Phase, s: SessionId)
    requires s != x
    ensures SameHolders(c, c.(holders := Wake(c.holders, x, from, to)), s)
  {
  }

  lemma LandedSame(c: Client, c': Client, t: Token, s: SessionId)
    requires t in c.holders && s != c.holders[t].session && t in c'.holders
    requires c'.holders[t].session == c.holders[t].session
    requires c'.holders == Landed(c, t).holders[t := c'.holders[t]]
    requires c' == Landed(c, t).(holders := c'.holders, books := c'.books, attached := c'.attached)
    requires SameRest(c, c.(books := c'.books, attached := c'.attached), s)
    ensures SameOn(c, c', s)
  {
    WakeSame(c, c.holders[t].session, AwaitDetach(t), ReadyAfterDetach, s);
    hide Wake, Generation, Count;
  }

  lemma DetachSettledSame(c: Client, t: Token, ok: bool, s: SessionId)
    requires t in c.holders && c.holders[t].phase.Releasing? && s != c.holders[t].session
    ensures SameOn(c, DetachSettled(c, t, ok), s)
  {
    var c' := DetachSettled(c, t, ok);
    if ok {
      HolderSame(c, c', t, c'.holders[t], s);
    } else {
      assert Landed(c, t).holders[t] == c.holders[t];
      hide Wake, SameOn;
      LandedSame(c, c', t, s);
    }
  }

  /** An event about one session leaves the others as they are. */
  lemma OthersSame(c: Client, e: Event, s: SessionId)
    requires !About(c, e, s) && !e.EDisconnected? && Confined(c, e) && !e.EConnected?
    ensures SameOn(c, Step(c, e), s)
  {
    hide SameOn;
    Reflexive(c, s);
    match e
    case EAcquire(t, x, mode) => if t !in c.holders { AcquireSame(c, t, x, mode, s); }
    case ECreated(t, x) => if t !in c.holders { CreatedSame(c, t, x, s); }
    case EContinue(t) => if t in c.holders { ContinueSame(c, t, s); }
    case ERelease(t, relinquish) => if t in c.holders { ReleaseSame(c, t, relinquish, s); }
    case EDetachSettled(t, ok) => if t in c.holders && c.holders[t].phase.Releasing? { DetachSettledSame(c, t, ok, s); }
    case EReconcileSettled(x, ok) => ReconcileSame(c, x, ok, s);
    case EAttachSettled(x, ok) => AttachSame(c, x, ok, s);
    case ERemoved(x) => RemovedSame(c, x, s);
    case _ =>
  }

  lemma Reflexive(c: Client, s: SessionId)
    ensures SameOn(c, c, s)
  {
  }

  lemma ReconcileSame(c: Client, x: SessionId, ok: bool, s: SessionId)
    requires s != x
    ensures SameOn(c, ReconcileSettled(c, x, ok), s)
  {
    WakeSame(c, x, AwaitReconcile, if ok then ReadyReconciled else ReadyFailed, s);
    hide Wake, SameHolders;
  }

  lemma AttachSame(c: Client, x: SessionId, ok: bool, s: SessionId)
    requires s != x
    ensures SameOn(c, AttachSettled(c, x, ok), s)
  {
    WakeSame(c, x, AwaitAttach, if ok then ReadyAttached else ReadyFailed, s);
    hide Wake, SameHolders;
  }

  lemma RemovedSame(c: Client, x: SessionId, s: SessionId)
    requires s != x
    ensures SameOn(c, Step(c, ERemoved(x)), s)
  {
  }

  lemma StepAttached(c: Client, e: Event, s: SessionId)
    requires Inv(c) && AttachOk(c, s) && Orderly(c, e) && Confined(c, e)
    ensures AttachOk(Step(c, e), s)
  {
    if e.EDisconnected? {
      if Hits(c, e, s) { HitAttached(c, e, s); } else { MissedAttached(c, e, s); }
    } else if e.EConnected? {
      Untouched(c, Step(c, e), s);
    } else if !About(c, e, s) {
      OthersSame(c, e, s);
      Untouched(c, Step(c, e), s);
    } else {
      hide AttachOk, Inv, Orderly;
      match e
      case EAcquire(t, x, mode) => if t !in c.holders { AcquireAttached(c, t, x, mode); }
      case ECreated(t, x) => if t !in c.holders && c.connected { CreateKeepsIff(c, t, x); }
      case EContinue(t) => if MayGoOn(c, t) { ContinueAttached(c, t); }
      case ERelease(t, relinquish) => ReleaseAttached(c, t, relinquish);
      case EDetachSettled(t, ok) =>
        if DetachSettles(c, t, ok) {
          if ok { ConfirmedAttached(c, t); } else { RejectedAttached(c, t); }
        }
      case EReconcileSettled(x, ok) => if x in c.reconciling && Drained(c, x) { ReconcileAttached(c, x, ok); }
      case EAttachSettled(x, ok) =>
        if x in c.attaching && Drained(c, x) && (ok ==> c.connected) { AttachSettledAttached(c, x, ok); }
      case ERemoved(x) => if c.connected { HitAttached(c, e, x); }
      case _ =>
    }
  }

  ghost predicate ConfinedRun(c: Client, events: seq<Event>) {
    forall k | 0 <= k < |events| :: Confined(Run(c, events[..k]), events[k])
  }

  /** Every orderly and confined run keeps the attachment invariant. */
  lemma {:induction false} RunAttached(events: seq<Event>)
    requires OrderlyRun(START, events) && ConfinedRun(START, events)
    ensures Attached(Run(START, events))
  {
    if events != [] {
      var k := |events| - 1;
      forall i | 0 <= i < k
        ensures Orderly(Run(START, events[..k][..i]), events[..k][i])
            && Confined(Run(START, events[..k][..i]), events[..k][i])
      {
        assert events[..k][..i] == events[..i];
      }
      OrderlyRunKeeps(events[..k]);
      RunAttached(events[..k]);
      forall s: SessionId
        ensures AttachOk(Step(Run(START, events[..k]), events[k]), s)
      {
        StepAttached(Run(START, events[..k]), events[k], s);
      }
    }
  }

  /** The event makes the client ask the server to detach the session: a last release, or a cleanup. */
  predicate SendsDetachOf(c: Client, e: Event, s: SessionId) {
    || (e.ERelease? && e.t in c.holders && c.holders[e.t].session == s && SendsDetach(c, e.t))
    || (s !in c.reconciling && s in Step(c, e).reconciling)
  }

  lemma LiveIsAttached(c: Client, t: Token)
    requires Inv(c) && Live(c, t) && AttachOk(c, c.holders[t].session)
    ensures c.connected && c.holders[t].session in c.attached && c.holders[t].session !in c.detaching
    ensures c.holders[t].session in c.books.cleanup ==> c.holders[t].mode == Exclusive
  {
    assert TokenOk(c, c.holders[t]) && WaitsOrReleases(c, t, c.holders[t].session);
    hide SessionOk;
  }

  /** A live lease is on an attached session, which is not marked for cleanup unless it was created anew while it was;
      an attached session nobody holds is marked for cleanup, or a create is about to take it. */
  lemma AttachmentSafety(c: Client, t: Token, s: SessionId)
    requires Inv(c) && Attached(c)
    ensures Live(c, t) ==> c.connected && c.holders[t].session in c.attached
    ensures Live(c, t) && c.holders[t].session in c.books.cleanup ==> c.holders[t].mode == Exclusive
    ensures s in c.attached && Count(c.books, s) == 0 ==> s in c.books.cleanup || CreateDue(c, s)
  {
    assert AttachOk(c, s);
    if Live(c, t) {
      assert AttachOk(c, c.holders[t].session);
      LiveIsAttached(c, t);
    }
  }

  /** Once the client has sent a detach, no lease on that session is live. */
  lemma DetachesAreSafe(c: Client, e: Event, s: SessionId, t: Token)
    requires Inv(c) && Attached(c) && Orderly(c, e) && Confined(c, e) && SendsDetachOf(c, e, s)
    ensures !(Live(Step(c, e), t) && Step(c, e).holders[t].session == s)
  {
    var c' := Step(c, e);
    StepKeeps(c, e);
    StepAttached(c, e, s);
    if Live(c', t) && c'.holders[t].session == s {
      LiveIsAttached(c', t);
      if s in c'.reconciling {
        var w :| w in c'.holders && c'.holders[w].session == s && c'.holders[w].phase == AwaitReconcile;
        NobodyDuringCleanup(c', s, w, t);
      }
    }
    hide TokenOk, Attached, Inv, Confined, Orderly;
  }

  const SOME_SESSION: SessionId := "s"

  /** A create reply names a session whose attach is in flight, and that attach then fails. */
  const NAMED_TWICE: seq<Event> := [
    EConnected({}), EAcquire(0, SOME_SESSION, Shared), ECreated(1, SOME_SESSION), EContinue(1),
    EAttachSettled(SOME_SESSION, false), EContinue(0)]

  const DRAWN: Client := Client(
    Books(map[SOME_SESSION := 1], map[], map[], {}), map[0 := Holder(SOME_SESSION, Shared, AwaitAttach)], {}, map[], {},
    {SOME_SESSION}, true)

  const ANSWERED: Client := DRAWN.(
    attached := {SOME_SESSION}, holders := DRAWN.holders[1 := Holder(SOME_SESSION, Exclusive, CreateAnswered)])

  const NAMED: Client := ANSWERED.(holders := DRAWN.holders[1 := Holder(SOME_SESSION, Exclusive, Over)])

  const FAILED: Client := NAMED.(
    attaching := {}, holders := NAMED.holders[0 := Holder(SOME_SESSION, Shared, ReadyFailed)])

  lemma FirstDrawn()
    ensures Run(START, NAMED_TWICE[..2]) == DRAWN
  {
    assert NAMED_TWICE[..1] == [EConnected({})];
    assert NAMED_TWICE[..2] == [EConnected({}), EAcquire(0, SOME_SESSION, Shared)];
    assert [EConnected({}), EAcquire(0, SOME_SESSION, Shared)][..1] == [EConnected({})];
    assert Run(START, [EConnected({})]) == Step(START, EConnected({}));
    var c := Step(Step(START, EConnected({})), EAcquire(0, SOME_SESSION, Shared));
    assert c.holders == DRAWN.holders && c.attaching == DRAWN.attaching && c.books.counts == DRAWN.books.counts;
  }

  lemma ThenAnswered()
    ensures Step(DRAWN, ECreated(1, SOME_SESSION)) == ANSWERED
  {
    assert DRAWN.attached + {SOME_SESSION} == {SOME_SESSION};
  }

  lemma ThenNamed()
    ensures Step(ANSWERED, EContinue(1)) == NAMED
  {
    assert Step(ANSWERED, EContinue(1)) == AfterCreate(ANSWERED, 1);
    assert AfterCreate(ANSWERED, 1).holders == NAMED.holders;
  }

  lemma ThenFailed()
    ensures Step(NAMED, EAttachSettled(SOME_SESSION, false)) == FAILED
  {
    assert Drained(NAMED, SOME_SESSION);
    var c := AttachSettled(NAMED, SOME_SESSION, false);
    assert c.holders == FAILED.holders && c.attaching == {};
  }

  lemma ThenGivenUp()
    ensures var c := Step(FAILED, EContinue(0));
      SOME_SESSION in c.attached && Count(c.books, SOME_SESSION) == 0 && SOME_SESSION !in c.books.cleanup
  {
    assert !CreateDue(FAILED, SOME_SESSION);
    assert Step(FAILED, EContinue(0)) == GiveUp(FAILED, 0);
  }

  lemma Prefixes(k: nat)
    requires k < |NAMED_TWICE|
    ensures Run(START, NAMED_TWICE[..k + 1]) == Step(Run(START, NAMED_TWICE[..k]), NAMED_TWICE[k])
  {
    assert NAMED_TWICE[..k + 1][..k] == NAMED_TWICE[..k];
    hide Step;
  }

  /** Why the assumption about create replies is needed: this run ends with an attached session that nobody holds and
      that is not marked for cleanup. */
  lemma NamedWhileAttaching()
    ensures var c := Run(START, NAMED_TWICE);
      SOME_SESSION in c.attached && Count(c.books, SOME_SESSION) == 0 && SOME_SESSION !in c.books.cleanup
  {
    hide Run, Step, Count;
    FirstDrawn();
    Prefixes(2);
    ThenAnswered();
    Prefixes(3);
    ThenNamed();
    Prefixes(4);
    ThenFailed();
    Prefixes(5);
    ThenGivenUp();
    assert NAMED_TWICE[..6] == NAMED_TWICE;
  }
}
