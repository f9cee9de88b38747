/** What each lease call and each reply achieves, stated by the state it leads to: counts, owners, marks, requests in
    flight, and the phase of the lease. */
module LeaseEffects {
  import opened LeaseInvariant
  import opened Leases
  import opened Seqs

  /** No other lease is touched. */
  predicate OthersKept(c: Client, c': Client, t: Token) {
    c'.holders.Keys == c.holders.Keys + {t} && forall u | u in c.holders && u != t :: c'.holders[u] == c.holders[u]
  }

  /** The lease keeps its session and mode and is in this phase now. */
  predicate NowIn(c: Client, c': Client, t: Token, p: Phase) {
    t in c.holders && t in c'.holders && c'.holders[t] == c.holders[t].(phase := p)
  }

  /** Everybody who waited on the session in one phase is in another now, and nobody else is touched. */
  predicate AllMoved(c: Client, c': Client, s: SessionId, from: Phase, to: Phase) {
    && c'.holders.Keys == c.holders.Keys
    && forall u | u in c.holders ::
         c'.holders[u] == if c.holders[u].session == s && c.holders[u].phase == from then c.holders[u].(phase := to)
                          else c.holders[u]
  }

  /** The requests in flight. */
  predicate SameFlights(c: Client, c': Client) {
    c'.detaching == c.detaching && c'.reconciling == c.reconciling && c'.attaching == c.attaching
  }

  /** The session's share count and owner. */
  predicate Shares(b: Books, s: SessionId, count: nat, owner: Option<Token>) {
    Count(b, s) == count && Owner(b, s) == owner
  }

  /** Shares of other sessions, generations and marks stay as they are. */
  ghost predicate OnlyShares(b: Books, b': Books, s: SessionId) {
    && SameGenerations(b, b') && b'.cleanup == b.cleanup
    && forall x: SessionId :: x != s ==> Shares(b', x, Count(b, x), Owner(b, x))
  }

  predicate Conflicts(b: Books, s: SessionId, mode: Mode) {
    if mode == Exclusive then Count(b, s) > 0 else Owner(b, s).Some?
  }

  /** `acquireSession` that conflicts with a reservation changes nothing. */
  lemma AcquireRefused(c: Client, t: Token, s: SessionId, mode: Mode)
    requires t !in c.holders && Conflicts(c.books, s, mode)
    ensures Step(c, EAcquire(t, s, mode)) == c
  {
  }

  /** One that does not reserves a share, and then waits for the detach in flight, or for the cleanup, or for the
      attach, or has its lease at once. */
  lemma AcquireReserves(c: Client, t: Token, s: SessionId, mode: Mode)
    requires t !in c.holders && !Conflicts(c.books, s, mode)
    ensures var c' := Step(c, EAcquire(t, s, mode));
      && t in c'.holders && c'.holders[t].session == s && c'.holders[t].mode == mode && OthersKept(c, c', t)
      && Shares(c'.books, s, Count(c.books, s) + 1, if mode == Exclusive then Some(t) else Owner(c.books, s))
      && OnlyShares(c.books, c'.books, s) && c'.attached == c.attached && c'.connected == c.connected
      && c'.detaching == c.detaching
      && (if s in c.detaching then c'.holders[t].phase == AwaitDetach(c.detaching[s]) && SameFlights(c, c')
          else if s in c.books.cleanup then c'.holders[t].phase == AwaitReconcile && s in c'.reconciling
          else if s !in c.attached then c'.holders[t].phase == AwaitAttach && s in c'.attaching
          else Live(c', t) && SameFlights(c, c'))
  {
    var p := if s in c.detaching then AwaitDetach(c.detaching[s]) else ReadyAfterDetach;
    var reserved := c.(books := Reserve(c.books, s, t, mode), holders := c.holders[t := Holder(s, mode, p)]);
    ReserveGives(c.books, s, t, mode);
    assert Step(c, EAcquire(t, s, mode)) == Acquire(c, t, s, mode);
    if s in c.detaching {
      assert Acquire(c, t, s, mode).holders == reserved.holders;
    } else {
      assert Acquire(c, t, s, mode) == AfterDetach(reserved, t);
      CreateKeepsBooks(reserved, t);
    }
    hide Step, Acquire, Count, Owner, Generation, Reserve, Refuses;
  }

  lemma ReserveGives(b: Books, s: SessionId, t: Token, mode: Mode)
    ensures var b' := Reserve(b, s, t, mode);
      && Shares(b', s, Count(b, s) + 1, if mode == Exclusive then Some(t) else Owner(b, s)) && OnlyShares(b, b', s)
  {
  }

  lemma UnreserveTakes(b: Books, s: SessionId, t: Token)
    ensures var b' := Unreserve(b, s, t);
      && OnlyShares(b, b', s)
      && Shares(b', s, if Count(b, s) <= 1 then 0 else Count(b, s) - 1,
                if Owner(b, s) == Some(t) then None else Owner(b, s))
  {
  }

  lemma CreateKeepsBooks(c: Client, t: Token)
    requires t in c.holders
    ensures var s, c' := c.holders[t].session, CreateLease(c, t);
      && OnlyShares(c.books, c'.books, s) && Shares(c'.books, s, Count(c.books, s), Owner(c.books, s))
      && Live(c', t) && c' == c.(holders := c'.holders, books := c'.books)
      && c'.holders == c.holders[t := c.holders[t].(phase := c'.holders[t].phase)]
  {
  }

  /** `detach` or `dispose` of a lease that is the only share of its session asks the server and waits. */
  lemma LastReleaseAsks(c: Client, t: Token, relinquish: bool)
    requires Live(c, t) && c.connected && c.holders[t].session in c.attached
    requires Count(c.books, c.holders[t].session) <= 1
    ensures var s, c' := c.holders[t].session, Step(c, ERelease(t, relinquish));
      && NowIn(c, c', t, Releasing(c.holders[t].phase.generation, relinquish, false)) && OthersKept(c, c', t)
      && c' == c.(holders := c'.holders, detaching := c.detaching[s := t])
  {
  }

  /** That of one of several gives back its share and is done. */
  lemma SharedReleaseLeaves(c: Client, t: Token, relinquish: bool)
    requires Live(c, t) && c.connected && c.holders[t].session in c.attached
    requires Count(c.books, c.holders[t].session) > 1
    ensures var s, c' := c.holders[t].session, Step(c, ERelease(t, relinquish));
      && NowIn(c, c', t, Over) && OthersKept(c, c', t) && c' == c.(holders := c'.holders, books := c'.books)
      && OnlyShares(c.books, c'.books, s)
      && Shares(c'.books, s, Count(c.books, s) - 1, if Owner(c.books, s) == Some(t) then None else Owner(c.books, s))
  {
  }

  /** That of a lease an invalidation hit closes the handle only; that of a lease on a session that is not attached, or
      while not connected, is refused. */
  lemma ReleaseElsewhere(c: Client, t: Token, relinquish: bool)
    requires t in c.holders && c.holders[t].phase.Active?
    requires !Live(c, t) || !c.connected || c.holders[t].session !in c.attached
    ensures var c' := Step(c, ERelease(t, relinquish));
      if Live(c, t) then c' == c
      else NowIn(c, c', t, Over) && OthersKept(c, c', t) && c' == c.(holders := c'.holders)
  {
    hide Count;
  }

  /** A confirmed detach: the session is not attached any more; the release has still to go on. */
  lemma DetachConfirmed(c: Client, t: Token)
    requires c.connected && t in c.holders && c.holders[t].phase.Releasing? && !c.holders[t].phase.confirmed
    ensures var c' := Step(c, EDetachSettled(t, true));
      && NowIn(c, c', t, c.holders[t].phase.(confirmed := true)) && OthersKept(c, c', t)
      && c' == c.(holders := c'.holders, attached := c.attached - {c.holders[t].session})
  {
  }

  /** It goes on: the share is given back, the detach is no longer in flight, and those who waited may go on. */
  lemma ReleaseGoesThrough(c: Client, t: Token)
    requires t in c.holders && c.holders[t].phase.Releasing? && c.holders[t].phase.confirmed
    requires !CreateDue(c, c.holders[t].session)
    ensures var s, c' := c.holders[t].session, Step(c, EContinue(t));
      && NowIn(c, c', t, Over) && WaitersFreed(c, c', t) && c'.attached == c.attached
      && OnlyShares(c.books, c'.books, s)
      && Shares(c'.books, s, if Count(c.books, s) <= 1 then 0 else Count(c.books, s) - 1,
                if Owner(c.books, s) == Some(t) then None else Owner(c.books, s))
  {
    hide CreateDue;
    assert Step(c, EContinue(t)) == AfterDetached(c, t);
    UnreserveTakes(c.books, c.holders[t].session, t);
    hide Step, Unreserve, Count, Owner;
  }

  /** Those who waited for the detach of t may go on, and it is not in flight. */
  predicate WaitersFreed(c: Client, c': Client, t: Token)
    requires t in c.holders
  {
    && (c.holders[t].session in c'.detaching ==> c'.detaching[c.holders[t].session] != t)
    && c'.holders.Keys == c.holders.Keys
    && forall u | u in c.holders && u != t ::
         c'.holders[u] == if c.holders[u].session == c.holders[t].session && c.holders[u].phase == AwaitDetach(t)
                          then c.holders[u].(phase := ReadyAfterDetach)
                          else c.holders[u]
  }

  /** A rejected detach of a lease that was to be kept: the lease is as it was before its release, no count, owner or
      mark has changed, and those who waited may go on. */
  lemma RejectedDetachRestores(c: Client, t: Token)
    requires t in c.holders && c.holders[t].phase.Releasing? && !c.holders[t].phase.confirmed
    requires !c.holders[t].phase.relinquish
    requires c.holders[t].phase.generation == Generation(c.books, c.holders[t].session)
    requires !CreateDue(c, c.holders[t].session)
    ensures var c' := Step(c, EDetachSettled(t, false));
      && NowIn(c, c', t, Active(c.holders[t].phase.generation)) && Live(c', t)
      && c'.books == c.books && c'.attached == c.attached && WaitersFreed(c, c', t)
  {
    hide CreateDue;
    assert Step(c, EDetachSettled(t, false)) == DetachSettled(c, t, false);
    hide Step;
  }

  /** A rejected detach of a lease that was disposed of: the lease is over, its share given back, its session marked. */
  lemma RejectedDisposeMarks(c: Client, t: Token)
    requires t in c.holders && c.holders[t].phase.Releasing? && !c.holders[t].phase.confirmed
    requires c.holders[t].phase.relinquish && c.holders[t].phase.generation == Generation(c.books, c.holders[t].session)
    requires !CreateDue(c, c.holders[t].session)
    ensures var s, c' := c.holders[t].session, Step(c, EDetachSettled(t, false));
      && NowIn(c, c', t, Over) && c'.books.cleanup == c.books.cleanup + {s} && c'.attached == c.attached
      && WaitersFreed(c, c', t)
      && Count(c'.books, s) == (if Count(c.books, s) <= 1 then 0 else Count(c.books, s) - 1)
      && Owner(c'.books, s) == (if Owner(c.books, s) == Some(t) then None else Owner(c.books, s))
      && OnlyShares(c.books, c'.books.(cleanup := c.books.cleanup), s)
  {
    hide CreateDue;
    assert Step(c, EDetachSettled(t, false)) == DetachSettled(c, t, false);
    hide Step;
  }

  /** Nothing but its own detach's answer changes a release under way. */
  lemma ReleaseWaits(c: Client, t: Token, e: Event)
    requires t in c.holders && c.holders[t].phase.Releasing? && !c.holders[t].phase.confirmed
    requires e != EDetachSettled(t, true) && e != EDetachSettled(t, false)
    ensures t in Step(c, e).holders && Step(c, e).holders[t] == c.holders[t]
  {
    match e
    case EAcquire(u, s, mode) => AcquireElsewhere(c, t, u, s, mode);
    case EContinue(u) => ContinueElsewhere(c, t, u);
    case _ => hide Generation, Count, Drained, MayGoOn, Unreserve;
  }

  lemma AcquireElsewhere(c: Client, t: Token, u: Token, s: SessionId, mode: Mode)
    requires t in c.holders
    ensures t in Step(c, EAcquire(u, s, mode)).holders && Step(c, EAcquire(u, s, mode)).holders[t] == c.holders[t]
  {
    hide Reserve, Refuses, AfterDetach;
    if u !in c.holders {
      var reserved := c.(books := Reserve(c.books, s, u, mode),
          holders := c.holders[u := Holder(s, mode, ReadyAfterDetach)]);
      OthersGoOn(reserved, u, t);
    }
  }

  lemma ContinueElsewhere(c: Client, t: Token, u: Token)
    requires t in c.holders && c.holders[t].phase.Releasing? && !c.holders[t].phase.confirmed
    ensures t in Step(c, EContinue(u)).holders && Step(c, EContinue(u)).holders[t] == c.holders[t]
  {
    hide Generation, Count, MayGoOn, Unreserve, Reserve, Refuses;
    if u in c.holders && u != t {
      OthersGoOn(c, u, t);
    }
    hide AfterDetach, AfterReconcile, CreateLease;
  }

  lemma OthersGoOn(c: Client, u: Token, t: Token)
    requires u in c.holders && t in c.holders && t != u
    ensures t in AfterDetach(c, u).holders && AfterDetach(c, u).holders[t] == c.holders[t]
    ensures t in AfterReconcile(c, u, true).holders && AfterReconcile(c, u, true).holders[t] == c.holders[t]
    ensures t in CreateLease(c, u).holders && CreateLease(c, u).holders[t] == c.holders[t]
  {
    hide Generation;
  }

  lemma {:induction false} ReleaseWaitsOn(c: Client, t: Token, between: seq<Event>)
    requires t in c.holders && c.holders[t].phase.Releasing? && !c.holders[t].phase.confirmed
    requires forall e <- between :: e != EDetachSettled(t, true) && e != EDetachSettled(t, false)
    ensures t in Run(c, between).holders && Run(c, between).holders[t] == c.holders[t]
  {
    hide Step;
    if between != [] {
      var n := |between| - 1;
      assert between[n] in between && forall e <- between[..n] :: e in between;
      ReleaseWaitsOn(c, t, between[..n]);
      ReleaseWaits(Run(c, between[..n]), t, between[n]);
    }
  }

  /** A `detach` whose request the server rejects, whatever happens between, leaves its lease as it was before, if no
      invalidation came: it is live and can be released again. A `dispose` ends with the lease over. */
  lemma DetachCanBeRetried(c: Client, t: Token, relinquish: bool, between: seq<Event>)
    requires Live(c, t) && c.connected && c.holders[t].session in c.attached
    requires Count(c.books, c.holders[t].session) <= 1
    requires forall e <- between :: e != EDetachSettled(t, true) && e != EDetachSettled(t, false)
    ensures var s, now := c.holders[t].session, Run(Step(c, ERelease(t, relinquish)), between);
      var c' := Step(now, EDetachSettled(t, false));
      Generation(now.books, s) == Generation(c.books, s) && !CreateDue(now, s) ==>
        && t in c'.holders
        && (if relinquish then c'.holders[t] == c.holders[t].(phase := Over) && s in c'.books.cleanup
            else c'.holders[t] == c.holders[t] && Live(c', t) && c'.books == now.books)
  {
    LastReleaseAsks(c, t, relinquish);
    var s, asked := c.holders[t].session, Step(c, ERelease(t, relinquish));
    ReleaseWaitsOn(asked, t, between);
    var now := Run(asked, between);
    hide Step, Run;
    if Generation(now.books, s) == Generation(c.books, s) && !CreateDue(now, s) {
      if relinquish {
        RejectedDisposeMarks(now, t);
      } else {
        RejectedDetachRestores(now, t);
      }
    }
  }

  /** A confirmed cleanup: the session is neither attached nor marked any more, and who waited for it may go on. */
  lemma CleanupConfirmed(c: Client, s: SessionId)
    requires c.connected && s in c.reconciling && Drained(c, s)
    ensures var c' := Step(c, EReconcileSettled(s, true));
      && AllMoved(c, c', s, AwaitReconcile, ReadyReconciled)
      && c' == c.(holders := c'.holders, attached := c.attached - {s}, reconciling := c.reconciling - {s},
                  books := c.books.(cleanup := c.books.cleanup - {s}))
  {
    hide Drained;
  }

  /** A rejected one: who waited gives up, and the session stays marked. */
  lemma CleanupRejected(c: Client, s: SessionId)
    requires s in c.reconciling && Drained(c, s)
    ensures var c' := Step(c, EReconcileSettled(s, false));
      && AllMoved(c, c', s, AwaitReconcile, ReadyFailed)
      && c' == c.(holders := c'.holders, reconciling := c.reconciling - {s})
  {
    hide Drained;
  }

  lemma AttachConfirmed(c: Client, s: SessionId)
    requires c.connected && s in c.attaching && Drained(c, s)
    ensures var c' := Step(c, EAttachSettled(s, true));
      && AllMoved(c, c', s, AwaitAttach, ReadyAttached)
      && c' == c.(holders := c'.holders, attached := c.attached + {s}, attaching := c.attaching - {s})
  {
    hide Drained;
  }

  lemma AttachRejected(c: Client, s: SessionId)
    requires s in c.attaching && Drained(c, s)
    ensures var c' := Step(c, EAttachSettled(s, false));
      && AllMoved(c, c', s, AwaitAttach, ReadyFailed)
      && c' == c.(holders := c'.holders, attaching := c.attaching - {s})
  {
    hide Drained;
  }

  /** What a woken acquire does next: after a detach it looks at the mark and then at the attachment, after a cleanup it
      asks for the attach, after the attach it has its lease, and after a rejection it gives its share back. */
  lemma AcquireGoesOn(c: Client, t: Token)
    requires t in c.holders && Ready(c.holders[t].phase) && !CreateDue(c, c.holders[t].session)
    ensures var s, p, c' := c.holders[t].session, c.holders[t].phase, Step(c, EContinue(t));
      && OthersKept(c, c', t) && c'.attached == c.attached && c'.detaching == c.detaching
      && (p == ReadyAfterDetach && s in c.books.cleanup ==>
            NowIn(c, c', t, AwaitReconcile) && s in c'.reconciling && c'.books == c.books)
      && (p == ReadyReconciled || (p == ReadyAfterDetach && s !in c.books.cleanup && s !in c.attached) ==>
            NowIn(c, c', t, AwaitAttach) && s in c'.attaching && c'.books == c.books)
      && (p == ReadyAttached || (p == ReadyAfterDetach && s !in c.books.cleanup && s in c.attached) ==>
            Live(c', t) && SameFlights(c, c') && OnlyShares(c.books, c'.books, s)
            && Shares(c'.books, s, Count(c.books, s), Owner(c.books, s)))
      && (p == ReadyFailed ==>
            && NowIn(c, c', t, Over) && SameFlights(c, c') && OnlyShares(c.books, c'.books, s)
            && Shares(c'.books, s, if Count(c.books, s) <= 1 then 0 else Count(c.books, s) - 1,
                      if Owner(c.books, s) == Some(t) then None else Owner(c.books, s)))
  {
    hide CreateDue;
    assert Step(c, EContinue(t)) == Continue(c, t);
    CreateKeepsBooks(c, t);
    UnreserveTakes(c.books, c.holders[t].session, t);
    hide Step, CreateLease, Unreserve, Count, Owner, Generation;
  }

  /** An acquire that waits for a cleanup which is confirmed, and whose attach is, ends with its lease. */
  lemma CleanupThenAttach(c: Client, t: Token, s: SessionId)
    requires c.connected && t in c.holders && c.holders[t] == Holder(s, c.holders[t].mode, AwaitReconcile)
    requires s in c.reconciling && Drained(c, s) && !CreateDue(c, s)
    requires forall u | u in c.holders && u != t :: c.holders[u].session == s ==> c.holders[u].phase.Over?
    ensures var asked := Step(Step(c, EReconcileSettled(s, true)), EContinue(t));
      var c' := Step(Step(asked, EAttachSettled(s, true)), EContinue(t));
      && NowIn(c, asked, t, AwaitAttach) && s !in asked.attached && s !in asked.books.cleanup
      && Live(c', t) && s in c'.attached && s !in c'.books.cleanup && Count(c'.books, s) == Count(c.books, s)
  {
    hide Step;
    CleanupConfirmed(c, s);
    var settled := Step(c, EReconcileSettled(s, true));
    assert !CreateDue(settled, s);
    AcquireGoesOn(settled, t);
    var asked := Step(settled, EContinue(t));
    assert Drained(asked, s) && asked.connected by {
      StillConnected(settled, t);
    }
    AttachConfirmed(asked, s);
    var answered := Step(asked, EAttachSettled(s, true));
    assert !CreateDue(answered, s);
    AcquireGoesOn(answered, t);
  }

  lemma StillConnected(c: Client, t: Token)
    ensures Step(c, EContinue(t)).connected == c.connected
  {
  }

  /** A create that is answered attaches its session; going on, it gets an exclusive lease where nobody has a share, and
      is refused otherwise. */
  lemma CreateAnswers(c: Client, t: Token, s: SessionId)
    requires c.connected && t !in c.holders
    ensures var answered := Step(c, ECreated(t, s));
      var c' := Step(answered, EContinue(t));
      && s in answered.attached && answered.books == c.books && OthersKept(c, c', t)
      && c' == c.(attached := c.attached + {s}, holders := c'.holders, books := c'.books)
      && t in c'.holders && c'.holders[t].session == s && c'.holders[t].mode == Exclusive
      && (if Count(c.books, s) > 0 then c'.holders[t].phase == Over && c'.books == c.books
          else Live(c', t) && OnlyShares(c.books, c'.books, s) && Shares(c'.books, s, 1, Some(t)))
  {
    var answered := Step(c, ECreated(t, s));
    assert Step(answered, EContinue(t)) == AfterCreate(answered, t);
  }

  /** A removed session has no count, owner or mark, is not attached, and its leases so far are dead. */
  lemma RemovalForgets(c: Client, s: SessionId)
    requires c.connected
    ensures var c' := Step(c, ERemoved(s));
      && Shares(c'.books, s, 0, None) && Generation(c'.books, s) == Generation(c.books, s) + 1
      && c'.attached == c.attached - {s} && c'.books.cleanup == c.books.cleanup - {s}
      && c' == c.(attached := c'.attached, books := c'.books)
      && forall x: SessionId :: x != s ==>
           && Shares(c'.books, x, Count(c.books, x), Owner(c.books, x))
           && Generation(c'.books, x) == Generation(c.books, x)
  {
  }

  /** A disconnect forgets every count and mark and every attachment; the sessions that had a count start a new
      generation. */
  lemma DisconnectForgetsAll(c: Client, x: SessionId)
    ensures var c' := Step(c, EDisconnected);
      && c' == c.(attached := {}, connected := false, books := c'.books) && c'.books.cleanup == {}
      && Count(c'.books, x) == 0
      && Owner(c'.books, x) == (if Count(c.books, x) > 0 then None else Owner(c.books, x))
      && Generation(c'.books, x) == Generation(c.books, x) + (if Count(c.books, x) > 0 then 1 else 0)
  {
  }

  /** A connection brings its attached sessions and touches no lease; neither does a change of the attached sessions. */
  lemma ConnectionTouchesNoLease(c: Client, attached: set<SessionId>)
    ensures var c' := Step(c, EConnected(attached));
      if c.connected then c' == c else c'.connected && c' == c.(attached := attached, connected := true)
    ensures var c' := Step(c, ESnapshot(attached));
      if c.connected then c' == c.(attached := attached) else c' == c
  {
  }
}
