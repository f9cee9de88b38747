/** The lease methods of `PiClient`, updating its maps and sets in place; every method that stands for a step of the
    lease system is proved to do that step and to keep what timely runs keep. */
module LeaseClient {
  import opened LeaseRecovery
  import opened Leases

  /** The books after the leases of these sessions have been invalidated. */
  ghost function InvalidateSome(b: Books, done: set<SessionId>): Books {
    Books(b.counts - done, b.exclusive - done,
          map s | s in b.generations.Keys + done :: Generation(b, s) + (if s in done then 1 else 0), b.cleanup - done)
  }

  lemma InvalidateNone(b: Books)
    ensures InvalidateSome(b, {}) == b
  {
    assert b.counts - {} == b.counts && b.exclusive - {} == b.exclusive;
    assert InvalidateSome(b, {}).generations == b.generations;
  }

  lemma InvalidateOneMore(b: Books, done: set<SessionId>, s: SessionId)
    requires s !in done
    ensures Invalidate(InvalidateSome(b, done), s) == InvalidateSome(b, done + {s})
  {
    var x, y := Invalidate(InvalidateSome(b, done), s), InvalidateSome(b, done + {s});
    assert x.counts == y.counts && x.exclusive == y.exclusive && x.cleanup == y.cleanup;
    assert x.generations == y.generations;
  }

  /** `InvalidateAll` is the invalidation of each session that has a count. */
  lemma InvalidateEach(b: Books)
    ensures InvalidateAll(b) == InvalidateSome(b, b.counts.Keys).(cleanup := {})
  {
    assert b.counts - b.counts.Keys == map[];
    assert InvalidateAll(b).generations == InvalidateSome(b, b.counts.Keys).generations;
  }

  class PiClient {
    var counts: map<SessionId, Positive>
    var exclusive: map<SessionId, Token>
    var generations: map<SessionId, nat>
    var cleanup: set<SessionId>
    var holders: map<Token, Holder>
    var attached: set<SessionId>
    var detaching: map<SessionId, Token>
    var reconciling: set<SessionId>
    var attaching: set<SessionId>
    var connected: bool

    function TheBooks(): Books
      reads this
    {
      Books(counts, exclusive, generations, cleanup)
    }

    function View(): Client
      reads this
    {
      Client(TheBooks(), holders, attached, detaching, reconciling, attaching, connected)
    }

    /** The books are right, or nothing is live while the client is disconnected. */
    ghost predicate Valid()
      reads this
    {
      Steady(View())
    }

    constructor ()
      ensures Valid() && View() == START
    {
      counts, exclusive, generations, cleanup := map[], map[], map[], {};
      holders, attached, detaching, reconciling, attaching, connected := map[], {}, map[], {}, {}, false;
      new;
      StartSteady();
      hide Steady;
    }

    /** Reserves unless the reservation conflicts with one there is. */
    method ReserveSessionLease(s: SessionId, token: Token, mode: Mode) returns (granted: bool)
      modifies this`counts, this`exclusive
      ensures granted == !Refuses(old(TheBooks()), s, mode)
      ensures TheBooks() == if granted then Reserve(old(TheBooks()), s, token, mode) else old(TheBooks())
    {
      var count: nat := 0;
      if s in counts {
        count := counts[s];
      }
      if mode == Exclusive && count > 0 {
        return false;
      }
      if mode == Shared && s in exclusive {
        return false;
      }
      counts := counts[s := count + 1];
      if mode == Exclusive {
        exclusive := exclusive[s := token];
      }
      granted := true;
    }

    method ReleaseSessionLease(s: SessionId, token: Token)
      modifies this`counts, this`exclusive
      ensures TheBooks() == Unreserve(old(TheBooks()), s, token)
    {
      var count: nat := 0;
      if s in counts {
        count := counts[s];
      }
      if count <= 1 {
        counts := counts - {s};
      } else {
        counts := counts[s := count - 1];
      }
      if s in exclusive && exclusive[s] == token {
        exclusive := exclusive - {s};
      }
    }

    method InvalidateSessionLeases(s: SessionId)
      modifies this`counts, this`exclusive, this`generations, this`cleanup
      ensures TheBooks() == Invalidate(old(TheBooks()), s)
    {
      counts := counts - {s};
      exclusive := exclusive - {s};
      cleanup := cleanup - {s};
      generations := generations[s := (if s in generations then generations[s] else 0) + 1];
    }

    /** One session after another, in whatever order; only those with a count get a new generation. */
    method InvalidateAllSessionLeases()
      modifies this`counts, this`exclusive, this`generations, this`cleanup
      ensures TheBooks() == InvalidateAll(old(TheBooks()))
    {
      var todo := counts.Keys;
      ghost var was := TheBooks();
      InvalidateNone(was);
      while todo != {}
        invariant todo <= was.counts.Keys && TheBooks() == InvalidateSome(was, was.counts.Keys - todo)
        decreases todo
      {
        var s :| s in todo;
        InvalidateOneMore(was, was.counts.Keys - todo, s);
        InvalidateSessionLeases(s);
        assert was.counts.Keys - (todo - {s}) == was.counts.Keys - todo + {s};
        todo := todo - {s};
        hide InvalidateSome, Invalidate;
      }
      cleanup := {};
      assert was.counts.Keys - {} == was.counts.Keys;
      InvalidateEach(was);
      hide InvalidateSome, InvalidateAll;
    }

    method MoveTo(t: Token, p: Phase)
      requires t in holders
      modifies this`holders
      ensures View() == SetPhase(old(View()), t, p)
    {
      holders := holders[t := holders[t].(phase := p)];
    }

    method CreateSessionLease(t: Token)
      requires t in holders
      modifies this`holders, this`generations
      ensures View() == CreateLease(old(View()), t)
    {
      var s := holders[t].session;
      var generation := 0;
      if s in generations {
        generation := generations[s];
      }
      generations := generations[s := generation];
      MoveTo(t, Active(generation));
    }

    method Leave(t: Token)
      requires t in holders
      modifies this
      ensures View() == GiveUp(old(View()), t)
    {
      ReleaseSessionLease(holders[t].session, t);
      MoveTo(t, Over);
    }

    /** `acquireSession` once the cleanup question is settled: join or send the attach, or create the lease. */
    method AttachOrCreate(t: Token, reconciled: bool)
      requires t in holders
      modifies this
      ensures View() == AfterReconcile(old(View()), t, reconciled)
    {
      var s := holders[t].session;
      if reconciled || s !in attached {
        attaching := attaching + {s};
        MoveTo(t, AwaitAttach);
      } else {
        CreateSessionLease(t);
      }
    }

    method ReconcileOrGoOn(t: Token)
      requires t in holders
      modifies this
      ensures View() == AfterDetach(old(View()), t)
    {
      var s := holders[t].session;
      if s in cleanup {
        reconciling := reconciling + {s};
        MoveTo(t, AwaitReconcile);
      } else {
        AttachOrCreate(t, false);
      }
    }

    method AcquireSession(t: Token, s: SessionId, mode: Mode) returns (granted: bool)
      requires Valid() && t !in holders
      modifies this
      ensures granted == !Refuses(old(TheBooks()), s, mode)
      ensures Valid() && View() == Step(old(View()), EAcquire(t, s, mode))
    {
      hide Steady;
      SteadyStep(View(), EAcquire(t, s, mode));
      granted := ReserveSessionLease(s, t, mode);
      if granted {
        holders := holders[t := Holder(s, mode, ReadyAfterDetach)];
        if s in detaching {
          MoveTo(t, AwaitDetach(detaching[s]));
        } else {
          ReconcileOrGoOn(t);
        }
      }
    }

    /** The reply to `createSession`, with the session it names. */
    method SessionCreated(t: Token, s: SessionId)
      requires Valid() && t !in holders && connected
      modifies this
      ensures Valid() && View() == Step(old(View()), ECreated(t, s))
    {
      hide Steady;
      SteadyStep(View(), ECreated(t, s));
      attached := attached + {s};
      holders := holders[t := Holder(s, Exclusive, CreateAnswered)];
    }

    /** `createSession` after its reply; refused if somebody has a share in the session. */
    method ContinueCreate(t: Token) returns (granted: bool)
      requires t in holders && holders[t].phase == CreateAnswered
      modifies this
      ensures granted == !Refuses(old(TheBooks()), old(holders[t].session), Exclusive)
      ensures View() == AfterCreate(old(View()), t)
    {
      granted := ReserveSessionLease(holders[t].session, t, Exclusive);
      if granted {
        CreateSessionLease(t);
      } else {
        MoveTo(t, Over);
      }
    }

    /** A call goes on after what it awaited has settled. */
    method ContinueCall(t: Token)
      requires Valid() && t in holders && MayGoOn(View(), t)
      modifies this
      ensures Valid() && View() == Step(old(View()), EContinue(t))
    {
      hide Steady, Landed;
      SteadyStep(View(), EContinue(t));
      assert Step(View(), EContinue(t)) == Continue(View(), t);
      hide Step, MayGoOn, AfterDetach, AfterReconcile, CreateLease, GiveUp, AfterCreate, AfterDetached;
      match holders[t].phase {
        case ReadyAfterDetach => ReconcileOrGoOn(t);
        case ReadyReconciled => AttachOrCreate(t, true);
        case ReadyAttached => CreateSessionLease(t);
        case ReadyFailed => Leave(t);
        case CreateAnswered => var _ := ContinueCreate(t);
        case Releasing(_, _, true) => FinishRelease(t);
        case _ => {}
      }
    }

    method ReleaseLease(t: Token, relinquish: bool) returns (sent: bool)
      requires Valid() && t in holders
      modifies this
      ensures sent == SendsDetach(old(View()), t)
      ensures Valid() && View() == Step(old(View()), ERelease(t, relinquish))
    {
      hide Steady;
      SteadyStep(View(), ERelease(t, relinquish));
      var h := holders[t];
      sent := false;
      if !h.phase.Active? {
        return;
      }
      var s := h.session;
      if h.phase.generation != (if s in generations then generations[s] else 0) {
        MoveTo(t, Over);
        return;
      }
      if !connected || s !in attached {
        return;
      }
      if s !in counts || counts[s] <= 1 {
        detaching := detaching[s := t];
        MoveTo(t, Releasing(h.phase.generation, relinquish, false));
        sent := true;
      } else {
        Leave(t);
      }
    }

    /** Everybody who waited for the same thing goes on. */
    method WakeAll(s: SessionId, from: Phase, to: Phase)
      modifies this`holders
      ensures holders == Wake(old(holders), s, from, to)
    {
      holders := map t | t in holders ::
        if holders[t].session == s && holders[t].phase == from then holders[t].(phase := to) else holders[t];
    }

    /** The final detach is no longer in flight, and those who waited for it go on. */
    method LandDetach(t: Token, s: SessionId)
      modifies this`holders, this`detaching
      ensures holders == Wake(old(holders), s, AwaitDetach(t), ReadyAfterDetach)
      ensures detaching
           == if s in old(detaching) && old(detaching)[s] == t then old(detaching) - {s} else old(detaching)
    {
      WakeAll(s, AwaitDetach(t), ReadyAfterDetach);
      if s in detaching && detaching[s] == t {
        detaching := detaching - {s};
      }
    }

    /** What a rejected final detach leaves of the lease: nothing if it is of a past generation; a session to clean up
        if it was disposed of; or the lease as it was. */
    method DetachRejected(t: Token)
      requires t in holders && holders[t].phase.Releasing?
      modifies this
      ensures View() == Rejected(old(View()), t)
    {
      var h := holders[t];
      if h.phase.generation != (if h.session in generations then generations[h.session] else 0) {
        MoveTo(t, Over);
      } else if h.phase.relinquish {
        Leave(t);
        cleanup := cleanup + {h.session};
      } else {
        MoveTo(t, Active(h.phase.generation));
      }
    }

    /** The release goes through. */
    method FinishRelease(t: Token)
      requires t in holders && holders[t].phase.Releasing?
      modifies this
      ensures View() == AfterDetached(old(View()), t)
    {
      ghost var h := holders[t];
      LandDetach(t, holders[t].session);
      assert t in holders && holders[t] == h;
      hide Wake, GiveUp;
      Leave(t);
    }

    /** The reply to the final detach, or its rejection reaching the release. */
    method FinalDetachSettled(t: Token, ok: bool)
      requires Valid() && DetachSettles(View(), t, ok)
      modifies this
      ensures Valid() && View() == Step(old(View()), EDetachSettled(t, ok))
    {
      hide Steady, GiveUp, Rejected;
      SteadyStep(View(), EDetachSettled(t, ok));
      assert Step(View(), EDetachSettled(t, ok)) == DetachSettled(View(), t, ok);
      hide Step, MayGoOn;
      var h := holders[t];
      if ok {
        attached := attached - {h.session};
        MoveTo(t, h.phase.(confirmed := true));
      } else {
        LandDetach(t, h.session);
        assert t in holders && holders[t] == h;
        hide Wake;
        DetachRejected(t);
      }
    }

    method CleanupSettled(s: SessionId, ok: bool)
      requires Valid() && (ok ==> connected) && s in reconciling && Drained(View(), s)
      modifies this
      ensures Valid() && View() == Step(old(View()), EReconcileSettled(s, ok))
    {
      hide Steady;
      SteadyStep(View(), EReconcileSettled(s, ok));
      reconciling := reconciling - {s};
      if ok {
        attached := attached - {s};
        cleanup := cleanup - {s};
        WakeAll(s, AwaitReconcile, ReadyReconciled);
      } else {
        WakeAll(s, AwaitReconcile, ReadyFailed);
      }
    }

    method AttachRequestSettled(s: SessionId, ok: bool)
      requires Valid() && (ok ==> connected) && s in attaching && Drained(View(), s)
      modifies this
      ensures Valid() && View() == Step(old(View()), EAttachSettled(s, ok))
    {
      hide Steady;
      SteadyStep(View(), EAttachSettled(s, ok));
      attaching := attaching - {s};
      if ok {
        attached := attached + {s};
        WakeAll(s, AwaitAttach, ReadyAttached);
      } else {
        WakeAll(s, AwaitAttach, ReadyFailed);
      }
    }

    /** Keeps `Valid` if nothing on the session is under way. */
    method SessionRemoved(s: SessionId)
      requires Valid() && connected
      modifies this
      ensures View() == Step(old(View()), ERemoved(s))
      ensures old(Timely(View(), ERemoved(s))) ==> Valid()
    {
      hide Steady, Timely;
      if Timely(View(), ERemoved(s)) {
        SteadyStep(View(), ERemoved(s));
      }
      InvalidateSessionLeases(s);
      attached := attached - {s};
    }

    /** Keeps `Valid` if no attach was answered whose acquire has not gone on. */
    method Disconnected()
      requires Valid()
      modifies this
      ensures View() == Step(old(View()), EDisconnected)
      ensures old(Timely(View(), EDisconnected)) ==> Valid()
    {
      hide Steady, Timely, InvalidateAll;
      if Timely(View(), EDisconnected) {
        SteadyStep(View(), EDisconnected);
      }
      attached := {};
      connected := false;
      InvalidateAllSessionLeases();
    }

    /** Keeps `Valid` if all that the last disconnect rejected has given up. */
    method Handshaken(snapshot: set<SessionId>)
      requires Valid() && !connected
      modifies this
      ensures View() == Step(old(View()), EConnected(snapshot))
      ensures old(Timely(View(), EConnected(snapshot))) ==> Valid()
    {
      hide Steady, Timely;
      if Timely(View(), EConnected(snapshot)) {
        SteadyStep(View(), EConnected(snapshot));
      }
      attached := snapshot;
      connected := true;
    }

    /** A server snapshot says which sessions are attached. */
    method SnapshotTaken(snapshot: set<SessionId>)
      requires Valid() && connected
      modifies this
      ensures Valid() && View() == Step(old(View()), ESnapshot(snapshot))
    {
      hide Steady;
      SteadyStep(View(), ESnapshot(snapshot));
      attached := snapshot;
    }
  }
}
