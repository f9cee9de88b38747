/** The session leases of packages/client/src/client.ts as a step system: one step per API call, one per reply with
    what it does to the client at once, and one per continuation of a call that was waiting for it. A chunk can hold
    several messages, so anything can come between a reply and the continuations it sets going. */
module Leases {

  type SessionId = string

  /** The identity of one acquire or create and of the lease it leads to. */
  type Token = nat

  datatype Mode = Shared | Exclusive

  type Positive = n: nat | n > 0 witness 1

  /** `#sessionLeaseCounts`, `#exclusiveSessionLeases`, `#sessionLeaseGenerations`, `#sessionCleanupRequired`. */
  datatype Books = Books(
    counts: map<SessionId, Positive>,
    exclusive: map<SessionId, Token>,
    generations: map<SessionId, nat>,
    cleanup: set<SessionId>)

  function Count(b: Books, s: SessionId): nat {
    if s in b.counts then b.counts[s] else 0
  }

  function Generation(b: Books, s: SessionId): nat {
    if s in b.generations then b.generations[s] else 0
  }

  /** Whether `#reserveSessionLease` throws an ownership error. */
  predicate Refuses(b: Books, s: SessionId, mode: Mode) {
    (mode == Exclusive && Count(b, s) > 0) || (mode == Shared && s in b.exclusive)
  }

  function Reserve(b: Books, s: SessionId, token: Token, mode: Mode): Books {
    b.(counts := b.counts[s := Count(b, s) + 1],
       exclusive := if mode == Exclusive then b.exclusive[s := token] else b.exclusive)
  }

  /** `#releaseSessionLease`. */
  function Unreserve(b: Books, s: SessionId, token: Token): Books {
    b.(counts := if Count(b, s) <= 1 then b.counts - {s} else b.counts[s := Count(b, s) - 1],
       exclusive := if s in b.exclusive && b.exclusive[s] == token then b.exclusive - {s} else b.exclusive)
  }

  /** `#invalidateSessionLeases`. */
  function Invalidate(b: Books, s: SessionId): Books {
    Books(b.counts - {s}, b.exclusive - {s}, b.generations[s := Generation(b, s) + 1], b.cleanup - {s})
  }

  /** `#invalidateAllSessionLeases`: only the sessions that have a count get a new generation. */
  function InvalidateAll(b: Books): Books {
    Books(map[], b.exclusive - b.counts.Keys,
          map s | s in b.generations.Keys + b.counts.Keys :: Generation(b, s) + (if s in b.counts then 1 else 0), {})
  }

  /** Where an acquire stands: waiting for another lease's detach, for the cleanup detach, or for the attach;
      ready to go on after one of these settled; or holding a lease, releasing it (with its detach confirmed or not),
      or done with it. A create that was answered has reserved nothing yet. */
  datatype Phase =
    | AwaitDetach(on: Token)
    | AwaitReconcile
    | AwaitAttach
    | ReadyAfterDetach
    | ReadyReconciled
    | ReadyAttached
    | ReadyFailed
    | Active(generation: nat)
    | Releasing(generation: nat, relinquish: bool, confirmed: bool)
    | CreateAnswered
    | Over

  datatype Holder = Holder(session: SessionId, mode: Mode, phase: Phase)

  /** `detaching` names the lease whose final detach is in flight; `reconciling` and `attaching` are the sessions
      with a cleanup detach or an attach in flight; `attached` is `ClientState`'s set. */
  datatype Client = Client(
    books: Books,
    holders: map<Token, Holder>,
    attached: set<SessionId>,
    detaching: map<SessionId, Token>,
    reconciling: set<SessionId>,
    attaching: set<SessionId>,
    connected: bool)

  const START: Client := Client(Books(map[], map[], map[], {}), map[], {}, map[], {}, {}, false)

  function SetPhase(c: Client, t: Token, p: Phase): Client
    requires t in c.holders
  {
    c.(holders := c.holders[t := c.holders[t].(phase := p)])
  }

  /** Every holder of the session in phase `from` moves to phase `to`. */
  function Wake(holders: map<Token, Holder>, s: SessionId, from: Phase, to: Phase): map<Token, Holder> {
    map t | t in holders ::
      if holders[t].session == s && holders[t].phase == from then holders[t].(phase := to) else holders[t]
  }

  /** `#createSessionLease`: the generation is read now, not when the lease was reserved. */
  function CreateLease(c: Client, t: Token): Client
    requires t in c.holders
  {
    var s := c.holders[t].session;
    var g := Generation(c.books, s);
    SetPhase(c.(books := c.books.(generations := c.books.generations[s := g])), t, Active(g))
  }

  /** The rest of `acquireSession` once the cleanup question is settled. */
  function AfterReconcile(c: Client, t: Token, reconciled: bool): Client
    requires t in c.holders
  {
    var s := c.holders[t].session;
    if reconciled || s !in c.attached then SetPhase(c.(attaching := c.attaching + {s}), t, AwaitAttach)
    else CreateLease(c, t)
  }

  function AfterDetach(c: Client, t: Token): Client
    requires t in c.holders
  {
    var s := c.holders[t].session;
    if s in c.books.cleanup then SetPhase(c.(reconciling := c.reconciling + {s}), t, AwaitReconcile)
    else AfterReconcile(c, t, false)
  }

  function Acquire(c: Client, t: Token, s: SessionId, mode: Mode): Client {
    if Refuses(c.books, s, mode) then c
    else
      var reserved := c.(books := Reserve(c.books, s, t, mode),
          holders := c.holders[t := Holder(s, mode, ReadyAfterDetach)]);
      if s in c.detaching then SetPhase(reserved, t, AwaitDetach(c.detaching[s])) else AfterDetach(reserved, t)
  }

  /** The reply to `createSession` attaches the session. */
  function Created(c: Client, t: Token, s: SessionId): Client {
    c.(attached := c.attached + {s}, holders := c.holders[t := Holder(s, Exclusive, CreateAnswered)])
  }

  /** `createSession` goes on: an exclusive lease is reserved and created, or the ownership error is thrown. */
  function AfterCreate(c: Client, t: Token): Client
    requires t in c.holders
  {
    var s := c.holders[t].session;
    if Refuses(c.books, s, Exclusive) then SetPhase(c, t, Over)
    else CreateLease(c.(books := Reserve(c.books, s, t, Exclusive)), t)
  }

  /** The holder gives up its reservation or lease. */
  function GiveUp(c: Client, t: Token): Client
    requires t in c.holders
  {
    SetPhase(c.(books := Unreserve(c.books, c.holders[t].session, t)), t, Over)
  }

  /** Whether this release makes the client send the protocol detach. */
  predicate SendsDetach(c: Client, t: Token)
    requires t in c.holders
  {
    var h := c.holders[t];
    && h.phase.Active? && h.phase.generation == Generation(c.books, h.session)
    && c.connected && h.session in c.attached && Count(c.books, h.session) <= 1
  }

  /** `detach` (relinquish false) or `dispose` (relinquish true) of a lease. */
  function Release(c: Client, t: Token, relinquish: bool): Client
    requires t in c.holders
  {
    var h := c.holders[t];
    if !h.phase.Active? then c
    else if h.phase.generation != Generation(c.books, h.session) then SetPhase(c, t, Over)
    else if !c.connected || h.session !in c.attached then c
    else if SendsDetach(c, t) then
      SetPhase(c.(detaching := c.detaching[h.session := t]), t, Releasing(h.phase.generation, relinquish, false))
    else GiveUp(c, t)
  }

  predicate Ready(p: Phase) {
    p.ReadyAfterDetach? || p.ReadyReconciled? || p.ReadyAttached? || p.ReadyFailed?
  }

  /** No acquire on this session is due to go on. A session has one request in flight at a time, so an acquire goes on
      from one reply about it before there can be the next. */
  predicate Drained(c: Client, s: SessionId) {
    forall t | t in c.holders :: c.holders[t].session == s ==> !Ready(c.holders[t].phase)
  }

  /** The lease after its final detach was rejected: over if its generation has passed; given up, with its session
      marked for cleanup, if it was disposed of; otherwise active again. */
  function Rejected(c: Client, t: Token): Client
    requires t in c.holders && c.holders[t].phase.Releasing?
  {
    var h := c.holders[t];
    if h.phase.generation != Generation(c.books, h.session) then SetPhase(c, t, Over)
    else if h.phase.relinquish then
      var gone := GiveUp(c, t);
      gone.(books := gone.books.(cleanup := gone.books.cleanup + {h.session}))
    else SetPhase(c, t, Active(h.phase.generation))
  }

  /** The final detach of lease t is no longer in flight, and those who waited for it may go on. */
  function Landed(c: Client, t: Token): Client
    requires t in c.holders
  {
    var s := c.holders[t].session;
    c.(holders := Wake(c.holders, s, AwaitDetach(t), ReadyAfterDetach),
       detaching := if s in c.detaching && c.detaching[s] == t then c.detaching - {s} else c.detaching)
  }

  /** The final detach of lease t is confirmed, or rejected and its release goes on. */
  function DetachSettled(c: Client, t: Token, ok: bool): Client
    requires t in c.holders && c.holders[t].phase.Releasing?
  {
    if ok then SetPhase(c.(attached := c.attached - {c.holders[t].session}), t, c.holders[t].phase.(confirmed := true))
    else Rejected(Landed(c, t), t)
  }

  /** A release goes on after its detach was confirmed. */
  function AfterDetached(c: Client, t: Token): Client
    requires t in c.holders
  {
    GiveUp(Landed(c, t), t)
  }

  /** A call goes on after what it waited for has settled. */
  function Continue(c: Client, t: Token): Client
    requires t in c.holders
  {
    match c.holders[t].phase
    case ReadyAfterDetach => AfterDetach(c, t)
    case ReadyReconciled => AfterReconcile(c, t, true)
    case ReadyAttached => CreateLease(c, t)
    case ReadyFailed => GiveUp(c, t)
    case CreateAnswered => AfterCreate(c, t)
    case Releasing(_, _, true) => AfterDetached(c, t)
    case _ => c
  }

  /** The cleanup detach settles. */
  function ReconcileSettled(c: Client, s: SessionId, ok: bool): Client {
    var settled := c.(reconciling := c.reconciling - {s},
                      holders := Wake(c.holders, s, AwaitReconcile, if ok then ReadyReconciled else ReadyFailed));
    if ok then settled.(attached := c.attached - {s}, books := c.books.(cleanup := c.books.cleanup - {s})) else settled
  }

  function AttachSettled(c: Client, s: SessionId, ok: bool): Client {
    c.(attaching := c.attaching - {s},
       holders := Wake(c.holders, s, AwaitAttach, if ok then ReadyAttached else ReadyFailed),
       attached := if ok then c.attached + {s} else c.attached)
  }

  /** A create was answered with this session and has not gone on. */
  predicate CreateDue(c: Client, s: SessionId) {
    exists t | t in c.holders :: c.holders[t].session == s && c.holders[t].phase == CreateAnswered
  }

  /** Of the continuations that replies of one chunk set going, those of a create come first: it awaits its reply
      itself, while all others await promises derived from theirs. */
  predicate MayGoOn(c: Client, t: Token)
    requires t in c.holders
  {
    c.holders[t].phase == CreateAnswered || !CreateDue(c, c.holders[t].session)
  }

  datatype Event =
    | EAcquire(t: Token, s: SessionId, mode: Mode)
    | ECreated(t: Token, s: SessionId)
    | EContinue(t: Token)
    | ERelease(t: Token, relinquish: bool)
    | EDetachSettled(t: Token, ok: bool)
    | EReconcileSettled(s: SessionId, ok: bool)
    | EAttachSettled(s: SessionId, ok: bool)
    | ERemoved(s: SessionId)
    | EDisconnected
    | EConnected(attached: set<SessionId>)
    | ESnapshot(attached: set<SessionId>)

  /** A final detach in flight is answered, or fails and its release may go on. */
  predicate DetachSettles(c: Client, t: Token, ok: bool) {
    && t in c.holders && c.holders[t].phase.Releasing? && !c.holders[t].phase.confirmed
    && (if ok then c.connected else MayGoOn(c, t))
  }

  /** One step; an event that cannot happen in this state changes nothing. */
  function Step(c: Client, e: Event): Client {
    match e
    case EAcquire(t, s, mode) => if t in c.holders then c else Acquire(c, t, s, mode)
    case ECreated(t, s) => if t in c.holders || !c.connected then c else Created(c, t, s)
    case EContinue(t) => if t in c.holders && MayGoOn(c, t) then Continue(c, t) else c
    case ERelease(t, relinquish) => if t in c.holders then Release(c, t, relinquish) else c
    case EDetachSettled(t, ok) =>
      if DetachSettles(c, t, ok) then DetachSettled(c, t, ok) else c
    case EReconcileSettled(s, ok) =>
      if (ok ==> c.connected) && s in c.reconciling && Drained(c, s) then ReconcileSettled(c, s, ok) else c
    case EAttachSettled(s, ok) =>
      if (ok ==> c.connected) && s in c.attaching && Drained(c, s) then AttachSettled(c, s, ok) else c
    case ERemoved(s) => if c.connected then c.(books := Invalidate(c.books, s), attached := c.attached - {s}) else c
    case EDisconnected => c.(books := InvalidateAll(c.books), attached := {}, connected := false)
    case EConnected(attached) => if c.connected then c else c.(attached := attached, connected := true)
    case ESnapshot(attached) => if c.connected then c.(attached := attached) else c
  }

  /** An acquire that has reserved, or a release, that is not through. */
  predicate UnderWay(p: Phase) {
    !p.Active? && !p.Over? && !p.CreateAnswered?
  }

  /** An acquire or a release of this session is under way. */
  predicate MidFlight(c: Client, s: SessionId) {
    exists t | t in c.holders :: c.holders[t].session == s && UnderWay(c.holders[t].phase)
  }

  /** The run assumption: leases are invalidated only while nothing on the session is under way. */
  predicate Orderly(c: Client, e: Event) {
    match e
    case ERemoved(s) => !MidFlight(c, s)
    case EDisconnected => forall t | t in c.holders :: !MidFlight(c, c.holders[t].session)
    case _ => true
  }

  function Run(c: Client, events: seq<Event>): Client {
    if events == [] then c else Step(Run(c, events[..|events| - 1]), events[|events| - 1])
  }

  ghost predicate OrderlyRun(c: Client, events: seq<Event>) {
    forall k | 0 <= k < |events| :: Orderly(Run(c, events[..k]), events[k])
  }
}
