/** What each call and callback of the Unix transport achieves for the chunk it concerns, and why a send ends as it
    does. */
module UnixEffects {
  import opened Seqs
  import opened UnixQueue
  import FrameSpec

  /** Send k is under way with these flags, and nothing else has changed. */
  predicate GoesOn(t: Transport, t': Transport, k: nat, callback: bool, drain: bool, requiresDrain: bool)
    requires k < |t.sends|
  {
    t' == t.(sends := t.sends[k := Send(t.sends[k].bytes, Writing(Flags(callback, drain, requiresDrain)))])
  }

  /** Send k is over, its bytes are no longer pending, and nothing else has changed. */
  predicate Ends(t: Transport, t': Transport, k: nat, p: Phase)
    requires k < |t.sends|
  {
    t' == t.(sends := t.sends[k := Send(t.sends[k].bytes, p)], pendingBytes := t.pendingBytes - |t.sends[k].bytes|)
  }

  /** The socket has been handed the bytes of send k. */
  function Handed(t: Transport, k: nat): Transport
    requires k < |t.sends|
  {
    t.(handed := t.handed + [(k, t.sends[k].bytes)])
  }

  /** A send is queued last, or refused when the transport is closed or the chunk does not fit any more. */
  lemma SendQueues(t: Transport, limit: nat, bytes: seq<FrameSpec.byte>)
    ensures var t' := Step(t, limit, ESend(bytes));
      if t.closed || limit < t.pendingBytes + |bytes| then t' == t
      else t' == t.(sends := t.sends + [Send(bytes, Queued)], pendingBytes := t.pendingBytes + |bytes|)
  {
  }

  /** The turn of send k: every send before it is over. It fails unless the socket takes its bytes; it is resolved at
      once if the callback came at once and no drain is asked for. */
  lemma TurnComes(t: Transport, limit: nat, k: nat, writable: bool, attempt: Attempt)
    requires k < |t.sends| && t.sends[k].phase.Queued? && forall i | 0 <= i < k :: Settled(t.sends[i].phase)
    ensures var t' := Step(t, limit, EBegin(writable, attempt));
      if t.closed || !writable then Ends(t, t', k, Failed)
      else if attempt.Throws? || attempt.called == Some(false) then Ends(Handed(t, k), t', k, Failed)
      else if attempt == Returns(false, Some(true)) then Ends(Handed(t, k), t', k, Written(Flags(true, false, false)))
      else GoesOn(Handed(t, k), t', k, attempt.called.Some?, false, attempt.requiresDrain)
  {
    var h := Head(t.sends);
    assert h == k;
    hide Head;
    if attempt.Returns? && attempt.called.Some? {
      assert attempt.called == if attempt.called.value then Some(true) else Some(false);
      assert attempt == Returns(if attempt.requiresDrain then true else false, attempt.called);
    }
  }

  /** A write under way is resolved by a successful callback unless it waits for a drain, and fails by any other. */
  lemma CallbackComes(t: Transport, limit: nat, k: nat, f: Flags, ok: bool)
    requires k < |t.sends| && t.sends[k].phase == Writing(f)
    ensures var t' := Step(t, limit, ECallback(k, ok));
      if !ok then Ends(t, t', k, Failed)
      else if f.requiresDrain && !f.drain then GoesOn(t, t', k, true, false, true)
      else Ends(t, t', k, Written(Flags(true, f.drain, f.requiresDrain)))
  {
  }

  /** A drain resolves the write that waits for it, unless its callback has not come yet. */
  lemma DrainComes(t: Transport, limit: nat, k: nat, f: Flags)
    requires k < |t.sends| && t.sends[k].phase == Writing(f)
    ensures var t' := Step(t, limit, EDrain(k));
      if !f.requiresDrain then t' == t
      else if f.callback then Ends(t, t', k, Written(Flags(true, true, true)))
      else GoesOn(t, t', k, false, true, true)
  {
  }

  lemma SocketCloses(t: Transport, limit: nat, k: nat)
    requires k < |t.sends| && t.sends[k].phase.Writing?
    ensures Ends(t, Step(t, limit, ESocketClosed(k)), k, Failed)
  {
  }

  /** A callback of a write that is over, or has not begun, does nothing. */
  lemma LateIsSilent(t: Transport, limit: nat, e: Event)
    requires e.ECallback? || e.EDrain? || e.ESocketClosed?
    requires e.k < |t.sends| ==> !t.sends[e.k].phase.Writing?
    ensures Step(t, limit, e) == t
  {
  }

  /** It is the turn of send k. */
  predicate ItsTurn(t: Transport, e: Event, k: nat)
    requires k < |t.sends|
  {
    e.EBegin? && t.sends[k].phase.Queued? && forall i | 0 <= i < k :: Settled(t.sends[i].phase)
  }

  /** Why a send ends this way: the socket took its bytes and reported them written, or it did not. */
  predicate Reason(t: Transport, e: Event, k: nat, p: Phase)
    requires k < |t.sends|
  {
    match t.sends[k].phase
    case Queued =>
      && ItsTurn(t, e, k)
      && if p.Written? then !t.closed && e.writable && e.attempt == Returns(false, Some(true))
         else t.closed || !e.writable || e.attempt.Throws? || e.attempt.called == Some(false)
    case Writing(f) =>
      if p.Written? then (e == ECallback(k, true) && (f.requiresDrain ==> f.drain))
                      || (e == EDrain(k) && f.requiresDrain && f.callback)
      else e == ECallback(k, false) || e == ESocketClosed(k)
    case _ => false
  }

  /** A send keeps its bytes, stays over once it is over, and ends only for a reason. */
  ghost predicate Moves(t: Transport, limit: nat, e: Event, k: nat)
    requires k < |t.sends|
  {
    var t' := Step(t, limit, e);
    && k < |t'.sends| && t'.sends[k].bytes == t.sends[k].bytes
    && (Settled(t.sends[k].phase) ==> t'.sends[k] == t.sends[k])
    && (!Settled(t.sends[k].phase) && Settled(t'.sends[k].phase) ==> Reason(t, e, k, t'.sends[k].phase))
  }

  lemma StepMoves(t: Transport, limit: nat, e: Event, k: nat)
    requires k < |t.sends|
    ensures Moves(t, limit, e, k)
  {
    hide Head;
  }

  lemma NewIsQueued(t: Transport, limit: nat, e: Event, k: nat)
    requires |t.sends| <= k < |Step(t, limit, e).sends|
    ensures Step(t, limit, e).sends[k].phase.Queued?
  {
  }

  /** Over every run: the moment a send ended, and its reason then. */
  lemma {:induction false} WhyEnded(limit: nat, events: seq<Event>, k: nat) returns (n: nat)
    requires k < |Run(NEW, limit, events).sends| && Settled(Run(NEW, limit, events).sends[k].phase)
    ensures n < |events|
    ensures var t, end := Run(NEW, limit, events[..n]), Run(NEW, limit, events).sends[k];
      k < |t.sends| && t.sends[k].bytes == end.bytes && Reason(t, events[n], k, end.phase)
  {
    n := |events| - 1;
    var t := Run(NEW, limit, events[..n]);
    if k < |t.sends| {
      StepMoves(t, limit, events[n], k);
      if Settled(t.sends[k].phase) {
        n := WhyEnded(limit, events[..n], k);
        assert events[..|events| - 1][..n] == events[..n];
      }
    } else {
      NewIsQueued(t, limit, events[n], k);
    }
    hide Step, Reason;
  }

  ghost predicate AllSettled(t: Transport) {
    forall i | 0 <= i < |t.sends| :: Settled(t.sends[i].phase)
  }

  /** An ordinary send: on an open, idle transport a chunk within the limit goes to the socket, and is resolved, with
      no bytes pending, once the callback and the drain the socket asked for have come, in whatever order. */
  lemma SentIsWritten(t: Transport, limit: nat, bytes: seq<FrameSpec.byte>, drain: bool, drainFirst: bool)
    requires Inv(t, limit) && AllSettled(t) && !t.closed && |bytes| <= limit
    ensures var k := |t.sends|;
      var begun := Step(Step(t, limit, ESend(bytes)), limit, EBegin(true, Returns(drain, None)));
      var t' := if !drain then Step(begun, limit, ECallback(k, true))
                else if drainFirst then Step(Step(begun, limit, EDrain(k)), limit, ECallback(k, true))
                else Step(Step(begun, limit, ECallback(k, true)), limit, EDrain(k));
      && |t'.sends| == k + 1 && t'.sends[k] == Send(bytes, Written(Flags(true, drain, drain)))
      && t'.handed == t.handed + [(k, bytes)] && t'.pendingBytes == 0
  {
    NothingPending(t.sends);
    var k := |t.sends|;
    var sent := Step(t, limit, ESend(bytes));
    TurnComes(sent, limit, k, true, Returns(drain, None));
    var begun := Step(sent, limit, EBegin(true, Returns(drain, None)));
    hide Inv, Settled, Head, AllSettled;
  }

  lemma {:induction false} NothingPending(sends: seq<Send>)
    requires forall i | 0 <= i < |sends| :: Settled(sends[i].phase)
    ensures Unsettled(sends) == 0
  {
    if sends != [] {
      NothingPending(sends[..|sends| - 1]);
    }
  }
}
