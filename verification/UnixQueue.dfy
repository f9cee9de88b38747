/** The send queue of packages/client/src/unix.ts: a bounded number of pending bytes, one write at a time, and for
    each write the flags its callbacks set. */
module UnixQueue {
  import opened Seqs
  import FrameSpec

  /** `callbackComplete`, `drainComplete` and `requiresDrain` of a write. */
  datatype Flags = Flags(callback: bool, drain: bool, requiresDrain: bool)

  predicate Complete(f: Flags) {
    f.callback && (f.requiresDrain ==> f.drain)
  }

  /** `Failed` covers a rejection before or during the write. */
  datatype Phase = Queued | Writing(flags: Flags) | Written(flags: Flags) | Failed

  predicate Settled(p: Phase) {
    p.Written? || p.Failed?
  }

  datatype Send = Send(bytes: seq<FrameSpec.byte>, phase: Phase)

  /** The sends accepted so far, in order, and the chunks handed to the socket: number and bytes. */
  datatype Transport = Transport(closed: bool, pendingBytes: int, sends: seq<Send>,
      handed: seq<(nat, seq<FrameSpec.byte>)>)

  const NEW: Transport := Transport(false, 0, [], [])

  /** What `socket.write` does: throw, or return whether the socket wants a drain first, perhaps having called the
      callback already. */
  datatype Attempt = Throws | Returns(requiresDrain: bool, called: Option<bool>)

  datatype Event =
    | ESend(bytes: seq<FrameSpec.byte>)
    | EClose
    | EBegin(writable: bool, attempt: Attempt)
    | ECallback(k: nat, ok: bool)
    | EDrain(k: nat)
    | ESocketClosed(k: nat)

  /** The first send that has not settled; the number of sends if all have. */
  function Head(sends: seq<Send>): (h: nat)
    ensures h <= |sends|
    ensures h < |sends| ==> !Settled(sends[h].phase)
    ensures forall i | 0 <= i < h :: Settled(sends[i].phase)
  {
    if sends == [] || !Settled(sends[0].phase) then 0 else 1 + Head(sends[1..])
  }

  predicate Accepts(t: Transport, limit: nat, bytes: seq<FrameSpec.byte>) {
    !t.closed && t.pendingBytes + |bytes| <= limit
  }

  /** The write of send k settles, and its bytes are no longer pending. */
  function Settle(t: Transport, k: nat, p: Phase): Transport
    requires k < |t.sends|
  {
    t.(sends := t.sends[k := t.sends[k].(phase := p)], pendingBytes := t.pendingBytes - |t.sends[k].bytes|)
  }

  /** `finish`: settles a write whose flags are complete. */
  function Finish(t: Transport, k: nat, f: Flags): Transport
    requires k < |t.sends|
  {
    if Complete(f) then Settle(t, k, Written(f)) else t.(sends := t.sends[k := t.sends[k].(phase := Writing(f))])
  }

  /** `#write` of the send whose turn it is. */
  function Begin(t: Transport, k: nat, writable: bool, attempt: Attempt): Transport
    requires k < |t.sends|
  {
    if t.closed || !writable then Settle(t, k, Failed)
    else
      var offered := t.(handed := t.handed + [(k, t.sends[k].bytes)]);
      match attempt
      case Throws => Settle(offered, k, Failed)
      case Returns(requiresDrain, called) =>
        if called == Some(false) then Settle(offered, k, Failed)
        else Finish(offered, k, Flags(called == Some(true), false, requiresDrain))
  }

  function Step(t: Transport, limit: nat, e: Event): Transport {
    match e
    case ESend(bytes) =>
      if Accepts(t, limit, bytes)
      then t.(pendingBytes := t.pendingBytes + |bytes|, sends := t.sends + [Send(bytes, Queued)])
      else t
    case EClose => t.(closed := true)
    case EBegin(writable, attempt) =>
      var k := Head(t.sends);
      if k < |t.sends| && t.sends[k].phase.Queued? then Begin(t, k, writable, attempt) else t
    case ECallback(k, ok) =>
      if k < |t.sends| && t.sends[k].phase.Writing? then
        if ok then Finish(t, k, t.sends[k].phase.flags.(callback := true)) else Settle(t, k, Failed)
      else t
    case EDrain(k) =>
      if k < |t.sends| && t.sends[k].phase.Writing? && t.sends[k].phase.flags.requiresDrain
      then Finish(t, k, t.sends[k].phase.flags.(drain := true)) else t
    case ESocketClosed(k) => if k < |t.sends| && t.sends[k].phase.Writing? then Settle(t, k, Failed) else t
  }

  function Run(t: Transport, limit: nat, events: seq<Event>): Transport {
    if events == [] then t else Step(Run(t, limit, events[..|events| - 1]), limit, events[|events| - 1])
  }

  /** The bytes of the sends that have not settled. */
  function Unsettled(sends: seq<Send>): nat {
    if sends == [] then 0
    else
      var last := sends[|sends| - 1];
      Unsettled(sends[..|sends| - 1]) + (if Settled(last.phase) then 0 else |last.bytes|)
  }

  /** Pending bytes are those of the unsettled sends, within the limit. */
  predicate Bounded(t: Transport, limit: nat) {
    t.pendingBytes == Unsettled(t.sends) <= limit
  }

  /** Only the first unsettled send can be in the middle of its write. */
  ghost predicate OneAtATime(t: Transport) {
    forall i, j | 0 <= i < j < |t.sends| :: Settled(t.sends[i].phase) || t.sends[j].phase.Queued?
  }

  /** A write is resolved once, and only once, its callback came and, if the socket asked for it, its drain. */
  ghost predicate FlagsOk(t: Transport) {
    forall k | 0 <= k < |t.sends| ::
      && (t.sends[k].phase.Writing? ==> !Complete(t.sends[k].phase.flags))
      && (t.sends[k].phase.Written? ==> Complete(t.sends[k].phase.flags))
  }

  /** The socket got chunks of accepted sends, each at most once, in the order of acceptance and unaltered; every
      write that is under way or resolved is among them. */
  ghost predicate HandedInOrder(t: Transport) {
    && (forall i | 0 <= i < |t.handed| :: t.handed[i].0 < |t.sends| && t.handed[i].1 == t.sends[t.handed[i].0].bytes
                                          && !t.sends[t.handed[i].0].phase.Queued?)
    && (forall i, j | 0 <= i < j < |t.handed| :: t.handed[i].0 < t.handed[j].0)
    && (forall k: nat | k < |t.sends| && (t.sends[k].phase.Writing? || t.sends[k].phase.Written?) :: WasHanded(t, k))
  }

  ghost predicate WasHanded(t: Transport, k: nat) {
    exists i :: 0 <= i < |t.handed| && t.handed[i].0 == k
  }

  ghost predicate Inv(t: Transport, limit: nat) {
    Bounded(t, limit) && OneAtATime(t) && FlagsOk(t) && HandedInOrder(t)
  }

  lemma {:induction false} UnsettledPut(sends: seq<Send>, k: nat, p: Phase)
    requires k < |sends| && !Settled(sends[k].phase)
    ensures Unsettled(sends[k := sends[k].(phase := p)])
         == Unsettled(sends) - (if Settled(p) then |sends[k].bytes| else 0)
  {
    var n := |sends| - 1;
    var put := sends[k := sends[k].(phase := p)];
    if k < n {
      UnsettledPut(sends[..n], k, p);
      assert put[..n] == sends[..n][k := sends[k].(phase := p)];
    } else {
      assert put[..n] == sends[..n];
    }
  }

  /** The head of the queue moves on to a phase that is not queued. */
  lemma MoveKeeps(t: Transport, t': Transport, limit: nat, k: nat, p: Phase)
    requires Inv(t, limit) && k < |t.sends| && !Settled(t.sends[k].phase) && !p.Queued?
    requires forall i | 0 <= i < k :: Settled(t.sends[i].phase)
    requires t'.sends == t.sends[k := t.sends[k].(phase := p)]
    requires t'.pendingBytes == t.pendingBytes - (if Settled(p) then |t.sends[k].bytes| else 0)
    ensures Bounded(t', limit) && OneAtATime(t')
  {
    UnsettledPut(t.sends, k, p);
    hide Unsettled;
  }

  lemma HandedKeeps(t: Transport, t': Transport, k: nat, p: Phase)
    requires HandedInOrder(t) && OneAtATime(t) && k < |t.sends| && !Settled(t.sends[k].phase) && !p.Queued?
    requires t'.sends == t.sends[k := t.sends[k].(phase := p)]
    requires if t.sends[k].phase.Queued? then t'.handed == t.handed + [(k, t.sends[k].bytes)] else t'.handed == t.handed
    ensures HandedInOrder(t')
  {
    forall j: nat | j < |t'.sends| && (t'.sends[j].phase.Writing? || t'.sends[j].phase.Written?)
      ensures WasHanded(t', j)
    {
      if j == k && t.sends[k].phase.Queued? {
        assert t'.handed[|t.handed|].0 == k;
      } else {
        assert WasHanded(t, j);
        var i :| 0 <= i < |t.handed| && t.handed[i].0 == j;
        assert t'.handed[i].0 == j;
      }
    }
    forall i | 0 <= i < |t.handed| && t.sends[k].phase.Queued?
      ensures t.handed[i].0 < k
    {
      assert !t.sends[t.handed[i].0].phase.Queued?;
    }
  }

  lemma NotHandedKeeps(t: Transport, t': Transport, k: nat)
    requires HandedInOrder(t) && k < |t.sends| && t'.sends == t.sends[k := t.sends[k].(phase := Failed)]
        && t'.handed == t.handed
    ensures HandedInOrder(t')
  {
    forall j: nat | j < |t'.sends| && (t'.sends[j].phase.Writing? || t'.sends[j].phase.Written?)
      ensures WasHanded(t', j)
    {
      assert WasHanded(t, j);
    }
  }

  lemma SendKeeps(t: Transport, limit: nat, bytes: seq<FrameSpec.byte>)
    requires Inv(t, limit)
    ensures Inv(Step(t, limit, ESend(bytes)), limit)
  {
    var t' := Step(t, limit, ESend(bytes));
    if Accepts(t, limit, bytes) {
      hide Unsettled, HandedInOrder, OneAtATime, FlagsOk;
      UnsettledSnoc(t.sends, Send(bytes, Queued));
      QueuedSendKeeps(t, t', Send(bytes, Queued));
      QueuedHanded(t, t', Send(bytes, Queued));
    }
  }

  lemma UnsettledSnoc(sends: seq<Send>, s: Send)
    ensures Unsettled(sends + [s]) == Unsettled(sends) + (if Settled(s.phase) then 0 else |s.bytes|)
  {
    assert (sends + [s])[..|sends|] == sends;
  }

  lemma QueuedSendKeeps(t: Transport, t': Transport, s: Send)
    requires OneAtATime(t) && FlagsOk(t) && t'.sends == t.sends + [s] && s.phase.Queued?
    ensures OneAtATime(t') && FlagsOk(t')
  {
  }

  /** A send that is only queued. */
  lemma QueuedHanded(t: Transport, t': Transport, s: Send)
    requires HandedInOrder(t) && t'.sends == t.sends + [s] && t'.handed == t.handed && s.phase.Queued?
    ensures HandedInOrder(t')
  {
    forall j: nat | j < |t'.sends| && (t'.sends[j].phase.Writing? || t'.sends[j].phase.Written?)
      ensures WasHanded(t', j)
    {
      assert WasHanded(t, j);
    }
  }

  lemma BeginKeeps(t: Transport, limit: nat, writable: bool, attempt: Attempt)
    requires Inv(t, limit)
    ensures Inv(Step(t, limit, EBegin(writable, attempt)), limit)
  {
    var k := Head(t.sends);
    if k < |t.sends| && t.sends[k].phase.Queued? {
      var t' := Begin(t, k, writable, attempt);
      var p := t'.sends[k].phase;
      MoveKeeps(t, t', limit, k, p);
      if t.closed || !writable {
        NotHandedKeeps(t, t', k);
      } else {
        HandedKeeps(t, t', k, p);
      }
      hide Unsettled, HandedInOrder, Bounded, OneAtATime;
    }
  }

  /** A write under way goes on, is resolved or fails. */
  lemma WriteKeeps(t: Transport, limit: nat, k: nat, f: Flags)
    requires Inv(t, limit) && k < |t.sends| && t.sends[k].phase.Writing?
    ensures Inv(Finish(t, k, f), limit) && Inv(Settle(t, k, Failed), limit)
  {
    var p := if Complete(f) then Written(f) else Writing(f);
    MoveKeeps(t, Finish(t, k, f), limit, k, p);
    HandedKeeps(t, Finish(t, k, f), k, p);
    MoveKeeps(t, Settle(t, k, Failed), limit, k, Failed);
    HandedKeeps(t, Settle(t, k, Failed), k, Failed);
    hide Unsettled, HandedInOrder, Bounded, OneAtATime;
  }

  /** A callback, a drain or a close of the socket reaches a write. */
  lemma CallbackKeeps(t: Transport, limit: nat, e: Event)
    requires Inv(t, limit) && (e.ECallback? || e.EDrain? || e.ESocketClosed?)
    ensures Inv(Step(t, limit, e), limit)
  {
    if e.k < |t.sends| && t.sends[e.k].phase.Writing? {
      var f := t.sends[e.k].phase.flags;
      WriteKeeps(t, limit, e.k, if e.ECallback? then f.(callback := true) else f.(drain := true));
      hide Inv, Settle, Finish;
    }
  }

  lemma StepKeeps(t: Transport, limit: nat, e: Event)
    requires Inv(t, limit)
    ensures Inv(Step(t, limit, e), limit)
  {
    match e
    case ESend(bytes) => SendKeeps(t, limit, bytes);
    case EClose =>
      assert HandedInOrder(Step(t, limit, e)) by {
        assert forall k: nat :: WasHanded(Step(t, limit, e), k) <==> WasHanded(t, k);
      }
    case EBegin(writable, attempt) => BeginKeeps(t, limit, writable, attempt);
    case _ => CallbackKeeps(t, limit, e);
  }

  /** Over every sequence of sends, write outcomes, callbacks and a close. */
  lemma {:induction false} EveryRun(limit: nat, events: seq<Event>)
    ensures Inv(Run(NEW, limit, events), limit)
  {
    if events != [] {
      EveryRun(limit, events[..|events| - 1]);
      StepKeeps(Run(NEW, limit, events[..|events| - 1]), limit, events[|events| - 1]);
    }
  }

  /** Nothing is handed to the socket, and nothing more is accepted, after a close. */
  lemma {:induction false} ClosedForGood(t: Transport, limit: nat, more: seq<Event>)
    requires t.closed
    ensures var t' := Run(t, limit, more); t'.closed && t'.handed == t.handed && |t'.sends| == |t.sends|
  {
    if more != [] {
      ClosedForGood(t, limit, more[..|more| - 1]);
      ClosedStep(Run(t, limit, more[..|more| - 1]), limit, more[|more| - 1]);
      hide Step;
    }
  }

  lemma ClosedStep(t: Transport, limit: nat, e: Event)
    requires t.closed
    ensures var t' := Step(t, limit, e); t'.closed && t'.handed == t.handed && |t'.sends| == |t.sends|
  {
    hide Head, Complete;
  }

  /** `UnixByteTransport`. */
  class UnixByteTransport {
    const maxPendingBytes: nat
    var closed: bool
    var pendingBytes: int
    var sends: seq<Send>
    var handed: seq<(nat, seq<FrameSpec.byte>)>

    function View(): Transport
      reads this
    {
      Transport(closed, pendingBytes, sends, handed)
    }

    ghost predicate Valid()
      reads this
    {
      Inv(View(), maxPendingBytes)
    }

    constructor (limit: nat)
      ensures Valid() && View() == NEW && maxPendingBytes == limit
    {
      maxPendingBytes := limit;
      closed, pendingBytes, sends, handed := false, 0, [], [];
      new;
      EveryRun(limit, []);
    }

    /** Queues a copy of the chunk, or refuses it. */
    method SendChunk(chunk: array<FrameSpec.byte>) returns (accepted: bool)
      requires Valid()
      modifies this
      ensures accepted == Accepts(old(View()), maxPendingBytes, chunk[..])
      ensures Valid() && View() == Step(old(View()), maxPendingBytes, ESend(chunk[..]))
    {
      StepKeeps(View(), maxPendingBytes, ESend(chunk[..]));
      hide Inv;
      if closed {
        return false;
      }
      if pendingBytes + chunk.Length > maxPendingBytes {
        return false;
      }
      pendingBytes := pendingBytes + chunk.Length;
      sends := sends + [Send(chunk[..], Queued)];
      accepted := true;
    }

    method Close()
      requires Valid()
      modifies this`closed
      ensures Valid() && View() == Step(old(View()), maxPendingBytes, EClose)
    {
      StepKeeps(View(), maxPendingBytes, EClose);
      hide Inv;
      if closed {
        return;
      }
      closed := true;
    }

    method SettleWrite(k: nat, p: Phase)
      requires k < |sends|
      modifies this`sends, this`pendingBytes
      ensures View() == Settle(old(View()), k, p)
    {
      pendingBytes := pendingBytes - |sends[k].bytes|;
      sends := sends[k := sends[k].(phase := p)];
    }

    method FinishWrite(k: nat, f: Flags)
      requires k < |sends|
      modifies this`sends, this`pendingBytes
      ensures View() == Finish(old(View()), k, f)
    {
      if !f.callback || (f.requiresDrain && !f.drain) {
        sends := sends[k := sends[k].(phase := Writing(f))];
        return;
      }
      SettleWrite(k, Written(f));
    }

    /** The turn of the first unsettled send. */
    method Write(writable: bool, attempt: Attempt)
      requires Valid() && Head(sends) < |sends| && sends[Head(sends)].phase.Queued?
      modifies this
      ensures Valid() && View() == Step(old(View()), maxPendingBytes, EBegin(writable, attempt))
    {
      StepKeeps(View(), maxPendingBytes, EBegin(writable, attempt));
      hide Inv;
      var k := Head(sends);
      if closed || !writable {
        SettleWrite(k, Failed);
        return;
      }
      handed := handed + [(k, sends[k].bytes)];
      match attempt {
        case Throws => SettleWrite(k, Failed);
        case Returns(requiresDrain, called) =>
          if called == Some(false) {
            SettleWrite(k, Failed);
          } else {
            FinishWrite(k, Flags(called == Some(true), false, requiresDrain));
          }
      }
    }

    method OnWritten(k: nat, ok: bool)
      requires Valid() && k < |sends|
      modifies this`sends, this`pendingBytes
      ensures Valid() && View() == Step(old(View()), maxPendingBytes, ECallback(k, ok))
    {
      StepKeeps(View(), maxPendingBytes, ECallback(k, ok));
      hide Inv;
      if !sends[k].phase.Writing? {
        return;
      }
      if ok {
        FinishWrite(k, sends[k].phase.flags.(callback := true));
      } else {
        SettleWrite(k, Failed);
      }
    }

    method OnDrain(k: nat)
      requires Valid() && k < |sends|
      modifies this`sends, this`pendingBytes
      ensures Valid() && View() == Step(old(View()), maxPendingBytes, EDrain(k))
    {
      StepKeeps(View(), maxPendingBytes, EDrain(k));
      hide Inv;
      if sends[k].phase.Writing? && sends[k].phase.flags.requiresDrain {
        FinishWrite(k, sends[k].phase.flags.(drain := true));
      }
    }

    method OnSocketClosed(k: nat)
      requires Valid() && k < |sends|
      modifies this`sends, this`pendingBytes
      ensures Valid() && View() == Step(old(View()), maxPendingBytes, ESocketClosed(k))
    {
      StepKeeps(View(), maxPendingBytes, ESocketClosed(k));
      hide Inv;
      if sends[k].phase.Writing? {
        SettleWrite(k, Failed);
      }
    }
  }
}
