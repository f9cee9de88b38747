/** `PendingMessageQueue` of packages/agent/src/agent.ts, with the fate of every message it was ever given. */
module MessageQueue {
  import opened Seqs
  import opened AgentTypes

  datatype QueueMode = All | OneAtATime

  datatype Fate = Waiting | Cleared | Injected

  datatype Given = Given(message: Msg, fate: Fate)

  /** `history` lists every message enqueued, in order, with what became of it. */
  datatype Queue = Queue(messages: seq<Msg>, mode: QueueMode, history: seq<Given>)

  const EMPTY: Queue := Queue([], OneAtATime, [])

  function Resolve(history: seq<Given>, from: nat, to: nat, fate: Fate): (r: seq<Given>)
    requires from <= to <= |history|
    ensures |r| == |history|
  {
    seq(|history|, i requires 0 <= i < |history| => if from <= i < to then history[i].(fate := fate) else history[i])
  }

  /** How many messages of the history have left the queue. */
  function Gone(q: Queue): int {
    |q.history| - |q.messages|
  }

  /** The queue holds exactly the waiting messages, which are the latest ones given. */
  ghost predicate Valid(q: Queue) {
    && Gone(q) >= 0
    && (forall i | 0 <= i < Gone(q) :: q.history[i].fate != Waiting)
    && (forall i | Gone(q) <= i < |q.history| :: q.history[i] == Given(q.messages[i - Gone(q)], Waiting))
  }

  /** The messages given, in order. */
  function Messages(history: seq<Given>): (r: seq<Msg>)
    ensures |r| == |history|
  {
    seq(|history|, i requires 0 <= i < |history| => history[i].message)
  }

  datatype QueueOp = Enqueue(message: Msg) | Clear | SetMode(mode: QueueMode)

  function ApplyOp(q: Queue, op: QueueOp): Queue {
    match op
    case Enqueue(m) => q.(messages := q.messages + [m], history := q.history + [Given(m, Waiting)])
    case SetMode(mode) => q.(mode := mode)
    case Clear =>
      if Gone(q) < 0 then q
      else q.(messages := [], history := Resolve(q.history, Gone(q), |q.history|, Cleared))
  }

  function Apply(q: Queue, ops: seq<QueueOp>): Queue {
    if ops == [] then q else ApplyOp(Apply(q, ops[..|ops| - 1]), ops[|ops| - 1])
  }

  /** The messages the operations enqueue, in order. */
  function Enqueued(ops: seq<QueueOp>): seq<Msg> {
    if ops == [] then []
    else
      var op := ops[|ops| - 1];
      Enqueued(ops[..|ops| - 1]) + (if op.Enqueue? then [op.message] else [])
  }

  /** What `drain` hands out. */
  function Drained(q: Queue): seq<Msg> {
    if q.mode == All then q.messages else if q.messages == [] then [] else [q.messages[0]]
  }

  function AfterDrain(q: Queue): Queue {
    if Gone(q) < 0 then q
    else
      var n := |Drained(q)|;
      q.(messages := q.messages[n..], history := Resolve(q.history, Gone(q), Gone(q) + n, Injected))
  }

  /** The messages with a given fate, in the order they were given. */
  function WithFate(history: seq<Given>, fate: Fate): seq<Msg> {
    if history == [] then []
    else
      var g := history[|history| - 1];
      WithFate(history[..|history| - 1], fate) + (if g.fate == fate then [g.message] else [])
  }

  lemma {:induction false} WithFateAppend(a: seq<Given>, b: seq<Given>, fate: Fate)
    ensures WithFate(a + b, fate) == WithFate(a, fate) + WithFate(b, fate)
    decreases |b|
  {
    if b == [] {
      assert a + b == a;
    } else {
      var b', g := b[..|b| - 1], b[|b| - 1];
      assert (a + b)[..|a + b| - 1] == a + b';
      WithFateAppend(a, b', fate);
    }
  }

  /** Messages that all have the same fate. */
  function Marked(messages: seq<Msg>, fate: Fate): (r: seq<Given>)
    ensures |r| == |messages|
  {
    seq(|messages|, i requires 0 <= i < |messages| => Given(messages[i], fate))
  }

  lemma {:induction false} UniformFate(messages: seq<Msg>, fate: Fate, f: Fate)
    ensures WithFate(Marked(messages, fate), f) == if f == fate then messages else []
  {
    if messages != [] {
      UniformFate(messages[..|messages| - 1], fate, f);
      assert Marked(messages, fate)[..|messages| - 1] == Marked(messages[..|messages| - 1], fate);
    }
  }

  lemma ThreeParts(past: seq<Given>, middle: seq<Given>, rest: seq<Given>, fate: Fate)
    ensures WithFate(past + middle + rest, fate) == WithFate(past, fate) + WithFate(middle, fate) + WithFate(rest, fate)
  {
    WithFateAppend(past + middle, rest, fate);
    WithFateAppend(past, middle, fate);
  }

  lemma ResolveSplits(q: Queue, n: nat, fate: Fate)
    requires Valid(q) && n <= |q.messages|
    ensures var past, rest := q.history[..Gone(q)], Marked(q.messages[n..], Waiting);
            && q.history == past + Marked(q.messages[..n], Waiting) + rest
            && Resolve(q.history, Gone(q), Gone(q) + n, fate) == past + Marked(q.messages[..n], fate) + rest
  {
  }

  /** Resolving the first n waiting messages moves them, in order, to their new fate. */
  lemma ResolveFirst(q: Queue, n: nat, fate: Fate, f: Fate)
    requires Valid(q) && n <= |q.messages| && fate != Waiting && f != Waiting
    ensures WithFate(Resolve(q.history, Gone(q), Gone(q) + n, fate), f)
         == WithFate(q.history, f) + (if f == fate then q.messages[..n] else [])
  {
    var past, rest := q.history[..Gone(q)], Marked(q.messages[n..], Waiting);
    ResolveSplits(q, n, fate);
    hide WithFate, Valid, Resolve, Marked;
    UniformFate(q.messages[..n], Waiting, f);
    UniformFate(q.messages[..n], fate, f);
    UniformFate(q.messages[n..], Waiting, f);
    ThreeParts(past, Marked(q.messages[..n], Waiting), rest, f);
    ThreeParts(past, Marked(q.messages[..n], fate), rest, f);
    Nothing(WithFate(past, f));
    Nothing(WithFate(past, f) + if f == fate then q.messages[..n] else []);
  }

  lemma Nothing(messages: seq<Msg>)
    ensures messages + [] == messages
  {
  }

  lemma DrainConserves(q: Queue)
    requires Valid(q)
    ensures Valid(AfterDrain(q))
    ensures WithFate(AfterDrain(q).history, Injected) == WithFate(q.history, Injected) + Drained(q)
    ensures WithFate(AfterDrain(q).history, Cleared) == WithFate(q.history, Cleared)
    ensures Messages(AfterDrain(q).history) == Messages(q.history) && KeepsFates(q.history, AfterDrain(q).history)
  {
    hide WithFate, Messages, KeepsFates, Resolve;
    DrainValid(q);
    hide Valid, Drained, Gone;
    Nothing(Messages(q.history));
    EventKeepsOrder(q, Polled);
    ResolveFirst(q, |Drained(q)|, Injected, Injected);
    ResolveFirst(q, |Drained(q)|, Injected, Cleared);
    Nothing(WithFate(q.history, Cleared));
  }

  lemma DrainValid(q: Queue)
    requires Valid(q)
    ensures Valid(AfterDrain(q)) && Gone(q) >= 0
    ensures |Drained(q)| <= |q.messages| && q.messages[..|Drained(q)|] == Drained(q)
  {
  }

  /** What the modes mean: a drain takes messages from the front, all of them or just one, and always some if there
      are any. */
  lemma DrainsByMode(q: Queue)
    requires Valid(q)
    ensures Drained(q) + AfterDrain(q).messages == q.messages && AfterDrain(q).mode == q.mode
    ensures q.mode == All ==> Drained(q) == q.messages
    ensures q.mode == OneAtATime ==> |Drained(q)| == if q.messages == [] then 0 else 1
  {
    assert q.messages[..|Drained(q)|] == Drained(q);
    hide Resolve;
  }

  lemma OpConserves(q: Queue, op: QueueOp)
    requires Valid(q)
    ensures Valid(ApplyOp(q, op))
    ensures WithFate(ApplyOp(q, op).history, Injected) == WithFate(q.history, Injected)
    ensures WithFate(ApplyOp(q, op).history, Cleared)
         == WithFate(q.history, Cleared) + (if op.Clear? then q.messages else [])
  {
    OpValid(q, op);
    hide Valid, Resolve;
    match op
    case Clear =>
      hide WithFate;
      assert q.messages[..|q.messages|] == q.messages;
      ResolveFirst(q, |q.messages|, Cleared, Injected);
      ResolveFirst(q, |q.messages|, Cleared, Cleared);
    case Enqueue(m) =>
      var h := q.history + [Given(m, Waiting)];
      assert h[..|h| - 1] == q.history;
    case SetMode(_) =>
  }

  lemma OpValid(q: Queue, op: QueueOp)
    requires Valid(q)
    ensures Valid(ApplyOp(q, op))
  {
  }

  /** What happened to a queue: an operation, or a poll that drained it. */
  datatype QueueEvent = Did(op: QueueOp) | Polled

  function After(q: Queue, e: QueueEvent): Queue {
    match e
    case Did(op) => ApplyOp(q, op)
    case Polled => AfterDrain(q)
  }

  function Replay(q: Queue, log: seq<QueueEvent>): Queue {
    if log == [] then q else After(Replay(q, log[..|log| - 1]), log[|log| - 1])
  }

  function GivenIn(e: QueueEvent): seq<Msg> {
    if e.Did? && e.op.Enqueue? then [e.op.message] else []
  }

  function PolledIn(q: Queue, e: QueueEvent): seq<Msg> {
    if e == Polled then Drained(q) else []
  }

  function ClearedIn(q: Queue, e: QueueEvent): seq<Msg> {
    if e == Did(Clear) then q.messages else []
  }

  /** The messages the operations of the log enqueued, in order. */
  function GivenBy(log: seq<QueueEvent>): seq<Msg> {
    if log == [] then []
    else
      GivenBy(log[..|log| - 1]) + GivenIn(log[|log| - 1])
  }

  /** The messages the polls of the log handed out, in order. */
  function PolledBy(q: Queue, log: seq<QueueEvent>): seq<Msg> {
    if log == [] then []
    else
      var past := log[..|log| - 1];
      PolledBy(q, past) + PolledIn(Replay(q, past), log[|log| - 1])
  }

  /** The messages the clears of the log found waiting, in order. */
  function ClearedBy(q: Queue, log: seq<QueueEvent>): seq<Msg> {
    if log == [] then []
    else
      var past := log[..|log| - 1];
      ClearedBy(q, past) + ClearedIn(Replay(q, past), log[|log| - 1])
  }

  /** Every message keeps its place, and its fate once it has one. */
  ghost predicate KeepsFates(before: seq<Given>, after: seq<Given>) {
    && |before| <= |after|
    && forall i | 0 <= i < |before| ::
         after[i].message == before[i].message && (before[i].fate != Waiting ==> after[i] == before[i])
  }

  /** A history grew by messages given, and messages of it by fates, in order. */
  ghost predicate Evolves(h: seq<Given>, h': seq<Given>, given: seq<Msg>, polled: seq<Msg>, cleared: seq<Msg>) {
    && Messages(h') == Messages(h) + given
    && KeepsFates(h, h')
    && WithFate(h', Injected) == WithFate(h, Injected) + polled
    && WithFate(h', Cleared) == WithFate(h, Cleared) + cleared
  }

  lemma EvolvesTwice(h: seq<Given>, h': seq<Given>, h'': seq<Given>, g: seq<Msg>, p: seq<Msg>, c: seq<Msg>,
                     g': seq<Msg>, p': seq<Msg>, c': seq<Msg>)
    requires Evolves(h, h', g, p, c) && Evolves(h', h'', g', p', c')
    ensures Evolves(h, h'', g + g', p + p', c + c')
  {
    hide WithFate, Messages;
  }

  lemma EventKeepsOrder(q: Queue, e: QueueEvent)
    requires Valid(q)
    ensures var q' := After(q, e);
      && Messages(q'.history) == Messages(q.history) + GivenIn(e)
      && KeepsFates(q.history, q'.history)
  {
    hide WithFate;
  }

  lemma EventEvolves(q: Queue, e: QueueEvent)
    requires Valid(q)
    ensures Valid(After(q, e))
    ensures Evolves(q.history, After(q, e).history, GivenIn(e), PolledIn(q, e), ClearedIn(q, e))
  {
    EventKeepsOrder(q, e);
    Nothing(WithFate(q.history, Injected));
    Nothing(WithFate(q.history, Cleared));
    if e.Did? {
      OpConserves(q, e.op);
    } else {
      DrainConserves(q);
    }
    hide WithFate, Messages, KeepsFates, AfterDrain, ApplyOp, Valid;
  }

  /** What a run of operations and polls does to a queue: the messages given grow by those enqueued; every message
      keeps its place, and its fate once it has one; the injected ones grow by those polled, the cleared ones by
      those a clear found, both in order. */
  lemma {:induction false} ReplayConserves(q: Queue, log: seq<QueueEvent>)
    requires Valid(q)
    ensures Valid(Replay(q, log))
    ensures Evolves(q.history, Replay(q, log).history, GivenBy(log), PolledBy(q, log), ClearedBy(q, log))
  {
    hide Valid, After, GivenIn, PolledIn, ClearedIn;
    if log == [] {
      Nothing(Messages(q.history));
      Nothing(WithFate(q.history, Injected));
      Nothing(WithFate(q.history, Cleared));
    } else {
      hide Evolves;
      var past, e := log[..|log| - 1], log[|log| - 1];
      ReplayConserves(q, past);
      var before := Replay(q, past);
      EventEvolves(before, e);
      EvolvesTwice(q.history, before.history, After(before, e).history, GivenBy(past), PolledBy(q, past),
                   ClearedBy(q, past), GivenIn(e), PolledIn(before, e), ClearedIn(before, e));
    }
  }

  /** The log of some operations. */
  function Performed(ops: seq<QueueOp>): (log: seq<QueueEvent>)
    ensures |log| == |ops|
  {
    seq(|ops|, i requires 0 <= i < |ops| => Did(ops[i]))
  }

  /** A log can be replayed in two parts. */
  lemma {:induction false} ReplayAppend(q: Queue, a: seq<QueueEvent>, b: seq<QueueEvent>)
    ensures Replay(q, a + b) == Replay(Replay(q, a), b)
    ensures PolledBy(q, a + b) == PolledBy(q, a) + PolledBy(Replay(q, a), b)
    ensures GivenBy(a + b) == GivenBy(a) + GivenBy(b)
    decreases |b|
  {
    if b == [] {
      assert a + b == a;
    } else {
      hide Replay, PolledBy, GivenBy, After, GivenIn, PolledIn;
      var b', e := b[..|b| - 1], b[|b| - 1];
      LastOf(b);
      Associative(a, b', [e]);
      ReplaySnoc(q, a + b', e);
      ReplaySnoc(Replay(q, a), b', e);
      ReplayAppend(q, a, b');
      Associative(PolledBy(q, a), PolledBy(Replay(q, a), b'), PolledIn(Replay(q, a + b'), e));
      Associative(GivenBy(a), GivenBy(b'), GivenIn(e));
    }
  }

  lemma LastOf(log: seq<QueueEvent>)
    requires log != []
    ensures log == log[..|log| - 1] + [log[|log| - 1]]
  {
  }

  lemma ReplaySnoc(q: Queue, log: seq<QueueEvent>, e: QueueEvent)
    ensures Replay(q, log + [e]) == After(Replay(q, log), e)
    ensures PolledBy(q, log + [e]) == PolledBy(q, log) + PolledIn(Replay(q, log), e)
    ensures GivenBy(log + [e]) == GivenBy(log) + GivenIn(e)
  {
    assert (log + [e])[..|log|] == log;
    hide After, GivenIn, PolledIn;
  }

  lemma {:induction false} ReplayPerformed(q: Queue, ops: seq<QueueOp>)
    ensures Replay(q, Performed(ops)) == Apply(q, ops)
    ensures PolledBy(q, Performed(ops)) == [] && GivenBy(Performed(ops)) == Enqueued(ops)
  {
    if ops != [] {
      ReplayPerformed(q, ops[..|ops| - 1]);
      assert Performed(ops)[..|ops| - 1] == Performed(ops[..|ops| - 1]);
      hide ApplyOp, Drained;
    }
  }

  lemma {:induction false} EnqueuedAppend(a: seq<QueueOp>, b: seq<QueueOp>)
    ensures Enqueued(a + b) == Enqueued(a) + Enqueued(b)
    decreases |b|
  {
    if b == [] {
      assert a + b == a;
    } else {
      assert (a + b)[..|a + b| - 1] == a + b[..|b| - 1];
      EnqueuedAppend(a, b[..|b| - 1]);
    }
  }

  lemma ReplayPoll(q: Queue, log: seq<QueueEvent>)
    ensures Replay(q, log + [Polled]) == AfterDrain(Replay(q, log))
    ensures PolledBy(q, log + [Polled]) == PolledBy(q, log) + Drained(Replay(q, log))
    ensures GivenBy(log + [Polled]) == GivenBy(log)
  {
    assert (log + [Polled])[..|log|] == log;
  }

  ghost predicate Partitions(history: seq<Given>) {
    multiset(WithFate(history, Waiting)) + multiset(WithFate(history, Cleared)) + multiset(WithFate(history, Injected))
    == multiset(Messages(history))
  }

  /** Conservation: the waiting, cleared and injected messages together are the messages given, one each. */
  lemma {:induction false} EveryMessageHasOneFate(history: seq<Given>)
    ensures Partitions(history)
  {
    if history == [] {
      assert Messages(history) == [];
    } else {
      EveryMessageHasOneFate(history[..|history| - 1]);
      FateSnoc(history);
    }
  }

  lemma FateSnoc(history: seq<Given>)
    requires history != []
    requires Partitions(history[..|history| - 1])
    ensures Partitions(history)
  {
    var front, g := history[..|history| - 1], history[|history| - 1];
    hide WithFate, Messages;
    LastFate(history, Waiting);
    LastFate(history, Cleared);
    LastFate(history, Injected);
    OneMore(WithFate(front, Waiting), WithFate(front, Cleared), WithFate(front, Injected), Messages(front), g.message);
  }

  lemma LastFate(history: seq<Given>, f: Fate)
    requires history != []
    ensures var front, g := history[..|history| - 1], history[|history| - 1];
      && Messages(history) == Messages(front) + [g.message]
      && WithFate(history, f) == if g.fate == f then WithFate(front, f) + [g.message] else WithFate(front, f)
  {
    Nothing(WithFate(history[..|history| - 1], f));
  }

  lemma OneMore<T>(a: seq<T>, b: seq<T>, c: seq<T>, all: seq<T>, m: T)
    requires multiset(a) + multiset(b) + multiset(c) == multiset(all)
    ensures multiset(a + [m]) + multiset(b) + multiset(c) == multiset(all + [m])
    ensures multiset(a) + multiset(b + [m]) + multiset(c) == multiset(all + [m])
    ensures multiset(a) + multiset(b) + multiset(c + [m]) == multiset(all + [m])
  {
  }

  /** The waiting messages of a valid queue are its contents. */
  lemma WaitingAreQueued(q: Queue)
    requires Valid(q)
    ensures WithFate(q.history, Waiting) == q.messages
  {
    var past, rest := q.history[..Gone(q)], q.history[Gone(q)..];
    assert q.history == past + rest;
    WithFateAppend(past, rest, Waiting);
    assert rest == Marked(q.messages, Waiting);
    UniformFate(q.messages, Waiting, Waiting);
    NoneWaiting(past);
  }

  lemma {:induction false} NoneWaiting(past: seq<Given>)
    requires forall g <- past :: g.fate != Waiting
    ensures WithFate(past, Waiting) == []
  {
    if past != [] {
      NoneWaiting(past[..|past| - 1]);
    }
  }

  /** A queue before and after, with the messages given and injected in between: nothing is lost, nothing is injected
      twice, nothing comes from nowhere. */
  ghost predicate Conserved(before: Queue, after: Queue, given: seq<Msg>, injected: seq<Msg>) {
    && Messages(after.history) == Messages(before.history) + given
    && KeepsFates(before.history, after.history)
    && WithFate(after.history, Injected) == WithFate(before.history, Injected) + injected
    && WithFate(before.history, Cleared) <= WithFate(after.history, Cleared)
    && multiset(Messages(before.history) + given)
       == multiset(after.messages) + multiset(WithFate(after.history, Cleared))
          + multiset(WithFate(before.history, Injected) + injected)
  }

  /** Conservation over any log: every message ever given is still queued, or cleared, or injected, just once. */
  lemma Conservation(q: Queue, log: seq<QueueEvent>)
    requires Valid(q)
    ensures Conserved(q, Replay(q, log), GivenBy(log), PolledBy(q, log))
  {
    var q' := Replay(q, log);
    ReplayConserves(q, log);
    WaitingAreQueued(q');
    EveryMessageHasOneFate(q'.history);
    hide WithFate, Replay, PolledBy, GivenBy, ClearedBy, Messages;
  }

  class PendingMessageQueue {
    var messages: seq<Msg>
    var mode: QueueMode
    ghost var history: seq<Given>

    ghost function View(): Queue
      reads this
    {
      Queue(messages, mode, history)
    }

    constructor (mode: QueueMode)
      ensures View() == EMPTY.(mode := mode) && Valid(View())
    {
      messages := [];
      this.mode := mode;
      history := [];
    }

    method Enqueue(message: Msg)
      requires Valid(View())
      modifies this
      ensures Valid(View()) && View() == ApplyOp(old(View()), QueueOp.Enqueue(message))
      ensures messages == old(messages) + [message] && mode == old(mode)
    {
      messages := messages + [message];
      history := history + [Given(message, Waiting)];
    }

    predicate HasItems()
      reads this
    {
      |messages| > 0
    }

    method Drain() returns (drained: seq<Msg>)
      requires Valid(View())
      modifies this
      ensures Valid(View()) && View() == AfterDrain(old(View()))
      ensures drained == Drained(old(View()))
      ensures old(HasItems()) <==> drained != []
      ensures mode == old(mode) && drained + messages == old(messages)
      ensures mode == All ==> messages == []
      ensures mode == OneAtATime ==> |drained| <= 1
    {
      ghost var q := View();
      DrainValid(q);
      hide Valid, Resolve;
      if mode == All {
        drained := messages;
        messages := [];
      } else if |messages| == 0 {
        drained := [];
      } else {
        drained := [messages[0]];
        messages := messages[1..];
      }
      history := Resolve(history, Gone(q), Gone(q) + |drained|, Injected);
    }

    method Clear()
      requires Valid(View())
      modifies this
      ensures Valid(View()) && View() == ApplyOp(old(View()), QueueOp.Clear)
      ensures messages == [] && mode == old(mode)
    {
      OpConserves(View(), QueueOp.Clear);
      history := Resolve(history, Gone(View()), |history|, Cleared);
      messages := [];
    }
  }
}
