/** `runLoop`, `runAgentLoop` and `runAgentLoopContinue` of packages/agent/src/agent-loop.ts, run against an
    arbitrary script of what the provider, the tools, the hooks and the queues do, one entry a turn. A script
    that ends early leaves a run that is still going on, between two turns or inside a parallel batch of tool calls;
    every statement below covers those too. */
module AgentLoop {
  import opened Seqs
  import opened AgentTypes
  import opened ToolCalls
  import opened ToolBatch
  import opened ParallelBatch
  import opened MessageQueue
  import opened Transcript
  import opened AgentTurn
  import opened LoopCourse

  /** Every provider stream of the first n turns starts at most one message. */
  predicate Clean(script: seq<TurnScript>, n: nat)
    requires n <= |script|
  {
    forall i | 0 <= i < n :: StartCount(script[i].stream) <= 1
  }

  /** No `prepareNextTurn` of the first n turns replaced the context. */
  predicate KeptContext(script: seq<TurnScript>, n: nat)
    requires n <= |script|
  {
    forall i | 0 <= i < n :: script[i].update == None
  }

  /** After n turns: nothing pending, every turn ended quietly, the reduced transcript is the base followed by
      the new messages, and the grammar stands where it should, or is broken by a stream that started twice. */
  ghost predicate Good(w: Watch, base: seq<Msg>, script: seq<TurnScript>, n: nat, p: Phase, trace: seq<Event>,
      entries: seq<Entry>)
    requires n <= |script|
  {
    var x := Run(w, trace);
    && Resting(x) && x.quiet == w.quiet
    && x.state.messages == base + Untag(entries)
    && x.phase == (if Clean(script, n) then p else Broken)
  }

  /** As `Good`, but inside turn n - 1, with its tools still running. */
  ghost predicate GoodInside(w: Watch, base: seq<Msg>, script: seq<TurnScript>, n: nat, trace: seq<Event>,
      entries: seq<Entry>)
    requires n <= |script|
  {
    var x := Run(w, trace);
    && x.quiet == w.quiet
    && x.state.messages == base + Untag(entries)
    && x.phase == (if Clean(script, n) then InTurn else Broken)
  }

  lemma UntagAppend(a: seq<Entry>, b: seq<Entry>)
    ensures Untag(a + b) == Untag(a) + Untag(b)
  {
  }

  lemma UntagTagged(messages: seq<Msg>, origin: Origin)
    ensures Untag(Tag(messages, origin)) == messages
  {
  }

  /** Whole messages added inside a turn. */
  lemma InjectInside(x: Watch, messages: seq<Msg>)
    requires Inside(x)
    ensures Run(x, MessageEvents(messages)) == Grown(x, messages)
  {
    RunMessages(x.(phase := InTurn), messages);
    BatchInside(x, MessageEvents(messages), Grown(x.(phase := InTurn), messages));
  }

  lemma BeginTurn(w: Watch, base: seq<Msg>, script: seq<TurnScript>, n: nat, trace: seq<Event>, entries: seq<Entry>)
    requires n <= |script| && Good(w, base, script, n, BetweenTurns, trace, entries)
    ensures Good(w, base, script, n, InTurn, trace + [TurnStart], entries)
  {
    RunSnoc(w, trace, TurnStart);
  }

  lemma Inject(w: Watch, base: seq<Msg>, script: seq<TurnScript>, n: nat, trace: seq<Event>, entries: seq<Entry>,
      messages: seq<Msg>, origin: Origin)
    requires n <= |script| && Good(w, base, script, n, InTurn, trace, entries)
    ensures Good(w, base, script, n, InTurn, trace + MessageEvents(messages), entries + Tag(messages, origin))
  {
    RunAppend(w, trace, MessageEvents(messages));
    InjectInside(Run(w, trace), messages);
    UntagAppend(entries, Tag(messages, origin));
    UntagTagged(messages, origin);
    assert base + Untag(entries) + messages == base + (Untag(entries) + messages);
  }

  lemma CleanStep(script: seq<TurnScript>, n: nat)
    requires n < |script|
    ensures Clean(script, n + 1) <==> Clean(script, n) && StartCount(script[n].stream) <= 1
  {
  }

  lemma TakeTurn(w: Watch, base: seq<Msg>, script: seq<TurnScript>, n: nat, trace: seq<Event>, entries: seq<Entry>,
                 played: seq<Event>, results: seq<Msg>)
    requires n < |script| && WellFormed(script[n]) && Good(w, base, script, n, InTurn, trace, entries)
    requires Run(Run(w, trace), played) == TurnClosed(Run(w, trace), script[n], results)
    ensures Good(w, base, script, n + 1, BetweenTurns, trace + played, entries + TurnEntries(n, script[n], results))
  {
    RunAppend(w, trace, played);
    CleanStep(script, n);
    UntagTurn(n, script[n], results);
    UntagAppend(entries, TurnEntries(n, script[n], results));
    Associative(base, Untag(entries), [script[n].reply] + results);
    hide Run, Untag, TurnEntries, StartCount;
  }

  lemma EnterTurn(w: Watch, base: seq<Msg>, script: seq<TurnScript>, n: nat, trace: seq<Event>, entries: seq<Entry>,
                  played: seq<Event>, pending: set<string>)
    requires n < |script| && WellFormed(script[n]) && Good(w, base, script, n, InTurn, trace, entries)
    requires Run(Run(w, trace), played) == TurnOpen(Run(w, trace), script[n], pending)
    ensures GoodInside(w, base, script, n + 1, trace + played, entries + TurnEntries(n, script[n], []))
  {
    RunAppend(w, trace, played);
    CleanStep(script, n);
    UntagTurn(n, script[n], []);
    UntagAppend(entries, TurnEntries(n, script[n], []));
    assert [script[n].reply] + [] == [script[n].reply];
    Associative(base, Untag(entries), [script[n].reply]);
    hide Run, Untag, TurnEntries, StartCount;
  }

  lemma EndRun(w: Watch, base: seq<Msg>, script: seq<TurnScript>, n: nat, trace: seq<Event>, entries: seq<Entry>)
    requires n <= |script| && Good(w, base, script, n, BetweenTurns, trace, entries)
    ensures Good(w, base, script, n, Finished, trace + [AgentEnd(Untag(entries))], entries)
  {
    RunSnoc(w, trace, AgentEnd(Untag(entries)));
    hide Run, Untag, Clean;
  }

  lemma GoodIsInside(w: Watch, base: seq<Msg>, script: seq<TurnScript>, n: nat, trace: seq<Event>, entries: seq<Entry>)
    requires n <= |script| && Good(w, base, script, n, InTurn, trace, entries)
    ensures Inside(Run(w, trace))
  {
  }

  /** The context follows the transcript through the pending messages and the turn. */
  lemma ContextFollows(base: seq<Msg>, entries: seq<Entry>, pending: seq<Msg>, origin: Origin, n: nat, t: TurnScript,
      results: seq<Msg>)
    ensures base + Untag(entries) + pending + ([t.reply] + results)
         == base + Untag(entries + Tag(pending, origin) + TurnEntries(n, t, results))
  {
    UntagAppend(entries, Tag(pending, origin));
    UntagTagged(pending, origin);
    UntagTurn(n, t, results);
    UntagAppend(entries + Tag(pending, origin), TurnEntries(n, t, results));
    hide Untag, Tag, TurnEntries;
    Associative(base, Untag(entries), pending);
    Associative(base, Untag(entries) + pending, [t.reply] + results);
  }

  lemma PaidTagged(entries: seq<Entry>, messages: seq<Msg>, origin: Origin, script: seq<TurnScript>)
    requires PaidUp(PayAll(Settled, entries, script), script) && !origin.Reply? && !origin.Result?
    ensures PaidUp(PayAll(Settled, entries + Tag(messages, origin), script), script)
  {
    PayAppend(Settled, entries, Tag(messages, origin), script);
    PayTagged(PayAll(Settled, entries, script), messages, origin, script);
  }

  /** A reply whose tools are still running. */
  lemma CutPairing(entries: seq<Entry>, n: nat, script: seq<TurnScript>)
    requires n < |script| && PaidUp(PayAll(Settled, entries, script), script)
    ensures PairedSoFar(entries + TurnEntries(n, script[n], []), script)
  {
    var more := entries + TurnEntries(n, script[n], []);
    assert more[..|more| - 1] == entries;
    hide PayAll, PaidUp;
  }

  /** What the tools of a turn made of it. */
  ghost predicate TurnPlayed(tools: seq<Tool>, t: TurnScript, mode: ExecutionMode, results: seq<Msg>, more: bool,
                             kind: TurnKind)
    requires WellFormed(t)
  {
    && (kind == Dead <==> Failed(t.reply))
    && (kind == Cut <==> !Failed(t.reply) && StillRuns(tools, t, mode))
    && (kind == Whole ==> ResultsMeant(tools, t, results) && (more <==> WorkDue(tools, t)))
    && (kind != Whole ==> results == [])
  }

  /** The first part of a turn: turn_start unless it was already sent, the pending messages, the reply and its tools. */
  method PlayTurn(ghost w: Watch, ghost base: seq<Msg>, ghost contextBase: seq<Msg>, script: seq<TurnScript>, n: nat,
                  trace: seq<Event>, entries: seq<Entry>, context: Context, first: bool,
                  pending: seq<Msg>, origin: Origin, mode: ExecutionMode)
    returns (trace': seq<Event>, entries': seq<Entry>, context': Context, results: seq<Msg>, more: bool, kind: TurnKind)
    requires n < |script| && WellFormed(script[n]) && !origin.Reply? && !origin.Result?
    requires Good(w, base, script, n, if first then InTurn else BetweenTurns, trace, entries)
    requires PaidUp(PayAll(Settled, entries, script), script)
    requires Clean(script, n) && KeptContext(script, n) ==> context.messages == contextBase + Untag(entries)
    ensures entries' == entries + Tag(pending, origin) + TurnEntries(n, script[n], results)
    ensures kind == Dead <==> Failed(script[n].reply)
    ensures kind != Cut ==> Good(w, base, script, n + 1, BetweenTurns, trace', entries')
    ensures kind == Cut ==> GoodInside(w, base, script, n + 1, trace', entries')
    ensures kind == Dead ==> PayAll(Settled, entries', script) == Final
    ensures kind == Whole ==> PaidUp(PayAll(Settled, entries', script), script)
    ensures kind == Cut ==> PairedSoFar(entries', script)
    ensures Clean(script, n + 1) && KeptContext(script, n) ==> context'.messages == contextBase + Untag(entries')
    ensures context'.tools == context.tools && TurnPlayed(context.tools, script[n], mode, results, more, kind)
  {
    hide Run, Good, GoodInside, PayAll, Tag, Untag, TurnEntries, PaidUp, Clean, WorkDue, StillRuns, ResultsMeant, Shown;
    trace' := trace;
    if !first {
      BeginTurn(w, base, script, n, trace, entries);
      trace' := trace' + [TurnStart];
    }
    var injected := Announce(pending);
    Inject(w, base, script, n, trace', entries, pending, origin);
    PaidTagged(entries, pending, origin, script);
    trace' := trace' + injected;
    entries' := entries + Tag(pending, origin);
    context' := context.(messages := context.messages + pending);
    GoodIsInside(w, base, script, n, trace', entries');

    ghost var asked := context.tools;
    var played;
    played, context', results, more, kind := RunTurn(context', script[n], mode, Run(w, trace'));
    CleanStep(script, n);
    if kind == Cut {
      EnterTurn(w, base, script, n, trace', entries', played, Run(Run(w, trace'), played).state.pendingToolCalls);
      CutPairing(entries', n, script);
    } else {
      TakeTurn(w, base, script, n, trace', entries', played, results);
      PayTurn(PayAll(Settled, entries', script), n, script, asked, results);
      PayAppend(Settled, entries', TurnEntries(n, script[n], results), script);
    }
    ContextFollows(contextBase, entries, pending, origin, n, script[n], results);
    entries' := entries' + TurnEntries(n, script[n], results);
    trace' := trace' + played;
  }

  /** message_start and message_end for messages that arrive whole. */
  method Announce(messages: seq<Msg>) returns (ev: seq<Event>)
    ensures ev == MessageEvents(messages)
  {
    ev := [];
    for i := 0 to |messages|
      invariant ev == MessageEvents(messages[..i])
    {
      assert messages[..i + 1][..i] == messages[..i];
      ev := ev + [MessageStart(messages[i]), MessageEnd(messages[i])];
    }
    assert messages[..|messages|] == messages;
  }

  /** The log of a queue since the run began: it replays to the queue as it is, it holds the operations of the script
      so far, and what its polls handed out are the queue's messages in the transcript, then those just drained and
      about to be announced. */
  ghost predicate Accounted(q0: Queue, q: Queue, log: seq<QueueEvent>, ops: seq<QueueOp>, entries: seq<Entry>,
                            own: Origin, pending: seq<Msg>, origin: Origin) {
    && Valid(q0)
    && q == Replay(q0, log)
    && GivenBy(log) == Enqueued(ops)
    && PolledBy(q0, log) == From(entries, own) + (if origin == own then pending else [])
  }

  /** What is done to the steering queue, and to the follow-up queue, in the first n turns of the script. */
  function SteeringOps(script: seq<TurnScript>, n: nat): seq<QueueOp>
    requires n <= |script|
  {
    if n == 0 then [] else SteeringOps(script, n - 1) + script[n - 1].steering
  }

  function FollowUpOps(script: seq<TurnScript>, n: nat): seq<QueueOp>
    requires n <= |script|
  {
    if n == 0 then [] else FollowUpOps(script, n - 1) + script[n - 1].followUp
  }

  lemma TurnIsNot(n: nat, t: TurnScript, results: seq<Msg>, own: Origin)
    requires !own.Reply? && !own.Result?
    ensures From(TurnEntries(n, t, results), own) == []
  {
    FromNone(TurnEntries(n, t, results), own);
  }

  lemma AccountedTurn(q0: Queue, q: Queue, log: seq<QueueEvent>, ops: seq<QueueOp>, entries: seq<Entry>, own: Origin,
                      pending: seq<Msg>, origin: Origin, n: nat, t: TurnScript, results: seq<Msg>)
    requires Accounted(q0, q, log, ops, entries, own, pending, origin) && !own.Reply? && !own.Result?
    ensures Accounted(q0, q, log, ops, entries + Tag(pending, origin) + TurnEntries(n, t, results), own, [], origin)
  {
    FromAppend(entries + Tag(pending, origin), TurnEntries(n, t, results), own);
    FromAppend(entries, Tag(pending, origin), own);
    FromTagged(pending, origin, own);
    TurnIsNot(n, t, results, own);
    hide From, Tag, TurnEntries, Replay, GivenBy, PolledBy, Enqueued, Valid;
    var mine := if origin == own then pending else [];
    assert From(entries, own) + mine + [] == From(entries, own) + mine;
  }

  /** Operations of the environment. */
  lemma AccountedOps(q0: Queue, q: Queue, log: seq<QueueEvent>, ops: seq<QueueOp>, more: seq<QueueOp>,
                     entries: seq<Entry>, own: Origin, pending: seq<Msg>, origin: Origin)
    requires Accounted(q0, q, log, ops, entries, own, pending, origin)
    ensures Accounted(q0, Apply(q, more), log + Performed(more), ops + more, entries, own, pending, origin)
  {
    ReplayAppend(q0, log, Performed(more));
    ReplayPerformed(q, more);
    EnqueuedAppend(ops, more);
    hide Replay, GivenBy, PolledBy, Enqueued, From, Apply, Performed;
  }

  /** A poll of the queue, of which nothing is pending. */
  lemma AccountedDrain(q0: Queue, q: Queue, log: seq<QueueEvent>, ops: seq<QueueOp>, entries: seq<Entry>, own: Origin,
                       origin: Origin)
    requires Accounted(q0, q, log, ops, entries, own, [], origin)
    ensures Accounted(q0, AfterDrain(q), log + [Polled], ops, entries, own, Drained(q), own)
  {
    ReplayPoll(q0, log);
    assert From(entries, own) + [] == From(entries, own);
    hide Replay, GivenBy, PolledBy, Enqueued, From, AfterDrain, Drained;
  }

  datatype LoopResult = LoopResult(
    trace: seq<Event>,
    entries: seq<Entry>,
    context: Context,
    turns: nat,
    finished: bool,
    steering: Queue,
    followUp: Queue,
    steeringLog: seq<QueueEvent>,
    followUpLog: seq<QueueEvent>,
    pending: seq<Msg>,
    origin: Origin)

  ghost predicate QueuesAccounted(r: LoopResult, steering: Queue, followUp: Queue, firstOps: seq<QueueOp>,
                                  script: seq<TurnScript>) {
    && r.turns <= |script|
    && Accounted(steering, r.steering, r.steeringLog, firstOps + SteeringOps(script, r.turns), r.entries, Steering,
                 r.pending, r.origin)
    && Accounted(followUp, r.followUp, r.followUpLog, FollowUpOps(script, r.turns), r.entries, FollowUp,
                 r.pending, r.origin)
  }

  /** The messages of one origin that a run injected: those in the transcript, then those still to be announced. */
  function InjectedBy(r: LoopResult, own: Origin): seq<Msg> {
    From(r.entries, own) + (if r.origin == own then r.pending else [])
  }

  /** Conservation over a run: for each queue, every message it held or was given while the run went on is still
      queued, or cleared, or injected by this run or before it, just once, and injected in the order given. */
  lemma RunConserves(r: LoopResult, steering: Queue, followUp: Queue, firstOps: seq<QueueOp>, script: seq<TurnScript>)
    requires QueuesAccounted(r, steering, followUp, firstOps, script)
    ensures Valid(r.steering) && Valid(r.followUp)
    ensures Conserved(steering, r.steering, Enqueued(firstOps + SteeringOps(script, r.turns)), InjectedBy(r, Steering))
    ensures Conserved(followUp, r.followUp, Enqueued(FollowUpOps(script, r.turns)), InjectedBy(r, FollowUp))
  {
    Conservation(steering, r.steeringLog);
    Conservation(followUp, r.followUpLog);
    ReplayConserves(steering, r.steeringLog);
    ReplayConserves(followUp, r.followUpLog);
    hide Conserved, Replay, GivenBy, PolledBy, From, Enqueued, Valid, Evolves;
  }

  /** How a run stands after some turns of the script. */
  ghost predicate Stands(r: LoopResult, w: Watch, base: seq<Msg>, contextBase: seq<Msg>, script: seq<TurnScript>,
      p: Phase) {
    && r.turns <= |script|
    && Good(w, base, script, r.turns, p, r.trace, r.entries)
    && (Clean(script, r.turns) && KeptContext(script, r.turns) ==> r.context.messages == contextBase + Untag(r.entries))
  }

  /** A finished run: the grammar is complete unless a stream started twice, agent_end reports the new messages,
      and every reply is paired with its results. */
  ghost predicate Ended(r: LoopResult, w: Watch, base: seq<Msg>, script: seq<TurnScript>) {
    && 0 < r.turns <= |script| && r.pending == []
    && Good(w, base, script, r.turns, Finished, r.trace, r.entries)
    && r.trace != [] && r.trace[|r.trace| - 1] == AgentEnd(Untag(r.entries))
    && Paired(r.entries, script)
  }

  /** A run that goes on: between two turns with every reply paired, or inside one with every earlier reply paired. */
  ghost predicate GoesOn(r: LoopResult, w: Watch, base: seq<Msg>, script: seq<TurnScript>) {
    && r.turns <= |script|
    && (|| (&& Good(w, base, script, r.turns, if r.turns == 0 then InTurn else BetweenTurns, r.trace, r.entries)
            && PaidUp(PayAll(Settled, r.entries, script), script))
        || (GoodInside(w, base, script, r.turns, r.trace, r.entries) && PairedSoFar(r.entries, script)))
  }

  /** Emits agent_end. */
  method Conclude(r0: LoopResult, ghost w: Watch, ghost base: seq<Msg>, script: seq<TurnScript>, ghost steering: Queue,
                  ghost followUp: Queue, ghost firstOps: seq<QueueOp>)
    returns (r: LoopResult)
    requires QueuesAccounted(r0, steering, followUp, firstOps, script)
    requires 0 < r0.turns <= |script| && r0.pending == [] && Good(w, base, script, r0.turns, BetweenTurns, r0.trace,
        r0.entries)
    requires Paired(r0.entries, script)
    ensures Ended(r, w, base, script) && r.finished && QueuesAccounted(r, steering, followUp, firstOps, script)
    ensures r == r0.(trace := r.trace, finished := true)
  {
    hide Good, Paired, Accounted;
    EndRun(w, base, script, r0.turns, r0.trace, r0.entries);
    r := r0.(trace := r0.trace + [AgentEnd(Untag(r0.entries))], finished := true);
  }

  /** One iteration of the inner loop up to the polls. */
  method PlayOne(r0: LoopResult, ghost w: Watch, ghost base: seq<Msg>, ghost contextBase: seq<Msg>,
                 script: seq<TurnScript>, mode: ExecutionMode,
                 ghost steering: Queue, ghost followUp: Queue, ghost firstOps: seq<QueueOp>)
    returns (r: LoopResult, more: bool, kind: TurnKind, ghost results: seq<Msg>)
    requires r0.turns < |script| && WellFormed(script[r0.turns]) && !r0.finished && r0.origin in {Steering, FollowUp}
    requires Stands(r0, w, base, contextBase, script, if r0.turns == 0 then InTurn else BetweenTurns)
    requires PaidUp(PayAll(Settled, r0.entries, script), script)
    requires QueuesAccounted(r0, steering, followUp, firstOps, script)
    ensures r.turns == r0.turns + 1 && r.pending == [] && r.origin == r0.origin && !r.finished
        && QueuesAccounted(r, steering, followUp, firstOps, script)
    ensures r0.entries <= r.entries
    ensures r.entries == r0.entries + Tag(r0.pending, r0.origin) + TurnEntries(r0.turns, script[r0.turns], results)
    ensures TurnPlayed(r0.context.tools, script[r0.turns], mode, results, more, kind)
    ensures r.steeringLog == r0.steeringLog + Performed(script[r0.turns].steering)
    ensures r.followUpLog == r0.followUpLog + Performed(script[r0.turns].followUp)
    ensures kind == Whole ==>
      r.context.tools == (match script[r0.turns].update case Some(c) => c.tools case None => r0.context.tools)
    ensures kind != Cut ==> Good(w, base, script, r.turns, BetweenTurns, r.trace, r.entries)
    ensures kind == Cut ==> GoodInside(w, base, script, r.turns, r.trace, r.entries)
    ensures kind == Dead ==> Paired(r.entries, script)
    ensures kind == Whole ==> PaidUp(PayAll(Settled, r.entries, script), script)
    ensures kind == Cut ==> PairedSoFar(r.entries, script)
    ensures Clean(script, r.turns) && KeptContext(script, r.turns) ==>
      r.context.messages == contextBase + Untag(r.entries)
  {
    hide Good, GoodInside, PayAll, Clean, Accounted, Apply, Performed, PaidUp, PairedSoFar, TurnPlayed;
    var n, first := r0.turns, r0.turns == 0;
    var trace, entries, context, toolResults;
    trace, entries, context, toolResults, more, kind :=
      PlayTurn(w, base, contextBase, script, n, r0.trace, r0.entries, r0.context, first, r0.pending, r0.origin, mode);
    results := toolResults;
    AccountedWhole(steering, r0.steering, r0.steeringLog, firstOps + SteeringOps(script, n), script[n].steering,
                   r0.entries, Steering, r0.pending, r0.origin, n, script[n], results);
    AccountedWhole(followUp, r0.followUp, r0.followUpLog, FollowUpOps(script, n), script[n].followUp,
                   r0.entries, FollowUp, r0.pending, r0.origin, n, script[n], results);
    Associative(firstOps, SteeringOps(script, n), script[n].steering);
    if kind == Whole && script[n].update.Some? {
      context := script[n].update.value;
    }
    KeptStep(script, n);
    r := r0.(trace := trace, entries := entries, context := context, turns := n + 1, pending := [],
             steering := Apply(r0.steering, script[n].steering), followUp := Apply(r0.followUp, script[n].followUp),
             steeringLog := r0.steeringLog + Performed(script[n].steering),
             followUpLog := r0.followUpLog + Performed(script[n].followUp));
  }

  /** A turn, and what is done to the queue meanwhile. */
  lemma AccountedWhole(q0: Queue, q: Queue, log: seq<QueueEvent>, ops: seq<QueueOp>, more: seq<QueueOp>,
                       entries: seq<Entry>, own: Origin, pending: seq<Msg>, origin: Origin, n: nat, t: TurnScript,
                       results: seq<Msg>)
    requires Accounted(q0, q, log, ops, entries, own, pending, origin) && !own.Reply? && !own.Result?
    ensures Accounted(q0, Apply(q, more), log + Performed(more), ops + more,
                      entries + Tag(pending, origin) + TurnEntries(n, t, results), own, [], origin)
  {
    AccountedTurn(q0, q, log, ops, entries, own, pending, origin, n, t, results);
    AccountedOps(q0, q, log, ops, more, entries + Tag(pending, origin) + TurnEntries(n, t, results), own, [], origin);
  }

  lemma KeptStep(script: seq<TurnScript>, n: nat)
    requires n < |script|
    ensures KeptContext(script, n + 1) <==> KeptContext(script, n) && script[n].update == None
  {
  }

  /** What is done to the steering queue before the first turn, and its first poll unless that is skipped. */
  method FirstPoll(r0: LoopResult, firstOps: seq<QueueOp>, skip: bool, ghost script: seq<TurnScript>)
    returns (r: LoopResult)
    requires r0.turns == 0 && r0.pending == [] && r0.origin == Steering
    requires QueuesAccounted(r0, r0.steering, r0.followUp, [], script)
    ensures QueuesAccounted(r, r0.steering, r0.followUp, firstOps, script) && r.origin == Steering
    ensures r == r0.(steering := r.steering, steeringLog := r.steeringLog, pending := r.pending)
    ensures skip ==> r.pending == []
    ensures r.steeringLog == r0.steeringLog + Performed(firstOps) + (if skip then [] else [Polled])
    ensures !skip ==> r.pending == Drained(Replay(r0.steering, r0.steeringLog + Performed(firstOps)))
  {
    hide Apply, Performed, Replay, AfterDrain, Drained;
    r := r0.(steering := Apply(r0.steering, firstOps), steeringLog := r0.steeringLog + Performed(firstOps));
    AccountedOps(r0.steering, r0.steering, r0.steeringLog, [], firstOps, r0.entries, Steering, [], Steering);
    assert [] + firstOps == firstOps == firstOps + SteeringOps(script, 0);
    if !skip {
      r := PollSteering(r, r0.steering, r0.followUp, firstOps, script);
    }
  }

  /** Before turn r.turns: everything so far went as it should, and the messages to begin with are there. */
  ghost predicate Poised(s: Setup, base: seq<Entry>, r: LoopResult, laid: seq<seq<Msg>>) {
    && Usable(s) && r.turns <= |s.script| && r.context.tools == ToolsAt(s, r.turns)
    && r.steeringLog == SteeringLog(s, r.turns) && r.followUpLog == FollowUpLog(s, r.turns)
    && r.pending == FoundBefore(s, r.turns) && r.origin == OriginBefore(s, r.turns)
    && (forall k | 0 <= k < r.turns :: !Ends(s, k) && !Hangs(s, k))
    && |laid| == r.turns && LaidOut(s, base, r.entries, laid)
  }

  /** After a turn that did not end the run by itself, and the steering poll that follows it. */
  ghost predicate Paused(s: Setup, base: seq<Entry>, r: LoopResult, laid: seq<seq<Msg>>, more: bool) {
    && Usable(s) && 0 < r.turns <= |s.script| && r.context.tools == ToolsAt(s, r.turns)
    && (assert s.script[r.turns - 1] in s.script;
        more <==> WorkDue(ToolsAt(s, r.turns - 1), s.script[r.turns - 1]))
    && !Failed(s.script[r.turns - 1].reply) && !s.script[r.turns - 1].stop && !Hangs(s, r.turns - 1)
    && Halfway(s, base, r, laid)
    && r.steeringLog == SteeringLog(s, r.turns) && r.pending == SteeringFound(s, r.turns - 1) && r.origin == Steering
  }

  /** What holds after every turn. */
  ghost predicate Halfway(s: Setup, base: seq<Entry>, r: LoopResult, laid: seq<seq<Msg>>) {
    && SoFar(s, base, r, laid)
    && r.followUpLog == FollowUpLog(s, r.turns - 1) + Performed(s.script[r.turns - 1].followUp)
  }

  ghost predicate SoFar(s: Setup, base: seq<Entry>, r: LoopResult, laid: seq<seq<Msg>>) {
    && Usable(s) && 0 < r.turns <= |s.script|
    && (forall k | 0 <= k < r.turns - 1 :: !Ends(s, k) && !Hangs(s, k))
    && |laid| == r.turns && LaidOut(s, base, r.entries, laid)
  }

  ghost predicate OnCourse(s: Setup, base: seq<Entry>, r: LoopResult) {
    Course(s, base, r.entries, r.turns, r.finished, r.pending)
  }

  lemma TurnTaken(s: Setup, base: seq<Entry>, r0: LoopResult, laid: seq<seq<Msg>>, r: LoopResult, results: seq<Msg>,
                  more: bool, kind: TurnKind)
    requires Poised(s, base, r0, laid) && r0.turns < |s.script| && r.turns == r0.turns + 1
    requires s.script[r0.turns] in s.script && WellFormed(s.script[r0.turns])
    requires r.entries == r0.entries + Tag(r0.pending, r0.origin) + TurnEntries(r0.turns, s.script[r0.turns], results)
    requires TurnPlayed(r0.context.tools, s.script[r0.turns], s.mode, results, more, kind)
    requires r.followUpLog == r0.followUpLog + Performed(s.script[r0.turns].followUp)
    ensures Halfway(s, base, r, laid + [results])
    ensures kind == Cut <==> Hangs(s, r0.turns)
    ensures kind == Dead <==> Failed(s.script[r0.turns].reply)
    ensures kind == Whole ==> (more <==> WorkDue(ToolsAt(s, r0.turns), s.script[r0.turns]))
  {
    hide Ends, FoundBefore, OriginBefore, FollowUpLog, SteeringLog, ResultsMeant, WorkDue, StillRuns, ToolsAt;
    hide Performed, Tag, TurnEntries, LaidOut;
    LaidMore(s, base, r0.entries, laid, results);
  }

  lemma EndsByItself(s: Setup, k: nat)
    requires Usable(s) && k < |s.script| && (Failed(s.script[k].reply) || s.script[k].stop)
    ensures Ends(s, k)
  {
  }

  lemma AccountedReplay(r: LoopResult, steering: Queue, followUp: Queue, firstOps: seq<QueueOp>,
                        script: seq<TurnScript>)
    requires QueuesAccounted(r, steering, followUp, firstOps, script)
    ensures r.steering == Replay(steering, r.steeringLog) && r.followUp == Replay(followUp, r.followUpLog)
  {
  }

  /** A turn that did not end the run is followed by a steering poll. */
  lemma TurnPolled(s: Setup, base: seq<Entry>, r0: LoopResult, laid: seq<seq<Msg>>, r: LoopResult, r': LoopResult,
                   results: seq<Msg>, more: bool)
    requires Poised(s, base, r0, laid) && Halfway(s, base, r, laid + [results]) && r.turns == r0.turns + 1
    requires !Failed(s.script[r0.turns].reply) && !s.script[r0.turns].stop && !Hangs(s, r0.turns)
    requires s.script[r0.turns] in s.script && (more <==> WorkDue(ToolsAt(s, r0.turns), s.script[r0.turns]))
    requires r.context.tools == (match s.script[r0.turns].update case Some(c) => c.tools case None => r0.context.tools)
    requires r.steeringLog == r0.steeringLog + Performed(s.script[r0.turns].steering)
    requires r.steering == Replay(s.steering, r.steeringLog)
    requires r' == r.(steering := r'.steering, steeringLog := r.steeringLog + [Polled], pending := Drained(r.steering),
                      origin := Steering)
    ensures Paused(s, base, r', laid + [results], more)
  {
    hide Ends, Hangs, LaidOut, WorkDue, FoundBefore, OriginBefore, FollowUpLog, Replay, Drained, Performed;
  }

  lemma FollowUpPolled(s: Setup, base: seq<Entry>, r: LoopResult, laid: seq<seq<Msg>>, more: bool)
    requires Paused(s, base, r, laid, more) && r.followUp == Replay(s.followUp, r.followUpLog)
    ensures Drained(r.followUp) == FollowUpFound(s, r.turns - 1)
  {
    hide Ends, Hangs, LaidOut, WorkDue, FollowUpLog, SteeringLog, Replay, Drained, Performed;
  }

  /** A turn after which the loop goes on by itself, and one after which it would stop. */
  lemma KeepsGoing(s: Setup, k: nat)
    requires Usable(s) && k < |s.script| && !Failed(s.script[k].reply) && !s.script[k].stop && !WouldStop(s, k)
    ensures !Ends(s, k) && FoundBefore(s, k + 1) == SteeringFound(s, k) && OriginBefore(s, k + 1) == Steering
    ensures FollowUpLog(s, k + 1) == FollowUpLog(s, k) + Performed(s.script[k].followUp)
  {
    hide WouldStop;
    var log := FollowUpLog(s, k) + Performed(s.script[k].followUp);
    assert log + [] == log;
  }

  lemma Idles(s: Setup, k: nat)
    requires Usable(s) && k < |s.script| && !Failed(s.script[k].reply) && !s.script[k].stop && WouldStop(s, k)
    ensures Ends(s, k) <==> FollowUpFound(s, k) == []
    ensures FoundBefore(s, k + 1) == FollowUpFound(s, k) && OriginBefore(s, k + 1) == FollowUp
    ensures FollowUpLog(s, k + 1) == FollowUpLog(s, k) + Performed(s.script[k].followUp) + [Polled]
  {
    hide WouldStop;
  }

  lemma IdleIff(s: Setup, k: nat)
    requires Usable(s) && k < |s.script|
    ensures s.script[k] in s.script
    ensures WouldStop(s, k) <==> !WorkDue(ToolsAt(s, k), s.script[k]) && SteeringFound(s, k) == []
  {
    hide WorkDue, ToolsAt, SteeringFound;
  }

  lemma GoesOnPoised(s: Setup, base: seq<Entry>, r: LoopResult, laid: seq<seq<Msg>>, more: bool)
    requires Paused(s, base, r, laid, more) && (more || r.pending != [])
    ensures Poised(s, base, r, laid)
  {
    hide WorkDue, SteeringFound, FollowUpFound, LaidOut, Hangs, SteeringLog, FollowUpLog, WouldStop, FoundBefore,
      OriginBefore, Ends, ToolsAt, Performed, Usable;
    IdleIff(s, r.turns - 1);
    KeepsGoing(s, r.turns - 1);
  }

  /** The loop would stop: it polls for follow-ups. */
  lemma StopsIdle(s: Setup, base: seq<Entry>, r: LoopResult, laid: seq<seq<Msg>>, r': LoopResult, more: bool)
    requires Paused(s, base, r, laid, more) && !more && r.pending == []
    requires r'.followUpLog == r.followUpLog + [Polled] && r'.pending == FollowUpFound(s, r.turns - 1)
    requires r' == r.(followUp := r'.followUp, followUpLog := r'.followUpLog, pending := r'.pending, origin := FollowUp)
    ensures WouldStop(s, r.turns - 1)
    ensures SoFar(s, base, r', laid) && !Hangs(s, r.turns - 1)
    ensures if r'.pending == [] then Ends(s, r.turns - 1) else Poised(s, base, r', laid)
  {
    hide WorkDue, SteeringFound, FollowUpFound, LaidOut, Hangs, SteeringLog, FollowUpLog, WouldStop, FoundBefore,
      OriginBefore, Ends, ToolsAt, Performed, Usable;
    IdleIff(s, r.turns - 1);
    Idles(s, r.turns - 1);
  }

  lemma FirstPoised(s: Setup, r: LoopResult)
    requires Usable(s) && r.turns == 0 && r.context.tools == s.tools && r.origin == Steering && r.followUpLog == []
    requires r.steeringLog == Performed(s.firstOps) + (if s.skipFirstPoll then [] else [Polled])
    requires r.pending == if s.skipFirstPoll then [] else Drained(Replay(s.steering, Performed(s.firstOps)))
    ensures Poised(s, r.entries, r, [])
  {
    LaidNothing(s, r.entries);
  }

  lemma OutOfScript(s: Setup, base: seq<Entry>, r: LoopResult, laid: seq<seq<Msg>>)
    requires Poised(s, base, r, laid) && r.turns == |s.script| && !r.finished
    ensures OnCourse(s, base, r)
  {
    hide Ends, Hangs, LaidOut, FoundBefore;
  }

  lemma Ending(s: Setup, base: seq<Entry>, r: LoopResult, laid: seq<seq<Msg>>, r': LoopResult)
    requires SoFar(s, base, r, laid) && Ends(s, r.turns - 1) && !Hangs(s, r.turns - 1) && r.pending == []
    requires r' == r.(trace := r'.trace, finished := true)
    ensures OnCourse(s, base, r')
  {
    hide Ends, Hangs, LaidOut, FoundBefore;
  }

  lemma Hanging(s: Setup, base: seq<Entry>, r: LoopResult, laid: seq<seq<Msg>>)
    requires SoFar(s, base, r, laid) && Hangs(s, r.turns - 1) && !r.finished && r.pending == []
    ensures OnCourse(s, base, r)
  {
    hide Ends, Hangs, LaidOut, FoundBefore;
  }

  /** `runLoop`. The queues are polled before the first turn, after every turn that does not end the run, and,
      for follow-ups, when the loop would stop. */
  method RunLoop(r0: LoopResult, ghost w: Watch, ghost base: seq<Msg>, ghost contextBase: seq<Msg>,
                 script: seq<TurnScript>, mode: ExecutionMode, firstOps: seq<QueueOp>, skipFirstPoll: bool)
    returns (r: LoopResult)
    requires forall t <- script :: WellFormed(t)
    requires r0.turns == 0 && !r0.finished && r0.pending == [] && r0.origin == Steering
    requires r0.steeringLog == [] && r0.followUpLog == []
    requires Stands(r0, w, base, contextBase, script, InTurn)
    requires PaidUp(PayAll(Settled, r0.entries, script), script)
    requires QueuesAccounted(r0, r0.steering, r0.followUp, [], script)
    ensures QueuesAccounted(r, r0.steering, r0.followUp, firstOps, script)
    ensures r.finished ==> Ended(r, w, base, script)
    ensures !r.finished ==> GoesOn(r, w, base, script)
    ensures r.turns <= |script| && r0.entries <= r.entries
    ensures Clean(script, r.turns) && KeptContext(script, r.turns) ==>
      r.context.messages == contextBase + Untag(r.entries)
    ensures OnCourse(Setup(r0.context.tools, mode, script, r0.steering, r0.followUp, firstOps, skipFirstPoll),
                     r0.entries, r)
  {
    hide Good, GoodInside, PayAll, Clean, KeptContext, Apply, AfterDrain, Drained, PaidUp, Performed, Replay;
    hide QueuesAccounted, SteeringOps, FollowUpOps, Tag, TurnEntries, TurnPlayed, Poised, Paused, SoFar, Hangs;
    hide Ends, OnCourse, WorkDue, Course;
    ghost var steering, followUp := r0.steering, r0.followUp;
    ghost var s := Setup(r0.context.tools, mode, script, steering, followUp, firstOps, skipFirstPoll);
    r := FirstPoll(r0, firstOps, skipFirstPoll, script);
    assert [] + Performed(firstOps) == Performed(firstOps);
    FirstPoised(s, r);
    ghost var opening, laid: seq<seq<Msg>> := r0.entries, [];
    while true
      invariant Stands(r, w, base, contextBase, script, if r.turns == 0 then InTurn else BetweenTurns)
      invariant PaidUp(PayAll(Settled, r.entries, script), script)
      invariant QueuesAccounted(r, steering, followUp, firstOps, script)
      invariant !r.finished && r.origin in {Steering, FollowUp} && r0.entries <= r.entries
      invariant Poised(s, opening, r, laid)
      decreases |script| - r.turns
    {
      ghost var begun := r.turns;
      var hasMoreToolCalls := true;
      while hasMoreToolCalls || |r.pending| > 0
        invariant Stands(r, w, base, contextBase, script, if r.turns == 0 then InTurn else BetweenTurns)
        invariant PaidUp(PayAll(Settled, r.entries, script), script)
        invariant QueuesAccounted(r, steering, followUp, firstOps, script)
        invariant !r.finished && r.origin in {Steering, FollowUp} && r0.entries <= r.entries
        invariant begun <= r.turns && (hasMoreToolCalls || begun < r.turns)
        invariant begun == r.turns ==> Poised(s, opening, r, laid)
        invariant begun < r.turns ==> Paused(s, opening, r, laid, hasMoreToolCalls)
        decreases |script| - r.turns
      {
        if begun < r.turns {
          GoesOnPoised(s, opening, r, laid, hasMoreToolCalls);
        }
        if r.turns == |script| {
          OutOfScript(s, opening, r, laid);
          return;
        }
        var n := r.turns;
        assert script[n] in script;
        ghost var results;
        ghost var before, was := r, laid;
        var more, kind;
        r, more, kind, results := PlayOne(r, w, base, contextBase, script, mode, steering, followUp, firstOps);
        TurnTaken(s, opening, before, laid, r, results, more, kind);
        laid := laid + [results];
        if kind == Cut {
          Hanging(s, opening, r, laid);
          return;
        }
        ghost var played := r;
        if kind == Dead {
          EndsByItself(s, n);
          r := Conclude(r, w, base, script, steering, followUp, firstOps);
          Ending(s, opening, played, laid, r);
          return;
        }
        hasMoreToolCalls := more;
        if script[n].stop {
          EndsByItself(s, n);
          r := Conclude(r, w, base, script, steering, followUp, firstOps);
          Ending(s, opening, played, laid, r);
          return;
        }
        r := PollSteering(r, steering, followUp, firstOps, script);
        AccountedReplay(played, steering, followUp, firstOps, script);
        TurnPolled(s, opening, before, was, played, r, results, more);
      }
      ghost var paused := r;
      r := PollFollowUp(r, steering, followUp, firstOps, script);
      AccountedReplay(paused, steering, followUp, firstOps, script);
      FollowUpPolled(s, opening, paused, laid, hasMoreToolCalls);
      StopsIdle(s, opening, paused, laid, r, hasMoreToolCalls);
      if |r.pending| > 0 {
        continue;
      }
      break;
    }
    ghost var idle := r;
    r := Conclude(r, w, base, script, steering, followUp, firstOps);
    Ending(s, opening, idle, laid, r);
  }

  method PollSteering(r0: LoopResult, ghost steering: Queue, ghost followUp: Queue, ghost firstOps: seq<QueueOp>,
                      ghost script: seq<TurnScript>)
    returns (r: LoopResult)
    requires r0.pending == [] && QueuesAccounted(r0, steering, followUp, firstOps, script)
    ensures QueuesAccounted(r, steering, followUp, firstOps, script) && r.pending == Drained(r0.steering)
    ensures r == r0.(steering := AfterDrain(r0.steering), steeringLog := r0.steeringLog + [Polled],
                     pending := r.pending, origin := Steering)
  {
    AccountedDrain(steering, r0.steering, r0.steeringLog, firstOps + SteeringOps(script, r0.turns), r0.entries,
                   Steering, r0.origin);
    r := r0.(steering := AfterDrain(r0.steering), steeringLog := r0.steeringLog + [Polled],
             pending := Drained(r0.steering), origin := Steering);
  }

  method PollFollowUp(r0: LoopResult, ghost steering: Queue, ghost followUp: Queue, ghost firstOps: seq<QueueOp>,
                      ghost script: seq<TurnScript>)
    returns (r: LoopResult)
    requires r0.pending == [] && QueuesAccounted(r0, steering, followUp, firstOps, script)
    ensures QueuesAccounted(r, steering, followUp, firstOps, script) && r.pending == Drained(r0.followUp)
    ensures r == r0.(followUp := AfterDrain(r0.followUp), followUpLog := r0.followUpLog + [Polled],
                     pending := r.pending, origin := FollowUp)
  {
    AccountedDrain(followUp, r0.followUp, r0.followUpLog, FollowUpOps(script, r0.turns), r0.entries, FollowUp,
                   r0.origin);
    r := r0.(followUp := AfterDrain(r0.followUp), followUpLog := r0.followUpLog + [Polled],
             pending := Drained(r0.followUp), origin := FollowUp);
  }
}
