/** One turn of packages/agent/src/agent-loop.ts: the streamed reply and the execution of its tool calls. */
module AgentTurn {
  import opened Seqs
  import opened AgentTypes
  import opened ToolCalls
  import opened ToolRules
  import opened ToolBatch
  import opened ParallelBatch
  import opened Transcript

  /** No tool call pending and no message open, as far as the reduced state tells. */
  ghost predicate Resting(x: Watch) {
    x.state.pendingToolCalls == {} && x.state.streamingMessage == None
  }

  ghost predicate Inside(x: Watch) {
    Resting(x) && (x.phase == InTurn || x.phase == Broken)
  }

  /** The starts a provider stream yields before its terminal event. */
  function StartCount(stream: seq<StreamEvent>): nat {
    if stream == [] || stream[0].Terminal? then 0
    else (if stream[0].Start? then 1 else 0) + StartCount(stream[1..])
  }

  /** What a provider stream shows before its terminal event: every start, and every partial message after the first. */
  function Shown(stream: seq<StreamEvent>, open: bool): seq<Event> {
    if stream == [] then []
    else
      match stream[0]
      case Start(partialMessage) => [MessageStart(partialMessage)] + Shown(stream[1..], true)
      case Delta(partialMessage) =>
        (if open then [MessageUpdate(partialMessage)] else []) + Shown(stream[1..], open)
      case Terminal => []
  }

  /** The grammar survives a reply exactly when its stream starts at most one message. */
  function PhaseAfter(p: Phase, stream: seq<StreamEvent>): Phase {
    if p == InTurn && StartCount(stream) <= 1 then InTurn else Broken
  }

  ghost predicate Streaming(x: Watch, y: Watch, started: nat) {
    && y.state.(streamingMessage := None) == x.state && y.quiet == x.quiet
    && (y.state.streamingMessage == None <==> started == 0)
    && y.phase == (if x.phase != InTurn || started >= 2 then Broken else if started == 1 then InMessage else InTurn)
  }

  lemma StreamStep(x: Watch, trace: seq<Event>, started: nat, e: Event)
    requires Inside(x) && Streaming(x, Run(x, trace), started)
    requires e.MessageStart? || (e.MessageUpdate? && started > 0)
    ensures Streaming(x, Run(x, trace + [e]), if e.MessageStart? then started + 1 else started)
  {
    RunSnoc(x, trace, e);
  }

  lemma StreamEnd(x: Watch, trace: seq<Event>, started: nat, m: Msg)
    requires Inside(x) && Streaming(x, Run(x, trace), started) && started > 0
    ensures Run(x, trace + [MessageEnd(m)])
         == Grown(x, [m]).(phase := if x.phase == InTurn && started == 1 then InTurn else Broken)
  {
    RunSnoc(x, trace, MessageEnd(m));
  }

  lemma ShownStep(stream: seq<StreamEvent>, open: bool)
    requires stream != [] && !stream[0].Terminal?
    ensures Shown(stream, open) == ShownNow(stream[0], open) + Shown(stream[1..], open || stream[0].Start?)
  {
  }

  function ShownNow(e: StreamEvent, open: bool): seq<Event> {
    match e
    case Start(partialMessage) => [MessageStart(partialMessage)]
    case Delta(partialMessage) => if open then [MessageUpdate(partialMessage)] else []
    case Terminal => []
  }

  lemma ShownMore(before: seq<Event>, now: seq<Event>, rest: seq<Event>, all: seq<Event>)
    requires before + (now + rest) == all
    ensures (before + now) + rest == all
  {
    Associative(before, now, rest);
  }

  lemma ShownEnds(stream: seq<StreamEvent>, open: bool)
    requires stream == [] || stream[0].Terminal?
    ensures Shown(stream, open) == []
  {
  }

  lemma StreamNothing(x: Watch)
    requires Inside(x)
    ensures Streaming(x, Run(x, []), 0)
  {
  }

  /** `streamAssistantResponse`: the partial message is kept as the last one of the context and finally replaced. */
  method StreamReply(messages: seq<Msg>, stream: seq<StreamEvent>, reply: Msg, ghost x: Watch)
    returns (ev: seq<Event>, messages': seq<Msg>)
    requires Inside(x)
    ensures Run(x, ev) == Grown(x, [reply]).(phase := PhaseAfter(x.phase, stream))
    ensures StartCount(stream) <= 1 ==> messages' == messages + [reply]
    ensures |messages'| == |messages| + (if StartCount(stream) == 0 then 1 else StartCount(stream))
    ensures messages'[..|messages|] == messages && messages'[|messages'| - 1] == reply
    ensures ev == Shown(stream, false) + (if StartCount(stream) == 0 then [MessageStart(reply)] else [])
               + [MessageEnd(reply)]
  {
    hide Run, Observe, Shown;
    StreamNothing(x);
    var started := 0;
    ev, messages' := [], messages;
    var i := 0;
    assert stream[0..] == stream;
    assert [] + Shown(stream, false) == Shown(stream, false);
    while i < |stream| && !stream[i].Terminal?
      invariant i <= |stream|
      invariant StartCount(stream) == started + StartCount(stream[i..])
      invariant Streaming(x, Run(x, ev), started)
      invariant |messages'| == |messages| + started && messages'[..|messages|] == messages
      invariant ev + Shown(stream[i..], started > 0) == Shown(stream, false)
      decreases |stream| - i
    {
      ShownStep(stream[i..], started > 0);
      assert stream[i..][1..] == stream[i + 1..];
      ShownMore(ev, ShownNow(stream[i], started > 0), Shown(stream[i + 1..], started > 0 || stream[i].Start?),
                Shown(stream, false));
      match stream[i] {
      case Start(partialMessage) =>
        StreamStep(x, ev, started, MessageStart(partialMessage));
        messages' := messages' + [partialMessage];
        ev := ev + [MessageStart(partialMessage)];
        started := started + 1;
      case Delta(partialMessage) =>
        if started > 0 {
          StreamStep(x, ev, started, MessageUpdate(partialMessage));
          messages' := messages'[|messages'| - 1 := partialMessage];
          ev := ev + [MessageUpdate(partialMessage)];
        } else {
          assert ev + [] == ev;
        }
      }
      i := i + 1;
    }
    assert StartCount(stream[i..]) == 0;
    ShownEnds(stream[i..], started > 0);
    assert ev + [] == ev;
    if started > 0 {
      messages' := messages'[|messages'| - 1 := reply];
      StreamEnd(x, ev, started, reply);
    } else {
      messages' := messages' + [reply];
      StreamStep(x, ev, 0, MessageStart(reply));
      ev := ev + [MessageStart(reply)];
      StreamEnd(x, ev, 1, reply);
    }
    ev := ev + [MessageEnd(reply)];
  }

  /** The reduced state does not depend on the grammar's opinion of the trace. */
  lemma {:induction false} StateIgnoresPhase(w: Watch, p: Phase, trace: seq<Event>)
    ensures Run(w.(phase := p), trace).state == Run(w, trace).state
    ensures Run(w.(phase := p), trace).quiet == Run(w, trace).quiet
  {
    if trace != [] {
      StateIgnoresPhase(w, p, trace[..|trace| - 1]);
    }
  }

  /** A batch seen from inside a turn, whether or not the grammar was broken before. */
  lemma BatchInside(x: Watch, trace: seq<Event>, y: Watch)
    requires Inside(x) && Run(x.(phase := InTurn), trace) == y && y.phase == InTurn
    ensures Run(x, trace) == y.(phase := x.phase)
  {
    StateIgnoresPhase(x, InTurn, trace);
    if x.phase == Broken {
      BrokenForGood(x, trace);
    } else {
      assert x.(phase := InTurn) == x;
    }
  }

  datatype ExecutionMode = SequentialMode | ParallelMode

  predicate HasSequentialCall(tools: seq<Tool>, calls: seq<ToolCall>) {
    exists call <- calls :: Find(tools, call.name).Some? && Find(tools, call.name).value.sequential
  }

  /** What the first n calls of a reply leave in the transcript. */
  function ExpectedResults(tools: seq<Tool>, t: TurnScript, n: nat): (r: seq<Msg>)
    requires WellFormed(t) && n <= |t.calls|
    ensures |r| == n
  {
    var outcomes := if t.reply.stop == Length then TruncatedOutcomes(t.reply.calls)[..n]
                    else Outcomes(tools, t.reply.calls, t.calls, n);
    ResultMessages(t.reply.calls, outcomes)
  }

  /** Every call has its result, or the signal was aborted right after the last one that has. */
  ghost predicate Covers(t: TurnScript, results: seq<Msg>)
    requires WellFormed(t)
  {
    && |results| <= |t.calls|
    && (|results| < |t.calls| ==> 0 < |results| && t.calls[|results| - 1].abortedAfter)
  }

  /** The batch got as far as call i: the signal was not seen aborted after an earlier one. */
  predicate Executed(t: TurnScript, i: nat) {
    i < |t.calls| && forall j | 0 <= j < i :: !t.calls[j].abortedAfter
  }

  /** Every call of the reply has a result that says what it came to: an error for each if the reply was truncated,
      otherwise one for each call executed. */
  ghost predicate ResultsMeant(tools: seq<Tool>, t: TurnScript, results: seq<Msg>)
    requires WellFormed(t)
  {
    if t.reply.stop == Length then
      |results| == |t.reply.calls| && forall i | 0 <= i < |results| :: SaysTruncated(t.reply.calls[i], results[i])
    else
      && ResultsTrue(tools, t.reply.calls, t.calls, results)
      && (forall i: nat :: i < |results| <==> Executed(t, i))
  }

  /** The model has to see the results: there are calls, and they were truncated or one executed did not ask to stop. */
  ghost predicate WorkDue(tools: seq<Tool>, t: TurnScript)
    requires WellFormed(t)
  {
    && t.reply.calls != []
    && (t.reply.stop == Length
        || exists i: nat :: Executed(t, i) && !AsksToStop(tools, t.reply.calls[i], t.calls[i]))
  }

  /** The tools run at once and one that was started is never seen to end. */
  ghost predicate StillRuns(tools: seq<Tool>, t: TurnScript, mode: ExecutionMode)
    requires WellFormed(t)
  {
    && t.reply.stop != Length && mode == ParallelMode && !HasSequentialCall(tools, t.reply.calls)
    && exists i: nat :: Executed(t, i) && MayRun(tools, t.reply.calls[i], t.calls[i]) && !Lands(t.schedule, i)
  }

  lemma StopsAtExecuted(t: TurnScript, n: nat)
    requires WellFormed(t) && StopsAt(t.calls, n)
    ensures forall i: nat :: i < n <==> Executed(t, i)
  {
  }

  lemma StopExists(t: TurnScript) returns (n: nat)
    ensures StopsAt(t.calls, n)
  {
    n := 0;
    while n < |t.calls| && (n == 0 || !t.calls[n - 1].abortedAfter)
      invariant n <= |t.calls| && forall i | 0 <= i < n - 1 :: !t.calls[i].abortedAfter
    {
      n := n + 1;
    }
  }

  /** A batch that ran to its end leaves work due unless every call executed asked to stop. */
  lemma DueUnlessStopped(tools: seq<Tool>, t: TurnScript, n: nat)
    requires WellFormed(t) && t.reply.calls != [] && t.reply.stop != Length && StopsAt(t.calls, n)
    ensures WorkDue(tools, t) <==> !AllStop(tools, t.reply.calls, t.calls, n)
  {
    StopsAtExecuted(t, n);
    hide AsksToStop;
    if !AllStop(tools, t.reply.calls, t.calls, n) {
      assert n > 0;
      var i :| 0 <= i < n && !AsksToStop(tools, t.reply.calls[i], t.calls[i]);
      assert Executed(t, i);
    }
  }

  lemma LandsUnlessRunning(tools: seq<Tool>, t: TurnScript, n: nat)
    requires WellFormed(t) && StopsAt(t.calls, n)
    requires t.reply.stop != Length && !HasSequentialCall(tools, t.reply.calls)
    ensures AllLand(tools, t.reply.calls, t.calls, t.schedule, n) <==> !StillRuns(tools, t, ParallelMode)
  {
    StopsAtExecuted(t, n);
    hide Lands, MayRun, HasSequentialCall, Executed;
    if !AllLand(tools, t.reply.calls, t.calls, t.schedule, n) {
      var i: nat :| i < n && MayRun(tools, t.reply.calls[i], t.calls[i]) && !Lands(t.schedule, i);
      assert Executed(t, i);
    }
  }

  method RunTools(tools: seq<Tool>, t: TurnScript, mode: ExecutionMode, ghost x: Watch)
    returns (ev: seq<Event>, results: seq<Msg>, terminate: bool, complete: bool)
    requires WellFormed(t) && Inside(x)
    ensures complete ==> Covers(t, results) && results == ExpectedResults(tools, t, |results|)
    ensures complete ==> Run(x, ev) == Grown(x, results)
    ensures !complete ==>
      results == [] && Run(x, ev) == x.(state := x.state.(pendingToolCalls := Run(x, ev).state.pendingToolCalls))
    ensures complete <==> !StillRuns(tools, t, mode)
    ensures complete ==> ResultsMeant(tools, t, results)
    ensures complete && t.reply.calls != [] ==> (terminate <==> !WorkDue(tools, t))
    ensures t.reply.stop != Length ==> EventsTrue(tools, t.reply.calls, t.calls, ev)
  {
    hide Run, ResultsTrue, EventsTrue, AllStop, WorkDue, StillRuns, MayRun, AllLand, Executed, UpdatesOf, BatchDone,
      Outcomes, ResultMessages;
    ghost var n := StopExists(t);
    StopsAtExecuted(t, n);
    ghost var y := x.(phase := InTurn);
    var calls := t.reply.calls;
    if t.reply.stop == Length {
      ev, results, terminate := FailTruncated(calls, y);
      complete := true;
      TruncatedIsDue(tools, t, mode);
      BatchLeaves(calls, TruncatedOutcomes(calls), ev, results);
      assert TruncatedOutcomes(calls)[..|results|] == TruncatedOutcomes(calls);
      BatchInside(x, ev, Grown(y, results));
    } else if mode == SequentialMode || HasSequentialCall(tools, calls) {
      ev, results, terminate := ExecuteSequential(tools, calls, t.calls, y);
      complete := true;
      SequentialEnds(tools, t, mode);
      BatchLeaves(calls, Outcomes(tools, calls, t.calls, |results|), ev, results);
      StopIsUnique(t.calls, n, |results|);
      if calls != [] {
        DueUnlessStopped(tools, t, n);
      }
      BatchInside(x, ev, Grown(y, results));
    } else {
      ev, results, terminate, complete := ExecuteParallel(tools, calls, t.calls, t.schedule, y);
      LandsUnlessRunning(tools, t, n);
      if complete {
        BatchLeaves(calls, Outcomes(tools, calls, t.calls, |results|), ev, results);
        StopIsUnique(t.calls, n, |results|);
        if calls != [] {
          DueUnlessStopped(tools, t, n);
        }
      }
      BatchInside(x, ev, Run(y, ev));
    }
  }

  lemma BatchLeaves(calls: seq<ToolCall>, outcomes: seq<Outcome>, ev: seq<Event>, messages: seq<Msg>)
    requires BatchDone(calls, outcomes, ev, messages)
    ensures |outcomes| <= |calls| && messages == ResultMessages(calls, outcomes)
  {
  }

  lemma TruncatedIsDue(tools: seq<Tool>, t: TurnScript, mode: ExecutionMode)
    requires WellFormed(t) && t.reply.stop == Length
    ensures (WorkDue(tools, t) <==> t.reply.calls != []) && !StillRuns(tools, t, mode)
  {
  }

  lemma SequentialEnds(tools: seq<Tool>, t: TurnScript, mode: ExecutionMode)
    requires WellFormed(t) && (mode == SequentialMode || HasSequentialCall(tools, t.reply.calls))
    ensures !StillRuns(tools, t, mode)
  {
  }

  datatype TurnKind = Dead | Whole | Cut

  /** What a turn adds to the transcript. */
  function TurnEntries(turn: nat, t: TurnScript, results: seq<Msg>): seq<Entry> {
    [Entry(Reply(turn), t.reply)] + TagResults(turn, results)
  }

  lemma UntagTurn(turn: nat, t: TurnScript, results: seq<Msg>)
    ensures Untag(TurnEntries(turn, t, results)) == [t.reply] + results
  {
  }

  lemma PayTurn(o: Owing, turn: nat, script: seq<TurnScript>, tools: seq<Tool>, results: seq<Msg>)
    requires PaidUp(o, script) && turn < |script| && WellFormed(script[turn])
    requires if Failed(script[turn].reply) then results == []
      else Covers(script[turn], results) && results == ExpectedResults(tools, script[turn], |results|)
    ensures var o' := PayAll(o, TurnEntries(turn, script[turn], results), script);
            if Failed(script[turn].reply) then o' == Final else PaidUp(o', script)
  {
    var t := script[turn];
    var reply := [Entry(Reply(turn), t.reply)];
    PayAppend(o, reply, TagResults(turn, results), script);
    assert reply[..0] == [];
    assert PayAll(o, reply, script) == Pay(o, reply[0], script);
    if Failed(t.reply) {
      assert TagResults(turn, results) == [];
    } else {
      PayResults(turn, t.reply.calls, results, script);
    }
  }

  /** The watch after a turn has ended with this reply. */
  ghost function TurnClosed(x: Watch, t: TurnScript, results: seq<Msg>): Watch
    requires t.reply.Assistant?
  {
    var y := Grown(x, [t.reply] + results);
    y.(phase := if PhaseAfter(x.phase, t.stream) == InTurn then BetweenTurns else Broken,
       state := y.state.(
         errorMessage := if t.reply.errorMessage != "" then t.reply.errorMessage else y.state.errorMessage))
  }

  /** The watch inside a turn whose reply is there but whose tools are still running. */
  ghost function TurnOpen(x: Watch, t: TurnScript, pending: set<string>): Watch {
    var y := Grown(x, [t.reply]);
    y.(phase := PhaseAfter(x.phase, t.stream), state := y.state.(pendingToolCalls := pending))
  }

  lemma CloseTurn(x: Watch, t: TurnScript, results: seq<Msg>, trace: seq<Event>)
    requires t.reply.Assistant? && Inside(x)
    requires Run(x, trace) == Grown(x, [t.reply] + results).(phase := PhaseAfter(x.phase, t.stream))
    ensures Run(x, trace + [TurnEnd(t.reply, results)]) == TurnClosed(x, t, results)
  {
    RunSnoc(x, trace, TurnEnd(t.reply, results));
  }

  lemma NoResults(tools: seq<Tool>, t: TurnScript)
    requires WellFormed(t) && t.reply.calls == []
    ensures [] == ExpectedResults(tools, t, 0)
  {
  }

  lemma JoinTools(x: Watch, t: TurnScript, results: seq<Msg>, streamed: seq<Event>, tooling: seq<Event>)
    requires Run(x, streamed) == Grown(x, [t.reply]).(phase := PhaseAfter(x.phase, t.stream))
    requires Run(Run(x, streamed), tooling) == Grown(Run(x, streamed), results)
    ensures Run(x, streamed + tooling) == Grown(x, [t.reply] + results).(phase := PhaseAfter(x.phase, t.stream))
  {
    RunAppend(x, streamed, tooling);
    GrownTwice(x, [t.reply], results);
  }

  lemma NoCalls(tools: seq<Tool>, t: TurnScript, mode: ExecutionMode)
    requires WellFormed(t)
    ensures t.reply.calls == [] ==>
      !WorkDue(tools, t) && !StillRuns(tools, t, mode) && ResultsMeant(tools, t, [])
  {
  }

  /** One turn: the reply, its tool calls, turn_end. `Cut` means the run is still inside the turn. */
  method RunTurn(context: Context, t: TurnScript, mode: ExecutionMode, ghost x: Watch)
    returns (ev: seq<Event>, context': Context, results: seq<Msg>, more: bool, kind: TurnKind)
    requires WellFormed(t) && Inside(x)
    ensures kind == Dead <==> Failed(t.reply)
    ensures kind == Dead ==> results == []
    ensures kind == Whole ==> Covers(t, results) && results == ExpectedResults(context.tools, t, |results|)
    ensures kind != Cut ==> Run(x, ev) == TurnClosed(x, t, results)
    ensures kind == Cut ==> results == [] && Run(x, ev) == TurnOpen(x, t, Run(x, ev).state.pendingToolCalls)
    ensures StartCount(t.stream) <= 1 ==> context'.messages == context.messages + ([t.reply] + results)
    ensures context'.tools == context.tools
    ensures kind == Cut <==> !Failed(t.reply) && StillRuns(context.tools, t, mode)
    ensures kind == Whole ==> ResultsMeant(context.tools, t, results) && (more <==> WorkDue(context.tools, t))
    ensures kind != Cut ==> ev != [] && ev[|ev| - 1] == TurnEnd(t.reply, results)
    ensures Shown(t.stream, false) <= ev
  {
    hide Run, ResultMessages, Outcomes, TruncatedOutcomes, StartCount, WorkDue, StillRuns, ResultsMeant, Shown,
      EventsTrue;
    NoCalls(context.tools, t, mode);
    var streamed, messages := StreamReply(context.messages, t.stream, t.reply, x);
    ghost var y := Run(x, streamed);
    var tooling: seq<Event> := [];
    context', results, more, kind := Context(messages, context.tools), [], false, Whole;
    NothingDone(t.reply.calls, y);
    if Failed(t.reply) {
      kind := Dead;
    } else if t.reply.calls == [] {
      NoResults(context.tools, t);
    } else {
      var terminate, complete;
      tooling, results, terminate, complete := RunTools(context.tools, t, mode, y);
      if !complete {
        RunAppend(x, streamed, tooling);
        assert [t.reply] + results == [t.reply];
        return streamed + tooling, context', [], false, Cut;
      }
      context' := context'.(messages := messages + results);
      more := !terminate;
    }
    JoinTools(x, t, results, streamed, tooling);
    CloseTurn(x, t, results, streamed + tooling);
    ev := streamed + tooling + [TurnEnd(t.reply, results)];
    assert StartCount(t.stream) <= 1 ==> context'.messages == context.messages + ([t.reply] + results);
  }
}
