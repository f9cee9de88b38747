/** The three ways packages/agent/src/agent-loop.ts turns the tool calls of a message into result messages. */
module ToolBatch {
  import opened Seqs
  import opened AgentTypes
  import opened ToolCalls
  import opened ToolRules

  /** Inside a turn, between messages, no tool call pending. */
  ghost predicate Calm(w: Watch) {
    w.phase == InTurn && w.state.pendingToolCalls == {} && w.state.streamingMessage == None
  }

  /** The watch after messages were added to the transcript and nothing else happened. */
  ghost function Grown(w: Watch, messages: seq<Msg>): Watch {
    w.(state := w.state.(messages := w.state.messages + messages))
  }

  lemma GrownTwice(w: Watch, a: seq<Msg>, b: seq<Msg>)
    ensures Grown(Grown(w, a), b) == Grown(w, a + b)
    ensures Grown(w, []) == w
  {
    assert w.state.messages + a + b == w.state.messages + (a + b);
    assert w.state.messages + [] == w.state.messages;
  }

  lemma RunMessage(w: Watch, m: Msg)
    requires w.phase == InTurn && w.state.streamingMessage == None
    ensures Run(w, [MessageStart(m), MessageEnd(m)]) == Grown(w, [m])
  {
    var trace := [MessageStart(m), MessageEnd(m)];
    assert trace[..1] == [MessageStart(m)] && trace[..1][..0] == [];
    assert Run(w, trace[..1]) == Observe(w, MessageStart(m));
  }

  lemma {:induction false} RunMessages(w: Watch, messages: seq<Msg>)
    requires w.phase == InTurn && w.state.streamingMessage == None
    ensures Run(w, MessageEvents(messages)) == Grown(w, messages)
  {
    if messages == [] {
      GrownTwice(w, [], []);
    } else {
      var front, m := messages[..|messages| - 1], messages[|messages| - 1];
      RunMessages(w, front);
      RunAppend(w, MessageEvents(front), [MessageStart(m), MessageEnd(m)]);
      RunMessage(Grown(w, front), m);
      GrownTwice(w, front, [m]);
      assert front + [m] == messages;
    }
  }

  lemma {:induction false} MessageEventsPlain(messages: seq<Msg>)
    ensures forall e <- MessageEvents(messages) :: !IsToolEvent(e) && (e.MessageStart? || e.MessageEnd?)
  {
    if messages != [] {
      MessageEventsPlain(messages[..|messages| - 1]);
    }
  }

  /** What every batch owes: the first n calls each ran once and left one result, in source order; the calls
      after them were never started; and an executed batch stops early only where the signal was aborted. */
  ghost predicate BatchDone(calls: seq<ToolCall>, outcomes: seq<Outcome>, ev: seq<Event>, messages: seq<Msg>)
  {
    && |outcomes| <= |calls|
    && messages == ResultMessages(calls, outcomes)
    && Starts(ev) == UpTo(|outcomes|)
    && (forall i: nat | i < |outcomes| :: LaneOf(ev, i) == Closed)
    && (forall i: nat | |outcomes| <= i :: LaneOf(ev, i) == Idle)
  }

  /** The batch stopped after call n - 1 because the signal was aborted then, and not earlier; or it did not stop. */
  ghost predicate StopsAt(scripts: seq<CallScript>, n: nat) {
    && n <= |scripts|
    && (forall i | 0 <= i < n - 1 :: !scripts[i].abortedAfter)
    && (n < |scripts| ==> n > 0 && scripts[n - 1].abortedAfter)
  }

  lemma UpToSnoc(n: nat)
    ensures UpTo(n + 1) == UpTo(n) + [n]
  {
  }

  lemma NothingYet(w: Watch, pos: nat)
    ensures Run(w, []) == w && LaneOf([], pos) == Idle && Starts([]) == [] && UpdatesOf([], pos) == []
  {
  }

  /** Between its start and its end a call changes nothing but the set of pending calls. */
  lemma UpdateObserved(w: Watch, pos: nat, call: ToolCall, partial: Data)
    requires Calm(w)
    ensures Observe(Observe(w, ToolStart(pos, call)), ToolUpdate(pos, call, partial)) == Observe(w,
        ToolStart(pos, call))
  {
  }

  lemma EndObserved(w: Watch, pos: nat, call: ToolCall, result: ToolOutput, isError: bool)
    requires Calm(w)
    ensures Observe(Observe(w, ToolStart(pos, call)), ToolEnd(pos, call, result, isError)) == w
  {
  }

  /** The tool events of one call on its own. */
  method RunCall(tools: seq<Tool>, call: ToolCall, s: CallScript, pos: nat, ghost w: Watch)
      returns (ev: seq<Event>, outcome: Outcome)
    requires Calm(w)
    ensures outcome == CallOutcome(tools, call, s)
    ensures Run(w, ev) == w
    ensures LaneOf(ev, pos) == Closed && (forall e <- ev :: IsToolEvent(e) && e.pos == pos)
    ensures Starts(ev) == [pos]
    ensures ComesTo(tools, call, s, outcome) && UpdatesOf(ev, pos) == if MayRun(tools, call, s) then s.partials else []
    ensures forall e <- ev :: OfCall(tools, call, s, e)
  {
    PreparedIff(tools, call, s);
    ComesToIff(tools, call, s, CallOutcome(tools, call, s));
    NothingYet(w, pos);
    hide Run, LaneFrom, Starts, Observe, UpdatesOf, ComesTo, MayRun;
    ev := [ToolStart(pos, call)];
    assert ev == [] + [ToolStart(pos, call)];
    StartsSnoc([], ToolStart(pos, call));
    RunSnoc(w, [], ToolStart(pos, call));
    LaneSnoc(Idle, [], ToolStart(pos, call), pos);
    UpdatesSnoc([], ToolStart(pos, call), pos);
    var preparation := Prepare(tools, call, s);
    if preparation.Some? {
      outcome := Outcome(preparation.value, true);
    } else {
      ghost var running := Observe(w, ToolStart(pos, call));
      for k := 0 to |s.partials|
        invariant Run(w, ev) == running
        invariant LaneOf(ev, pos) == Open && (forall e <- ev :: IsToolEvent(e) && e.pos == pos)
        invariant Starts(ev) == [pos]
        invariant UpdatesOf(ev, pos) == s.partials[..k] && forall e <- ev :: OfCall(tools, call, s, e)
      {
        var e := ToolUpdate(pos, call, s.partials[k]);
        RunSnoc(w, ev, e);
        UpdateObserved(w, pos, call, s.partials[k]);
        LaneSnoc(Idle, ev, e, pos);
        StartsSnoc(ev, e);
        UpdatesSnoc(ev, e, pos);
        ev := ev + [e];
      }
      outcome := Finish(s);
    }
    EndObserved(w, pos, call, outcome.result, outcome.isError);
    var end := ToolEnd(pos, call, outcome.result, outcome.isError);
    RunSnoc(w, ev, end);
    LaneSnoc(Idle, ev, end, pos);
    StartsSnoc(ev, end);
    UpdatesSnoc(ev, end, pos);
    ev := ev + [end];
  }

  /** The event is about this call and true of it. */
  ghost predicate OfCall(tools: seq<Tool>, call: ToolCall, s: CallScript, e: Event) {
    && IsToolEvent(e) && e.call == call
    && (e.ToolUpdate? ==> MayRun(tools, call, s))
    && (e.ToolEnd? ==> ComesTo(tools, call, s, Outcome(e.result, e.isError)))
  }

  /** Adding one finished call, its tool events followed by its result message. */
  lemma BatchSnoc(calls: seq<ToolCall>, outcomes: seq<Outcome>, ev: seq<Event>, messages: seq<Msg>,
                  one: seq<Event>, outcome: Outcome, w: Watch)
    requires BatchDone(calls, outcomes, ev, messages) && |outcomes| < |calls|
    requires Calm(w) && Run(w, ev) == Grown(w, messages)
    requires Run(Grown(w, messages), one) == Grown(w, messages)
    requires LaneOf(one, |outcomes|) == Closed && (forall e <- one :: IsToolEvent(e) && e.pos == |outcomes|)
    requires Starts(one) == [|outcomes|]
    ensures var m := ResultMessage(calls[|outcomes|], outcome);
            var ev' := ev + one + [MessageStart(m), MessageEnd(m)];
            && BatchDone(calls, outcomes + [outcome], ev', messages + [m])
            && Run(w, ev') == Grown(w, messages + [m])
  {
    var n := |outcomes|;
    var m := ResultMessage(calls[n], outcome);
    BatchSnocRun(ev, messages, one, m, w);
    BatchSnocStarts(n, ev, one, m);
    forall i: nat
      ensures LaneOf(ev + one + [MessageStart(m), MessageEnd(m)], i) == if i <= n then Closed else Idle
    {
      BatchSnocLane(n, i, ev, one, m);
    }
    assert ResultMessages(calls, outcomes + [outcome]) == ResultMessages(calls, outcomes) + [m];
  }

  lemma BatchSnocRun(ev: seq<Event>, messages: seq<Msg>, one: seq<Event>, m: Msg, w: Watch)
    requires Calm(w) && Run(w, ev) == Grown(w, messages) && Run(Grown(w, messages), one) == Grown(w, messages)
    ensures Run(w, ev + one + [MessageStart(m), MessageEnd(m)]) == Grown(w, messages + [m])
  {
    RunAppend(w, ev, one);
    RunAppend(w, ev + one, [MessageStart(m), MessageEnd(m)]);
    RunMessage(Grown(w, messages), m);
    GrownTwice(w, messages, [m]);
  }

  lemma BatchSnocStarts(n: nat, ev: seq<Event>, one: seq<Event>, m: Msg)
    requires Starts(ev) == UpTo(n) && Starts(one) == [n]
    ensures Starts(ev + one + [MessageStart(m), MessageEnd(m)]) == UpTo(n + 1)
  {
    StartsAppend(ev, one);
    StartsAppend(ev + one, [MessageStart(m), MessageEnd(m)]);
    NoStarts([MessageStart(m), MessageEnd(m)]);
    UpToSnoc(n);
  }

  lemma BatchSnocLane(n: nat, i: nat, ev: seq<Event>, one: seq<Event>, m: Msg)
    requires LaneOf(one, n) == Closed && (forall e <- one :: IsToolEvent(e) && e.pos == n)
    requires LaneOf(ev, i) == if i < n then Closed else Idle
    ensures LaneOf(ev + one + [MessageStart(m), MessageEnd(m)], i) == if i <= n then Closed else Idle
  {
    var pair := [MessageStart(m), MessageEnd(m)];
    LaneAppend(Idle, ev, one, i);
    LaneAppend(Idle, ev + one, pair, i);
    LaneUntouched(LaneOf(ev + one, i), pair, i);
    if i != n {
      LaneUntouched(LaneOf(ev, i), one, i);
    }
  }

  lemma NothingDone(calls: seq<ToolCall>, w: Watch)
    ensures BatchDone(calls, [], [], []) && Run(w, []) == Grown(w, [])
  {
    GrownTwice(w, [], []);
  }

  method ExecuteSequential(tools: seq<Tool>, calls: seq<ToolCall>, scripts: seq<CallScript>, ghost w: Watch)
    returns (ev: seq<Event>, messages: seq<Msg>, terminate: bool)
    requires |calls| == |scripts| && Calm(w)
    ensures StopsAt(scripts, |messages|)
    ensures BatchDone(calls, Outcomes(tools, calls, scripts, |messages|), ev, messages)
    ensures terminate == Terminates(Outcomes(tools, calls, scripts, |messages|))
    ensures Run(w, ev) == Grown(w, messages)
    ensures EventsTrue(tools, calls, scripts, ev) && ResultsTrue(tools, calls, scripts, messages)
    ensures terminate <==> AllStop(tools, calls, scripts, |messages|)
  {
    hide EventTrue, EventsTrue, ResultsTrue, AllStop, CallOutcome, OfCall, Run, ComesTo, UpdatesOf, LaneOf, Starts;
    NoToolEvents(tools, calls, scripts, []);
    var finalized: seq<Outcome> := [];
    ev, messages := [], [];
    NothingDone(calls, w);
    var i := 0;
    while i < |calls|
      invariant i <= |calls| && |messages| == i
      invariant finalized == Outcomes(tools, calls, scripts, i)
      invariant forall j | 0 <= j < i :: !scripts[j].abortedAfter
      invariant BatchDone(calls, finalized, ev, messages) && Run(w, ev) == Grown(w, messages)
      invariant EventsTrue(tools, calls, scripts, ev)
    {
      var one, outcome := RunCall(tools, calls[i], scripts[i], i, Grown(w, messages));
      BatchSnoc(calls, finalized, ev, messages, one, outcome, w);
      var message := ResultMessage(calls[i], outcome);
      CallTrue(tools, calls, scripts, ev, one, i, message);
      ev := ev + one + [MessageStart(message), MessageEnd(message)];
      finalized := finalized + [outcome];
      messages := messages + [message];
      i := i + 1;
      assert finalized == Outcomes(tools, calls, scripts, i);
      if scripts[i - 1].abortedAfter {
        break;
      }
    }
    terminate := Terminates(finalized);
    ResultsAreTrue(tools, calls, scripts, |messages|);
    TerminatesIff(tools, calls, scripts, |messages|);
  }

  lemma CallTrue(tools: seq<Tool>, calls: seq<ToolCall>, scripts: seq<CallScript>, ev: seq<Event>, one: seq<Event>,
                 i: nat, m: Msg)
    requires i < |calls| == |scripts| && EventsTrue(tools, calls, scripts, ev)
    requires forall e <- one :: OfCall(tools, calls[i], scripts[i], e) && e.pos == i
    ensures EventsTrue(tools, calls, scripts, ev + one + [MessageStart(m), MessageEnd(m)])
  {
    NoToolEvents(tools, calls, scripts, [MessageStart(m), MessageEnd(m)]);
    EventsTrueAppend(tools, calls, scripts, ev, one);
    EventsTrueAppend(tools, calls, scripts, ev + one, [MessageStart(m), MessageEnd(m)]);
    hide ComesTo, MayRun;
  }

  /** Each of the first n calls, and there is one, asked for the run to stop after the batch. */
  ghost predicate AllStop(tools: seq<Tool>, calls: seq<ToolCall>, scripts: seq<CallScript>, n: nat)
    requires n <= |calls| == |scripts|
  {
    n > 0 && forall i | 0 <= i < n :: AsksToStop(tools, calls[i], scripts[i])
  }

  ghost predicate AsksToStop(tools: seq<Tool>, call: ToolCall, s: CallScript) {
    exists o :: ComesTo(tools, call, s, o) && o.result.terminate == Some(true)
  }

  lemma TerminatesIff(tools: seq<Tool>, calls: seq<ToolCall>, scripts: seq<CallScript>, n: nat)
    requires n <= |calls| == |scripts|
    ensures Terminates(Outcomes(tools, calls, scripts, n)) <==> AllStop(tools, calls, scripts, n)
  {
    var outcomes := Outcomes(tools, calls, scripts, n);
    forall i | 0 <= i < n
      ensures AsksToStop(tools, calls[i], scripts[i]) <==> outcomes[i].result.terminate == Some(true)
    {
      StopIff(tools, calls[i], scripts[i]);
    }
    hide CallOutcome, AsksToStop;
    assert forall i | 0 <= i < n :: outcomes[i] in outcomes;
  }

  lemma StopIff(tools: seq<Tool>, call: ToolCall, s: CallScript)
    ensures AsksToStop(tools, call, s) <==> CallOutcome(tools, call, s).result.terminate == Some(true)
  {
    forall o
      ensures ComesTo(tools, call, s, o) <==> o == CallOutcome(tools, call, s)
    {
      ComesToIff(tools, call, s, o);
    }
    hide ComesTo, CallOutcome;
  }

  function TruncatedOutcome(call: ToolCall): Outcome {
    Outcome(ErrorOutput(TruncatedCall(call.name)), true)
  }

  function TruncatedOutcomes(calls: seq<ToolCall>): (r: seq<Outcome>)
    ensures |r| == |calls|
  {
    seq(|calls|, i requires 0 <= i < |calls| => TruncatedOutcome(calls[i]))
  }

  /** `failToolCallsFromTruncatedMessage`: no call runs, every call gets an error result. */
  method FailTruncated(calls: seq<ToolCall>, ghost w: Watch)
      returns (ev: seq<Event>, messages: seq<Msg>, terminate: bool)
    requires Calm(w)
    ensures BatchDone(calls, TruncatedOutcomes(calls), ev, messages) && !terminate
    ensures forall e <- ev :: !e.ToolUpdate?
    ensures Run(w, ev) == Grown(w, messages)
    ensures |messages| == |calls| && forall i | 0 <= i < |calls| :: SaysTruncated(calls[i], messages[i])
  {
    ghost var finalized: seq<Outcome> := [];
    ev, messages, terminate := [], [], false;
    NothingDone(calls, w);
    for i := 0 to |calls|
      invariant finalized == TruncatedOutcomes(calls)[..i]
      invariant BatchDone(calls, finalized, ev, messages) && Run(w, ev) == Grown(w, messages)
      invariant forall e <- ev :: !e.ToolUpdate?
      invariant |messages| == i && forall j | 0 <= j < i :: SaysTruncated(calls[j], messages[j])
    {
      var outcome := TruncatedOutcome(calls[i]);
      var one := [ToolStart(i, calls[i]), ToolEnd(i, calls[i], outcome.result, outcome.isError)];
      StartThenEnd(one[0], one[1], Grown(w, messages));
      BatchSnoc(calls, finalized, ev, messages, one, outcome, w);
      var message := ResultMessage(calls[i], outcome);
      assert IsError(outcome, TruncatedCall(calls[i].name)) && Reports(calls[i], outcome, message);
      ev := ev + one + [MessageStart(message), MessageEnd(message)];
      messages := messages + [message];
      finalized := finalized + [outcome];
    }
  }

  ghost predicate SaysTruncated(call: ToolCall, m: Msg) {
    exists o :: IsError(o, TruncatedCall(call.name)) && Reports(call, o, m)
  }

  lemma StartThenEnd(start: Event, end: Event, w: Watch)
    requires Calm(w) && start.ToolStart? && end.ToolEnd? && start.pos == end.pos && start.call == end.call
    ensures var one := [start, end];
            Run(w, one) == w && LaneOf(one, start.pos) == Closed && Starts(one) == [start.pos]
  {
    assert [start, end] == [start] + [end];
    assert [start] == [] + [start];
    StartsSnoc([], start);
    StartsSnoc([start], end);
    LaneSnoc(Idle, [], start, start.pos);
    LaneSnoc(Idle, [start], end, start.pos);
    RunSnoc(w, [], start);
    RunSnoc(w, [start], end);
  }
}
