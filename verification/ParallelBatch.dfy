/** `executeToolCallsParallel` of packages/agent/src/agent-loop.ts under every schedule of tool progress. */
module ParallelBatch {
  import opened Seqs
  import opened AgentTypes
  import opened ToolCalls
  import opened ToolRules
  import opened ToolBatch

  /** A started call: finalized, executing, or waiting for its finalization. */
  datatype Slot = Done(outcome: Outcome) | Running | Settling

  /** The environment's next move once all calls are started: the tool of call i reports progress, the tool of
      call i ends (from then on late progress is ignored), or the finalization of call i completes. */
  datatype Tick = Progress(i: nat, partialResult: Data) | Settle(i: nat) | Complete(i: nat)

  /** The pending ids are all ids of calls still open, and nothing else about the watch has changed. */
  ghost predicate Flying(w: Watch, x: Watch, calls: seq<ToolCall>, slots: seq<Slot>)
    requires |slots| <= |calls|
  {
    && x == w.(state := w.state.(pendingToolCalls := x.state.pendingToolCalls))
    && forall id <- x.state.pendingToolCalls :: exists i :: OpenAs(calls, slots, i, id)
  }

  ghost predicate OpenAs(calls: seq<ToolCall>, slots: seq<Slot>, i: int, id: string)
    requires |slots| <= |calls|
  {
    0 <= i < |slots| && !slots[i].Done? && calls[i].id == id
  }

  function SlotLane(slots: seq<Slot>, i: nat): Lane {
    if i >= |slots| then Idle else if slots[i].Done? then Closed else Open
  }

  /** The first n calls were started, in order; the done ones ended. */
  ghost predicate InFlight(calls: seq<ToolCall>, slots: seq<Slot>, ev: seq<Event>, w: Watch) {
    && |slots| <= |calls|
    && Starts(ev) == UpTo(|slots|)
    && (forall e <- ev :: IsToolEvent(e))
    && (forall i: nat :: LaneOf(ev, i) == SlotLane(slots, i))
    && Flying(w, Run(w, ev), calls, slots)
  }

  /** Slots agree with what the calls come to. */
  ghost predicate Faithful(tools: seq<Tool>, calls: seq<ToolCall>, scripts: seq<CallScript>, slots: seq<Slot>) {
    && |slots| <= |calls| == |scripts|
    && forall i | 0 <= i < |slots| ::
         if slots[i].Done? then slots[i].outcome == CallOutcome(tools, calls[i], scripts[i])
         else Prepare(tools, calls[i], scripts[i]) == None
  }

  lemma Launch(calls: seq<ToolCall>, slots: seq<Slot>, ev: seq<Event>, w: Watch)
    requires Calm(w) && InFlight(calls, slots, ev, w) && |slots| < |calls|
    ensures InFlight(calls, slots + [Running], ev + [ToolStart(|slots|, calls[|slots|])], w)
  {
    var n := |slots|;
    var e := ToolStart(n, calls[n]);
    RunSnoc(w, ev, e);
    StartsSnoc(ev, e);
    UpToSnoc(n);
    forall i: nat
      ensures LaneOf(ev + [e], i) == SlotLane(slots + [Running], i)
    {
      LaneSnoc(Idle, ev, e, i);
      assert LaneOf(ev, i) == SlotLane(slots, i);
    }
    var x, y := Run(w, ev), Run(w, ev + [e]);
    forall id | id in y.state.pendingToolCalls
      ensures exists i :: OpenAs(calls, slots + [Running], i, id)
    {
      if id == calls[n].id {
        assert OpenAs(calls, slots + [Running], n, id);
      } else {
        var i :| OpenAs(calls, slots, i, id);
        assert OpenAs(calls, slots + [Running], i, id);
      }
    }
  }

  lemma Report(calls: seq<ToolCall>, slots: seq<Slot>, ev: seq<Event>, w: Watch, i: nat, partialResult: Data)
    requires Calm(w) && InFlight(calls, slots, ev, w) && i < |slots| && slots[i] == Running
    ensures InFlight(calls, slots, ev + [ToolUpdate(i, calls[i], partialResult)], w)
  {
    var e := ToolUpdate(i, calls[i], partialResult);
    RunSnoc(w, ev, e);
    StartsSnoc(ev, e);
    forall j: nat
      ensures LaneOf(ev + [e], j) == SlotLane(slots, j)
    {
      LaneSnoc(Idle, ev, e, j);
      assert LaneOf(ev, j) == SlotLane(slots, j);
    }
  }

  lemma Settled(calls: seq<ToolCall>, slots: seq<Slot>, ev: seq<Event>, w: Watch, i: nat)
    requires InFlight(calls, slots, ev, w) && i < |slots| && slots[i] == Running
    ensures InFlight(calls, slots[i := Settling], ev, w)
  {
    var slots' := slots[i := Settling];
    forall j: nat
      ensures LaneOf(ev, j) == SlotLane(slots', j)
    {
      assert LaneOf(ev, j) == SlotLane(slots, j);
    }
    forall id | id in Run(w, ev).state.pendingToolCalls
      ensures exists k :: OpenAs(calls, slots', k, id)
    {
      var k :| OpenAs(calls, slots, k, id);
      assert OpenAs(calls, slots', k, id);
    }
  }

  lemma Land(calls: seq<ToolCall>, slots: seq<Slot>, ev: seq<Event>, w: Watch, i: nat, o: Outcome)
    requires Calm(w) && InFlight(calls, slots, ev, w) && i < |slots| && !slots[i].Done?
    ensures InFlight(calls, slots[i := Done(o)], ev + [ToolEnd(i, calls[i], o.result, o.isError)], w)
  {
    var e := ToolEnd(i, calls[i], o.result, o.isError);
    var slots' := slots[i := Done(o)];
    RunSnoc(w, ev, e);
    StartsSnoc(ev, e);
    forall j: nat
      ensures LaneOf(ev + [e], j) == SlotLane(slots', j)
    {
      LaneSnoc(Idle, ev, e, j);
      assert LaneOf(ev, j) == SlotLane(slots, j);
    }
    forall id | id in Run(w, ev + [e]).state.pendingToolCalls
      ensures exists k :: OpenAs(calls, slots', k, id)
    {
      var k :| OpenAs(calls, slots, k, id);
      assert OpenAs(calls, slots', k, id);
    }
  }

  predicate AllDone(slots: seq<Slot>) {
    forall s <- slots :: s.Done?
  }

  /** Once every call has ended, no tool call is pending: the watch is back where it was. */
  lemma AllLanded(calls: seq<ToolCall>, slots: seq<Slot>, ev: seq<Event>, w: Watch)
    requires Calm(w) && InFlight(calls, slots, ev, w) && AllDone(slots)
    ensures Run(w, ev) == w
  {
    forall i | 0 <= i < |slots|
      ensures slots[i].Done?
    {
      assert slots[i] in slots;
    }
    assert forall i, id :: !OpenAs(calls, slots, i, id);
    assert Run(w, ev).state.pendingToolCalls == {};
  }

  lemma NothingStarted(calls: seq<ToolCall>, w: Watch)
    requires Calm(w)
    ensures InFlight(calls, [], [], w)
  {
    forall i: nat
      ensures LaneOf([], i) == Idle
    {
      NothingYet(w, i);
    }
    assert UpTo(0) == [];
  }

  lemma PreparedOutcome(tools: seq<Tool>, call: ToolCall, s: CallScript)
    ensures match Prepare(tools, call, s)
      case Some(output) => CallOutcome(tools, call, s) == Outcome(output, true)
      case None => CallOutcome(tools, call, s) == Finish(s)
  {
  }

  lemma StartTrue(tools: seq<Tool>, calls: seq<ToolCall>, scripts: seq<CallScript>, ev: seq<Event>, i: nat)
    requires i < |calls| == |scripts| && EventsTrue(tools, calls, scripts, ev)
    ensures EventsTrue(tools, calls, scripts, ev + [ToolStart(i, calls[i])])
  {
    assert EventTrue(tools, calls, scripts, ToolStart(i, calls[i]));
    EventsTrueAppend(tools, calls, scripts, ev, [ToolStart(i, calls[i])]);
    hide EventTrue;
  }

  lemma UpdateTrue(tools: seq<Tool>, calls: seq<ToolCall>, scripts: seq<CallScript>, ev: seq<Event>, i: nat, p: Data)
    requires i < |calls| == |scripts| && EventsTrue(tools, calls, scripts, ev) && MayRun(tools, calls[i], scripts[i])
    ensures EventsTrue(tools, calls, scripts, ev + [ToolUpdate(i, calls[i], p)])
  {
    assert EventTrue(tools, calls, scripts, ToolUpdate(i, calls[i], p));
    EventsTrueAppend(tools, calls, scripts, ev, [ToolUpdate(i, calls[i], p)]);
    hide EventTrue;
  }

  lemma EndTrue(tools: seq<Tool>, calls: seq<ToolCall>, scripts: seq<CallScript>, ev: seq<Event>, i: nat, o: Outcome)
    requires i < |calls| == |scripts| && EventsTrue(tools, calls, scripts, ev)
    requires o == CallOutcome(tools, calls[i], scripts[i])
    ensures EventsTrue(tools, calls, scripts, ev + [ToolEnd(i, calls[i], o.result, o.isError)])
  {
    ComesToIff(tools, calls[i], scripts[i], o);
    assert EventTrue(tools, calls, scripts, ToolEnd(i, calls[i], o.result, o.isError));
    EventsTrueAppend(tools, calls, scripts, ev, [ToolEnd(i, calls[i], o.result, o.isError)]);
    hide EventTrue, CallOutcome;
  }

  /** The first loop: starts and preparations in source order. */
  method StartAll(tools: seq<Tool>, calls: seq<ToolCall>, scripts: seq<CallScript>, ghost w: Watch)
    returns (ev: seq<Event>, slots: seq<Slot>)
    requires |calls| == |scripts| && Calm(w)
    ensures InFlight(calls, slots, ev, w) && Faithful(tools, calls, scripts, slots) && StopsAt(scripts, |slots|)
    ensures Settling !in slots
    ensures forall j | 0 <= j < |slots| :: slots[j].Done? <==> !MayRun(tools, calls[j], scripts[j])
    ensures EventsTrue(tools, calls, scripts, ev) && forall e <- ev :: !e.ToolUpdate?
  {
    hide EventsTrue, InFlight, MayRun, Prepare, CallOutcome;
    NoToolEvents(tools, calls, scripts, []);
    NothingStarted(calls, w);
    ev, slots := [], [];
    var i := 0;
    while i < |calls|
      invariant i == |slots| <= |calls|
      invariant forall j | 0 <= j < i :: slots[j].Done? <==> !MayRun(tools, calls[j], scripts[j])
      invariant InFlight(calls, slots, ev, w) && Faithful(tools, calls, scripts, slots) && Settling !in slots
      invariant EventsTrue(tools, calls, scripts, ev) && forall e <- ev :: !e.ToolUpdate?
      invariant forall j | 0 <= j < i :: !scripts[j].abortedAfter
    {
      Launch(calls, slots, ev, w);
      StartTrue(tools, calls, scripts, ev, i);
      ev := ev + [ToolStart(i, calls[i])];
      slots := slots + [Running];
      var preparation := Prepare(tools, calls[i], scripts[i]);
      PreparedIff(tools, calls[i], scripts[i]);
      if preparation.Some? {
        var outcome := Outcome(preparation.value, true);
        assert outcome == CallOutcome(tools, calls[i], scripts[i]) by {
          PreparedOutcome(tools, calls[i], scripts[i]);
        }
        EndTrue(tools, calls, scripts, ev, i, outcome);
        Land(calls, slots, ev, w, i, outcome);
        ev := ev + [ToolEnd(i, calls[i], outcome.result, outcome.isError)];
        slots := slots[i := Done(outcome)];
      }
      i := i + 1;
      if scripts[i - 1].abortedAfter {
        break;
      }
    }
  }

  /** How far the schedule takes call i: still running, settling, or complete. */
  datatype Reach = Starting | Ending | Ended

  function Reached(schedule: seq<Tick>, i: nat): Reach {
    if schedule == [] then Starting
    else
      var before, last := Reached(schedule[..|schedule| - 1], i), schedule[|schedule| - 1];
      if last == Settle(i) && before == Starting then Ending
      else if last == Complete(i) && before == Ending then Ended
      else before
  }

  /** The progress the tool of call i reports before it ends. */
  ghost function Reported(schedule: seq<Tick>, i: nat): seq<Data> {
    if schedule == [] then []
    else
      var past, last := schedule[..|schedule| - 1], schedule[|schedule| - 1];
      Reported(past, i)
      + (if last.Progress? && last.i == i && !SettlesIn(past, i) then [last.partialResult] else [])
  }

  function NextReach(r: Reach, tick: Tick, i: nat): Reach {
    if tick == Settle(i) && r == Starting then Ending else if tick == Complete(i) && r == Ending then Ended else r
  }

  function ReportedNow(r: Reach, tick: Tick, i: nat): seq<Data> {
    if tick.Progress? && tick.i == i && r == Starting then [tick.partialResult] else []
  }

  lemma ReachSnoc(schedule: seq<Tick>, tick: Tick, i: nat)
    ensures Reached(schedule + [tick], i) == NextReach(Reached(schedule, i), tick, i)
    ensures Reported(schedule + [tick], i) == Reported(schedule, i) + ReportedNow(Reached(schedule, i), tick, i)
  {
    assert (schedule + [tick])[..|schedule|] == schedule;
    ReachedMeans(schedule, i);
    hide SettlesIn, Lands;
  }

  lemma ReportedNothing()
    ensures forall i: nat :: Reported([], i) == [] && Reached([], i) == Starting
  {
  }

  ghost predicate SettlesIn(schedule: seq<Tick>, i: nat) {
    exists a :: 0 <= a < |schedule| && schedule[a] == Settle(i)
  }

  /** The tool of call i ends in this schedule, and after that its finalization completes. */
  ghost predicate Lands(schedule: seq<Tick>, i: nat) {
    exists b :: 0 <= b < |schedule| && schedule[b] == Complete(i) && SettlesIn(schedule[..b], i)
  }

  lemma {:induction false} ReachedMeans(schedule: seq<Tick>, i: nat)
    ensures Reached(schedule, i) != Starting <==> SettlesIn(schedule, i)
    ensures Reached(schedule, i) == Ended <==> Lands(schedule, i)
  {
    if schedule != [] {
      var n := |schedule| - 1;
      ReachedMeans(schedule[..n], i);
      if SettlesIn(schedule[..n], i) {
        var a :| 0 <= a < n && schedule[..n][a] == Settle(i);
        assert schedule[a] == Settle(i);
      }
      if SettlesIn(schedule, i) && schedule[n] != Settle(i) {
        var a :| 0 <= a < |schedule| && schedule[a] == Settle(i);
        assert schedule[..n][a] == Settle(i);
      }
      LandsSnoc(schedule, i);
    }
  }

  lemma LandsSnoc(schedule: seq<Tick>, i: nat)
    requires schedule != []
    ensures var n := |schedule| - 1;
      Lands(schedule, i) <==> Lands(schedule[..n], i) || (schedule[n] == Complete(i) && SettlesIn(schedule[..n], i))
  {
    var n := |schedule| - 1;
    if Lands(schedule[..n], i) {
      var b :| 0 <= b < n && schedule[..n][b] == Complete(i) && SettlesIn(schedule[..n][..b], i);
      assert schedule[..n][..b] == schedule[..b] && schedule[b] == Complete(i);
    }
    if Lands(schedule, i) {
      var b :| 0 <= b < |schedule| && schedule[b] == Complete(i) && SettlesIn(schedule[..b], i);
      if b < n {
        assert schedule[..n][..b] == schedule[..b] && schedule[..n][b] == Complete(i);
      }
    }
  }

  /** Every call of the first n that could be prepared is run to its end by the schedule. */
  ghost predicate AllLand(tools: seq<Tool>, calls: seq<ToolCall>, scripts: seq<CallScript>, schedule: seq<Tick>,
      n: nat) {
    && n <= |calls| == |scripts|
    && forall i: nat | i < n :: MayRun(tools, calls[i], scripts[i]) ==> Lands(schedule, i)
  }

  lemma StopIsUnique(scripts: seq<CallScript>, n: nat, m: nat)
    requires StopsAt(scripts, n) && StopsAt(scripts, m)
    ensures n == m
  {
  }

  /** A slot after the schedule so far. */
  predicate Tracks(launched: Slot, slot: Slot, r: Reach) {
    if launched.Done? then slot == launched
    else match r case Starting => slot == Running case Ending => slot == Settling case Ended => slot.Done?
  }

  /** The tools run at once: the events of the prepared calls interleave as the schedule says. */
  method RunSchedule(tools: seq<Tool>, calls: seq<ToolCall>, scripts: seq<CallScript>, schedule: seq<Tick>,
                     started: seq<Event>, launched: seq<Slot>, ghost w: Watch)
    returns (ev: seq<Event>, slots: seq<Slot>)
    requires Calm(w) && InFlight(calls, launched, started, w) && Faithful(tools, calls, scripts, launched)
    requires Settling !in launched
    requires EventsTrue(tools, calls, scripts, started) && forall e <- started :: !e.ToolUpdate?
    ensures InFlight(calls, slots, ev, w) && Faithful(tools, calls, scripts, slots) && |slots| == |launched|
    ensures forall i | 0 <= i < |slots| :: Tracks(launched[i], slots[i], Reached(schedule, i))
    ensures EventsTrue(tools, calls, scripts, ev)
    ensures forall i | 0 <= i < |slots| :: UpdatesOf(ev, i) == if launched[i].Done? then [] else Reported(schedule, i)
  {
    hide InFlight, EventsTrue, MayRun, Prepare, CallOutcome, UpdatesOf, Reported, Reached;
    forall i | 0 <= i < |launched|
      ensures UpdatesOf(started, i) == []
    {
      NoUpdates(started, i);
    }
    ReportedNothing();
    ev, slots := started, launched;
    for t := 0 to |schedule|
      invariant |slots| == |launched|
      invariant InFlight(calls, slots, ev, w) && Faithful(tools, calls, scripts, slots)
      invariant forall i | 0 <= i < |slots| :: Tracks(launched[i], slots[i], Reached(schedule[..t], i))
      invariant EventsTrue(tools, calls, scripts, ev)
      invariant forall i | 0 <= i < |slots| ::
          UpdatesOf(ev, i) == if launched[i].Done? then [] else Reported(schedule[..t], i)
    {
      assert schedule[..t + 1] == schedule[..t] + [schedule[t]];
      forall j | 0 <= j < |slots|
        ensures Reached(schedule[..t + 1], j) == NextReach(Reached(schedule[..t], j), schedule[t], j)
        ensures Reported(schedule[..t + 1], j)
             == Reported(schedule[..t], j) + ReportedNow(Reached(schedule[..t], j), schedule[t], j)
      {
        ReachSnoc(schedule[..t], schedule[t], j);
      }
      ev, slots := PlayTick(tools, calls, scripts, schedule[t], ev, slots, w);
    }
    assert schedule[..|schedule|] == schedule;
  }

  /** One move of the environment. */
  method PlayTick(tools: seq<Tool>, calls: seq<ToolCall>, scripts: seq<CallScript>, tick: Tick, ev0: seq<Event>,
                  slots0: seq<Slot>, ghost w: Watch)
    returns (ev: seq<Event>, slots: seq<Slot>)
    requires Calm(w) && InFlight(calls, slots0, ev0, w) && Faithful(tools, calls, scripts, slots0)
    requires EventsTrue(tools, calls, scripts, ev0)
    ensures InFlight(calls, slots, ev, w) && Faithful(tools, calls, scripts, slots) && |slots| == |slots0|
    ensures EventsTrue(tools, calls, scripts, ev)
    ensures forall i, launched, r | 0 <= i < |slots| && Tracks(launched, slots0[i], r) ::
      Tracks(launched, slots[i], NextReach(r, tick, i))
    ensures forall i | 0 <= i < |slots| ::
      UpdatesOf(ev, i)
      == UpdatesOf(ev0, i) + (if slots0[i] == Running then ReportedNow(Starting, tick, i) else [])
  {
    hide InFlight, EventsTrue, MayRun, Prepare, CallOutcome, UpdatesOf;
    ev, slots := ev0, slots0;
    var i := tick.i;
    if i < |slots| {
      if tick.Progress? && slots[i] == Running {
        Report(calls, slots, ev, w, i, tick.partialResult);
        PreparedIff(tools, calls[i], scripts[i]);
        UpdateTrue(tools, calls, scripts, ev, i, tick.partialResult);
        ev := ev + [ToolUpdate(i, calls[i], tick.partialResult)];
      } else if tick.Settle? && slots[i] == Running {
        Settled(calls, slots, ev, w, i);
        slots := slots[i := Settling];
      } else if tick.Complete? && slots[i] == Settling {
        var outcome := Finish(scripts[i]);
        PreparedOutcome(tools, calls[i], scripts[i]);
        EndTrue(tools, calls, scripts, ev, i, outcome);
        Land(calls, slots, ev, w, i, outcome);
        ev := ev + [ToolEnd(i, calls[i], outcome.result, outcome.isError)];
        slots := slots[i := Done(outcome)];
      }
    }
    forall j | 0 <= j < |slots|
      ensures UpdatesOf(ev, j)
           == UpdatesOf(ev0, j) + (if slots0[j] == Running then ReportedNow(Starting, tick, j) else [])
    {
      if ev != ev0 {
        UpdatesSnoc(ev0, ev[|ev0|], j);
      }
    }
  }

  function OutcomesOf(slots: seq<Slot>): (r: seq<Outcome>)
    requires AllDone(slots)
    ensures |r| == |slots|
  {
    seq(|slots|, i requires 0 <= i < |slots| => assert slots[i] in slots; slots[i].outcome)
  }

  /** The loop that emits the result messages. */
  method EmitResults(calls: seq<ToolCall>, finalized: seq<Outcome>) returns (messages: seq<Msg>, published: seq<Event>)
    requires |finalized| <= |calls|
    ensures messages == ResultMessages(calls, finalized) && published == MessageEvents(messages)
  {
    messages, published := [], [];
    for i := 0 to |finalized|
      invariant messages == ResultMessages(calls, finalized)[..i]
      invariant published == MessageEvents(messages)
    {
      var message := ResultMessage(calls[i], finalized[i]);
      assert (messages + [message])[..|messages|] == messages;
      published := published + [MessageStart(message), MessageEnd(message)];
      messages := messages + [message];
    }
  }

  lemma DoneIffLands(tools: seq<Tool>, calls: seq<ToolCall>, scripts: seq<CallScript>, schedule: seq<Tick>,
      launched: seq<Slot>, slots: seq<Slot>)
    requires Faithful(tools, calls, scripts, slots) && |slots| == |launched|
    requires forall i | 0 <= i < |slots| :: Tracks(launched[i], slots[i], Reached(schedule, i))
    requires forall i | 0 <= i < |slots| :: launched[i].Done? <==> !MayRun(tools, calls[i], scripts[i])
    ensures AllDone(slots) <==> AllLand(tools, calls, scripts, schedule, |slots|)
  {
    forall i: nat | i < |slots|
      ensures slots[i].Done? <==> (MayRun(tools, calls[i], scripts[i]) ==> Lands(schedule, i))
    {
      ReachedMeans(schedule, i);
      assert Tracks(launched[i], slots[i], Reached(schedule, i));
    }
    if AllDone(slots) {
      forall i: nat | i < |slots|
        ensures slots[i].Done?
      {
        assert slots[i] in slots;
      }
    }
    hide Lands, Reached, MayRun;
  }

  /** `complete` is false when the schedule ends before the last tool does: the batch is then still running. */
  method ExecuteParallel(tools: seq<Tool>, calls: seq<ToolCall>, scripts: seq<CallScript>, schedule: seq<Tick>,
      ghost w: Watch)
    returns (ev: seq<Event>, messages: seq<Msg>, terminate: bool, complete: bool)
    requires |calls| == |scripts| && Calm(w)
    ensures complete ==>
              && StopsAt(scripts, |messages|)
              && BatchDone(calls, Outcomes(tools, calls, scripts, |messages|), ev, messages)
              && terminate == Terminates(Outcomes(tools, calls, scripts, |messages|))
              && Run(w, ev) == Grown(w, messages)
    ensures complete ==>
              exists tooling :: ev == tooling + MessageEvents(messages) && forall e <- tooling :: IsToolEvent(e)
    ensures !complete ==> messages == [] && exists slots :: InFlight(calls, slots, ev, w)
    ensures forall n | StopsAt(scripts, n) :: complete <==> AllLand(tools, calls, scripts, schedule, n)
    ensures EventsTrue(tools, calls, scripts, ev)
    ensures complete ==>
      ResultsTrue(tools, calls, scripts, messages) && (terminate <==> AllStop(tools, calls, scripts, |messages|))
    ensures complete ==> forall i | 0 <= i < |messages| ::
      UpdatesOf(ev, i) == if MayRun(tools, calls[i], scripts[i]) then Reported(schedule, i) else []
  {
    hide Run, BatchDone, LaneOf, Starts, Calm, EventsTrue, ResultsTrue, MayRun, UpdatesOf, Reported, AllStop,
      CallOutcome;
    var started, launched := StartAll(tools, calls, scripts, w);
    var tooling, slots := RunSchedule(tools, calls, scripts, schedule, started, launched, w);
    DoneIffLands(tools, calls, scripts, schedule, launched, slots);
    forall n | StopsAt(scripts, n)
      ensures n == |slots|
    {
      StopIsUnique(scripts, n, |slots|);
    }
    hide AllLand, StopsAt;
    if !AllDone(slots) {
      return tooling, [], false, false;
    }
    AllLanded(calls, slots, tooling, w);
    var finalized := OutcomesOf(slots);
    assert finalized == Outcomes(tools, calls, scripts, |slots|) by {
      forall i | 0 <= i < |slots|
        ensures finalized[i] == CallOutcome(tools, calls[i], scripts[i])
      {
        assert slots[i] in slots;
      }
    }
    var published;
    messages, published := EmitResults(calls, finalized);
    ev := tooling + published;
    terminate := Terminates(finalized);
    complete := true;
    Publish(calls, slots, finalized, tooling, messages, w);
    MessageEventsPlain(messages);
    NoToolEvents(tools, calls, scripts, published);
    EventsTrueAppend(tools, calls, scripts, tooling, published);
    ResultsAreTrue(tools, calls, scripts, |messages|);
    TerminatesIff(tools, calls, scripts, |messages|);
    forall i | 0 <= i < |messages|
      ensures UpdatesOf(ev, i) == UpdatesOf(tooling, i)
    {
      UpdatesAppend(tooling, published, i);
      NoUpdates(published, i);
    }
  }

  /** The result messages come after all tool events and do not disturb them. */
  lemma Publish(calls: seq<ToolCall>, slots: seq<Slot>, finalized: seq<Outcome>, tooling: seq<Event>,
      messages: seq<Msg>, w: Watch)
    requires Calm(w) && InFlight(calls, slots, tooling, w) && AllDone(slots) && |finalized| == |slots|
    requires Run(w, tooling) == w && messages == ResultMessages(calls, finalized)
    ensures BatchDone(calls, finalized, tooling + MessageEvents(messages), messages)
    ensures Run(w, tooling + MessageEvents(messages)) == Grown(w, messages)
  {
    var published := MessageEvents(messages);
    MessageEventsPlain(messages);
    RunAppend(w, tooling, published);
    RunMessages(w, messages);
    StartsAppend(tooling, published);
    NoStarts(published);
    forall i: nat
      ensures LaneOf(tooling + published, i) == if i < |finalized| then Closed else Idle
    {
      LaneAppend(Idle, tooling, published, i);
      LaneUntouched(LaneOf(tooling, i), published, i);
      assert LaneOf(tooling, i) == SlotLane(slots, i);
      assert i < |slots| ==> slots[i] in slots;
    }
  }

  /** Parallel execution refines sequential execution: whatever the schedule, a batch that was not aborted
      returns the messages and the terminate flag of the sequential executor. */
  method CompareExecutors(tools: seq<Tool>, calls: seq<ToolCall>, scripts: seq<CallScript>, schedule: seq<Tick>,
      ghost w: Watch)
    returns (sequential: seq<Msg>, parallel: seq<Msg>, stopSequential: bool, stopParallel: bool, complete: bool)
    requires |calls| == |scripts| && Calm(w)
    requires forall s <- scripts :: !s.abortedAfter
    ensures complete ==> parallel == sequential && stopParallel == stopSequential
    ensures complete <==> AllLand(tools, calls, scripts, schedule, |calls|)
    ensures |sequential| == |calls|
  {
    assert StopsAt(scripts, |calls|) by {
      assert forall i | 0 <= i < |scripts| :: scripts[i] in scripts;
    }
    var evs, evp;
    evs, sequential, stopSequential := ExecuteSequential(tools, calls, scripts, w);
    evp, parallel, stopParallel, complete := ExecuteParallel(tools, calls, scripts, schedule, w);
    assert |sequential| > 0 ==> scripts[|sequential| - 1] in scripts;
    assert |parallel| > 0 ==> scripts[|parallel| - 1] in scripts;
  }
}
