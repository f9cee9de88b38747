/** The stateful wrapper of packages/agent/src/agent.ts around the loop. */
module Agents {
  import opened Seqs
  import opened AgentTypes
  import opened ToolCalls
  import opened MessageQueue
  import opened Transcript
  import opened AgentTurn
  import opened LoopCourse
  import opened AgentLoop
  import opened AgentHistory

  datatype AgentError = AlreadyProcessing | NoMessages | CannotContinueFromAssistant

  /** A run seen from its start. */
  function FreshWatch(s: AgentState): Watch {
    Watch(Fresh, s, true)
  }

  ghost predicate AtRest(s: AgentState) {
    s.pendingToolCalls == {} && s.streamingMessage == None
  }

  lemma Opening(s: AgentState, script: seq<TurnScript>, prompts: seq<Msg>)
    requires AtRest(s)
    ensures Good(FreshWatch(s), s.messages, script, 0, InTurn, [AgentStart, TurnStart] + MessageEvents(prompts),
        Tag(prompts, Prompt))
  {
    var w := FreshWatch(s);
    var opening := [AgentStart, TurnStart];
    assert opening[..1] == [AgentStart] && [AgentStart][..0] == [];
    assert Run(w, opening[..1]) == Observe(w, AgentStart);
    assert Run(w, opening) == w.(phase := InTurn);
    assert s.messages + Untag([]) == s.messages;
    assert Good(w, s.messages, script, 0, InTurn, opening, []);
    Inject(w, s.messages, script, 0, opening, [], prompts, Prompt);
    assert [] + Tag(prompts, Prompt) == Tag(prompts, Prompt);
  }

  /** `runAgentLoop` when `prompts` are given; `runAgentLoopContinue` is the same run without prompts. */
  method RunAgentLoop(prompts: seq<Msg>, context: Context, mode: ExecutionMode, script: seq<TurnScript>,
                      firstOps: seq<QueueOp>, skipFirstPoll: bool, steering: Queue, followUp: Queue,
                       ghost s: AgentState)
    returns (r: LoopResult)
    requires (forall t <- script :: WellFormed(t)) && AtRest(s) && Valid(steering) && Valid(followUp)
    ensures r.finished ==> Ended(r, FreshWatch(s), s.messages, script)
    ensures !r.finished ==> GoesOn(r, FreshWatch(s), s.messages, script)
    ensures QueuesAccounted(r, steering, followUp, firstOps, script)
    ensures RunKeeps(r, steering, followUp, firstOps, script)
    ensures OnCourse(Setup(context.tools, mode, script, steering, followUp, firstOps, skipFirstPoll),
                     Tag(prompts, Prompt), r)
    ensures r.turns <= |script| && Tag(prompts, Prompt) <= r.entries
    ensures Clean(script, r.turns) && KeptContext(script, r.turns) ==>
      r.context.messages == context.messages + Untag(r.entries)
  {
    hide Run, Good, GoodInside, Clean, KeptContext, Tag, Untag, PayAll, Conserved, OnCourse, WellFormed, MessageEvents;
    var announced := Announce(prompts);
    var r0 := LoopResult([AgentStart, TurnStart] + announced, Tag(prompts, Prompt),
                         context.(messages := context.messages + prompts), 0, false, steering, followUp, [], [], [],
                         Steering);
    Opening(s, script, prompts);
    UntagTagged(prompts, Prompt);
    PayTagged(Settled, prompts, Prompt, script);
    FromTagged(prompts, Prompt, Steering);
    FromTagged(prompts, Prompt, FollowUp);
    assert PaidUp(Settled, script);
    r := RunLoop(r0, FreshWatch(s), s.messages, context.messages, script, mode, firstOps, skipFirstPoll);
    RunConserves(r, steering, followUp, firstOps, script);
  }

  /** What the run did to the queues, in words: nothing given was lost, and what was injected is in the transcript, in
      order, or about to be. */
  ghost predicate RunKeeps(r: LoopResult, steering: Queue, followUp: Queue, firstOps: seq<QueueOp>,
                           script: seq<TurnScript>) {
    && r.turns <= |script| && Valid(r.steering) && Valid(r.followUp)
    && Conserved(steering, r.steering, Enqueued(firstOps + SteeringOps(script, r.turns)), InjectedBy(r, Steering))
    && Conserved(followUp, r.followUp, Enqueued(FollowUpOps(script, r.turns)), InjectedBy(r, FollowUp))
  }

  /** A queue that was drained for prompts just before the run. */
  lemma TakenThenRun(q: Queue, q': Queue, log: seq<QueueEvent>, ops: seq<QueueOp>, r: LoopResult, own: Origin)
    requires Valid(q) && Accounted(AfterDrain(q), q', log, ops, r.entries, own, r.pending, r.origin)
    ensures Conserved(q, q', Enqueued(ops), Drained(q) + InjectedBy(r, own))
  {
    hide Conserved;
    Conservation(q, [Polled] + log);
    ReplayAppend(q, [Polled], log);
    ReplayPoll(q, []);
    assert [] + [Polled] == [Polled];
    assert Replay(q, []) == q && PolledBy(q, []) == [] && GivenBy([]) == [];
    hide Replay, PolledBy, GivenBy, Enqueued, AfterDrain, Drained, From;
    assert [] + Drained(q) == Drained(q) && [] + GivenBy(log) == GivenBy(log);
  }

  lemma SteeringTaken(q: Queue, followUp: Queue, firstOps: seq<QueueOp>, script: seq<TurnScript>, r: LoopResult)
    requires Valid(q) && QueuesAccounted(r, AfterDrain(q), followUp, firstOps, script)
    ensures Conserved(q, r.steering, Enqueued(firstOps + SteeringOps(script, r.turns)),
                      Drained(q) + InjectedBy(r, Steering))
  {
    hide Conserved, Accounted, Enqueued, SteeringOps, FollowUpOps, AfterDrain, Drained;
    TakenThenRun(q, r.steering, r.steeringLog, firstOps + SteeringOps(script, r.turns), r, Steering);
  }

  lemma FollowUpTaken(q: Queue, steering: Queue, firstOps: seq<QueueOp>, script: seq<TurnScript>, r: LoopResult)
    requires Valid(q) && QueuesAccounted(r, steering, AfterDrain(q), firstOps, script)
    ensures Conserved(q, r.followUp, Enqueued(FollowUpOps(script, r.turns)), Drained(q) + InjectedBy(r, FollowUp))
  {
    hide Conserved, Accounted, Enqueued, SteeringOps, FollowUpOps, AfterDrain, Drained;
    TakenThenRun(q, r.followUp, r.followUpLog, FollowUpOps(script, r.turns), r, FollowUp);
  }

  lemma EmptyDrain(q: Queue)
    requires Valid(q)
    ensures Valid(AfterDrain(q))
    ensures Drained(q) == [] <==> q.messages == []
    ensures Drained(q) == [] ==> q.messages == [] && AfterDrain(q) == q
  {
    DrainConserves(q);
    if Drained(q) == [] {
      assert AfterDrain(q).history == q.history;
    }
  }

  lemma NothingTaken(a: seq<Msg>)
    ensures [] + a == a
  {
  }

  /** A finished run reports its messages three times over, and alike: as message_end payloads, in agent_end,
      and as what the reducer appended to the transcript. */
  lemma RunReports(r: LoopResult, s: AgentState, script: seq<TurnScript>)
    requires Ended(r, FreshWatch(s), s.messages, script)
    ensures EndedMessages(r.trace) == Untag(r.entries)
    ensures r.trace[|r.trace| - 1] == AgentEnd(EndedMessages(r.trace))
    ensures Run(FreshWatch(s), r.trace).state.messages == s.messages + EndedMessages(r.trace)
    ensures Run(FreshWatch(s), r.trace).phase == (if Clean(script, r.turns) then Finished else Broken)
    ensures forall k | 0 <= k < |r.trace| && r.trace[k].TurnEnd? ::
      Run(FreshWatch(s), r.trace[..k]).state.pendingToolCalls == {}
  {
    TranscriptIsEndedMessages(FreshWatch(s), r.trace);
    assert (s.messages + EndedMessages(r.trace))[|s.messages|..] == EndedMessages(r.trace);
    assert (s.messages + Untag(r.entries))[|s.messages|..] == Untag(r.entries);
    forall k | 0 <= k < |r.trace| && r.trace[k].TurnEnd?
      ensures Run(FreshWatch(s), r.trace[..k]).state.pendingToolCalls == {}
    {
      QuietTurns(FreshWatch(s), r.trace, k);
    }
  }

  /** The run as seen from the agent's state when it began. */
  ghost predicate RunsFrom(r: LoopResult, s: AgentState, script: seq<TurnScript>) {
    var w := FreshWatch(s.(streamingMessage := None, errorMessage := ""));
    if r.finished then Ended(r, w, s.messages, script) else GoesOn(r, w, s.messages, script)
  }

  lemma Joins(q: Queue, message: Msg)
    requires Valid(q)
    ensures var q' := ApplyOp(q, Enqueue(message)); Valid(q') && Conserved(q, q', [message], [])
  {
    hide Conserved;
    OpConserves(q, Enqueue(message));
    ReplayPerformed(q, [Enqueue(message)]);
    Conservation(q, Performed([Enqueue(message)]));
    assert [Enqueue(message)][..0] == [];
    assert Apply(q, []) == q && Apply(q, [Enqueue(message)]) == ApplyOp(q, Enqueue(message));
    assert Enqueued([Enqueue(message)]) == [] + [message] == [message];
    hide ApplyOp;
  }

  /** An operation that gives nothing injects nothing. */
  lemma Leaves(q: Queue, op: QueueOp)
    requires Valid(q) && !op.Enqueue?
    ensures var q' := ApplyOp(q, op); Valid(q') && Conserved(q, q', [], []) && (op.Clear? ==> q'.messages == [])
  {
    hide Conserved;
    OpConserves(q, op);
    ReplayPerformed(q, [op]);
    Conservation(q, Performed([op]));
    assert [op][..0] == [];
    assert Apply(q, []) == q && Apply(q, [op]) == ApplyOp(q, op);
    assert Enqueued([op]) == [];
  }

  /** A call that touches the queues only. */
  lemma QueueMoves(v: View, v': View, m: Move)
    requires v' == v.(steering := v'.steering, followUp := v'.followUp)
    requires m == STILL.(steered := m.steered, followed := m.followed)
    requires Conserved(v.steering, v'.steering, m.steered, []) && Conserved(v.followUp, v'.followUp, m.followed, [])
    ensures Moves(v, v', m)
  {
    hide Conserved;
    assert InjectedIn(m, Steering) == [] && InjectedIn(m, FollowUp) == [];
    assert v.transcript + Untag([]) == v.transcript;
  }

  lemma PromptMoves(v: View, v': View, prompts: seq<Msg>, script: seq<TurnScript>, firstOps: seq<QueueOp>,
                    r: LoopResult)
    requires r.turns <= |script| && Tag(prompts, Origin.Prompt) <= r.entries && !v.active
    requires v'.transcript == v.transcript + Untag(r.entries) && (r.pending != [] ==> v'.active)
    requires v'.steering == r.steering && v'.followUp == r.followUp
    requires RunKeeps(r, v.steering, v.followUp, firstOps, script)
    ensures Leads(v, DoPrompt(prompts, script, firstOps), v', MoveOf(r, [], Origin.Prompt, script, firstOps))
  {
    hide Conserved, Untag, Enqueued, SteeringOps, FollowUpOps, InjectedBy;
    NothingTaken(InjectedBy(r, Steering));
    NothingTaken(InjectedBy(r, FollowUp));
    var m := MoveOf(r, [], Origin.Prompt, script, firstOps);
    RunMoves(v, v', r, [], Origin.Prompt, script, firstOps);
    assert m.entries == r.entries;
    hide Tag, Moves;
  }

  lemma ContinueMoves(v: View, v': View, script: seq<TurnScript>, firstOps: seq<QueueOp>, r: LoopResult)
    requires r.turns <= |script| && Tag(TakenBy(v), Origin.Prompt) <= r.entries && !CannotContinue(v)
    requires v'.transcript == v.transcript + Untag(r.entries) && (r.pending != [] ==> v'.active)
    requires Conserved(v.steering, v'.steering, Enqueued(firstOps + SteeringOps(script, r.turns)),
                       (if TakenFrom(v) == Steering then TakenBy(v) else []) + InjectedBy(r, Steering))
    requires Conserved(v.followUp, v'.followUp, Enqueued(FollowUpOps(script, r.turns)),
                       (if TakenFrom(v) == FollowUp then TakenBy(v) else []) + InjectedBy(r, FollowUp))
    ensures Leads(v, DoContinue(script, firstOps), v', MoveOf(r, TakenBy(v), TakenFrom(v), script, firstOps))
  {
    hide Conserved, Untag, Enqueued, SteeringOps, FollowUpOps, InjectedBy, TakenBy, TakenFrom;
    RunMoves(v, v', r, TakenBy(v), TakenFrom(v), script, firstOps);
    hide Tag, Moves;
  }

  /** What a continued run starts from: the queues it took its prompts from have been polled, and if they were steering
      messages the first poll is left out. */
  function Resumed(v: View, tools: seq<Tool>, mode: ExecutionMode, script: seq<TurnScript>, firstOps: seq<QueueOp>)
      : Setup
  {
    var steered := AfterReply(v) && Drained(v.steering) != [];
    Setup(tools, mode, script,
          if AfterReply(v) then AfterDrain(v.steering) else v.steering,
          if AfterReply(v) && !steered then AfterDrain(v.followUp) else v.followUp,
          firstOps, steered)
  }

  class Agent {
    var state: AgentState
    var context: Context
    var mode: ExecutionMode
    var isStreaming: bool
    var activeRun: bool
    var steeringQueue: Queue
    var followUpQueue: Queue

    ghost predicate Ready()
      reads this
    {
      && Valid(steeringQueue) && Valid(followUpQueue)
      && (!activeRun ==> AtRest(state) && !isStreaming)
    }

    ghost function View(): View
      reads this
    {
      AgentHistory.View(state.messages, steeringQueue, followUpQueue, activeRun)
    }

    constructor (messages: seq<Msg>, mode: ExecutionMode)
      ensures Ready() && !activeRun && state.messages == messages
      ensures steeringQueue == followUpQueue == EMPTY
    {
      state := AgentState(messages, None, {}, "");
      context := Context([], []);
      this.mode := mode;
      isStreaming, activeRun := false, false;
      steeringQueue, followUpQueue := EMPTY, EMPTY;
    }

    /** The message joins the end of the queue, whatever is going on, and no other message changes its fate. */
    method Steer(message: Msg)
      requires Ready()
      modifies this`steeringQueue
      ensures Ready() && steeringQueue.messages == old(steeringQueue.messages) + [message]
      ensures Conserved(old(steeringQueue), steeringQueue, [message], [])
      ensures Leads(old(View()), DoSteer(message), View(), STILL.(steered := [message]))
    {
      hide Conserved;
      Joins(steeringQueue, message);
      StillConserved(followUpQueue);
      steeringQueue := ApplyOp(steeringQueue, Enqueue(message));
      QueueMoves(old(View()), View(), STILL.(steered := [message]));
    }

    method FollowUpWith(message: Msg)
      requires Ready()
      modifies this`followUpQueue
      ensures Ready() && followUpQueue.messages == old(followUpQueue.messages) + [message]
      ensures Conserved(old(followUpQueue), followUpQueue, [message], [])
      ensures Leads(old(View()), DoFollowUp(message), View(), STILL.(followed := [message]))
    {
      hide Conserved;
      Joins(followUpQueue, message);
      StillConserved(steeringQueue);
      followUpQueue := ApplyOp(followUpQueue, Enqueue(message));
      QueueMoves(old(View()), View(), STILL.(followed := [message]));
    }

    method ClearSteeringQueue()
      requires Ready()
      modifies this`steeringQueue
      ensures Ready() && Leads(old(View()), DoClearSteering, View(), STILL)
    {
      hide Conserved;
      Leaves(steeringQueue, QueueOp.Clear);
      StillConserved(followUpQueue);
      steeringQueue := ApplyOp(steeringQueue, QueueOp.Clear);
      QueueMoves(old(View()), View(), STILL);
    }

    method ClearFollowUpQueue()
      requires Ready()
      modifies this`followUpQueue
      ensures Ready() && Leads(old(View()), DoClearFollowUps, View(), STILL)
    {
      hide Conserved;
      Leaves(followUpQueue, QueueOp.Clear);
      StillConserved(steeringQueue);
      followUpQueue := ApplyOp(followUpQueue, QueueOp.Clear);
      QueueMoves(old(View()), View(), STILL);
    }

    method SetSteeringMode(mode: QueueMode)
      requires Ready()
      modifies this`steeringQueue
      ensures Ready() && Leads(old(View()), DoSetSteeringMode(mode), View(), STILL)
    {
      hide Conserved;
      Leaves(steeringQueue, SetMode(mode));
      StillConserved(followUpQueue);
      steeringQueue := steeringQueue.(mode := mode);
      QueueMoves(old(View()), View(), STILL);
    }

    method SetFollowUpMode(mode: QueueMode)
      requires Ready()
      modifies this`followUpQueue
      ensures Ready() && Leads(old(View()), DoSetFollowUpMode(mode), View(), STILL)
    {
      hide Conserved;
      Leaves(followUpQueue, SetMode(mode));
      StillConserved(steeringQueue);
      followUpQueue := followUpQueue.(mode := mode);
      QueueMoves(old(View()), View(), STILL);
    }

    /** `processEvents`. */
    method ProcessEvent(e: Event)
      modifies this`state
      ensures state == Reduce(old(state), e)
    {
      match e {
        case MessageStart(m) => state := state.(streamingMessage := Some(m));
        case MessageUpdate(m) => state := state.(streamingMessage := Some(m));
        case MessageEnd(m) => state := state.(streamingMessage := None, messages := state.messages + [m]);
        case ToolStart(_, call) => state := state.(pendingToolCalls := state.pendingToolCalls + {call.id});
        case ToolEnd(_, call, _, _) => state := state.(pendingToolCalls := state.pendingToolCalls - {call.id});
        case TurnEnd(m, _) =>
          if m.Assistant? && m.errorMessage != "" {
            state := state.(errorMessage := m.errorMessage);
          }
        case AgentEnd(_) => state := state.(streamingMessage := None);
        case _ =>
      }
    }

    method ProcessAll(trace: seq<Event>)
      modifies this`state
      ensures state == Run(FreshWatch(old(state)), trace).state
    {
      for i := 0 to |trace|
        invariant state == Run(FreshWatch(old(state)), trace[..i]).state
      {
        assert trace[..i + 1][..i] == trace[..i];
        ProcessEvent(trace[i]);
      }
      assert trace[..|trace|] == trace;
    }

    /** `runWithLifecycle` around `runAgentLoop`; a run the script does not finish stays active. */
    method RunPromptMessages(prompts: seq<Msg>, script: seq<TurnScript>, firstOps: seq<QueueOp>, skipFirstPoll: bool)
      returns (r: LoopResult)
      requires Ready() && !activeRun && forall t <- script :: WellFormed(t)
      modifies this
      ensures Ready() && activeRun == !r.finished && isStreaming == !r.finished
      ensures state.messages == old(state.messages) + Untag(r.entries) && Tag(prompts, Origin.Prompt) <= r.entries
      ensures r.finished ==> AtRest(state)
      ensures RunsFrom(r, old(state), script) && (r.pending != [] ==> activeRun)
      ensures r.steering == steeringQueue && r.followUp == followUpQueue
      ensures QueuesAccounted(r, old(steeringQueue), old(followUpQueue), firstOps, script)
      ensures RunKeeps(r, old(steeringQueue), old(followUpQueue), firstOps, script)
      ensures OnCourse(Setup(old(context.tools), old(mode), script, old(steeringQueue), old(followUpQueue), firstOps,
                             skipFirstPoll),
                       Tag(prompts, Origin.Prompt), r)
      ensures context == old(context) && mode == old(mode)
    {
      hide OnCourse;
      hide QueuesAccounted, Conserved, Clean, KeptContext, Tag, Untag, PayAll, Paired, PairedSoFar;
      activeRun, isStreaming := true, true;
      state := state.(streamingMessage := None, errorMessage := "");
      r := RunAgentLoop(prompts, context.(messages := state.messages), mode, script, firstOps, skipFirstPoll,
                        steeringQueue, followUpQueue, state);
      ProcessAll(r.trace);
      steeringQueue, followUpQueue := r.steering, r.followUp;
      if r.finished {
        isStreaming, activeRun := false, false;
        state := state.(streamingMessage := None, pendingToolCalls := {});
      }
    }

    method Prompt(messages: seq<Msg>, script: seq<TurnScript>, firstOps: seq<QueueOp>)
      returns (r: Result<LoopResult, AgentError>)
      requires Ready() && forall t <- script :: WellFormed(t)
      modifies this
      ensures Ready()
      ensures r == Err(AlreadyProcessing) <==> old(activeRun)
      ensures r.Err? ==>
        && r == Err(AlreadyProcessing) && state == old(state)
        && steeringQueue == old(steeringQueue) && followUpQueue == old(followUpQueue)
      ensures r.Ok? ==>
        && state.messages == old(state.messages) + Untag(r.value.entries)
        && Tag(messages, Origin.Prompt) <= r.value.entries && RunsFrom(r.value, old(state), script)
        && r.value.steering == steeringQueue && r.value.followUp == followUpQueue
        && RunKeeps(r.value, old(steeringQueue), old(followUpQueue), firstOps, script)
      ensures Leads(old(View()), DoPrompt(messages, script, firstOps), View(),
                    if r.Err? then STILL else MoveOf(r.value, [], Origin.Prompt, script, firstOps))
      ensures r.Ok? ==>
        OnCourse(Setup(old(context.tools), old(mode), script, old(steeringQueue), old(followUpQueue), firstOps, false),
                 Tag(messages, Origin.Prompt), r.value)
    {
      hide OnCourse;
      hide RunsFrom, QueuesAccounted, Tag, Untag, Moves, Conserved, InjectedBy, GivenDuring;
      if activeRun {
        StillMoves(View());
        return Err(AlreadyProcessing);
      }
      var run := RunPromptMessages(messages, script, firstOps, false);
      PromptMoves(old(View()), View(), messages, script, firstOps, run);
      return Ok(run);
    }

    /** `continue`: after an assistant message it takes queued messages as prompts, steering before follow-ups. What it
        takes from a queue opens the run; with that, nothing given to either queue is lost or injected twice. When
        there is nothing to run it changes nothing. */
    method Continue(script: seq<TurnScript>, firstOps: seq<QueueOp>) returns (r: Result<LoopResult, AgentError>)
      requires Ready() && forall t <- script :: WellFormed(t)
      modifies this
      ensures Ready()
      ensures r == Err(AlreadyProcessing) <==> old(activeRun)
      ensures r == Err(NoMessages) <==> !old(activeRun) && old(state.messages) == []
      ensures r == Err(CannotContinueFromAssistant) <==>
        && !old(activeRun) && old(state.messages) != [] && old(state.messages[|state.messages| - 1]).Assistant?
        && old(steeringQueue.messages) == [] && old(followUpQueue.messages) == []
      ensures r.Err? ==>
        && state == old(state) && steeringQueue.messages == old(steeringQueue.messages)
        && followUpQueue.messages == old(followUpQueue.messages)
        && steeringQueue.history == old(steeringQueue.history) && followUpQueue.history == old(followUpQueue.history)
      ensures r.Ok? ==>
        && state.messages == old(state.messages) + Untag(r.value.entries) && RunsFrom(r.value, old(state), script)
        && r.value.turns <= |script| && r.value.steering == steeringQueue && r.value.followUp == followUpQueue
      ensures r.Ok? ==>
        var taken := if old(state.messages[|state.messages| - 1]).Assistant? then Drained(old(steeringQueue)) else [];
        && Tag(taken, Origin.Prompt) <= r.value.entries
        && Conserved(old(steeringQueue), steeringQueue, Enqueued(firstOps + SteeringOps(script, r.value.turns)),
                     taken + InjectedBy(r.value, Steering))
      ensures r.Ok? ==>
        var taken := if old(state.messages[|state.messages| - 1]).Assistant? && Drained(old(steeringQueue)) == []
                     then Drained(old(followUpQueue)) else [];
        && Tag(taken, Origin.Prompt) <= r.value.entries
        && Conserved(old(followUpQueue), followUpQueue, Enqueued(FollowUpOps(script, r.value.turns)),
                     taken + InjectedBy(r.value, FollowUp))
      ensures r.Ok? ==> Tag(TakenBy(old(View())), Origin.Prompt) <= r.value.entries
      ensures Leads(old(View()), DoContinue(script, firstOps), View(),
                    if r.Err? then STILL
                    else MoveOf(r.value, TakenBy(old(View())), TakenFrom(old(View())), script, firstOps))
      ensures r.Ok? ==>
        OnCourse(Resumed(old(View()), old(context.tools), old(mode), script, firstOps),
                 Tag(TakenBy(old(View())), Origin.Prompt), r.value)
    {
      hide OnCourse;
      hide Conserved, Untag, Tag, RunsFrom, QueuesAccounted, Enqueued, SteeringOps, FollowUpOps, InjectedBy, AfterDrain,
        Drained, Valid, Moves, GivenDuring;
      StillMoves(View());
      if activeRun {
        return Err(AlreadyProcessing);
      }
      if |state.messages| == 0 {
        return Err(NoMessages);
      }
      if state.messages[|state.messages| - 1].Assistant? {
        EmptyDrain(steeringQueue);
        var queuedSteering := Drained(steeringQueue);
        steeringQueue := AfterDrain(steeringQueue);
        if |queuedSteering| > 0 {
          var run := RunPromptMessages(queuedSteering, script, firstOps, true);
          SteeringTaken(old(steeringQueue), old(followUpQueue), firstOps, script, run);
          NothingTaken(InjectedBy(run, FollowUp));
          ContinueMoves(old(View()), View(), script, firstOps, run);
          return Ok(run);
        }
        EmptyDrain(followUpQueue);
        var queuedFollowUps := Drained(followUpQueue);
        followUpQueue := AfterDrain(followUpQueue);
        if |queuedFollowUps| > 0 {
          var run := RunPromptMessages(queuedFollowUps, script, firstOps, false);
          SteeringTaken(old(steeringQueue), AfterDrain(old(followUpQueue)), firstOps, script, run);
          FollowUpTaken(old(followUpQueue), AfterDrain(old(steeringQueue)), firstOps, script, run);
          ContinueMoves(old(View()), View(), script, firstOps, run);
          return Ok(run);
        }
        return Err(CannotContinueFromAssistant);
      }
      var run := RunPromptMessages([], script, firstOps, false);
      NothingTaken(InjectedBy(run, Steering));
      NothingTaken(InjectedBy(run, FollowUp));
      ContinueMoves(old(View()), View(), script, firstOps, run);
      return Ok(run);
    }
  }
}
