/** Messages, events and the event reducer of packages/agent: what the loop emits and what `Agent` makes of it. */
module AgentTypes {
  import opened Seqs

  /** Payloads the loop passes on without looking at them. */
  type Data = int

  datatype StopReason = Stop | Length | ToolUse | Error | Aborted

  datatype ToolCall = ToolCall(id: string, name: string, arguments: Data)

  datatype Content = Blocks(data: Data) | ErrorText(reason: Reason)

  /** The texts of the error results the loop makes itself. */
  datatype Reason =
    | ToolNotFound(name: string)
    | Thrown(text: string)
    | OperationAborted
    | Blocked(text: string)
    | TruncatedCall(name: string)

  const NO_BLOCKS: Content := Blocks(0)

  datatype ToolOutput = ToolOutput(
    content: Option<Content>,
    details: Option<Data>,
    usage: Option<Data>,
    addedToolNames: seq<string>,
    terminate: Option<bool>)

  datatype Msg =
    | User(text: Data)
    | Assistant(text: Data, stop: StopReason, calls: seq<ToolCall>, errorMessage: string)
    | ToolResult(callId: string, toolName: string, content: Content, details: Option<Data>, usage: Option<Data>,
        addedToolNames: seq<string>, isError: bool)
    | Other(kind: string, text: Data)

  /** `pos` is the position of the call in its assistant message; ids given by a model need not be distinct. */
  datatype Event =
    | AgentStart
    | TurnStart
    | TurnEnd(message: Msg, toolResults: seq<Msg>)
    | MessageStart(message: Msg)
    | MessageUpdate(message: Msg)
    | MessageEnd(message: Msg)
    | ToolStart(pos: nat, call: ToolCall)
    | ToolUpdate(pos: nat, call: ToolCall, partialResult: Data)
    | ToolEnd(pos: nat, call: ToolCall, result: ToolOutput, isError: bool)
    | AgentEnd(messages: seq<Msg>)

  /** The part of `Agent`'s state that events change. */
  datatype AgentState = AgentState(
    messages: seq<Msg>,
    streamingMessage: Option<Msg>,
    pendingToolCalls: set<string>,
    errorMessage: string)

  /** The switch of `Agent.processEvents`. */
  function Reduce(s: AgentState, e: Event): AgentState {
    match e
    case MessageStart(m) => s.(streamingMessage := Some(m))
    case MessageUpdate(m) => s.(streamingMessage := Some(m))
    case MessageEnd(m) => s.(streamingMessage := None, messages := s.messages + [m])
    case ToolStart(_, call) => s.(pendingToolCalls := s.pendingToolCalls + {call.id})
    case ToolEnd(_, call, _, _) => s.(pendingToolCalls := s.pendingToolCalls - {call.id})
    case TurnEnd(m, _) => if m.Assistant? && m.errorMessage != "" then s.(errorMessage := m.errorMessage) else s
    case AgentEnd(_) => s.(streamingMessage := None)
    case _ => s
  }

  /** The grammar of a run: agent_start, (turn_start ... turn_end)+, agent_end, with messages opened and closed
      one at a time inside turns, and tools only between messages. */
  datatype Phase = Fresh | Started | InTurn | InMessage | BetweenTurns | Finished | Broken

  function Advance(p: Phase, e: Event): Phase {
    match (p, e)
    case (Fresh, AgentStart) => Started
    case (Started, TurnStart) => InTurn
    case (BetweenTurns, TurnStart) => InTurn
    case (InTurn, MessageStart(_)) => InMessage
    case (InMessage, MessageUpdate(_)) => InMessage
    case (InMessage, MessageEnd(_)) => InTurn
    case (InTurn, ToolStart(_, _)) => InTurn
    case (InTurn, ToolUpdate(_, _, _)) => InTurn
    case (InTurn, ToolEnd(_, _, _, _)) => InTurn
    case (InTurn, TurnEnd(_, _)) => BetweenTurns
    case (BetweenTurns, AgentEnd(_)) => Finished
    case _ => Broken
  }

  /** A watcher of a run: the grammar, the reduced state, and whether every turn has ended with no tool call pending. */
  datatype Watch = Watch(phase: Phase, state: AgentState, quiet: bool)

  function Observe(w: Watch, e: Event): Watch {
    Watch(Advance(w.phase, e), Reduce(w.state, e), w.quiet && (e.TurnEnd? ==> w.state.pendingToolCalls == {}))
  }

  function Run(w: Watch, trace: seq<Event>): Watch {
    if trace == [] then w else Observe(Run(w, trace[..|trace| - 1]), trace[|trace| - 1])
  }

  lemma RunSnoc(w: Watch, trace: seq<Event>, e: Event)
    ensures Run(w, trace + [e]) == Observe(Run(w, trace), e)
  {
    assert (trace + [e])[..|trace|] == trace;
  }

  lemma {:induction false} RunAppend(w: Watch, a: seq<Event>, b: seq<Event>)
    ensures Run(w, a + b) == Run(Run(w, a), b)
    decreases |b|
  {
    if b == [] {
      assert a + b == a;
    } else {
      var b', e := b[..|b| - 1], b[|b| - 1];
      assert a + b == (a + b') + [e] && b == b' + [e];
      RunAppend(w, a, b');
      RunSnoc(w, a + b', e);
    }
  }

  /** A broken trace stays broken. */
  lemma {:induction false} BrokenForGood(w: Watch, trace: seq<Event>)
    requires w.phase == Broken
    ensures Run(w, trace).phase == Broken
  {
    if trace != [] {
      BrokenForGood(w, trace[..|trace| - 1]);
    }
  }

  /** The payloads of the message_end events, in order. */
  function EndedMessages(trace: seq<Event>): seq<Msg> {
    if trace == [] then []
    else
      var e := trace[|trace| - 1];
      EndedMessages(trace[..|trace| - 1]) + (if e.MessageEnd? then [e.message] else [])
  }

  /** What a run appends to the transcript is exactly what it reports as ended. */
  lemma {:induction false} TranscriptIsEndedMessages(w: Watch, trace: seq<Event>)
    ensures Run(w, trace).state.messages == w.state.messages + EndedMessages(trace)
  {
    if trace != [] {
      TranscriptIsEndedMessages(w, trace[..|trace| - 1]);
    }
  }

  /** `quiet` says what it should: at every turn_end no tool call was pending. */
  lemma {:induction false} QuietTurns(w: Watch, trace: seq<Event>, k: nat)
    requires Run(w, trace).quiet && k < |trace| && trace[k].TurnEnd?
    ensures Run(w, trace[..k]).state.pendingToolCalls == {}
    decreases |trace|
  {
    if k < |trace| - 1 {
      assert trace[..|trace| - 1][..k] == trace[..k];
      QuietTurns(w, trace[..|trace| - 1], k);
    }
  }

  function TurnsBegun(trace: seq<Event>): nat {
    if trace == [] then 0 else TurnsBegun(trace[..|trace| - 1]) + (if trace[|trace| - 1].TurnStart? then 1 else 0)
  }

  function TurnsEnded(trace: seq<Event>): nat {
    if trace == [] then 0 else TurnsEnded(trace[..|trace| - 1]) + (if trace[|trace| - 1].TurnEnd? then 1 else 0)
  }

  /** How a trace stands when the grammar is in a given phase. */
  ghost predicate Shape(trace: seq<Event>, p: Phase) {
    var begun, ended := TurnsBegun(trace), TurnsEnded(trace);
    match p
    case Broken => true
    case Fresh => trace == []
    case Started => begun == ended == 0
    case InTurn => begun == ended + 1
    case InMessage => begun == ended + 1
    case BetweenTurns => begun == ended > 0
    case Finished => begun == ended > 0
  }

  /** What the grammar means: a trace that is not broken starts with its only agent_start, has begun and ended
      turns alternately, and once finished ends with its only agent_end. */
  lemma {:induction false} GrammarMeaning(w: Watch, trace: seq<Event>)
    requires w.phase == Fresh
    ensures var p := Run(w, trace).phase;
            && Shape(trace, p)
            && (p != Broken ==>
                  && (trace != [] ==> trace[0] == AgentStart)
                  && (forall k | 1 <= k < |trace| :: trace[k] != AgentStart)
                  && (forall k | 0 <= k < |trace| :: trace[k].AgentEnd? <==> p == Finished && k == |trace| - 1))
  {
    if trace != [] {
      GrammarMeaning(w, trace[..|trace| - 1]);
    }
  }

  /** The messages started and not yet ended. */
  function OpenMessages(trace: seq<Event>): int {
    if trace == [] then 0
    else
      var e := trace[|trace| - 1];
      OpenMessages(trace[..|trace| - 1]) + (if e.MessageStart? then 1 else if e.MessageEnd? then -1 else 0)
  }

  /** In a trace that is not broken messages never nest: each starts with none open, is updated and ended while it is
      the only one open, and everything else happens between messages. */
  lemma {:induction false} MessagesNeverNest(w: Watch, trace: seq<Event>, k: nat)
    requires w.phase == Fresh && Run(w, trace).phase != Broken && k < |trace|
    ensures OpenMessages(trace) == if Run(w, trace).phase == InMessage then 1 else 0
    ensures OpenMessages(trace[..k]) == if trace[k].MessageUpdate? || trace[k].MessageEnd? then 1 else 0
  {
    var n := |trace| - 1;
    if n == 0 {
      assert trace[..0] == [];
    } else {
      if k < n {
        assert trace[..n][..k] == trace[..k];
        MessagesNeverNest(w, trace[..n], k);
      } else {
        MessagesNeverNest(w, trace[..n], 0);
      }
    }
  }

  /** The events that change what the agent shows as the message being streamed. */
  predicate Displays(e: Event) {
    e.MessageStart? || e.MessageUpdate? || e.MessageEnd? || e.AgentEnd?
  }

  /** The streaming message is the one last started or updated, unless a message or the run has ended since; k is the
      last event that matters, -1 if there is none. */
  lemma {:induction false} StreamingMeans(w: Watch, trace: seq<Event>, k: int)
    requires -1 <= k < |trace| && (k >= 0 ==> Displays(trace[k]))
    requires forall j | k < j < |trace| :: !Displays(trace[j])
    ensures Run(w, trace).state.streamingMessage
         == if k == -1 then w.state.streamingMessage
            else if trace[k].MessageStart? || trace[k].MessageUpdate? then Some(trace[k].message) else None
  {
    if trace != [] && k < |trace| - 1 {
      StreamingMeans(w, trace[..|trace| - 1], k);
    }
  }

  predicate Toggles(e: Event, id: string) {
    (e.ToolStart? || e.ToolEnd?) && e.call.id == id
  }

  /** A tool call is pending if the last thing that happened to it is its start. */
  lemma {:induction false} PendingMeans(w: Watch, trace: seq<Event>, id: string, k: int)
    requires -1 <= k < |trace| && (k >= 0 ==> Toggles(trace[k], id))
    requires forall j | k < j < |trace| :: !Toggles(trace[j], id)
    ensures id in Run(w, trace).state.pendingToolCalls <==>
      if k == -1 then id in w.state.pendingToolCalls else trace[k].ToolStart?
  {
    if trace != [] && k < |trace| - 1 {
      PendingMeans(w, trace[..|trace| - 1], id, k);
    }
  }

  predicate Complains(e: Event) {
    e.TurnEnd? && e.message.Assistant? && e.message.errorMessage != ""
  }

  /** The error message shown is that of the last turn that ended with one. */
  lemma {:induction false} ErrorMeans(w: Watch, trace: seq<Event>, k: int)
    requires -1 <= k < |trace| && (k >= 0 ==> Complains(trace[k]))
    requires forall j | k < j < |trace| :: !Complains(trace[j])
    ensures Run(w, trace).state.errorMessage
         == if k == -1 then w.state.errorMessage else trace[k].message.errorMessage
  {
    if trace != [] && k < |trace| - 1 {
      ErrorMeans(w, trace[..|trace| - 1], k);
    }
  }
}
