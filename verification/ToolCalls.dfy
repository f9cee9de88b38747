/** What happens to one tool call: `prepareToolCall`, `executePreparedToolCall`, `finalizeExecutedToolCall`
    and `createToolResultMessage` of packages/agent/src/agent-loop.ts. */
module ToolCalls {
  import opened Seqs
  import opened AgentTypes

  datatype Tool = Tool(name: string, sequential: bool)

  /** What the environment does with one call: argument preparation and validation, the `beforeToolCall` hook,
      whether the signal is aborted when preparation checks it, the partial results and the ending of the tool,
      the `afterToolCall` hook, and whether the signal is aborted when the batch loop checks it. */
  datatype CallScript = CallScript(
    arguments: Arguments,
    before: Before,
    abortedInPrepare: bool,
    partials: seq<Data>,
    execution: Execution,
    after: After,
    abortedAfter: bool)

  datatype Arguments = Accepted | Rejected(text: string)

  datatype Before = NoBeforeHook | Allows | Blocks(reason: string) | BeforeThrows(text: string)

  datatype Execution = Returns(output: ToolOutput) | Throws(text: string)

  datatype After =
    | NoAfterHook
    | Keeps
    | Overrides(content: Option<Content>, details: Option<Data>, usage: Option<Data>, terminate: Option<bool>,
        isError: Option<bool>)
    | AfterThrows(text: string)

  datatype Outcome = Outcome(result: ToolOutput, isError: bool)

  function ErrorOutput(reason: Reason): ToolOutput {
    ToolOutput(Some(ErrorText(reason)), Some(0), None, [], None)
  }

  function Find(tools: seq<Tool>, name: string): Option<Tool> {
    if tools == [] then None else if tools[0].name == name then Some(tools[0]) else Find(tools[1..], name)
  }

  /** `prepareToolCall`: an immediate error result, or None when the tool may run. */
  function Prepare(tools: seq<Tool>, call: ToolCall, s: CallScript): Option<ToolOutput> {
    if Find(tools, call.name) == None then Some(ErrorOutput(ToolNotFound(call.name)))
    else if s.arguments.Rejected? then Some(ErrorOutput(Thrown(s.arguments.text)))
    else if s.before.BeforeThrows? then Some(ErrorOutput(Thrown(s.before.text)))
    else if s.abortedInPrepare then Some(ErrorOutput(OperationAborted))
    else if s.before.Blocks? then
      Some(ErrorOutput(Blocked(if s.before.reason == "" then "Tool execution was blocked" else s.before.reason)))
    else None
  }

  function Or<T>(a: Option<T>, b: Option<T>): Option<T> {
    if a.Some? then a else b
  }

  /** The tool's ending, then the `afterToolCall` hook. */
  function Finish(s: CallScript): Outcome {
    var ran := match s.execution
      case Returns(o) => Outcome(o, false)
      case Throws(t) => Outcome(ErrorOutput(Thrown(t)), true);
    match s.after
    case Overrides(content, details, usage, terminate, isError) =>
      Outcome(
        ToolOutput(Or(content, ran.result.content), Or(details, ran.result.details), Or(usage, ran.result.usage),
                   ran.result.addedToolNames, Or(terminate, ran.result.terminate)),
        if isError.Some? then isError.value else ran.isError)
    case AfterThrows(t) => Outcome(ErrorOutput(Thrown(t)), true)
    case _ => ran
  }

  /** What one call comes to, whoever runs it. */
  function CallOutcome(tools: seq<Tool>, call: ToolCall, s: CallScript): Outcome {
    match Prepare(tools, call, s)
    case Some(output) => Outcome(output, true)
    case None => Finish(s)
  }

  /** `createToolResultMessage`. */
  function ResultMessage(call: ToolCall, o: Outcome): Msg {
    ToolResult(call.id, call.name, if o.result.content.Some? then o.result.content.value else NO_BLOCKS,
               o.result.details, o.result.usage, o.result.addedToolNames, o.isError)
  }

  /** The outcomes of the first n calls. */
  function Outcomes(tools: seq<Tool>, calls: seq<ToolCall>, scripts: seq<CallScript>, n: nat): (r: seq<Outcome>)
    requires n <= |calls| == |scripts|
    ensures |r| == n
  {
    seq(n, i requires 0 <= i < n => CallOutcome(tools, calls[i], scripts[i]))
  }

  function ResultMessages(calls: seq<ToolCall>, outcomes: seq<Outcome>): (r: seq<Msg>)
    requires |outcomes| <= |calls|
    ensures |r| == |outcomes|
  {
    seq(|outcomes|, i requires 0 <= i < |outcomes| => ResultMessage(calls[i], outcomes[i]))
  }

  /** `shouldTerminateToolBatch`. */
  predicate Terminates(outcomes: seq<Outcome>) {
    |outcomes| > 0 && forall o <- outcomes :: o.result.terminate == Some(true)
  }

  /** The start and end events of messages that arrive whole. */
  function MessageEvents(messages: seq<Msg>): (r: seq<Event>)
    ensures |r| == 2 * |messages|
  {
    if messages == [] then []
    else
      var m := messages[|messages| - 1];
      MessageEvents(messages[..|messages| - 1]) + [MessageStart(m), MessageEnd(m)]
  }

  predicate IsToolEvent(e: Event) {
    e.ToolStart? || e.ToolUpdate? || e.ToolEnd?
  }

  /** The life of call i in a trace: started once, updated only while it runs, ended once. */
  datatype Lane = Idle | Open | Closed | Wrong

  function LaneStep(l: Lane, e: Event, i: nat): Lane {
    if !IsToolEvent(e) || e.pos != i then l
    else if e.ToolStart? && l == Idle then Open
    else if e.ToolUpdate? && l == Open then Open
    else if e.ToolEnd? && l == Open then Closed
    else Wrong
  }

  function LaneFrom(l: Lane, trace: seq<Event>, i: nat): Lane {
    if trace == [] then l else LaneStep(LaneFrom(l, trace[..|trace| - 1], i), trace[|trace| - 1], i)
  }

  function LaneOf(trace: seq<Event>, i: nat): Lane {
    LaneFrom(Idle, trace, i)
  }

  lemma LaneSnoc(l: Lane, trace: seq<Event>, e: Event, i: nat)
    ensures LaneFrom(l, trace + [e], i) == LaneStep(LaneFrom(l, trace, i), e, i)
  {
    assert (trace + [e])[..|trace|] == trace;
  }

  lemma {:induction false} LaneAppend(l: Lane, a: seq<Event>, b: seq<Event>, i: nat)
    ensures LaneFrom(l, a + b, i) == LaneFrom(LaneFrom(l, a, i), b, i)
    decreases |b|
  {
    if b == [] {
      assert a + b == a;
    } else {
      var b', e := b[..|b| - 1], b[|b| - 1];
      assert a + b == (a + b') + [e] && b == b' + [e];
      LaneAppend(l, a, b', i);
      LaneSnoc(l, a + b', e, i);
    }
  }

  /** Events that are not about call i leave its lane alone. */
  lemma {:induction false} LaneUntouched(l: Lane, trace: seq<Event>, i: nat)
    requires forall e <- trace :: IsToolEvent(e) ==> e.pos != i
    ensures LaneFrom(l, trace, i) == l
  {
    if trace != [] {
      LaneUntouched(l, trace[..|trace| - 1], i);
    }
  }

  /** The calls started in a trace, in order. */
  function Starts(trace: seq<Event>): seq<nat> {
    if trace == [] then []
    else
      var e := trace[|trace| - 1];
      Starts(trace[..|trace| - 1]) + (if e.ToolStart? then [e.pos] else [])
  }

  lemma StartsSnoc(trace: seq<Event>, e: Event)
    ensures Starts(trace + [e]) == Starts(trace) + (if e.ToolStart? then [e.pos] else [])
  {
    assert (trace + [e])[..|trace|] == trace;
  }

  lemma {:induction false} StartsAppend(a: seq<Event>, b: seq<Event>)
    ensures Starts(a + b) == Starts(a) + Starts(b)
    decreases |b|
  {
    if b == [] {
      assert a + b == a;
    } else {
      var b', e := b[..|b| - 1], b[|b| - 1];
      assert a + b == (a + b') + [e] && b == b' + [e];
      StartsAppend(a, b');
      StartsSnoc(a + b', e);
    }
  }

  lemma {:induction false} NoStarts(trace: seq<Event>)
    requires forall e <- trace :: !e.ToolStart?
    ensures Starts(trace) == []
  {
    if trace != [] {
      NoStarts(trace[..|trace| - 1]);
    }
  }

  /** 0, 1, ..., n - 1. */
  function UpTo(n: nat): (r: seq<nat>)
    ensures |r| == n
  {
    seq(n, i requires 0 <= i < n => i)
  }

  /** What the lanes say in words: a closed lane has one start and one end, and every event of the call
      lies between them. */
  ghost predicate Spans(trace: seq<Event>, i: nat, s: nat, t: nat) {
    && s < t < |trace|
    && trace[s].ToolStart? && trace[s].pos == i
    && trace[t].ToolEnd? && trace[t].pos == i
    && forall k | 0 <= k < |trace| && IsToolEvent(trace[k]) && trace[k].pos == i ::
         k == s || k == t || (s < k < t && trace[k].ToolUpdate?)
  }

  lemma {:induction false} OpenLane(trace: seq<Event>, i: nat) returns (s: nat)
    requires LaneOf(trace, i) == Open
    ensures s < |trace| && trace[s].ToolStart? && trace[s].pos == i
    ensures forall k | 0 <= k < |trace| && IsToolEvent(trace[k]) && trace[k].pos == i ::
      k == s || (s < k && trace[k].ToolUpdate?)
  {
    var front, e := trace[..|trace| - 1], trace[|trace| - 1];
    if LaneOf(front, i) == Idle {
      IdleLane(front, i);
      s := |trace| - 1;
    } else {
      s := OpenLane(front, i);
    }
  }

  lemma {:induction false} IdleLane(trace: seq<Event>, i: nat)
    requires LaneOf(trace, i) == Idle
    ensures forall k | 0 <= k < |trace| && IsToolEvent(trace[k]) :: trace[k].pos != i
  {
    if trace != [] {
      IdleLane(trace[..|trace| - 1], i);
    }
  }

  lemma {:induction false} ClosedLaneSpans(trace: seq<Event>, i: nat) returns (s: nat, t: nat)
    requires LaneOf(trace, i) == Closed
    ensures Spans(trace, i, s, t)
  {
    var front, e := trace[..|trace| - 1], trace[|trace| - 1];
    if LaneOf(front, i) == Open {
      s := OpenLane(front, i);
      t := |trace| - 1;
    } else {
      s, t := ClosedLaneSpans(front, i);
    }
  }
}
