/** The rules for one tool call, stated without following the code: which calls may run, what a refused call says, and
    what a call that ran comes to. */
module ToolRules {
  import opened Seqs
  import opened AgentTypes
  import opened ToolCalls

  predicate Offered(tools: seq<Tool>, name: string) {
    exists tool <- tools :: tool.name == name
  }

  /** Of the tools with one name it is the first that counts. */
  lemma {:induction false} FindIsFirst(tools: seq<Tool>, name: string)
    ensures Find(tools, name).None? <==> !Offered(tools, name)
    ensures Find(tools, name).Some? ==>
      exists k :: 0 <= k < |tools| && tools[k] == Find(tools, name).value && tools[k].name == name
                  && forall j | 0 <= j < k :: tools[j].name != name
  {
    if tools != [] {
      if tools[0].name == name {
        assert tools[0] in tools;
      } else {
        FindIsFirst(tools[1..], name);
        assert forall tool :: tool in tools <==> tool == tools[0] || tool in tools[1..];
        if Find(tools[1..], name).Some? {
          var k :| 0 <= k < |tools[1..]| && tools[1..][k] == Find(tools, name).value && tools[1..][k].name == name
                   && forall j | 0 <= j < k :: tools[1..][j].name != name;
          assert tools[k + 1] == tools[1..][k] && forall j | 0 < j < k + 1 :: tools[j] == tools[1..][j - 1];
        }
      }
    }
  }

  /** A call may run if a tool of its name is offered, its arguments are accepted, the hook neither threw nor blocked,
      and nothing was aborted before it starts. */
  predicate MayRun(tools: seq<Tool>, call: ToolCall, s: CallScript) {
    && Offered(tools, call.name)
    && s.arguments.Accepted?
    && (s.before.NoBeforeHook? || s.before.Allows?)
    && !s.abortedInPrepare
  }

  /** The reasons there may be to refuse a call, the first that applies counting. */
  function Objections(tools: seq<Tool>, call: ToolCall, s: CallScript): (r: seq<Option<Reason>>)
    ensures |r| == 5
  {
    [if Offered(tools, call.name) then None else Some(ToolNotFound(call.name)),
     match s.arguments case Rejected(text) => Some(Thrown(text)) case Accepted => None,
     match s.before case BeforeThrows(text) => Some(Thrown(text)) case _ => None,
     if s.abortedInPrepare then Some(OperationAborted) else None,
     match s.before
     case Blocks(reason) => Some(Blocked(if reason != "" then reason else "Tool execution was blocked"))
     case _ => None]
  }

  ghost predicate RefusedFor(tools: seq<Tool>, call: ToolCall, s: CallScript, reason: Reason) {
    var objections := Objections(tools, call, s);
    exists k :: 0 <= k < |objections| && objections[k] == Some(reason) && forall j | 0 <= j < k :: objections[j] == None
  }

  /** An error result with this text and nothing else. */
  predicate IsError(o: Outcome, reason: Reason) {
    && o.isError
    && o.result.content == Some(ErrorText(reason)) && o.result.details == Some(0)
    && o.result.usage == None && o.result.addedToolNames == [] && o.result.terminate == None
  }

  /** What the tool itself came to. */
  predicate ToolGave(e: Execution, o: Outcome) {
    match e
    case Returns(output) => o.result == output && !o.isError
    case Throws(text) => IsError(o, Thrown(text))
  }

  predicate Replaces<T(==)>(given: Option<T>, kept: Option<T>, result: Option<T>) {
    (given.Some? ==> result == given) && (given.None? ==> result == kept)
  }

  /** What the hook made of it: nothing, a replacement of the fields it gives, or an error. */
  predicate HookMade(a: After, given: Outcome, o: Outcome) {
    match a
    case Overrides(content, details, usage, terminate, isError) =>
      && Replaces(content, given.result.content, o.result.content)
      && Replaces(details, given.result.details, o.result.details)
      && Replaces(usage, given.result.usage, o.result.usage)
      && Replaces(terminate, given.result.terminate, o.result.terminate)
      && o.result.addedToolNames == given.result.addedToolNames
      && Replaces(isError, Some(given.isError), Some(o.isError))
    case AfterThrows(text) => IsError(o, Thrown(text))
    case _ => o == given
  }

  /** What a call comes to. */
  ghost predicate ComesTo(tools: seq<Tool>, call: ToolCall, s: CallScript, o: Outcome) {
    if MayRun(tools, call, s) then exists given :: ToolGave(s.execution, given) && HookMade(s.after, given, o)
    else exists reason :: RefusedFor(tools, call, s, reason) && IsError(o, reason)
  }

  lemma PreparedIff(tools: seq<Tool>, call: ToolCall, s: CallScript)
    ensures Prepare(tools, call, s) == None <==> MayRun(tools, call, s)
  {
    FindIsFirst(tools, call.name);
  }

  /** A call is refused for one reason or may run, and not both. */
  lemma RefusedOnce(tools: seq<Tool>, call: ToolCall, s: CallScript, reason: Reason, other: Reason)
    requires RefusedFor(tools, call, s, reason)
    ensures !MayRun(tools, call, s) && (RefusedFor(tools, call, s, other) ==> other == reason)
  {
    hide Offered;
  }

  lemma RefusedWhy(tools: seq<Tool>, call: ToolCall, s: CallScript)
    requires !MayRun(tools, call, s)
    ensures Prepare(tools, call, s).Some? && Prepare(tools, call, s).value.content.Some?
    ensures Prepare(tools, call, s).value.content.value.ErrorText?
    ensures RefusedFor(tools, call, s, Prepare(tools, call, s).value.content.value.reason)
    ensures IsError(Outcome(Prepare(tools, call, s).value, true), Prepare(tools, call, s).value.content.value.reason)
  {
    FindIsFirst(tools, call.name);
    hide Offered, Find;
    var o, reason := Objections(tools, call, s), Prepare(tools, call, s).value.content.value.reason;
    var k := if o[0].Some? then 0 else if o[1].Some? then 1 else if o[2].Some? then 2 else if o[3].Some? then 3 else 4;
    assert o[k] == Some(reason) && forall j | 0 <= j < k :: o[j] == None;
  }

  /** The rules determine the outcome, and it is the one computed. */
  lemma ComesToIff(tools: seq<Tool>, call: ToolCall, s: CallScript, o: Outcome)
    ensures ComesTo(tools, call, s, o) <==> o == CallOutcome(tools, call, s)
  {
    PreparedIff(tools, call, s);
    if MayRun(tools, call, s) {
      FinishIff(s, o);
      hide Finish, Prepare, MayRun;
    } else {
      RefusedWhy(tools, call, s);
      var reason := Prepare(tools, call, s).value.content.value.reason;
      forall other | RefusedFor(tools, call, s, other)
        ensures other == reason
      {
        RefusedOnce(tools, call, s, reason, other);
      }
      hide Prepare, RefusedFor, MayRun;
    }
  }

  lemma FinishIff(s: CallScript, o: Outcome)
    ensures (exists given :: ToolGave(s.execution, given) && HookMade(s.after, given, o)) <==> o == Finish(s)
  {
    var ran := match s.execution
      case Returns(output) => Outcome(output, false)
      case Throws(text) => Outcome(ErrorOutput(Thrown(text)), true);
    assert ToolGave(s.execution, ran);
    assert HookMade(s.after, ran, o) <==> o == Finish(s);
    forall given | ToolGave(s.execution, given)
      ensures given == ran
    {
    }
    hide ToolGave, HookMade, Finish;
  }

  /** The result message of a call says what it came to. */
  predicate Reports(call: ToolCall, o: Outcome, m: Msg) {
    && m.ToolResult? && m.callId == call.id && m.toolName == call.name && m.isError == o.isError
    && m.content == (match o.result.content case Some(content) => content case None => NO_BLOCKS)
    && m.details == o.result.details && m.usage == o.result.usage && m.addedToolNames == o.result.addedToolNames
  }

  /** Every tool event is about the call at its position; only calls that may run are updated; an end has what the call
      comes to. */
  ghost predicate EventsTrue(tools: seq<Tool>, calls: seq<ToolCall>, scripts: seq<CallScript>, ev: seq<Event>)
    requires |calls| == |scripts|
  {
    forall e <- ev :: EventTrue(tools, calls, scripts, e)
  }

  ghost predicate EventTrue(tools: seq<Tool>, calls: seq<ToolCall>, scripts: seq<CallScript>, e: Event)
    requires |calls| == |scripts|
  {
    IsToolEvent(e) ==>
      && e.pos < |calls| && e.call == calls[e.pos]
      && (e.ToolUpdate? ==> MayRun(tools, e.call, scripts[e.pos]))
      && (e.ToolEnd? ==> ComesTo(tools, e.call, scripts[e.pos], Outcome(e.result, e.isError)))
  }

  /** The first results say what their calls came to. */
  ghost predicate ResultsTrue(tools: seq<Tool>, calls: seq<ToolCall>, scripts: seq<CallScript>, messages: seq<Msg>)
    requires |calls| == |scripts|
  {
    && |messages| <= |calls|
    && forall i | 0 <= i < |messages| :: ResultTrue(tools, calls[i], scripts[i], messages[i])
  }

  ghost predicate ResultTrue(tools: seq<Tool>, call: ToolCall, s: CallScript, m: Msg) {
    exists o :: ComesTo(tools, call, s, o) && Reports(call, o, m)
  }

  lemma ResultsAreTrue(tools: seq<Tool>, calls: seq<ToolCall>, scripts: seq<CallScript>, n: nat)
    requires n <= |calls| == |scripts|
    ensures ResultsTrue(tools, calls, scripts, ResultMessages(calls, Outcomes(tools, calls, scripts, n)))
  {
    var messages := ResultMessages(calls, Outcomes(tools, calls, scripts, n));
    forall i | 0 <= i < n
      ensures ResultTrue(tools, calls[i], scripts[i], messages[i])
    {
      var o := CallOutcome(tools, calls[i], scripts[i]);
      ComesToIff(tools, calls[i], scripts[i], o);
      hide CallOutcome, ComesTo;
      assert Reports(calls[i], o, messages[i]);
    }
  }

  lemma EventsTrueAppend(tools: seq<Tool>, calls: seq<ToolCall>, scripts: seq<CallScript>, a: seq<Event>, b: seq<Event>)
    requires |calls| == |scripts| && EventsTrue(tools, calls, scripts, a) && EventsTrue(tools, calls, scripts, b)
    ensures EventsTrue(tools, calls, scripts, a + b)
  {
    hide EventTrue;
  }

  lemma NoToolEvents(tools: seq<Tool>, calls: seq<ToolCall>, scripts: seq<CallScript>, ev: seq<Event>)
    requires |calls| == |scripts| && forall e <- ev :: !IsToolEvent(e)
    ensures EventsTrue(tools, calls, scripts, ev)
  {
  }

  /** The partial results shown of call i, in order. */
  function UpdatesOf(ev: seq<Event>, i: nat): seq<Data> {
    if ev == [] then []
    else
      var e := ev[|ev| - 1];
      UpdatesOf(ev[..|ev| - 1], i) + (if e.ToolUpdate? && e.pos == i then [e.partialResult] else [])
  }

  lemma UpdatesSnoc(ev: seq<Event>, e: Event, i: nat)
    ensures UpdatesOf(ev + [e], i) == UpdatesOf(ev, i) + (if e.ToolUpdate? && e.pos == i then [e.partialResult] else [])
  {
    assert (ev + [e])[..|ev|] == ev;
  }

  lemma {:induction false} UpdatesAppend(a: seq<Event>, b: seq<Event>, i: nat)
    ensures UpdatesOf(a + b, i) == UpdatesOf(a, i) + UpdatesOf(b, i)
    decreases |b|
  {
    if b == [] {
      assert a + b == a;
    } else {
      var b', e := b[..|b| - 1], b[|b| - 1];
      assert a + b == (a + b') + [e] && b == b' + [e];
      UpdatesAppend(a, b', i);
      UpdatesSnoc(a + b', e, i);
      Associative(UpdatesOf(a, i), UpdatesOf(b', i), if e.ToolUpdate? && e.pos == i then [e.partialResult] else []);
    }
  }

  lemma {:induction false} NoUpdates(ev: seq<Event>, i: nat)
    requires forall e <- ev :: e.ToolUpdate? ==> e.pos != i
    ensures UpdatesOf(ev, i) == []
  {
    if ev != [] {
      NoUpdates(ev[..|ev| - 1], i);
    }
  }
}
