/** The course of a run, stated without following the loop: which turns it has, what each begins with, and when it
    ends. */
module LoopCourse {
  import opened Seqs
  import opened AgentTypes
  import opened ToolCalls
  import opened ToolRules
  import opened ToolBatch
  import opened MessageQueue
  import opened Transcript
  import opened AgentTurn

  /** What a run starts from, and what its surroundings will do. */
  datatype Setup = Setup(
    tools: seq<Tool>,
    mode: ExecutionMode,
    script: seq<TurnScript>,
    steering: Queue,
    followUp: Queue,
    firstOps: seq<QueueOp>,
    skipFirstPoll: bool)

  ghost predicate Usable(s: Setup) {
    forall t <- s.script :: WellFormed(t)
  }

  /** The tools offered in turn k: those of the latest context `prepareNextTurn` gave, or the first ones. */
  function ToolsAt(s: Setup, k: nat): seq<Tool>
    requires k <= |s.script|
  {
    if k == 0 then s.tools
    else match s.script[k - 1].update case Some(context) => context.tools case None => ToolsAt(s, k - 1)
  }

  /** The steering queue before turn k: what others did to it, and one poll at the start unless that is skipped and one
      after every turn. */
  function SteeringLog(s: Setup, k: nat): seq<QueueEvent>
    requires k <= |s.script|
  {
    if k == 0 then Performed(s.firstOps) + (if s.skipFirstPoll then [] else [Polled])
    else SteeringLog(s, k - 1) + Performed(s.script[k - 1].steering) + [Polled]
  }

  /** What the steering poll after turn k hands out. */
  function SteeringFound(s: Setup, k: nat): seq<Msg>
    requires k < |s.script|
  {
    Drained(Replay(s.steering, SteeringLog(s, k) + Performed(s.script[k].steering)))
  }

  /** After turn k the loop would stop: no tool work is due, and the steering poll found nothing. */
  ghost predicate WouldStop(s: Setup, k: nat)
    requires Usable(s) && k < |s.script|
  {
    assert s.script[k] in s.script;
    !WorkDue(ToolsAt(s, k), s.script[k]) && SteeringFound(s, k) == []
  }

  /** The follow-up queue before turn k: it is polled only where the loop would stop. */
  ghost function FollowUpLog(s: Setup, k: nat): seq<QueueEvent>
    requires Usable(s) && k <= |s.script|
  {
    if k == 0 then []
    else FollowUpLog(s, k - 1) + Performed(s.script[k - 1].followUp) + (if WouldStop(s, k - 1) then [Polled] else [])
  }

  /** What a follow-up poll after turn k would hand out. */
  ghost function FollowUpFound(s: Setup, k: nat): seq<Msg>
    requires Usable(s) && k < |s.script|
  {
    Drained(Replay(s.followUp, FollowUpLog(s, k) + Performed(s.script[k].followUp)))
  }

  /** A run ends after turn k if its reply failed, if it is told to stop, or if it would stop and no follow-up waits. */
  ghost predicate Ends(s: Setup, k: nat)
    requires Usable(s) && k < |s.script|
  {
    Failed(s.script[k].reply) || s.script[k].stop || (WouldStop(s, k) && FollowUpFound(s, k) == [])
  }

  /** Turn k never ends: a tool it started does not. */
  ghost predicate Hangs(s: Setup, k: nat)
    requires Usable(s) && k < |s.script|
  {
    assert s.script[k] in s.script;
    !Failed(s.script[k].reply) && StillRuns(ToolsAt(s, k), s.script[k], s.mode)
  }

  /** The messages turn k begins with: those of the last poll before it. */
  ghost function FoundBefore(s: Setup, k: nat): seq<Msg>
    requires Usable(s) && k <= |s.script|
  {
    if k == 0 then (if s.skipFirstPoll then [] else Drained(Replay(s.steering, Performed(s.firstOps))))
    else if WouldStop(s, k - 1) then FollowUpFound(s, k - 1)
    else SteeringFound(s, k - 1)
  }

  ghost function OriginBefore(s: Setup, k: nat): Origin
    requires Usable(s) && k <= |s.script|
  {
    if k > 0 && WouldStop(s, k - 1) then FollowUp else Steering
  }

  /** The results of turn k say what its calls came to; a turn that failed or hangs has none. */
  ghost predicate TurnMeant(s: Setup, k: nat, results: seq<Msg>)
    requires Usable(s) && k < |s.script|
  {
    assert s.script[k] in s.script;
    if Failed(s.script[k].reply) || Hangs(s, k) then results == []
    else ResultsMeant(ToolsAt(s, k), s.script[k], results)
  }

  /** The entries of the first turns, given the results of each: the messages it begins with, its reply, its results. */
  ghost function Laid(s: Setup, results: seq<seq<Msg>>): seq<Entry>
    requires Usable(s) && |results| <= |s.script|
    decreases |results|
  {
    if results == [] then []
    else
      var k := |results| - 1;
      Laid(s, results[..k]) + Tag(FoundBefore(s, k), OriginBefore(s, k)) + TurnEntries(k, s.script[k], results[k])
  }

  /** The entries are those there were and those of the turns, whose results say what the calls came to. */
  ghost predicate LaidOut(s: Setup, base: seq<Entry>, entries: seq<Entry>, results: seq<seq<Msg>>) {
    && Usable(s) && |results| <= |s.script| && entries == base + Laid(s, results)
    && forall k | 0 <= k < |results| :: TurnMeant(s, k, results[k])
  }

  /** A run of n turns took its course: it went on after each turn but the last and, if it finished, ended after that;
      and nothing else is in the transcript. */
  ghost predicate Course(s: Setup, base: seq<Entry>, entries: seq<Entry>, n: nat, finished: bool, pending: seq<Msg>) {
    && Usable(s) && n <= |s.script|
    && (forall k | 0 <= k < n - 1 :: !Ends(s, k) && !Hangs(s, k))
    && (exists results :: |results| == n && LaidOut(s, base, entries, results))
    && (finished ==> n > 0 && Ends(s, n - 1) && !Hangs(s, n - 1) && pending == [])
    && (!finished ==>
          || (n > 0 && Hangs(s, n - 1) && pending == [])
          || (n == |s.script| && (n > 0 ==> !Ends(s, n - 1) && !Hangs(s, n - 1)) && pending == FoundBefore(s, n)))
  }

  lemma LaidMore(s: Setup, base: seq<Entry>, entries: seq<Entry>, results: seq<seq<Msg>>, last: seq<Msg>)
    requires LaidOut(s, base, entries, results) && |results| < |s.script| && TurnMeant(s, |results|, last)
    ensures var k := |results|;
      LaidOut(s, base, entries + Tag(FoundBefore(s, k), OriginBefore(s, k)) + TurnEntries(k, s.script[k], last),
              results + [last])
  {
    hide FoundBefore, OriginBefore, Tag, TurnEntries, TurnMeant, Laid;
    var k := |results|;
    LaidSnoc(s, results, last);
    Associative(base, Laid(s, results), Tag(FoundBefore(s, k), OriginBefore(s, k)));
    Associative(base, Laid(s, results) + Tag(FoundBefore(s, k), OriginBefore(s, k)), TurnEntries(k, s.script[k], last));
  }

  lemma LaidSnoc(s: Setup, results: seq<seq<Msg>>, last: seq<Msg>)
    requires Usable(s) && |results| < |s.script|
    ensures var k := |results|;
      Laid(s, results + [last])
      == Laid(s, results) + Tag(FoundBefore(s, k), OriginBefore(s, k)) + TurnEntries(k, s.script[k], last)
  {
    assert (results + [last])[..|results|] == results;
    hide FoundBefore, OriginBefore, Tag, TurnEntries;
  }

  lemma LaidNothing(s: Setup, base: seq<Entry>)
    requires Usable(s)
    ensures LaidOut(s, base, base, [])
  {
    assert base + [] == base;
  }

  lemma ResultDetermined(tools: seq<Tool>, call: ToolCall, s: CallScript, m: Msg, m': Msg)
    requires ResultTrue(tools, call, s, m) && ResultTrue(tools, call, s, m')
    ensures m == m'
  {
    var o :| ComesTo(tools, call, s, o) && Reports(call, o, m);
    var o' :| ComesTo(tools, call, s, o') && Reports(call, o', m');
    ComesToIff(tools, call, s, o);
    ComesToIff(tools, call, s, o');
    hide ComesTo, CallOutcome;
  }

  lemma TruncatedDetermined(call: ToolCall, m: Msg, m': Msg)
    requires SaysTruncated(call, m) && SaysTruncated(call, m')
    ensures m == m'
  {
    var o :| IsError(o, TruncatedCall(call.name)) && Reports(call, o, m);
    var o' :| IsError(o', TruncatedCall(call.name)) && Reports(call, o', m');
  }

  lemma SameLength(t: TurnScript, a: seq<Msg>, b: seq<Msg>)
    requires forall i: nat :: i < |a| <==> Executed(t, i)
    requires forall i: nat :: i < |b| <==> Executed(t, i)
    ensures |a| <= |b|
  {
    assert |b| < |b| <==> Executed(t, |b|);
    assert |b| < |a| <==> Executed(t, |b|);
  }

  lemma ResultsDetermined(tools: seq<Tool>, t: TurnScript, a: seq<Msg>, b: seq<Msg>)
    requires WellFormed(t) && ResultsMeant(tools, t, a) && ResultsMeant(tools, t, b)
    ensures a == b
  {
    hide Executed, ResultTrue, SaysTruncated;
    if t.reply.stop != Length {
      SameLength(t, a, b);
      SameLength(t, b, a);
    }
    forall i | 0 <= i < |a|
      ensures a[i] == b[i]
    {
      if t.reply.stop == Length {
        TruncatedDetermined(t.reply.calls[i], a[i], b[i]);
      } else {
        ResultDetermined(tools, t.reply.calls[i], t.calls[i], a[i], b[i]);
      }
    }
  }

  /** Everything about a run follows from what it started from and what its surroundings did: the number of turns,
      whether it finished, its whole transcript, and what it holds. */
  lemma CourseIsUnique(s: Setup, base: seq<Entry>, a: seq<Entry>, n: nat, finished: bool, p: seq<Msg>, b: seq<Entry>,
                       m: nat, finished': bool, p': seq<Msg>)
    requires Course(s, base, a, n, finished, p) && Course(s, base, b, m, finished', p')
    ensures n == m && finished == finished' && p == p' && a == b
  {
    hide Ends, Hangs, LaidOut, FoundBefore;
    assert n == m;
    var ra :| |ra| == n && LaidOut(s, base, a, ra);
    var rb :| |rb| == n && LaidOut(s, base, b, rb);
    LaidDetermined(s, base, a, ra, b, rb);
  }

  lemma LaidDetermined(s: Setup, base: seq<Entry>, a: seq<Entry>, ra: seq<seq<Msg>>, b: seq<Entry>, rb: seq<seq<Msg>>)
    requires LaidOut(s, base, a, ra) && LaidOut(s, base, b, rb) && |ra| == |rb|
    ensures a == b
  {
    hide Laid, ResultsMeant, Hangs;
    forall k | 0 <= k < |ra|
      ensures ra[k] == rb[k]
    {
      assert TurnMeant(s, k, ra[k]) && TurnMeant(s, k, rb[k]);
      assert s.script[k] in s.script;
      if !(Failed(s.script[k].reply) || Hangs(s, k)) {
        ResultsDetermined(ToolsAt(s, k), s.script[k], ra[k], rb[k]);
      }
    }
    assert ra == rb;
  }
}
