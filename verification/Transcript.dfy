/** What the loop owes its transcript: every assistant message with tool calls is followed at once by their results. */
module Transcript {
  import opened Seqs
  import opened AgentTypes
  import opened ToolCalls
  import opened ParallelBatch
  import opened MessageQueue

  datatype StreamEvent = Start(partialMessage: Msg) | Delta(partialMessage: Msg) | Terminal

  datatype Context = Context(messages: seq<Msg>, tools: seq<Tool>)

  /** Everything the environment does in one turn: the provider stream and its final message, the tools, the
      answer of `prepareNextTurn`, the answer of `shouldStopAfterTurn`, and what is done to the two queues. */
  datatype TurnScript = TurnScript(
    stream: seq<StreamEvent>,
    reply: Msg,
    calls: seq<CallScript>,
    schedule: seq<Tick>,
    update: Option<Context>,
    stop: bool,
    steering: seq<QueueOp>,
    followUp: seq<QueueOp>)

  predicate WellFormed(t: TurnScript) {
    t.reply.Assistant? && |t.calls| == |t.reply.calls|
  }

  /** Where a message of the transcript came from. */
  datatype Origin = Prompt | Steering | FollowUp | Reply(turn: nat) | Result(turn: nat, pos: nat)

  datatype Entry = Entry(origin: Origin, message: Msg)

  function Untag(entries: seq<Entry>): (r: seq<Msg>)
    ensures |r| == |entries|
  {
    seq(|entries|, i requires 0 <= i < |entries| => entries[i].message)
  }

  function Tag(messages: seq<Msg>, origin: Origin): (r: seq<Entry>)
    ensures |r| == |messages|
  {
    seq(|messages|, i requires 0 <= i < |messages| => Entry(origin, messages[i]))
  }

  function TagResults(turn: nat, messages: seq<Msg>): (r: seq<Entry>)
    ensures |r| == |messages|
  {
    seq(|messages|, i requires 0 <= i < |messages| => Entry(Result(turn, i), messages[i]))
  }

  /** The messages of one origin, in order. */
  function From(entries: seq<Entry>, origin: Origin): seq<Msg> {
    if entries == [] then []
    else
      var e := entries[|entries| - 1];
      From(entries[..|entries| - 1], origin) + (if e.origin == origin then [e.message] else [])
  }

  lemma {:induction false} FromAppend(a: seq<Entry>, b: seq<Entry>, origin: Origin)
    ensures From(a + b, origin) == From(a, origin) + From(b, origin)
    decreases |b|
  {
    if b == [] {
      assert a + b == a;
    } else {
      var b', e := b[..|b| - 1], b[|b| - 1];
      assert (a + b)[..|a + b| - 1] == a + b';
      FromAppend(a, b', origin);
    }
  }

  lemma {:induction false} FromTagged(messages: seq<Msg>, tag: Origin, origin: Origin)
    ensures From(Tag(messages, tag), origin) == if tag == origin then messages else []
  {
    if messages != [] {
      FromTagged(messages[..|messages| - 1], tag, origin);
      assert Tag(messages, tag)[..|messages| - 1] == Tag(messages[..|messages| - 1], tag);
    }
  }

  lemma {:induction false} FromNone(entries: seq<Entry>, origin: Origin)
    requires forall e <- entries :: e.origin != origin
    ensures From(entries, origin) == []
  {
    if entries != [] {
      FromNone(entries[..|entries| - 1], origin);
    }
  }

  /** Reading a transcript from the left: nothing owed, some results of the last reply still owed, nothing
      may follow, or the pairing is broken. */
  datatype Owing = Settled | Owes(turn: nat, calls: seq<ToolCall>, next: nat) | Final | Mispaired

  predicate Failed(m: Msg) {
    m.Assistant? && (m.stop == Error || m.stop == Aborted)
  }

  /** All results are there, or a non-empty prefix of them and the signal was seen aborted after the last one. */
  predicate PaidUp(o: Owing, script: seq<TurnScript>) {
    match o
    case Settled => true
    case Owes(turn, calls, next) =>
      || next == |calls|
      || (0 < next && turn < |script| && next <= |script[turn].calls| && script[turn].calls[next - 1].abortedAfter)
    case _ => false
  }

  predicate Answers(m: Msg, call: ToolCall) {
    m.ToolResult? && m.callId == call.id && m.toolName == call.name
  }

  function Pay(o: Owing, e: Entry, script: seq<TurnScript>): Owing {
    match e.origin
    case Reply(turn) =>
      if !PaidUp(o, script) || !e.message.Assistant? then Mispaired
      else if Failed(e.message) then Final
      else Owes(turn, e.message.calls, 0)
    case Result(turn, pos) =>
      if o.Owes? && o.turn == turn && o.next == pos < |o.calls|
          && Answers(e.message, o.calls[pos]) then o.(next := pos + 1)
      else Mispaired
    case _ => if PaidUp(o, script) then Settled else Mispaired
  }

  function PayAll(o: Owing, entries: seq<Entry>, script: seq<TurnScript>): Owing {
    if entries == [] then o else Pay(PayAll(o, entries[..|entries| - 1], script), entries[|entries| - 1], script)
  }

  lemma {:induction false} PayAppend(o: Owing, a: seq<Entry>, b: seq<Entry>, script: seq<TurnScript>)
    ensures PayAll(o, a + b, script) == PayAll(PayAll(o, a, script), b, script)
    decreases |b|
  {
    if b == [] {
      assert a + b == a;
    } else {
      var b' := b[..|b| - 1];
      assert (a + b)[..|a + b| - 1] == a + b';
      PayAppend(o, a, b', script);
    }
  }

  /** The transcript pairs calls with results throughout. */
  ghost predicate Paired(entries: seq<Entry>, script: seq<TurnScript>) {
    var o := PayAll(Settled, entries, script);
    PaidUp(o, script) || o == Final
  }

  lemma {:induction false} PayTagged(o: Owing, messages: seq<Msg>, tag: Origin, script: seq<TurnScript>)
    requires PaidUp(o, script) && !tag.Reply? && !tag.Result?
    ensures PayAll(o, Tag(messages, tag), script) == if messages == [] then o else Settled
  {
    if messages != [] {
      PayTagged(o, messages[..|messages| - 1], tag, script);
      assert Tag(messages, tag)[..|messages| - 1] == Tag(messages[..|messages| - 1], tag);
    }
  }

  lemma {:induction false} PayResults(turn: nat, calls: seq<ToolCall>, messages: seq<Msg>, script: seq<TurnScript>)
    requires |messages| <= |calls| && forall i | 0 <= i < |messages| :: Answers(messages[i], calls[i])
    ensures PayAll(Owes(turn, calls, 0), TagResults(turn, messages), script) == Owes(turn, calls, |messages|)
  {
    if messages != [] {
      var front := messages[..|messages| - 1];
      PayResults(turn, calls, front, script);
      assert TagResults(turn, messages)[..|messages| - 1] == TagResults(turn, front);
    }
  }

  /** Mispairing is for good. */
  lemma {:induction false} MispairedForGood(entries: seq<Entry>, script: seq<TurnScript>)
    ensures PayAll(Mispaired, entries, script) == Mispaired
  {
    if entries != [] {
      MispairedForGood(entries[..|entries| - 1], script);
    }
  }

  /** What pairing means in words: the reply at j is followed at once by n results, the i-th answering its i-th
      call; n is the number of calls, or, after an abort, at least one; and no further result follows. */
  ghost predicate Followed(entries: seq<Entry>, script: seq<TurnScript>, j: nat, n: nat) {
    && j < |entries| && entries[j].origin.Reply? && entries[j].message.Assistant?
    && var turn, calls := entries[j].origin.turn, entries[j].message.calls;
    && n <= |calls| && j + n < |entries|
    && (forall i | 0 <= i < n ::
          entries[j + 1 + i].origin == Result(turn, i) && Answers(entries[j + 1 + i].message, calls[i]))
    && PaidUp(Owes(turn, calls, n), script)
    && (j + 1 + n < |entries| ==> !entries[j + 1 + n].origin.Result?)
  }

  lemma PairedMeansFollowed(entries: seq<Entry>, script: seq<TurnScript>, j: nat) returns (n: nat)
    requires Paired(entries, script) && j < |entries| && entries[j].origin.Reply?
    ensures entries[j].message.Assistant?
    ensures !Failed(entries[j].message) ==> Followed(entries, script, j, n)
    ensures Failed(entries[j].message) ==> j == |entries| - 1
  {
    hide Pay, PayAll, PaidUp, Answers, Failed;
    var before, e, rest := entries[..j], entries[j], entries[j + 1..];
    var o := Pay(PayAll(Settled, before, script), e, script);
    PaySplit(Settled, entries, j, script);
    PayNone(o, script);
    MispairedForGood(rest, script);
    ReplyOwes(PayAll(Settled, before, script), e, script);
    n := 0;
    if Failed(e.message) {
      NothingAfterFinal(rest, script);
    } else {
      n := OwedRun(e.origin.turn, e.message.calls, 0, rest, script);
      forall i | 0 <= i < n
        ensures entries[j + 1 + i] == rest[i]
      {
      }
    }
  }

  /** The pairing of a run that goes on: nothing is owed, or the last entry is a reply whose tools are still running
      and nothing is owed before it. */
  ghost predicate PairedSoFar(entries: seq<Entry>, script: seq<TurnScript>) {
    || PaidUp(PayAll(Settled, entries, script), script)
    || (&& entries != [] && entries[|entries| - 1].origin.Reply?
        && PaidUp(PayAll(Settled, entries[..|entries| - 1], script), script))
  }

  /** Every reply of a run that goes on, but for one whose tools are still running, is followed by its results. */
  lemma PairedSoFarMeansFollowed(entries: seq<Entry>, script: seq<TurnScript>, j: nat) returns (n: nat)
    requires PairedSoFar(entries, script) && j < |entries| && entries[j].origin.Reply?
    requires j < |entries| - 1 || PaidUp(PayAll(Settled, entries, script), script)
    ensures Followed(entries, script, j, n) && !Failed(entries[j].message)
  {
    hide PayAll, PaidUp, Answers;
    var past := if PaidUp(PayAll(Settled, entries, script), script) then entries else entries[..|entries| - 1];
    n := PairedMeansFollowed(past, script, j);
    PaidUpIsNotFinal(script);
    if Failed(past[j].message) {
      FailedIsFinal(past, script);
    }
    FollowedFurther(past, entries, script, j, n);
  }

  lemma FollowedFurther(past: seq<Entry>, entries: seq<Entry>, script: seq<TurnScript>, j: nat, n: nat)
    requires Followed(past, script, j, n) && past <= entries
    requires past == entries || (|entries| == |past| + 1 && !entries[|past|].origin.Result?)
    ensures Followed(entries, script, j, n)
  {
    hide PaidUp, Answers;
  }

  lemma PaidUpIsNotFinal(script: seq<TurnScript>)
    ensures !PaidUp(Final, script)
  {
  }

  lemma FailedIsFinal(entries: seq<Entry>, script: seq<TurnScript>)
    requires entries != [] && entries[|entries| - 1].origin.Reply? && Failed(entries[|entries| - 1].message)
    ensures PayAll(Settled, entries, script) == Final || PayAll(Settled, entries, script) == Mispaired
    ensures !PaidUp(PayAll(Settled, entries, script), script)
  {
  }

  lemma ReplyOwes(o: Owing, e: Entry, script: seq<TurnScript>)
    requires e.origin.Reply? && Pay(o, e, script) != Mispaired
    ensures e.message.Assistant?
    ensures Pay(o, e, script) == if Failed(e.message) then Final else Owes(e.origin.turn, e.message.calls, 0)
  {
  }

  lemma PaySplit(o: Owing, entries: seq<Entry>, j: nat, script: seq<TurnScript>)
    requires j < |entries|
    ensures PayAll(o, entries, script) == PayAll(Pay(PayAll(o, entries[..j], script), entries[j], script),
        entries[j + 1..], script)
  {
    PayAppend(o, entries[..j], entries[j..], script);
    assert entries == entries[..j] + entries[j..];
    PayFirst(PayAll(o, entries[..j], script), entries[j..], script);
    assert entries[j..][1..] == entries[j + 1..];
  }

  lemma {:induction false} NothingAfterFinal(rest: seq<Entry>, script: seq<TurnScript>)
    ensures rest != [] ==> PayAll(Final, rest, script) == Mispaired
  {
    if rest != [] {
      NothingAfterFinal(rest[..|rest| - 1], script);
    }
  }

  lemma PayFirst(o: Owing, entries: seq<Entry>, script: seq<TurnScript>)
    requires entries != []
    ensures PayAll(o, entries, script) == PayAll(Pay(o, entries[0], script), entries[1..], script)
  {
    assert entries == [entries[0]] + entries[1..];
    assert [entries[0]][..0] == [];
    PayAppend(o, [entries[0]], entries[1..], script);
    assert PayAll(o, [entries[0]], script) == Pay(o, entries[0], script);
  }

  lemma PayNone(o: Owing, script: seq<TurnScript>)
    ensures PayAll(o, [], script) == o && !PaidUp(Mispaired, script)
  {
  }

  /** What the first entry after a reply or a result can be. */
  lemma OwedFirst(turn: nat, calls: seq<ToolCall>, next: nat, e: Entry, script: seq<TurnScript>)
    requires Pay(Owes(turn, calls, next), e, script) != Mispaired
    ensures !e.origin.Result? ==> PaidUp(Owes(turn, calls, next), script)
    ensures e.origin.Result? ==> e.origin == Result(turn, next) && next < |calls| && Answers(e.message, calls[next])
                                 && Pay(Owes(turn, calls, next), e, script) == Owes(turn, calls, next + 1)
  {
    hide Answers;
  }

  /** From a state that owes results, the entries begin with m results in order, up to where it is paid up. */
  lemma {:induction false} OwedRun(turn: nat, calls: seq<ToolCall>, next: nat, rest: seq<Entry>,
      script: seq<TurnScript>) returns (m: nat)
    requires next <= |calls|
    requires var o := PayAll(Owes(turn, calls, next), rest, script); PaidUp(o, script) || o == Final
    ensures next + m <= |calls| && m <= |rest|
    ensures forall i | 0 <= i < m ::
      rest[i].origin == Result(turn, next + i) && Answers(rest[i].message, calls[next + i])
    ensures PaidUp(Owes(turn, calls, next + m), script)
    ensures m < |rest| ==> !rest[m].origin.Result?
    decreases |rest|
  {
    hide Pay, PayAll, PaidUp, Answers;
    m := 0;
    PayNone(Owes(turn, calls, next), script);
    if rest != [] {
      PayFirst(Owes(turn, calls, next), rest, script);
      MispairedForGood(rest[1..], script);
      OwedFirst(turn, calls, next, rest[0], script);
      if rest[0].origin.Result? {
        var k := OwedRun(turn, calls, next + 1, rest[1..], script);
        m := k + 1;
        forall i | 0 <= i < m
          ensures rest[i].origin == Result(turn, next + i) && Answers(rest[i].message, calls[next + i])
        {
          if i > 0 {
            assert rest[i] == rest[1..][i - 1];
          }
        }
      }
    }
  }
}
