/** Whole histories of an agent: any sequence of its calls, across runs, refusals and modes, as seen by its transcript
    and its two queues. */
module AgentHistory {
  import opened Seqs
  import opened AgentTypes
  import opened MessageQueue
  import opened Transcript
  import opened AgentTurn
  import opened AgentLoop

  datatype View = View(transcript: seq<Msg>, steering: Queue, followUp: Queue, active: bool)

  /** What a call did: the messages it gave to each queue, the entries it added to the transcript, and the messages a
      run that goes on has taken from a queue but not announced yet. */
  datatype Move = Move(steered: seq<Msg>, followed: seq<Msg>, entries: seq<Entry>, held: seq<Msg>, from: Origin)

  const STILL: Move := Move([], [], [], [], Origin.Prompt)

  /** The messages of a queue the call injected: those in the transcript, in order, then those still held. */
  function InjectedIn(m: Move, own: Origin): seq<Msg> {
    From(m.entries, own) + (if m.from == own then m.held else [])
  }

  /** The transcript grows by the entries; both queues are conserved; while a run goes on no other begins; and only a
      run that goes on holds messages. */
  ghost predicate Moves(v: View, v': View, m: Move) {
    && v'.transcript == v.transcript + Untag(m.entries)
    && Conserved(v.steering, v'.steering, m.steered, InjectedIn(m, Steering))
    && Conserved(v.followUp, v'.followUp, m.followed, InjectedIn(m, FollowUp))
    && (v.active ==> v'.active && m.entries == [] && m.held == [])
    && (m.held != [] ==> v'.active)
  }

  datatype AgentCall =
    | DoSteer(message: Msg)
    | DoFollowUp(message: Msg)
    | DoClearSteering
    | DoClearFollowUps
    | DoSetSteeringMode(mode: QueueMode)
    | DoSetFollowUpMode(mode: QueueMode)
    | DoPrompt(messages: seq<Msg>, script: seq<TurnScript>, firstOps: seq<QueueOp>)
    | DoContinue(script: seq<TurnScript>, firstOps: seq<QueueOp>)

  /** What others gave to the queues during the first n turns of a run. */
  ghost predicate GivenDuring(m: Move, script: seq<TurnScript>, firstOps: seq<QueueOp>, n: nat) {
    && n <= |script|
    && m.steered == Enqueued(firstOps + SteeringOps(script, n))
    && m.followed == Enqueued(FollowUpOps(script, n))
  }

  /** The call may lead from one view to the other by this move. */
  ghost predicate Leads(v: View, call: AgentCall, v': View, m: Move) {
    && Moves(v, v', m)
    && match call
       case DoSteer(message) => m == STILL.(steered := [message])
       case DoFollowUp(message) => m == STILL.(followed := [message])
       case DoClearSteering => m == STILL && v'.steering.messages == []
       case DoClearFollowUps => m == STILL && v'.followUp.messages == []
       case DoSetSteeringMode(mode) => m == STILL && v'.steering == v.steering.(mode := mode)
       case DoSetFollowUpMode(mode) => m == STILL && v'.followUp == v.followUp.(mode := mode)
       case DoPrompt(messages, script, firstOps) =>
         if v.active then m == STILL && v' == v
         else Tag(messages, Origin.Prompt) <= m.entries && exists n: nat :: GivenDuring(m, script, firstOps, n)
       case DoContinue(script, firstOps) =>
         if CannotContinue(v) then m == STILL
         else Tag(TakenBy(v), TakenFrom(v)) <= m.entries && exists n: nat :: GivenDuring(m, script, firstOps, n)
  }

  predicate AfterReply(v: View) {
    v.transcript != [] && v.transcript[|v.transcript| - 1].Assistant?
  }

  predicate CannotContinue(v: View) {
    v.active || v.transcript == [] || (AfterReply(v) && Drained(v.steering) == [] && Drained(v.followUp) == [])
  }

  /** After a reply a continued run begins with what is drained, steering before follow-ups. */
  function TakenBy(v: View): seq<Msg> {
    if !AfterReply(v) then [] else if Drained(v.steering) != [] then Drained(v.steering) else Drained(v.followUp)
  }

  function TakenFrom(v: View): Origin {
    if !AfterReply(v) then Origin.Prompt else if Drained(v.steering) != [] then Steering else FollowUp
  }

  /** A history: the views before and after each call, with what the calls did. */
  ghost predicate History(views: seq<View>, calls: seq<AgentCall>, moves: seq<Move>) {
    && |views| == |calls| + 1 && |moves| == |calls|
    && forall i | 0 <= i < |calls| :: Leads(views[i], calls[i], views[i + 1], moves[i])
  }

  function Join(a: Move, b: Move): Move {
    Move(a.steered + b.steered, a.followed + b.followed, a.entries + b.entries, a.held + b.held,
         if a.held != [] then a.from else b.from)
  }

  function Total(moves: seq<Move>): Move {
    if moves == [] then STILL else Join(Total(moves[..|moves| - 1]), moves[|moves| - 1])
  }

  lemma ConservedTwice(q: Queue, q': Queue, q'': Queue, g: seq<Msg>, g': seq<Msg>, i: seq<Msg>, i': seq<Msg>)
    requires Conserved(q, q', g, i) && Conserved(q', q'', g', i')
    ensures Conserved(q, q'', g + g', i + i')
  {
    hide WithFate, Messages;
    Associative(Messages(q.history), g, g');
    Associative(WithFate(q.history, Injected), i, i');
    FatesTwice(q.history, q'.history, q''.history);
    PrefixTwice(WithFate(q.history, Cleared), WithFate(q'.history, Cleared), WithFate(q''.history, Cleared));
    hide KeepsFates;
  }

  lemma FatesTwice(h: seq<Given>, h': seq<Given>, h'': seq<Given>)
    requires KeepsFates(h, h') && KeepsFates(h', h'')
    ensures KeepsFates(h, h'')
  {
  }

  lemma PrefixTwice<T>(a: seq<T>, b: seq<T>, c: seq<T>)
    requires a <= b <= c
    ensures a <= c
  {
  }

  lemma JoinInjects(a: Move, b: Move, own: Origin)
    requires a.held != [] ==> b.entries == [] && b.held == []
    ensures InjectedIn(Join(a, b), own) == InjectedIn(a, own) + InjectedIn(b, own)
  {
    FromAppend(a.entries, b.entries, own);
    hide From;
    if a.held != [] {
      assert a.entries + b.entries == a.entries && a.held + b.held == a.held;
      assert From([], own) == [];
    } else {
      assert a.held + b.held == b.held;
    }
  }

  /** Two moves, one after the other, are one. */
  lemma MovesTwice(v: View, v': View, v'': View, a: Move, b: Move)
    requires Moves(v, v', a) && Moves(v', v'', b)
    ensures Moves(v, v'', Join(a, b))
  {
    hide Conserved, InjectedIn;
    JoinInjects(a, b, Steering);
    JoinInjects(a, b, FollowUp);
    ConservedTwice(v.steering, v'.steering, v''.steering, a.steered, b.steered,
                   InjectedIn(a, Steering), InjectedIn(b, Steering));
    ConservedTwice(v.followUp, v'.followUp, v''.followUp, a.followed, b.followed,
                   InjectedIn(a, FollowUp), InjectedIn(b, FollowUp));
    UntagAppend(a.entries, b.entries);
    Associative(v.transcript, Untag(a.entries), Untag(b.entries));
    hide Untag;
  }

  lemma StillMoves(v: View)
    requires Valid(v.steering) && Valid(v.followUp)
    ensures Moves(v, v, STILL)
  {
    hide Conserved, Valid;
    StillConserved(v.steering);
    StillConserved(v.followUp);
    assert InjectedIn(STILL, Steering) == [] && InjectedIn(STILL, FollowUp) == [];
    assert v.transcript + Untag([]) == v.transcript;
  }

  lemma StillConserved(q: Queue)
    requires Valid(q)
    ensures Conserved(q, q, [], [])
  {
    Conservation(q, []);
    assert Replay(q, []) == q && GivenBy([]) == [] && PolledBy(q, []) == [];
    hide Replay, GivenBy, PolledBy, Conserved;
  }

  /** Over any history: the transcript grew by the entries of all runs in order; for each queue, every message it held
      or was ever given is still queued, or cleared, or injected just once; and what was injected is the queue's
      messages of all those entries, in transcript order, then those a run that still goes on holds. */
  lemma {:induction false} EveryHistory(views: seq<View>, calls: seq<AgentCall>, moves: seq<Move>)
    requires History(views, calls, moves) && Valid(views[0].steering) && Valid(views[0].followUp)
    ensures Moves(views[0], views[|calls|], Total(moves))
  {
    hide Moves, Valid;
    if calls == [] {
      StillMoves(views[0]);
    } else {
      var n := |calls| - 1;
      assert Leads(views[n], calls[n], views[n + 1], moves[n]);
      forall i | 0 <= i < n
        ensures Leads(views[..n + 1][i], calls[..n][i], views[..n + 1][i + 1], moves[..n][i])
      {
        assert Leads(views[i], calls[i], views[i + 1], moves[i]);
        hide Leads;
      }
      EveryHistory(views[..n + 1], calls[..n], moves[..n]);
      MovesTwice(views[0], views[n], views[n + 1], Total(moves[..n]), moves[n]);
    }
  }

  /** The move of a run that began with prompts, all of them taken from a queue or none. */
  function MoveOf(r: LoopResult, prompts: seq<Msg>, own: Origin, script: seq<TurnScript>, firstOps: seq<QueueOp>): Move
    requires |prompts| <= |r.entries| && r.turns <= |script|
  {
    Move(Enqueued(firstOps + SteeringOps(script, r.turns)), Enqueued(FollowUpOps(script, r.turns)),
         Tag(prompts, own) + r.entries[|prompts|..], r.pending, r.origin)
  }

  lemma RunMoves(v: View, v': View, r: LoopResult, prompts: seq<Msg>, own: Origin, script: seq<TurnScript>,
                 firstOps: seq<QueueOp>)
    requires r.turns <= |script| && Tag(prompts, Origin.Prompt) <= r.entries
    requires !v.active && v'.transcript == v.transcript + Untag(r.entries) && (r.pending != [] ==> v'.active)
    requires Conserved(v.steering, v'.steering, Enqueued(firstOps + SteeringOps(script, r.turns)),
                       (if own == Steering then prompts else []) + InjectedBy(r, Steering))
    requires Conserved(v.followUp, v'.followUp, Enqueued(FollowUpOps(script, r.turns)),
                       (if own == FollowUp then prompts else []) + InjectedBy(r, FollowUp))
    ensures var m := MoveOf(r, prompts, own, script, firstOps);
      Moves(v, v', m) && GivenDuring(m, script, firstOps, r.turns) && Tag(prompts, own) <= m.entries
  {
    hide Conserved, Tag, Untag, From, Enqueued, SteeringOps, FollowUpOps;
    Retagged(r.entries, prompts, own);
    var held := (q: Origin) => if r.origin == q then r.pending else [];
    Associative(if own == Steering then prompts else [], From(r.entries, Steering), held(Steering));
    Associative(if own == FollowUp then prompts else [], From(r.entries, FollowUp), held(FollowUp));
  }

  /** The prompts taken from a queue count as its messages. */
  lemma Retagged(entries: seq<Entry>, taken: seq<Msg>, own: Origin)
    requires Tag(taken, Origin.Prompt) <= entries
    ensures var e := Tag(taken, own) + entries[|taken|..];
      && Untag(e) == Untag(entries)
      && From(e, Steering) == (if own == Steering then taken else []) + From(entries, Steering)
      && From(e, FollowUp) == (if own == FollowUp then taken else []) + From(entries, FollowUp)
  {
    var rest := entries[|taken|..];
    assert entries == Tag(taken, Origin.Prompt) + rest;
    FromRetagged(taken, rest, own, Steering);
    FromRetagged(taken, rest, own, FollowUp);
    UntagRetagged(taken, rest, own);
    hide From, Tag, Untag;
  }

  lemma FromRetagged(taken: seq<Msg>, rest: seq<Entry>, own: Origin, q: Origin)
    requires q != Origin.Prompt
    ensures From(Tag(taken, own) + rest, q)
         == (if own == q then taken else []) + From(Tag(taken, Origin.Prompt) + rest, q)
  {
    FromAppend(Tag(taken, own), rest, q);
    FromAppend(Tag(taken, Origin.Prompt), rest, q);
    FromTagged(taken, own, q);
    FromTagged(taken, Origin.Prompt, q);
    hide From, Tag;
    assert [] + From(rest, q) == From(rest, q);
  }

  lemma UntagRetagged(taken: seq<Msg>, rest: seq<Entry>, own: Origin)
    ensures Untag(Tag(taken, own) + rest) == Untag(Tag(taken, Origin.Prompt) + rest)
  {
    UntagAppend(Tag(taken, own), rest);
    UntagAppend(Tag(taken, Origin.Prompt), rest);
    UntagTagged(taken, own);
    UntagTagged(taken, Origin.Prompt);
    hide Tag, Untag;
  }
}
