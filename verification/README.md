# Verified models of the agent loop, the session client, the wire protocol and the model registry

A Dafny project that models the stateful core of the repository and proves what its documentation and its structure
promise. `dafny verify dfyconfig.toml` checks everything. There are no assumptions in the Dafny text: what the models
assume of their surroundings is written as parameters, as `requires` clauses, or as a predicate over a run, and is
listed below.

## How the models are built

- **Environment as a script.** What the provider, the tools, the hooks, the store, the server and the sockets do is an
  arbitrary input: a script of turns for the agent loop, a sequence of events for the step systems. Theorems hold for
  every script and every sequence.
- **Step systems.** Client leases, connection, requests, publication and the send queue are functions
  `Step(state, event)` with `Run` over a sequence of events. One step is one call, or one settlement of a promise
  together with the code that runs because of it. The leases are finer: a reply and the continuation of the call that
  awaited it are two steps, because one chunk can hold several messages, all handled before any continuation runs.
  Each has a class whose methods update fields in place. `Valid` of the class is the invariant of the runs, stated of
  its fields. Every method that stands for a step requires `Valid`, keeps it, and is proved to take exactly that step,
  so what holds after every run holds of every object between its methods; the other methods are parts of these. A
  method for something the surroundings do, such as a reply, requires what makes the event possible then. Three methods
  of `PiClient` (a removed session, a disconnect, a new connection) can be called when they are not timely; they still
  take their step, and keep `Valid` whenever they are.
- **Effects.** Invariants say what never happens. What each step has to achieve is stated apart, in the `...Effects`
  files, `ToolRules.dfy`, `LoopCourse.dfy` and `CanonicalMeaning.dfy`, without naming the functions the steps are made
  of: which requests are settled and how, which lease is live afterwards, which update is shown, when a run ends.
- **Logs.** Where a property is about what a component has done over time (notifications, settled promises, closed
  transports, updates applied, chunks handed to the socket) the state carries a log of it.

| file | what it covers |
|---|---|
| `FrameSpec.dfy`, `FrameDecoder.dfy`, `MessageCodec.dfy` | length-prefixed framing: a whole-stream parser, the decoder that refines it with a header buffer and 64 KiB blocks, and the validated message decoder on top |
| `ProtocolValue.dfy` | the graph walk with a mutable ancestor set |
| `KeyOrder.dfy`, `CanonicalJson.dfy`, `CanonicalPrint.dfy`, `CanonicalMeaning.dfy` | canonical JSON: what is accepted, what is made of it, and what its printed form decides |
| `AgentTypes.dfy`, `ToolCalls.dfy`, `ToolRules.dfy`, `ToolBatch.dfy`, `ParallelBatch.dfy` | events, the state reducer and the trace grammar; one tool call, and the rules for what it may do and comes to; the sequential and the parallel executor |
| `MessageQueue.dfy`, `Transcript.dfy`, `AgentTurn.dfy`, `LoopCourse.dfy`, `AgentLoop.dfy`, `AgentHistory.dfy`, `Agent.dfy` | queues, call/result pairing, a turn, the course a run has to take, the loop, histories of calls, and the stateful wrapper |
| `Leases.dfy`, `LeaseInvariant.dfy`, `LeaseAttachment.dfy`, `LeaseRecovery.dfy`, `LeaseSafety.dfy`, `LeaseEffects.dfy`, `LeaseClient.dfy` | session leases of the client |
| `Promises.dfy`, `Connection.dfy`, `ConnectionEffects.dfy`, `Requests.dfy`, `RequestEffects.dfy` | connection lifecycle and request matching |
| `UnixQueue.dfy`, `UnixEffects.dfy` | the bounded send queue of the Unix transport |
| `Publication.dfy`, `PublicationEffects.dfy`, `ModelOverlay.dfy`, `Cost.dfy` | generation-checked publication, the model overlay, tiered cost |
| `Seqs.dfy` | shared facts about sequences |

## Properties that are false of the code, and when they hold

- **Canonicalization is not idempotent.** `result[key] = ...` with the key `__proto__` calls the prototype setter instead
  of storing a property. `{"__proto__": {}}` is accepted, but its canonical form is no longer a plain object
  (`NotIdempotent`). `CanonTwice` gives the exact condition: canonicalizing again succeeds if and only if no object at
  any depth has an own `__proto__` key whose value is an object or an array.
- **Different values can have one canonical form.** For the same reason `{"__proto__": 1}` and `{}` do
  (`DroppedKeyCollides`). `PrintedFormDecides` says exactly when: two values print the same canonical form if and only
  if they are equal up to the order of keys, the sign of zero and own `__proto__` keys, at every depth.
- **The lease count is only right if nothing is under way when a session is removed.** The generation of a lease is
  read when the lease is created, not when it is reserved, and a release decrements whatever count is current.
  `SharedBesideExclusive` is a run, with a session removed while an acquire waits for its attach, that ends with a
  shared and an exclusive lease of one session live together. `InvalidationKeepsIff` gives the exact condition:
  a removal or a disconnect keeps ownership at that instant if and only if no acquire or release of the session is
  under way (`Orderly`).
- **A disconnect heals, except for an attach or a create already answered.** What a disconnect finds under way is
  rejected, and once all of it has given up ownership holds again at the next connection (`TimelyRunKeeps`), so only
  removals need to be orderly. The exception is a reply handled just before, for instance when the same chunk also holds
  a message that breaks the protocol, whose call goes on after the disconnect. An answered attach then makes a lease
  live without a share in any count (`LateAttach`). An answered create makes an exclusive lease live on a session that
  is not attached: no acquire of the session is granted then, and the lease cannot be released (`LateCreate`). A removal
  of the session in the same chunk as the reply does the same. `InvalidationClosesAllIff` gives the exact condition for
  both events. A run is `Timely` if removals are orderly, no disconnect comes between the answer to an attach or a
  create and the step it leads to, and what a disconnect rejected has given up before the next connection.
- **A create reply can name a session whose attach is under way, or one just detached.** The client then takes the
  session for attached, and if, for instance, that attach fails the session stays attached with nobody holding it and
  no mark for cleanup (`NamedWhileAttaching`). `CreateKeepsIff` gives the exact condition.
- **Message events nest when a provider stream sends a second start.** The trace grammar then breaks; `RunReports` says
  so exactly: the trace is grammatical if and only if every stream of the run has at most one start (`Clean`). The
  transcript, the pairing of calls and results and the reports in `agent_end` are right either way.

## Model

| member | source | states |
|---|---|---|
| FrameSpec.PrefixRoundTrip | packages/protocol/src/framing.ts:28-39 | the four header bytes written for a length read back as that length, for every 32-bit length |
| FrameSpec.PrefixValueRoundTrip | packages/protocol/src/framing.ts:45 | any four header bytes are the header of the length they stand for |
| FrameSpec.ParseAppend | packages/protocol/src/framing.ts:73-144 | decoding can be suspended after any byte and resumed from the unfinished tail without changing the outcome |
| FrameSpec.FeedRefinesParse | packages/protocol/src/framing.ts:73-165 | the pushes of any split of a byte stream deliver exactly the payloads a parse of the whole stream finds, keep its tail, and fail exactly when the stream has an overlong frame, after delivering what was complete before the failing chunk |
| FrameSpec.ChunkingIndependence | packages/protocol/src/framing.ts:73-165 | two splits of the same bytes fail together, and otherwise agree on payloads and state |
| FrameSpec.WireRoundTrip | packages/protocol/src/framing.ts:28-153 | the concatenated encodings of any payloads within the limit, split in any way, decode to those payloads in order and `end()` succeeds |
| FrameSpec.CompleteFrameIff | packages/protocol/src/framing.ts:42-53 | a frame is complete if and only if one push of it and an `end()` yield exactly one payload, if and only if it is the encoding of a payload within the limit |
| FrameSpec.ParseMeans | packages/protocol/src/framing.ts:73-144 | what a parse is, without following it: the stream is the frames of the payloads found, each within the limit, and then either bytes that are no complete frame yet or bytes that begin with the header of a frame over the limit, however little of that frame has come |
| FrameSpec.WholeFramesIff | packages/protocol/src/framing.ts:28-153 | a stream is the frames of given payloads and nothing else if and only if its parse finds these payloads and leaves nothing |
| FrameSpec.DecoderErrors | packages/protocol/src/framing.ts:73-153 | when a push or an end fails, and with which error: ended, failed before, over the limit, or truncated |
| FrameSpec.FrameErrors | packages/protocol/src/framing.ts:42-53 | which of the three errors a frame that is not complete gets |
| FrameDecoding.EncodeFrame | packages/protocol/src/framing.ts:28-39 | fills a fresh array with header and payload; refuses exactly the payloads over 32 bits of length |
| FrameDecoding.AssertCompleteFrame | packages/protocol/src/framing.ts:42-53 | accepts and refuses, with the same error, what the specification does |
| FrameDecoding.FrameDecoder.Push | packages/protocol/src/framing.ts:73-144 | the decoder over header buffer and blocks does what one push of the specification does, for every state and chunk, and keeps its block invariant: all blocks but the last full, written bytes equal to the payload length |
| FrameDecoding.FrameDecoder.Advance | packages/protocol/src/framing.ts:80-142 | one round of the outer loop consumes at least one byte and either holds what it got, delivers one whole frame, or refuses a length over the limit |
| FrameDecoding.FrameDecoder.FillPayload | packages/protocol/src/framing.ts:107-123 | the inner loop appends exactly the bytes it consumes and stops at the end of the chunk or of the frame |
| FrameDecoding.FrameDecoder.JoinBlocks | packages/protocol/src/framing.ts:128-134 | copying the blocks one after the other gives exactly the bytes received |
| FrameDecoding.FrameDecoder.End | packages/protocol/src/framing.ts:146-153 | ends, or fails with a truncated frame, as the specification says |
| FrameDecoding.FrameDecoder.Fail | packages/protocol/src/framing.ts:155-164 | failure is entered with every buffer dropped |
| FrameDecoding.FrameDecoder.AllocationBound | packages/protocol/src/framing.ts:107-123 | the blocks never hold more than the frame needs, nor more than one block beyond the bytes received |
| MessageCodec.SessionMatchesStream | packages/protocol/src/codec.ts:88-127 | a message session depends on the bytes alone: it fails exactly when the stream has an overlong frame or a payload that is no message, and otherwise returns the messages of all complete payloads in order |
| MessageCodec.MessageRoundTrip | packages/protocol/src/codec.ts:60-127 | messages that encode, and whose payloads read back, come back in order from any split of their frames |
| MessageCodec.SessionEnds | packages/protocol/src/codec.ts:88-127 | a session that is ended ends well if and only if the bytes are whole frames of messages and nothing else |
| MessageCodec.EncodedFits | packages/protocol/src/codec.ts:60-76 | a message encodes if and only if it can be written and its payload is within the limit |
| MessageCodec.ValidatedMessageDecoder.Push | packages/protocol/src/codec.ts:102-115 | the class, over the frame decoder, does what the specification does, with failure for good |
| MessageCodec.ValidatedMessageDecoder.End | packages/protocol/src/codec.ts:117-126 | as above for the end of the stream |
| ProtocolValue.IsProtocolValue | packages/protocol/src/codec.ts:25-39 | terminates on every finite object graph, shared or cyclic, leaves the ancestor set as it found it, and answers as the specification function does |
| ProtocolValue.AcceptsIffSound | packages/protocol/src/codec.ts:25-39 | the answer is yes if and only if everything reachable is an allowed value where it stands and no reachable object reaches itself |
| ProtocolValue.AcceptedHasNoCycle | packages/protocol/src/codec.ts:25-39 | nothing reachable from an accepted value is on a cycle |
| KeyOrder.LessMeans | packages/research-agent-contracts/src/canonical-json.ts:20 | the order of keys is that of the first UTF-16 code units that differ, a proper prefix coming first |
| KeyOrder.AscendingUnique | packages/research-agent-contracts/src/canonical-json.ts:20 | sorted key lists with the same members are the same list |
| CanonicalJson.Canonicalize | packages/research-agent-contracts/src/canonical-json.ts:5-28 | the recursion with its loop over sorted keys computes the specification function, failures and their paths included |
| CanonicalMeaning.CanonReports | packages/research-agent-contracts/src/canonical-json.ts:5-28 | canonicalization succeeds if and only if the value is plain JSON: finite numbers, no foreign values, plain objects without symbol keys and with nothing but enumerable data properties; otherwise it reports the first flaw in the order of visiting, with its kind and its path |
| CanonicalMeaning.CanonKeepsValues | packages/research-agent-contracts/src/canonical-json.ts:5-28 | what is printed of a canonical form holds the values that were there, up to key order, the sign of zero and own `__proto__` keys |
| CanonicalMeaning.CanonIsCanonical | packages/research-agent-contracts/src/canonical-json.ts:18-28 | at every depth of a canonical form the keys are in order, array indices by number and then the others by code units, and every number is finite and not -0 |
| CanonicalJson.SimilarSameCanon | packages/research-agent-contracts/src/canonical-json.ts:5-36 | values equal up to key order at every depth, and up to -0 and 0, have the same canonical form or fail in the same place |
| CanonicalJson.CanonicalFormDecides | packages/research-agent-contracts/src/canonical-json.ts:5-36 | for values without `__proto__` keys, equal canonical forms mean equal up to key order, both ways |
| CanonicalPrint.PrintedFormDecides | packages/research-agent-contracts/src/canonical-json.ts:5-36 | for any two values that have a canonical form, `__proto__` keys or not: they print the same if and only if they are equal up to the order of keys, the sign of zero and own `__proto__` keys at every depth |
| CanonicalPrint.DroppedKeyCollides | packages/research-agent-contracts/src/canonical-json.ts:18-26 | `{"__proto__": 1}` and `{}`, which are not equal up to key order, have one canonical form |
| CanonicalJson.CanonTwice | packages/research-agent-contracts/src/canonical-json.ts:5-36 | canonicalizing a canonical form succeeds if and only if no object had an own `__proto__` key with an object or array value, and then changes nothing that is printed |
| CanonicalJson.NotIdempotent | packages/research-agent-contracts/src/canonical-json.ts:18-26 | `{"__proto__": {}}` has a canonical form that is refused as not plain |
| CanonicalJson.CleanIsIdempotent | packages/research-agent-contracts/src/canonical-json.ts:5-36 | without `__proto__` keys canonicalization is idempotent |
| AgentTypes.GrammarMeaning | packages/agent/src/agent-loop.ts:95-275 | what a grammatical trace is: one agent_start, first; turns that begin and end alternately; one agent_end, last |
| AgentTypes.MessagesNeverNest | packages/agent/src/agent-loop.ts:281-372 | message events never nest in a trace that is not broken: each message starts with none open, is updated and ended while it is the only one open, and every other event falls between messages |
| AgentTypes.TranscriptIsEndedMessages | packages/agent/src/agent.ts:540-578 | the reducer appends to the transcript exactly the payloads of the message_end events, in order |
| AgentTypes.QuietTurns | packages/agent/src/agent.ts:555-567 | what the quiet flag means: no tool call pending at any turn_end |
| AgentTypes.StreamingMeans | packages/agent/src/agent.ts:540-578 | the streaming message shown is the one last started or updated, unless a message or the run has ended since |
| AgentTypes.PendingMeans | packages/agent/src/agent.ts:555-567 | a tool call is pending if and only if the last of its starts and ends is a start |
| AgentTypes.ErrorMeans | packages/agent/src/agent.ts:540-578 | the error message shown is that of the last turn that ended with one |
| ToolCalls.ClosedLaneSpans | packages/agent/src/agent-loop.ts:666-707 | a call that ran its course has one start and one end in the trace, and each of its updates lies between them |
| ToolRules.FindIsFirst | packages/agent/src/agent-loop.ts:607-614 | a call names the first tool with its name, and none if there is no such tool |
| ToolRules.PreparedIff | packages/agent/src/agent-loop.ts:607-664 | a call may run if and only if a tool of its name is offered, its arguments are accepted, the hook neither threw nor blocked, and no abort was seen before it starts |
| ToolRules.RefusedOnce | packages/agent/src/agent-loop.ts:607-664 | a call that may not run is refused for exactly one reason, the first that applies |
| ToolRules.ComesToIff | packages/agent/src/agent-loop.ts:607-754 | what a call comes to: a refused one an error with just the text of its reason; one that ran the result of the tool, each field replaced where `afterToolCall` gives one, or an error with the text thrown; these rules have one outcome, and it is the one computed |
| ToolBatch.RunCall | packages/agent/src/agent-loop.ts:600-754 | one call: started, updated with exactly the partial results of its tool if it may run and never otherwise, ended once, with the outcome the rules give it (`ComesTo`: refused with the text of the first reason, or run), and no trace left in the pending set |
| ToolBatch.ExecuteSequential | packages/agent/src/agent-loop.ts:433-487 | one result per call in source order, stopping only after a call at which the signal was aborted; every result says what its call came to by the rules, every event is true of its call, and the batch asks to stop if and only if every call executed does |
| ToolBatch.FailTruncated | packages/agent/src/agent-loop.ts:381-406 | every call of a truncated message gets an error result that says so, in source order, and none is run: there is no update of any call |
| ParallelBatch.StartAll | packages/agent/src/agent-loop.ts:500-532 | all starts come in source order; a call that may not run ends at once, with the error that says why, and one that may run does not |
| ParallelBatch.RunSchedule | packages/agent/src/agent-loop.ts:520-531 | under every schedule, a call's events stay between its start and its end, and the call is done exactly when the schedule ends its tool and then completes it |
| ParallelBatch.ReachedMeans | packages/agent/src/agent-loop.ts:666-707 | what the fold over the schedule says in words: a completion counts only after the tool has ended |
| ParallelBatch.ExecuteParallel | packages/agent/src/agent-loop.ts:489-554 | for every schedule: the batch completes if and only if every call that may run lands; then all tool events precede all result messages, results are in source order and say what the calls came to by the rules, each call was updated with exactly the partial results its schedule delivers while it runs, and the batch asks to stop if and only if every call does |
| ParallelBatch.CompareExecutors | packages/agent/src/agent-loop.ts:433-554 | without an abort, and with the same outcome per call, every schedule that completes gives the messages and the terminate flag of the sequential executor |
| MessageQueue.DrainConserves | packages/agent/src/agent.ts:141-154 | what a drain hands out is exactly what becomes injected, appended in order; the messages given stay the same, in their places, and no other message changes its fate |
| MessageQueue.DrainsByMode | packages/agent/src/agent.ts:141-154 | in mode all a drain hands out everything and leaves nothing; in mode one-at-a-time it hands out the first message, if there is one, and leaves the others |
| MessageQueue.EveryMessageHasOneFate | packages/agent/src/agent.ts:125-159 | for any history, the messages that wait, were cleared or were injected are together the messages of that history, one each; `Conservation` says which messages those are |
| MessageQueue.ReplayConserves | packages/agent/src/agent.ts:125-159 | over any sequence of operations and polls: the messages given grow by those enqueued; every message keeps its place, and its fate once it has one; the injected ones grow by exactly what polls handed out and the cleared ones by exactly what a clear found, in order |
| MessageQueue.Conservation | packages/agent/src/agent.ts:125-159 | over any sequence of operations and polls, every message held before or enqueued since is queued, or cleared, or injected, just once |
| MessageQueue.WaitingAreQueued | packages/agent/src/agent.ts:125-159 | the queue holds exactly the waiting messages, in the order they were given |
| MessageQueue.PendingMessageQueue.Enqueue | packages/agent/src/agent.ts:133-135 | appends one message, waiting |
| MessageQueue.PendingMessageQueue.Drain | packages/agent/src/agent.ts:141-154 | hands out all messages or the first, by mode, and keeps the history true |
| MessageQueue.PendingMessageQueue.Clear | packages/agent/src/agent.ts:156-158 | empties the queue and marks exactly its messages cleared |
| Transcript.PairedMeansFollowed | packages/agent/src/agent-loop.ts:155-275 | what pairing means: a reply not ended by error or abort is followed at once by one result per call in order, or a non-empty prefix of them where the signal was aborted, with nothing in between; a failed reply is last |
| Transcript.PairedSoFarMeansFollowed | packages/agent/src/agent-loop.ts:155-275 | the same for a run that goes on: every reply but one whose tools are still running is followed at once by its results |
| AgentTurn.StreamReply | packages/agent/src/agent-loop.ts:281-372 | for every provider stream: exactly which events it shows, every start and the partial messages after the first, then the end of the reply; the reply is in the transcript once and last; with at most one start the message events do not nest and the context gets just the reply |
| AgentTurn.RunTools | packages/agent/src/agent-loop.ts:381-426 | whichever executor is chosen: results are in source order, one for each call up to an abort, and say what the calls came to by the rules; the batch is complete unless a parallel call that may run is never seen to end; and the model has to see the results unless every call executed asked to stop |
| AgentTurn.RunTurn | packages/agent/src/agent-loop.ts:190-235 | a turn ends with its results in the transcript and nothing pending, or stops at a failed reply without results; more work is due if and only if there are calls and they were truncated or one executed did not ask to stop |
| AgentTurn.PayTurn | packages/agent/src/agent-loop.ts:190-235 | what a turn adds keeps the transcript paired |
| AgentLoop.PlayTurn | packages/agent/src/agent-loop.ts:172-235 | pending messages come first, then the reply with its results; grammar, transcript, context and pairing are kept |
| AgentLoop.RunLoop | packages/agent/src/agent-loop.ts:155-275 | for every script: a finished run has a complete trace, reports its new messages in agent_end and is paired throughout; a run that goes on is paired up to the reply whose tools are running; each queue is what its log of operations and polls makes of it; and the run takes its course (`Course`): it goes on after a turn if tool work is due or a poll found messages, ends after the first turn whose reply failed, that was told to stop, or after which no tool work is due and neither poll found anything, each turn begins with what the last poll found, and the transcript is that and the replies with their results |
| LoopCourse.CourseIsUnique | packages/agent/src/agent-loop.ts:155-275 | the course of a run leaves nothing open: the number of turns, whether it finished, the whole transcript and the messages it holds follow from what it started from and what its surroundings did |
| AgentLoop.RunConserves | packages/agent/src/agent-loop.ts:155-275 | for each queue of a run: every message it held or was given during the run is still queued, or cleared, or injected, just once; what the run injected is its messages in the transcript and those about to be announced, in order |
| AgentLoop.PollSteering | packages/agent/src/agent-loop.ts:167-250 | a steering poll makes exactly the drained messages pending |
| AgentLoop.PollFollowUp | packages/agent/src/agent-loop.ts:252-262 | a follow-up poll makes exactly the drained messages pending |
| Agents.RunAgentLoop | packages/agent/src/agent-loop.ts:95-143 | the whole run from agent_start: all of the above, its course included, with the prompts first among the new messages, and both queues conserved |
| Agents.RunReports | packages/agent/src/agent-loop.ts:95-143 | a finished run's message_end payloads, its agent_end list and what the reducer appended are the same list; the trace is grammatical if and only if no stream started twice; no call is pending at any turn_end |
| AgentHistory.EveryHistory | packages/agent/src/agent.ts:255-384 | over any sequence of calls of an agent, across runs, refusals, clears and modes: the transcript grew by the entries of all runs in order; for each queue every message it held or was ever given is still queued, or cleared, or injected just once; the injected ones are the queue's messages of those entries in transcript order, then those a run that still goes on holds |
| AgentHistory.MovesTwice | packages/agent/src/agent.ts:255-384 | what two calls did, one after the other, is conserved as one; only the last run can hold messages it has not announced |
| Agents.Agent.ProcessEvent | packages/agent/src/agent.ts:540-578 | the mutating reducer does what the fold does |
| Agents.Agent.Steer | packages/agent/src/agent.ts:283-285 | exactly this message joins the end of the queue, as one more message given; no message changes its fate, whatever is going on; it is a step of a history (`Leads`) |
| Agents.Agent.FollowUpWith | packages/agent/src/agent.ts:288-290 | the same for the follow-up queue |
| Agents.Agent.ClearSteeringQueue | packages/agent/src/agent.ts:293-295 | takes the step of that call in a history: the queue is empty, its messages cleared, nothing injected |
| Agents.Agent.ClearFollowUpQueue | packages/agent/src/agent.ts:298-300 | the same for the follow-up queue |
| Agents.Agent.SetSteeringMode | packages/agent/src/agent.ts:265-267 | takes the step of that call: the drain mode changes and no message |
| Agents.Agent.SetFollowUpMode | packages/agent/src/agent.ts:274-276 | the same for the follow-up queue |
| Agents.Agent.RunPromptMessages | packages/agent/src/agent.ts:405-531 | the transcript grows by exactly the run's new messages, prompts first; a finished run leaves the agent at rest; of each queue nothing is lost and nothing is injected twice; the run takes its course |
| Agents.Agent.Prompt | packages/agent/src/agent.ts:346-354 | refused exactly while a run is active, and then nothing changes; otherwise the run from the given messages, taking its course, with both queues conserved; it is a step of a history |
| Agents.Agent.Continue | packages/agent/src/agent.ts:357-384 | each refusal exactly when the code refuses, with both queues' contents and histories unchanged; otherwise what was drained, steering before follow-ups, begins the run, which takes its course, and for each queue what it held and was given is what it holds, what was cleared, and what was injected: taken as prompts, in the transcript, or about to be announced; it is a step of a history |
| LeaseInvariant.StepKeeps | packages/client/src/client.ts:141-412 | every orderly step keeps ownership: counts, exclusive tokens and detaches in flight agree with the holders |
| LeaseInvariant.InvalidationKeepsIff | packages/client/src/client.ts:294-412 | a removal or disconnect keeps ownership at that instant if and only if nothing on the sessions it hits is under way |
| LeaseInvariant.Ownership | packages/client/src/client.ts:381-412 | what ownership means: a session's count is its live leases plus what is under way; an exclusive holder is alone; a reservation is refused if and only if it conflicts with a lease live or under way |
| LeaseInvariant.OrderlyRunKeeps | packages/client/src/client.ts:141-412 | every state an orderly run reaches keeps ownership |
| LeaseRecovery.TimelyRunKeeps | packages/client/src/client.ts:141-412 | with disconnects at any time, whatever requests are in flight: in every timely run ownership holds whenever the client is connected, and no lease is live while it is not |
| LeaseRecovery.InvalidationClosesAllIff | packages/client/src/client.ts:294-328 | after a disconnect or a removal, whichever call goes on first makes no lease live on a session it struck, if and only if no attach and no create of such a session was answered without having gone on |
| LeaseRecovery.LateAttach | packages/client/src/client.ts:160-211 | an acquire whose attach was answered before a disconnect or a removal and that goes on after it makes a lease live that has no share in any count and is on no attached session |
| LeaseRecovery.LateCreate | packages/client/src/client.ts:141-145 | a create that was answered before a disconnect or a removal and goes on after it makes an exclusive lease live on a session that is not attached; then every acquire of the session is refused and releasing the lease does nothing |
| LeaseAttachment.RunAttached | packages/client/src/client.ts:151-292 | every state reached by an orderly run in which only replies attach and detach, no create reply names a session whose attach is pending, and no removal or disconnect comes between a create reply and its continuation, keeps the attachment invariant |
| LeaseRecovery.TimelyRunAttached | packages/client/src/client.ts:151-292 | the same for timely runs, whenever the client is connected |
| LeaseAttachment.CreateKeepsIff | packages/client/src/client.ts:141-145 | a create reply keeps the attachment invariant if and only if no acquire of the session it names waits for its attach, is about to send it, or has just seen it fail, and no confirmed detach of it has still to go through |
| LeaseAttachment.NamedWhileAttaching | packages/client/src/client.ts:141-187 | a run in which a create reply names a session whose attach then fails, and which ends with an attached session that nobody holds and that is not marked for cleanup |
| LeaseAttachment.AttachmentSafety | packages/client/src/client.ts:151-292 | what the attachment invariant means: a live lease is on an attached session, which is marked for cleanup only if the lease is exclusive; an attached session with count 0 is marked for cleanup, unless a create that was answered is about to take it |
| LeaseAttachment.OneRequest | packages/client/src/client.ts:151-268 | a session has at most one request in flight that attaches or detaches it |
| LeaseAttachment.DetachesAreSafe | packages/client/src/client.ts:237-268 | once the client sends a detach, for a last release or a cleanup, no lease of that session is live |
| LeaseSafety.StaleForever | packages/client/src/client.ts:209-236 | a lease live at a removal or disconnect is never live again in any continuation, and releasing it changes nothing but its own handle, then and in every later state |
| LeaseSafety.BuryCommutes | packages/client/src/client.ts:209-292 | no step depends on whether a dead handle has been released |
| LeaseSafety.SharedBesideExclusive | packages/client/src/client.ts:209-211 | a run with a removal during an acquire, neither orderly nor timely, that ends with a shared and an exclusive lease live together on a count of 1 |
| LeaseEffects.AcquireRefused | packages/client/src/client.ts:381-393 | an acquire that conflicts with an exclusive lease, or an exclusive one with any lease, changes nothing |
| LeaseEffects.AcquireReserves | packages/client/src/client.ts:151-187 | any other takes one share, as owner if exclusive, and waits for a detach under way, cleans up a marked session, attaches one that is not attached, or has its lease at once |
| LeaseEffects.LastReleaseAsks | packages/client/src/client.ts:231-243 | releasing the only share of a session asks the server and changes no count, owner or mark |
| LeaseEffects.SharedReleaseLeaves | packages/client/src/client.ts:231-253 | releasing one of several gives back one share and is done |
| LeaseEffects.ReleaseElsewhere | packages/client/src/client.ts:209-236 | releasing a lease that an invalidation hit closes its handle only; on a session that is not attached, or while not connected, it is refused |
| LeaseEffects.ReleaseGoesThrough | packages/client/src/client.ts:242-253 | a release whose detach was confirmed gives back its share, frees those who waited for it, and is over |
| LeaseEffects.RejectedDetachRestores | packages/client/src/client.ts:255-265 | a `detach` the server rejects in the same generation leaves its lease live as before the release, with every count, owner and mark unchanged |
| LeaseEffects.RejectedDisposeMarks | packages/client/src/client.ts:255-265 | a `dispose` the server rejects ends with the lease over, its share given back and its session marked for cleanup |
| LeaseEffects.DetachCanBeRetried | packages/client/src/client.ts:231-268 | over any run between the release and its rejection, in the same generation: a `detach` leaves exactly the lease there was, live, and a `dispose` leaves it over and the session marked |
| LeaseEffects.CleanupConfirmed | packages/client/src/client.ts:363-379 | a confirmed cleanup clears the mark and the attachment, and exactly those who waited for it go on |
| LeaseEffects.CleanupRejected | packages/client/src/client.ts:363-379 | a rejected one keeps the mark, and exactly those who waited for it give up |
| LeaseEffects.AttachConfirmed | packages/client/src/client.ts:160-187 | a confirmed attach attaches the session, and exactly those who waited for it go on |
| LeaseEffects.AttachRejected | packages/client/src/client.ts:160-187 | a rejected one attaches nothing, and exactly those who waited for it give up |
| LeaseEffects.AcquireGoesOn | packages/client/src/client.ts:160-187 | what an acquire that goes on does: after a detach it cleans up a marked session or attaches one that is not attached; after a cleanup it asks for the attach; after the attach it has a live lease; after a rejection it gives its share back |
| LeaseEffects.CleanupThenAttach | packages/client/src/client.ts:151-187 | an acquire waiting for a cleanup that is confirmed, and whose attach then is, ends with a live lease on an attached session without a mark, its share counted once |
| LeaseEffects.CreateAnswers | packages/client/src/client.ts:141-145 | an answered create attaches its session; going on, it gets the exclusive lease where nobody has a share, and is refused otherwise |
| LeaseEffects.RemovalForgets | packages/client/src/client.ts:402-407 | a removed session has no share, owner, mark or attachment, and its leases so far are dead; no other session is touched |
| LeaseEffects.DisconnectForgetsAll | packages/client/src/client.ts:409-412 | a disconnect forgets every count, mark and attachment, and starts a new generation of exactly the sessions that had a count |
| LeaseClient.PiClient.ReserveSessionLease | packages/client/src/client.ts:381-393 | reserves, or refuses and changes nothing |
| LeaseClient.PiClient.ReleaseSessionLease | packages/client/src/client.ts:395-400 | gives back one share and only its own token |
| LeaseClient.PiClient.InvalidateSessionLeases | packages/client/src/client.ts:402-407 | forgets the session's count, token and cleanup mark and starts a new generation |
| LeaseClient.PiClient.InvalidateAllSessionLeases | packages/client/src/client.ts:409-412 | the loop, in any order, starts a new generation for exactly the sessions with a count |
| LeaseClient.InvalidateEach | packages/client/src/client.ts:409-412 | invalidating everything is invalidating each session that has a count |
| LeaseClient.PiClient.CreateSessionLease | packages/client/src/client.ts:209-211 | takes the generation current at creation |
| LeaseClient.PiClient.AcquireSession | packages/client/src/client.ts:151-177 | takes the acquire step, and keeps what timely runs keep (`Valid`) |
| LeaseClient.PiClient.SessionCreated | packages/client/src/client.ts:141-145 | takes the step of a create reply, which attaches the session and reserves nothing, keeping `Valid` |
| LeaseClient.PiClient.ContinueCreate | packages/client/src/client.ts:141-145 | reserves and creates the exclusive lease, or throws the ownership error, and tells which |
| LeaseClient.PiClient.ContinueCall | packages/client/src/client.ts:141-253 | takes the step of a call whose wait is over: a create, an acquire or a release, keeping `Valid` |
| LeaseClient.PiClient.ReleaseLease | packages/client/src/client.ts:231-253 | takes the release step, keeping `Valid`, and tells whether a detach is sent |
| LeaseClient.PiClient.FinalDetachSettled | packages/client/src/client.ts:242-268 | takes the step of a final detach that was confirmed, or whose rejection reached the release, keeping `Valid` |
| LeaseClient.PiClient.FinishRelease | packages/client/src/client.ts:237-253 | a release goes through after its detach was confirmed: it gives back its share and those who waited go on |
| LeaseClient.PiClient.DetachRejected | packages/client/src/client.ts:255-268 | what a rejected final detach leaves of the lease, by generation and by whether it was disposed of; `RejectedDetachRestores` and `RejectedDisposeMarks` say what that means |
| LeaseClient.PiClient.CleanupSettled | packages/client/src/client.ts:363-379 | takes the step of a cleanup detach that settled, keeping `Valid` |
| LeaseClient.PiClient.AttachRequestSettled | packages/client/src/client.ts:160-187 | takes the step of an attach that settled, keeping `Valid` |
| LeaseClient.PiClient.SessionRemoved | packages/client/src/client.ts:294-298 | takes the removal step, keeping `Valid` if nothing on the session is under way |
| LeaseClient.PiClient.Disconnected | packages/client/src/client.ts:321-328 | takes the disconnect step, keeping `Valid` if no answered attach has still to go on |
| LeaseClient.PiClient.Handshaken | packages/client/src/client.ts:321-328 | takes the step of a new connection, keeping `Valid` if all that was rejected has given up |
| LeaseClient.PiClient.SnapshotTaken | packages/client/src/client.ts:294-298 | takes the step of a state change that says which sessions are attached, keeping `Valid` |
| ConnectionLifecycle.EveryRun | packages/client/src/connection.ts:66-235 | over every interleaving: announcements follow (connecting connected? disconnected)*, attempt by attempt, and tell the state; every promise is settled exactly once or belongs to the attempt under way, and is resolved only if that attempt was announced connected; every transport received is current or closed |
| ConnectionLifecycle.NothingIsLeftBehind | packages/client/src/connection.ts:218-231 | while disconnected, every promise handed out is settled and every transport received is closed |
| ConnectionLifecycle.SupersededIsSilent | packages/client/src/connection.ts:80-88 | callbacks of an attempt that is over change no state, announce and settle nothing; at most they close a transport that came too late |
| ConnectionLifecycle.SupersededNeverMatter | packages/client/src/connection.ts:80-140 | a whole run with the callbacks of superseded attempts taken out shows the same state, the same announcements and the same settled promises in the same order |
| ConnectionLifecycle.DownStaysDown | packages/client/src/connection.ts:156-159 | leaving the message loop when the connection is down skips nothing that would have mattered |
| ConnectionEffects.ConnectedData | packages/client/src/connection.ts:142-204 | a connected connection goes down on a chunk if and only if the chunk does not decode or holds a hello, a hello error or a message whose hook disconnects; then it announces that and closes its transport, and otherwise nothing changes |
| ConnectionEffects.HandshakeData | packages/client/src/connection.ts:142-204 | an attempt with its transport open connects, announced and with its promise resolved, on a chunk of a quiet hello and ordinary messages; it stays as it is on a chunk without messages; it goes down, with its promise rejected if it had not connected, on anything else |
| ConnectionEffects.EarlyData | packages/client/src/connection.ts:142-149 | bytes before the transport is known end the attempt and reject its promise |
| ConnectionEffects.Connects | packages/client/src/connection.ts:66-90 | `connect` announces a new attempt, or changes nothing while there is one |
| ConnectionEffects.TransportArrives | packages/client/src/connection.ts:127-132 | the transport of the attempt under way is kept, and any other is closed |
| ConnectionEffects.TransportFails | packages/client/src/connection.ts:123-126 | a factory that fails ends its own attempt if that is still under way, and nothing else |
| ConnectionEffects.Ends | packages/client/src/connection.ts:92-140 | a disconnect, a transport error, a close, or a hello or frame that cannot be sent ends the attempt it reaches: announced once, its promise rejected if it was open, its transport closed; it reaches no other |
| ConnectionLifecycle.Connection.Open | packages/client/src/connection.ts:66-90 | takes the connect step; refused exactly while not disconnected |
| ConnectionLifecycle.Connection.TransportOpened | packages/client/src/connection.ts:127-132 | takes the step of a factory that resolved, closing a transport nobody waits for |
| ConnectionLifecycle.Connection.TransportRefused | packages/client/src/connection.ts:123-126 | takes the step of a factory that rejected |
| ConnectionLifecycle.Connection.HandleHello | packages/client/src/connection.ts:177-197 | the handshake with what its hooks do, in order |
| ConnectionLifecycle.Connection.HandleMessage | packages/client/src/connection.ts:162-204 | takes the message step; what messages do is said by `ConnectedData` and `HandshakeData` |
| ConnectionLifecycle.Connection.HandleData | packages/client/src/connection.ts:142-160 | the loop over decoded messages takes the data step |
| ConnectionLifecycle.Connection.HandleClose | packages/client/src/connection.ts:206-216 | takes the close step |
| ConnectionLifecycle.Connection.DisconnectNow | packages/client/src/connection.ts:92-99 | takes the disconnect step |
| ConnectionLifecycle.Connection.HandleError | packages/client/src/connection.ts:80-88 | takes the step of a transport error |
| ConnectionLifecycle.Connection.SendingFailed | packages/client/src/connection.ts:101-140 | takes the step of a hello or a frame that could not be sent |
| ConnectionLifecycle.Connection.FailAndCloseNow | packages/client/src/connection.ts:218-231 | fails once, settling and announcing, and closes the transport |
| Requests.EveryRun | packages/client/src/client.ts:189-353 | in every run each request issued is pending or settled, never both and at most once; nothing is pending while not connected; a result was delivered only by a response with the request's own id and for its own command |
| Requests.AnswersItsOwn | packages/client/src/client.ts:300-318 | a response keeps the connection up if and only if it answers a pending request with an error or with a result for the command asked, and then settles only that request; otherwise everything is settled |
| Requests.RejectionsSettle | packages/client/src/client.ts:336-340 | rejecting everything settles exactly the pending requests, once each |
| RequestEffects.StepGives | packages/client/src/client.ts:189-353 | what one event does while connected: exactly the open requests it gives an outcome (`Gets`) are settled, each with that outcome, the others stay open, and the connection stays up unless the event breaks it. A request gets a result only from the response with its number and for its command, an error only from that response, and each other outcome only for the reason it names |
| RequestEffects.EverySettlement | packages/client/src/client.ts:189-353 | over every run, a request has an outcome if and only if some event of the run gave it that outcome |
| RequestEffects.StepKeepsRecord | packages/client/src/client.ts:189-207 | a command taken is recorded under the next number, only a dispose disposes, and a client that is down comes up exactly by a connection unless it is disposed |
| Requests.RequestDesk.Ask | packages/client/src/client.ts:189-207 | takes the request step; refused exactly while disposed or not connected |
| Requests.RequestDesk.Connected | packages/client/src/client.ts:321-328 | takes the step of a connection that is up |
| Requests.RequestDesk.HandleResponse | packages/client/src/client.ts:300-318 | takes the response step |
| Requests.RequestDesk.TakePendingRequest | packages/client/src/client.ts:330-334 | takes out the request with this id, if there is one |
| Requests.RequestDesk.RejectPendingRequests | packages/client/src/client.ts:336-340 | rejects all pending requests, oldest first |
| Requests.RequestDesk.Disconnected | packages/client/src/client.ts:321-328 | takes the step of a connection that went down, rejecting what is pending |
| Requests.RequestDesk.DisposeClient | packages/client/src/client.ts:342-353 | disposes once, rejecting what is pending |
| Publication.EveryRun | packages/ai/src/models.ts:320-365 | every interleaving keeps the chain invariants: a chain entry is the provider's last publication, each publication queues behind the one before it, updates are in order |
| Publication.Publications | packages/ai/src/models.ts:338-365 | publications of a provider never overlap and start in call order; an absent chain entry means none is unfinished; applied updates are in call order with generations that never go down |
| Publication.SupersededNeverUpdates | packages/ai/src/models.ts:320-357 | once its refresh is superseded or aborted, a publication that has not taken effect never does, whatever happens later |
| PublicationEffects.Starts | packages/ai/src/models.ts:344-353 | a publication whose turn has come is skipped if its refresh is over, and otherwise goes to the store, or takes effect if it has nothing to store |
| PublicationEffects.Settles | packages/ai/src/models.ts:349-357 | one whose store operation succeeded takes effect unless its refresh is over; one whose store operation failed does not |
| PublicationEffects.NextCanStart | packages/ai/src/models.ts:344-346 | the first publication of a provider that has not finished is never held up |
| PublicationEffects.RefreshIsShown | packages/ai/src/models.ts:331-357 | an ordinary refresh, begun with no publication of the provider unfinished, ends with its publication shown, once, whether or not it has something to store |
| PublicationEffects.WhyFinished | packages/ai/src/models.ts:338-357 | over every run: a publication was skipped only at a moment when its signal was aborted or its generation was not the provider's, failed only by a store failure, and took effect only while fresh and, with something to store, by its successful store operation |
| PublicationEffects.PublishedOnce | packages/ai/src/models.ts:338-357 | over every run: a publication is published if and only if it has an update, and then it has one |
| PublicationEffects.Begins | packages/ai/src/models.ts:320-336 | a refresh that begins has the next generation and a controller not aborted before; the one before it is aborted; no other provider is touched |
| PublicationEffects.Supersedes | packages/ai/src/models.ts:320-329 | superseding ends the refresh under way: its generation is past, and its controller is aborted and gone |
| PublicationEffects.EndsOwn | packages/ai/src/models.ts:431-435 | a refresh that ends takes away its own controller and leaves that of a later one |
| PublicationEffects.Queues | packages/ai/src/models.ts:338-360 | a call to publish adds one waiting publication, behind the provider's latest if its chain is not done |
| PublicationEffects.CleansUp | packages/ai/src/models.ts:361-363 | a chain is forgotten once its last publication has finished, and not while another is queued behind |
| Publication.ModelsRegistry.SupersedeProviderRefresh | packages/ai/src/models.ts:320-329 | starts a new generation and aborts the controller of the old one |
| Publication.ModelsRegistry.BeginProviderRefresh | packages/ai/src/models.ts:331-336 | as above, with a controller for the new generation |
| Publication.ModelsRegistry.EndProviderRefresh | packages/ai/src/models.ts:431-435 | removes the controller only if it is the refresh's own |
| Publication.ModelsRegistry.RefreshAborted | packages/ai/src/models.ts:338-357 | takes the step of an aborted signal, after which publications of that refresh are not current |
| Publication.ModelsRegistry.PublishProviderModels | packages/ai/src/models.ts:338-360 | queues the publication behind the chain |
| Publication.ModelsRegistry.StartPublication | packages/ai/src/models.ts:346-353 | checks, then persists or updates |
| Publication.ModelsRegistry.StoreOperationSettled | packages/ai/src/models.ts:349-357 | checks again after the store operation before it updates; `Settles` says what it must come to |
| Publication.ModelsRegistry.CleanUpChain | packages/ai/src/models.ts:361-363 | removes the chain entry only if nothing was queued behind |
| ModelOverlay.CurrentModels | packages/ai/src/models.ts:766-774 | the merge loop: a model is the last dynamic one with its id, or else the baseline's first |
| ModelOverlay.OverlayOrder | packages/ai/src/models.ts:766-774 | the baseline keeps its order and new ids follow once each in order of appearance |
| Cost.MatchTier | packages/ai/src/models.ts:880-887 | the scan selects the tier with the highest threshold strictly below the input, for any list of tiers |
| Cost.SelectionIsUnique | packages/ai/src/models.ts:880-887 | that tier is determined by the list alone, the first one winning among equal thresholds |
| Cost.OrderDoesNotMatter | packages/ai/src/models.ts:880-887 | with distinct thresholds the order of the tiers does not change the rates |
| Cost.CostRecord.CalculateCost | packages/ai/src/models.ts:878-898 | fills in all five amounts at the rates of the tier selected for the input, cached input and cache writes together |
| Cost.CostsArePrices | packages/ai/src/models.ts:889-898 | each amount is the price of its own tokens at its own rate per million, one-hour cache writes at twice the input rate and only the other cache writes at the cache write rate, and the total is the price of them all |
| Cost.CostIsMonotone | packages/ai/src/models.ts:878-898 | with rates that are not negative and do not go down with the threshold, using more of anything, short and one-hour cache writes counted apart, never lowers any component or the total, across tiers |
| Cost.LongWritesCostMoreIff | packages/ai/src/models.ts:889-895 | counting cache writes as one-hour writes never lowers the total if and only if twice the input rate is at least the cache write rate |
| UnixQueue.EveryRun | packages/client/src/unix.ts:82-155 | over all sends, callbacks and closes: pending bytes are those of the accepted sends that have not settled and stay within the limit; one write at a time; chunks reach the socket unaltered in order of acceptance; a write resolves exactly when its callback came and, where asked for, its drain |
| UnixQueue.ClosedForGood | packages/client/src/unix.ts:100-108 | after a close nothing is accepted and nothing is handed to the socket |
| UnixEffects.SendQueues | packages/client/src/unix.ts:82-98 | a send is queued last, or refused exactly when the transport is closed or the chunk does not fit |
| UnixEffects.TurnComes | packages/client/src/unix.ts:107-155 | the send whose turn it is fails if the transport is closed or the socket does not take its bytes; it is handed to the socket, and resolved at once only if the callback came at once and no drain is asked for |
| UnixEffects.CallbackComes | packages/client/src/unix.ts:139-146 | a successful callback resolves the write unless it waits for a drain; a failed one fails it |
| UnixEffects.DrainComes | packages/client/src/unix.ts:115-131 | a drain resolves the write that waits for it once its callback has come, and does nothing to a write that does not |
| UnixEffects.SocketCloses | packages/client/src/unix.ts:136-136 | a socket that closes fails the write under way |
| UnixEffects.WhyEnded | packages/client/src/unix.ts:82-155 | over every run, a send that ended was resolved at the moment its callback, and its drain if asked for, had come, or failed at one of the failures there are |
| UnixEffects.SentIsWritten | packages/client/src/unix.ts:82-155 | on an open, idle transport a chunk within the limit goes to the socket and is resolved, with no bytes left pending, by its callback and the drain asked for, in whatever order they come |
| UnixQueue.UnixByteTransport.SendChunk | packages/client/src/unix.ts:82-98 | queues a copy of the chunk, or refuses it and changes nothing |
| UnixQueue.UnixByteTransport.Write | packages/client/src/unix.ts:107-155 | takes the step of the first unsettled send |
| UnixQueue.UnixByteTransport.OnWritten | packages/client/src/unix.ts:139-146 | takes the callback step |
| UnixQueue.UnixByteTransport.OnDrain | packages/client/src/unix.ts:115-118 | takes the drain step |
| UnixQueue.UnixByteTransport.OnSocketClosed | packages/client/src/unix.ts:136 | takes the socket-close step |

## Left out

Assumptions about the surroundings:

- Hooks and event sinks of the agent do not throw, as their contracts ask; the failure path of `runWithLifecycle` (`packages/agent/src/agent.ts:507-523`) is not modelled.
- Listeners do not call back into the component that notifies them, except that connection hooks may disconnect; a hook that calls `connect` from inside a notification is not modelled.
- Promise callbacks run before the next chunk is handled, and those of replies in one chunk run in the order their chains of promises give: a create, which awaits its reply itself, goes on before other calls on its session (`MayGoOn`). A session has one attach, cleanup or detach request in flight at a time (`OneRequest`), so a settlement of an attach or a cleanup finds nobody on the session due to go on from an earlier one (`Drained`). Such a settlement wakes all who wait for it in the same step.
- An attach or create reply says that its session is attached; replies and snapshots that say otherwise, session snapshots in replies to other commands, and the revision guard on session snapshots are the event `ESnapshot`, which the attachment theorems exclude and the ownership theorems include.
- A create reply does not name a session whose attach is pending, and neither a removal of its session nor a disconnect comes before it has gone on (attachment theorems only; see `CreateKeepsIff` and `InvalidationClosesAllIff`).
- What others do to the queues of an agent during a turn is applied before the turn's polls; the operations are arbitrary.
- LeaseAttachment.AttachmentSafety: a live exclusive lease may be on a session marked for cleanup, because a create reply can name a session that is marked; the code keeps the mark.
- `writable` of the socket, `socket.write` and every callback of it are arbitrary.

Not modelled:

- CBOR, schema validation, SHA-256, auth resolution, `parseStreamingJson`, `EventStream`, lazy streams, racing a promise with an abort signal, sockets, timers, files, OAuth and the user interface: input, output, or library code. `MessageCodec` takes reading and writing a payload as arbitrary functions.
- Type checks on arguments that are not byte arrays, and the validation of `maxFrameLength` and `maxPendingBytes`.
- Getters and proxies in `isProtocolValue`; the graph is fixed during the walk.
- Cyclic input to canonicalization, which the code does not stop; sparse arrays, whose holes canonicalization keeps and the walk of `isProtocolValue` skips; a key's order against array-index keys is modelled as engines enumerate it. `JSON.stringify` itself is not modelled.
- The provider's model, reasoning and transport options, and `transformContext`; the reply is arbitrary.
- A run stopped inside a sequential batch of tool calls: the sequential executor is always carried to the end of its batch, so a run that goes on is between turns or inside a parallel batch.
- Resetting an agent, its listeners, and waiting for it to be idle.
- The closures of a lease are modelled as the phase of a holder; the promise a second release returns is that of the first.
- `dispose` of the client is a disconnect for the leases; its listeners are left out.
- What a publication writes to the store and puts into the provider is opaque; `restore`, `fetch` and persist phases of a refresh appear as publications.
- Rounding in costs: amounts are real numbers.
- Agents.Agent: the queues inside the agent are values with the operations proved for the class `PendingMessageQueue`; sharing of a queue object is not modelled.
- Thinking-level clamping, `hasApi`, `modelsAreEqual`, header merging, `proxy.ts`, `validators.ts`, both `schemas.ts` files and `generate-models.ts`: flat tables and folds over them, without state.
