/** `encodeProtocolMessage` and `ValidatedMessageDecoder` of packages/protocol/src/codec.ts, over any way to read a
    payload as a message and to write a message as a payload. */
module MessageCodec {
  import opened Seqs
  import opened FrameSpec
  import FrameDecoding

  /** All payloads read, or nothing if one of them is not a message. */
  function ReadAll<T>(read: seq<byte> -> Option<T>, payloads: Frames): Option<seq<T>> {
    if payloads == [] then Some([])
    else
      var before, last := ReadAll(read, payloads[..|payloads| - 1]), read(payloads[|payloads| - 1]);
      if before.Some? && last.Some? then Some(before.value + [last.value]) else None
  }

  datatype MessageDecoder = MessageDecoder(frames: Decoder, failed: bool)

  const FRESH: MessageDecoder := MessageDecoder(Open([]), false)

  /** One `push`: the messages of the frames it completed, or a failure for good. */
  function PushMessages<T>(d: MessageDecoder, chunk: seq<byte>, max: nat,
      read: seq<byte> -> Option<T>): (MessageDecoder, Option<seq<T>>) {
    if d.failed then (d, None)
    else
      var (frames, out) := Push(d.frames, chunk, max);
      var messages := if out.Ok? then ReadAll(read, out.value) else None;
      (MessageDecoder(frames, messages.None?), messages)
  }

  function EndMessages(d: MessageDecoder): (MessageDecoder, bool) {
    if d.failed then (d, false)
    else
      var (frames, out) := End(d.frames);
      (MessageDecoder(frames, out.Err?), out.Ok?)
  }

  /** A session: every chunk pushed in order, with all the messages returned. */
  function FeedMessages<T>(d: MessageDecoder, chunks: seq<seq<byte>>, max: nat,
      read: seq<byte> -> Option<T>): (MessageDecoder, seq<T>)
    decreases |chunks|
  {
    if chunks == [] then (d, [])
    else
      var (next, out) := PushMessages(d, chunks[0], max, read);
      var (end, later) := FeedMessages(next, chunks[1..], max, read);
      (end, (if out.Some? then out.value else []) + later)
  }

  lemma {:induction false} ReadAllAppend<T>(read: seq<byte> -> Option<T>, a: Frames, b: Frames)
    ensures ReadAll(read, a + b)
         == if ReadAll(read, a).None? || ReadAll(read, b).None? then None
            else Some(ReadAll(read, a).value + ReadAll(read, b).value)
    decreases |b|
  {
    if b == [] {
      assert a + b == a;
      if ReadAll(read, a).Some? {
        assert ReadAll(read, a).value + [] == ReadAll(read, a).value;
      }
    } else {
      var b' := b[..|b| - 1];
      assert (a + b)[..|a + b| - 1] == a + b';
      ReadAllAppend(read, a, b');
      if ReadAll(read, a).Some? && ReadAll(read, b).Some? {
        Associative(ReadAll(read, a).value, ReadAll(read, b').value, [read(b[|b| - 1]).value]);
      }
    }
  }

  lemma {:induction false} FailedForGood<T>(d: MessageDecoder, chunks: seq<seq<byte>>, max: nat,
      read: seq<byte> -> Option<T>)
    requires d.failed
    ensures FeedMessages(d, chunks, max, read) == (d, [])
    decreases |chunks|
  {
    if chunks != [] {
      FailedForGood(d, chunks[1..], max, read);
      var nothing: seq<T> := [];
      assert nothing + nothing == nothing;
    }
  }

  /** What a session owes to the bytes it was given. */
  ghost predicate MatchesStream<T>(pending: seq<byte>, chunks: seq<seq<byte>>, max: nat, read: seq<byte> -> Option<T>) {
    var whole := Parse(pending + Concat(chunks), max);
    var (end, messages) := FeedMessages(MessageDecoder(Open(pending), false), chunks, max, read);
    && (end.failed <==> whole.tail.Overlong? || ReadAll(read, whole.frames).None?)
    && (!end.failed ==> end.frames == Open(whole.tail.bytes) && ReadAll(read, whole.frames) == Some(messages))
  }

  lemma LaterChunks<T>(pending: seq<byte>, next: seq<byte>, chunks: seq<seq<byte>>, max: nat,
      read: seq<byte> -> Option<T>)
    requires chunks != [] && Parse(pending + chunks[0], max).tail == Rest(next)
    requires MatchesStream(next, chunks[1..], max, read)
    ensures MatchesStream(pending, chunks, max, read)
  {
    var p := Parse(pending + chunks[0], max);
    ConcatFirst(pending, chunks);
    ParseAppend(pending + chunks[0], Concat(chunks[1..]), max);
    ReadAllAppend(read, p.frames, Parse(next + Concat(chunks[1..]), max).frames);
    if ReadAll(read, p.frames).None? {
      FailedForGood(MessageDecoder(Open(next), true), chunks[1..], max, read);
    }
    hide ReadAll, Parse, Concat;
  }

  /** The whole session depends on the bytes alone: it fails exactly when the stream has an overlong frame or a
      complete payload that is no message, and otherwise returns the messages of all complete payloads in order. */
  lemma {:induction false} SessionMatchesStream<T>(pending: seq<byte>, chunks: seq<seq<byte>>, max: nat,
      read: seq<byte> -> Option<T>)
    requires Parse(pending, max) == Parsed([], Rest(pending))
    ensures MatchesStream(pending, chunks, max, read)
    decreases |chunks|
  {
    if chunks == [] {
      assert pending + Concat(chunks) == pending;
    } else {
      match Parse(pending + chunks[0], max).tail
      case Overlong =>
        ConcatFirst(pending, chunks);
        ParseAppend(pending + chunks[0], Concat(chunks[1..]), max);
        FailedForGood(MessageDecoder(Failed, true), chunks[1..], max, read);
      case Rest(next) =>
        ParseTailStuck(pending + chunks[0], max);
        SessionMatchesStream(next, chunks[1..], max, read);
        LaterChunks(pending, next, chunks, max, read);
    }
  }

  /** A session that is ended ends well exactly when the stream is complete frames of messages and nothing else. */
  lemma SessionEnds<T>(chunks: seq<seq<byte>>, max: nat, read: seq<byte> -> Option<T>)
    requires max <= MAX_UINT32
    ensures EndMessages(FeedMessages(FRESH, chunks, max, read).0).1 <==>
      exists payloads :: WholeFrames(Concat(chunks), payloads, max) && ReadAll(read, payloads).Some?
  {
    var whole := Parse(Concat(chunks), max);
    SessionMatchesStream([], chunks, max, read);
    assert [] + Concat(chunks) == Concat(chunks);
    hide Parse, ReadAll, FeedMessages, Concat, WholeFrames;
    forall payloads: Frames
      ensures WholeFrames(Concat(chunks), payloads, max) <==> whole == Parsed(payloads, Rest([]))
    {
      WholeFramesIff(Concat(chunks), payloads, max);
    }
    assert WholeFrames(Concat(chunks), whole.frames, max) <==> whole.tail == Rest([]);
  }

  /** `encodeProtocolMessage`: validate and write, frame, and check the frame. */
  function EncodeMessage<T>(write: T -> Option<seq<byte>>, message: T, max: nat): Option<seq<byte>> {
    match write(message)
    case None => None
    case Some(payload) =>
      if |payload| > MAX_UINT32 then None
      else if CheckCompleteFrame(Encode(payload), max).Ok? then Some(Encode(payload)) else None
  }

  function EncodeMessages<T>(write: T -> Option<seq<byte>>, messages: seq<T>, max: nat): seq<byte>
    requires forall m <- messages :: EncodeMessage(write, m, max).Some?
  {
    if messages == [] then []
    else EncodeMessage(write, messages[0], max).value + EncodeMessages(write, messages[1..], max)
  }

  /** The payloads of messages that encode. */
  function Payloads<T>(write: T -> Option<seq<byte>>, messages: seq<T>): Frames
    requires forall m <- messages :: write(m).Some?
  {
    if messages == [] then [] else [write(messages[0]).value] + Payloads(write, messages[1..])
  }

  lemma EncodedFits<T>(write: T -> Option<seq<byte>>, message: T, max: nat)
    requires max <= MAX_UINT32
    ensures EncodeMessage(write, message, max).Some? <==> write(message).Some? && |write(message).value| <= max
  {
    if write(message).Some? && |write(message).value| <= MAX_UINT32 {
      PrefixRoundTrip(|write(message).value|);
      assert Encode(write(message).value)[..4] == Prefix(|write(message).value|);
    }
  }

  /** If the message can be written, its payload reads back as the message. */
  predicate ReadsBack<T(==)>(write: T -> Option<seq<byte>>, read: seq<byte> -> Option<T>, message: T) {
    write(message).Some? ==> read(write(message).value) == Some(message)
  }

  lemma CarriedFits<T>(write: T -> Option<seq<byte>>, read: seq<byte> -> Option<T>, message: T, max: nat)
    requires max <= MAX_UINT32 && EncodeMessage(write, message, max).Some? && ReadsBack(write, read, message)
    ensures write(message).Some? && |write(message).value| <= max
        && EncodeMessage(write, message, max) == Some(Encode(write(message).value))
    ensures ReadAll(read, [write(message).value]) == Some([message])
  {
    EncodedFits(write, message, max);
    var payload := write(message).value;
    assert [payload][..0] == [];
    var nothing: seq<T> := [];
    assert nothing + [message] == [message];
  }

  lemma {:induction false} EncodedPayloads<T>(write: T -> Option<seq<byte>>, read: seq<byte> -> Option<T>,
      messages: seq<T>, max: nat)
    requires max <= MAX_UINT32
    requires forall m <- messages :: EncodeMessage(write, m, max).Some? && ReadsBack(write, read, m)
    ensures forall m <- messages :: write(m).Some?
    ensures forall p <- Payloads(write, messages) :: |p| <= max
    ensures EncodeMessages(write, messages, max) == EncodeAll(Payloads(write, messages))
    ensures ReadAll(read, Payloads(write, messages)) == Some(messages)
  {
    if messages != [] {
      var first, rest := messages[0], messages[1..];
      CarriedFits(write, read, first, max);
      EncodedPayloads(write, read, rest, max);
      ReadAllAppend(read, [write(first).value], Payloads(write, rest));
      hide ReadsBack, EncodeMessage, Encode, ReadAll;
      assert [first] + rest == messages;
      var payloads := Payloads(write, messages);
      assert payloads[0] == write(first).value && payloads[1..] == Payloads(write, rest);
    }
  }

  /** Messages that encode and whose payloads read back come back from any split of their frames, in order, and the
      session ends well. */
  lemma MessageRoundTrip<T>(write: T -> Option<seq<byte>>, read: seq<byte> -> Option<T>, messages: seq<T>,
      chunks: seq<seq<byte>>, max: nat)
    requires max <= MAX_UINT32
    requires forall m <- messages :: EncodeMessage(write, m, max).Some? && ReadsBack(write, read, m)
    requires Concat(chunks) == EncodeMessages(write, messages, max)
    ensures FeedMessages(FRESH, chunks, max, read) == (FRESH, messages) && EndMessages(FRESH).1
  {
    EncodedPayloads(write, read, messages, max);
    ParseEncodeAll(Payloads(write, messages), max);
    SessionMatchesStream([], chunks, max, read);
    assert [] + Concat(chunks) == Concat(chunks);
  }

  /** `ValidatedMessageDecoder`. */
  class ValidatedMessageDecoder<T> {
    const frames: FrameDecoding.FrameDecoder
    const read: seq<byte> -> Option<T>
    var failed: bool

    ghost predicate Valid()
      reads this, frames, frames.header, frames.blocksOwned
    {
      frames.Valid()
    }

    ghost function View(): MessageDecoder
      reads this, frames, frames.header, frames.blocksOwned
      requires Valid()
    {
      MessageDecoder(frames.View(), failed)
    }

    constructor (decoder: FrameDecoding.FrameDecoder, read: seq<byte> -> Option<T>)
      requires decoder.Valid() && decoder.View() == Open([])
      ensures frames == decoder && this.read == read && Valid() && View() == FRESH
    {
      frames := decoder;
      this.read := read;
      failed := false;
    }

    method Push(chunk: array<byte>) returns (r: Option<seq<T>>)
      requires Valid() && frames.Foreign(chunk)
      modifies this, frames, frames.header, frames.blocksOwned
      ensures Valid() && fresh(frames.blocksOwned - old(frames.blocksOwned))
      ensures (View(), r) == PushMessages(old(View()), chunk[..], frames.maxFrameLength, read)
    {
      if failed {
        return None;
      }
      var delivered := frames.Push(chunk);
      if delivered.Err? {
        failed := true;
        return None;
      }
      r := ReadMessages(delivered.value, FrameSpec.Push(old(frames.View()), chunk[..], frames.maxFrameLength).1.value);
      failed := r.None?;
    }

    /** The loop over the frames: the first that is no message ends it. */
    method ReadMessages(delivered: seq<array<byte>>, ghost payloads: Frames) returns (r: Option<seq<T>>)
      requires |delivered| == |payloads| && forall i | 0 <= i < |delivered| :: delivered[i][..] == payloads[i]
      ensures r == ReadAll(read, payloads)
    {
      var messages: seq<T> := [];
      var k := 0;
      while k < |delivered|
        invariant 0 <= k <= |delivered|
        invariant ReadAll(read, payloads[..k]) == Some(messages)
      {
        assert payloads[..k + 1][..k] == payloads[..k];
        var message := read(delivered[k][..]);
        if message.None? {
          ReadAllAppend(read, payloads[..k + 1], payloads[k + 1..]);
          assert payloads[..k + 1] + payloads[k + 1..] == payloads;
          return None;
        }
        messages := messages + [message.value];
        k := k + 1;
      }
      assert payloads[..k] == payloads;
      return Some(messages);
    }

    method End() returns (ok: bool)
      requires Valid()
      modifies this, frames
      ensures Valid() && (View(), ok) == EndMessages(old(View()))
    {
      if failed {
        return false;
      }
      var ended := frames.End();
      failed := ended.Err?;
      ok := !failed;
    }
  }
}
