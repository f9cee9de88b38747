/** The buffers behind packages/protocol/src/framing.ts: `encodeFrame`, `assertCompleteFrame` and the
    incremental `FrameDecoder`, each tied to its meaning in FrameSpec. */
module FrameDecoding {
  import opened Seqs
  import opened FrameSpec

  function Min(a: int, b: int): int {
    if a <= b then a else b
  }

  /** Copies `n` bytes of `src` from `from` to `dst` at `at`: `dst.set(src.subarray(from, from + n), at)`. */
  method Blit(dst: array<byte>, at: nat, src: array<byte>, from: nat, n: nat)
    requires dst != src && at + n <= dst.Length && from + n <= src.Length
    modifies dst
    ensures dst[..] == old(dst[..])[..at] + src[from..from + n] + old(dst[..])[at + n..]
  {
    forall k | 0 <= k < n {
      dst[at + k] := src[from + k];
    }
  }

  method EncodeFrame(payload: array<byte>) returns (r: Result<array<byte>, FrameError>)
    ensures r == Err(PayloadTooLarge) <==> payload.Length > MAX_UINT32
    ensures r.Ok? <==> payload.Length <= MAX_UINT32
    ensures r.Ok? ==> fresh(r.value) && r.value[..] == Encode(payload[..])
  {
    if payload.Length > MAX_UINT32 {
      return Err(PayloadTooLarge);
    }
    var length := payload.Length;
    var frame := new byte[4 + length];
    frame[0] := (length / 0x1_000_000 % 256) as byte;
    frame[1] := (length / 0x1_0000 % 256) as byte;
    frame[2] := (length / 0x100 % 256) as byte;
    frame[3] := (length % 256) as byte;
    assert frame[..4] == Prefix(length);
    Blit(frame, 4, payload, 0, length);
    assert frame[..] == Encode(payload[..]);
    return Ok(frame);
  }

  method AssertCompleteFrame(frame: array<byte>, maxFrameLength: nat) returns (r: Result<(), FrameError>)
    ensures r == CheckCompleteFrame(frame[..], maxFrameLength)
  {
    if frame.Length < 4 {
      return Err(NoPrefix);
    }
    assert frame[..][..4] == [frame[0], frame[1], frame[2], frame[3]];
    var length :=
      frame[0] as int * 0x1_000_000 + frame[1] as int * 0x1_0000 + frame[2] as int * 0x100 + frame[3] as int;
    if length > maxFrameLength {
      return Err(TooLong);
    }
    if frame.Length != 4 + length {
      return Err(NotOneFrame);
    }
    return Ok(());
  }

  datatype DecoderState = IsOpen | IsEnded | IsFailed

  /** Full blocks holding the given bytes, in order. */
  ghost predicate Holds(blocks: seq<array<byte>>, bytes: seq<byte>)
    reads blocks
  {
    if blocks == [] then bytes == []
    else
      var last := blocks[|blocks| - 1];
      && last.Length == BLOCK_SIZE <= |bytes|
      && last[..] == bytes[|bytes| - BLOCK_SIZE..]
      && Holds(blocks[..|blocks| - 1], bytes[..|bytes| - BLOCK_SIZE])
  }

  lemma HoldsSnoc(blocks: seq<array<byte>>, bytes: seq<byte>, last: array<byte>)
    requires Holds(blocks, bytes) && last.Length == BLOCK_SIZE
    ensures Holds(blocks + [last], bytes + last[..])
  {
    assert (blocks + [last])[..|blocks|] == blocks;
    assert (bytes + last[..])[..|bytes|] == bytes;
  }

  lemma {:induction false} HoldsAt(blocks: seq<array<byte>>, bytes: seq<byte>, j: nat)
    requires Holds(blocks, bytes) && j < |blocks|
    ensures |bytes| == |blocks| * BLOCK_SIZE
    ensures blocks[j].Length == BLOCK_SIZE && blocks[j][..] == bytes[j * BLOCK_SIZE..(j + 1) * BLOCK_SIZE]
  {
    HoldsLength(blocks, bytes);
    var n := |blocks|;
    if j < n - 1 {
      HoldsAt(blocks[..n - 1], bytes[..|bytes| - BLOCK_SIZE], j);
    }
  }

  lemma {:induction false} HoldsLength(blocks: seq<array<byte>>, bytes: seq<byte>)
    requires Holds(blocks, bytes)
    ensures |bytes| == |blocks| * BLOCK_SIZE == Allocated(blocks)
  {
    if blocks != [] {
      HoldsLength(blocks[..|blocks| - 1], bytes[..|bytes| - BLOCK_SIZE]);
    }
  }

  lemma EmptyFrame(prefix: seq<byte>)
    requires |prefix| == 4 && PrefixValue(prefix) == 0
    ensures prefix == Encode([])
  {
    PrefixValueRoundTrip(prefix);
  }

  /** The total size of the payload blocks a decoder holds. */
  function Allocated(blocks: seq<array<byte>>): nat {
    if blocks == [] then 0 else Allocated(blocks[..|blocks| - 1]) + blocks[|blocks| - 1].Length
  }

  /** What one round of the push loop leads to. */
  datatype Round = Hungry | Delivered(payload: array<byte>) | Refused

  /** Extends the part of the payload that is in place by one block. */
  method CopyBlock(payload: array<byte>, offset: nat, block: array<byte>, ghost whole: seq<byte>) returns (next: nat)
    requires payload != block && offset + block.Length <= payload.Length == |whole|
    requires payload[..offset] == whole[..offset] && block[..] == whole[offset..offset + block.Length]
    modifies payload
    ensures next == offset + block.Length && payload[..next] == whole[..next]
  {
    Blit(payload, offset, block, 0, block.Length);
    next := offset + block.Length;
    assert payload[..next] == payload[..offset] + payload[offset..next];
    assert whole[..next] == whole[..offset] + whole[offset..next];
  }

  class FrameDecoder {
    const header: array<byte>
    const maxFrameLength: nat
    var headerLength: nat
    var payloadBlocks: seq<array<byte>>
    var currentPayloadBlock: array?<byte>
    var currentPayloadBlockLength: nat
    var expectedPayloadLength: Option<nat>
    var payloadLength: nat
    var state: DecoderState
    /** The bytes in the full blocks, and the bytes in the last block. */
    ghost var sealed: seq<byte>
    ghost var partial: seq<byte>
    /** The blocks, as a frame for the methods that write them. */
    ghost var blocksOwned: set<array<byte>>

    /** A caller's array is never one of the decoder's own. */
    ghost predicate Foreign(a: array<byte>)
      reads this
    {
      a != header && a !in blocksOwned
    }

    /** The payload bytes of the current frame received so far, in order. */
    ghost function Received(): seq<byte>
      reads this
    {
      sealed + partial
    }

    /** Every block but the last is full; the last holds `partial` and is no larger than the frame still needs. */
    ghost predicate BlocksHold(expected: nat)
      reads this, blocksOwned
    {
      var n := |payloadBlocks|;
      && header !in blocksOwned
      && (forall b <- payloadBlocks :: b in blocksOwned)
      && |sealed| < expected
      && (n == 0 ==> currentPayloadBlock == null && sealed == partial == [])
      && (n > 0 ==>
            && currentPayloadBlock == payloadBlocks[n - 1]
            && payloadBlocks[n - 1] !in payloadBlocks[..n - 1]
            && currentPayloadBlock.Length == Min(BLOCK_SIZE, expected - |sealed|)
            && currentPayloadBlockLength == |partial| <= currentPayloadBlock.Length
            && currentPayloadBlock[..currentPayloadBlockLength] == partial
            && Holds(payloadBlocks[..n - 1], sealed))
    }

    /** The invariant inside a push, where a frame may be complete but not yet taken. */
    ghost predicate Sound()
      reads this, header, blocksOwned
    {
      && header.Length == 4 && headerLength < 4 && maxFrameLength <= MAX_UINT32
      && payloadLength == |Received()|
      && match expectedPayloadLength
         case None =>
           && payloadBlocks == [] && blocksOwned == {} && sealed == partial == []
           && currentPayloadBlock == null && currentPayloadBlockLength == 0
         case Some(n) =>
           && headerLength == 0 && 0 < n <= maxFrameLength && |Received()| <= n && BlocksHold(n)
           && (payloadBlocks != [] ==> 0 < currentPayloadBlockLength)
    }

    ghost predicate Valid()
      reads this, header, blocksOwned
    {
      && Sound()
      && (state != IsOpen ==> headerLength == 0 && expectedPayloadLength == None)
      && (expectedPayloadLength.Some? ==> |Received()| < expectedPayloadLength.value)
    }

    /** The bytes received but not delivered. */
    ghost function Pending(): seq<byte>
      reads this, header, blocksOwned
      requires Sound()
    {
      match expectedPayloadLength
      case None => header[..headerLength]
      case Some(n) => Prefix(n) + Received()
    }

    ghost function View(): Decoder
      reads this, header, blocksOwned
      requires Sound()
    {
      match state
      case IsOpen => Open(Pending())
      case IsEnded => Ended
      case IsFailed => Failed
    }

    constructor (maxFrameLength: nat)
      requires maxFrameLength <= MAX_UINT32
      ensures Valid() && View() == Open([]) && this.maxFrameLength == maxFrameLength
      ensures fresh(header) && payloadBlocks == []
    {
      header := new byte[4];
      this.maxFrameLength := maxFrameLength;
      headerLength, payloadLength, currentPayloadBlockLength := 0, 0, 0;
      payloadBlocks, currentPayloadBlock, expectedPayloadLength := [], null, None;
      state := IsOpen;
      sealed, partial := [], [];
      blocksOwned := {};
    }

    /** Unfinished frames stay unparsed. */
    lemma PendingIsStuck()
      requires Valid()
      ensures Parse(Pending(), maxFrameLength) == Parsed([], Rest(Pending()))
    {
      match expectedPayloadLength
      case None =>
      case Some(n) =>
        PrefixRoundTrip(n);
        assert Pending()[..4] == Prefix(n);
    }

    method Reset()
      requires Sound()
      modifies this`headerLength, this`payloadBlocks, this`currentPayloadBlock, this`currentPayloadBlockLength,
               this`expectedPayloadLength, this`payloadLength, this`sealed, this`partial, this`blocksOwned
      ensures Sound() && headerLength == 0 && expectedPayloadLength == None && payloadBlocks == []
    {
      headerLength := 0;
      payloadBlocks := [];
      currentPayloadBlock := null;
      currentPayloadBlockLength := 0;
      expectedPayloadLength := None;
      payloadLength := 0;
      sealed, partial := [], [];
      blocksOwned := {};
    }

    /** Takes header bytes from the chunk; reports the frame length once the prefix is complete. */
    method TakeHeader(chunk: array<byte>, offset: nat) returns (next: nat, length: Option<nat>)
      requires Sound() && state == IsOpen && expectedPayloadLength == None
      requires offset < chunk.Length && Foreign(chunk)
      modifies this`headerLength, header
      ensures Sound() && offset < next <= chunk.Length
      ensures length == None ==> Pending() == old(Pending()) + chunk[offset..next]
      ensures length.Some? ==>
                var prefix := old(Pending()) + chunk[offset..next];
                |prefix| == 4 && length.value == PrefixValue(prefix) && headerLength == 0
      ensures length == None ==> next == chunk.Length
    {
      var headerBytes := Min(4 - headerLength, chunk.Length - offset);
      ghost var before := header[..];
      Blit(header, headerLength, chunk, offset, headerBytes);
      assert header[..headerLength + headerBytes] == before[..headerLength] + chunk[offset..offset + headerBytes];
      headerLength := headerLength + headerBytes;
      next := offset + headerBytes;
      if headerLength < 4 {
        length := None;
      } else {
        assert header[..4] == [header[0], header[1], header[2], header[3]];
        length := Some(
          header[0] as int * 0x1_000_000 + header[1] as int * 0x1_0000 + header[2] as int * 0x100 + header[3] as int);
        headerLength := 0;
      }
    }

    /** Makes room: appends a block of `min(64 KiB, what the frame still needs)` when there is none or the last is
        full. */
    method OpenBlock(expected: nat)
      requires BlocksHold(expected) && payloadLength == |Received()| < expected
      modifies this`payloadBlocks, this`currentPayloadBlock, this`currentPayloadBlockLength, this`blocksOwned,
               this`sealed, this`partial
      ensures BlocksHold(expected) && Received() == old(Received())
      ensures currentPayloadBlock != null && currentPayloadBlockLength < currentPayloadBlock.Length
      ensures fresh(blocksOwned - old(blocksOwned))
    {
      hide Holds;
      if currentPayloadBlock == null || currentPayloadBlockLength == currentPayloadBlock.Length {
        FullBlocksHold(expected);
        var block := new byte[Min(BLOCK_SIZE, expected - payloadLength)];
        assert block !in blocksOwned;
        ghost var full := payloadBlocks;
        sealed, partial := Received(), [];
        payloadBlocks := payloadBlocks + [block];
        assert payloadBlocks[..|payloadBlocks| - 1] == full;
        blocksOwned := blocksOwned + {block};
        currentPayloadBlock := block;
        currentPayloadBlockLength := 0;
        assert Holds(full, sealed);
      }
    }

    /** When the last block is full too, all of them hold all of the bytes. */
    lemma FullBlocksHold(expected: nat)
      requires BlocksHold(expected) && |Received()| < expected
      requires currentPayloadBlock != null ==> currentPayloadBlockLength == currentPayloadBlock.Length
      ensures Holds(payloadBlocks, Received())
    {
      var n := |payloadBlocks|;
      if n > 0 {
        HoldsSnoc(payloadBlocks[..n - 1], sealed, payloadBlocks[n - 1]);
        assert payloadBlocks[..n - 1] + [payloadBlocks[n - 1]] == payloadBlocks;
      }
    }

    /** One round of the inner loop: moves as many payload bytes as the chunk offers and the block holds. */
    method FillOnce(chunk: array<byte>, offset: nat, ghost expected: nat) returns (next: nat)
      requires BlocksHold(expected) && payloadLength == |Received()| < expected
      requires currentPayloadBlock != null && currentPayloadBlockLength < currentPayloadBlock.Length
      requires offset < chunk.Length && Foreign(chunk)
      modifies this`currentPayloadBlockLength, this`payloadLength, this`partial, currentPayloadBlock
      ensures BlocksHold(expected) && payloadLength == |Received()| <= expected
      ensures 0 < currentPayloadBlockLength
      ensures offset < next <= chunk.Length
      ensures Received() == old(Received()) + chunk[offset..next]
    {
      var block := currentPayloadBlock;
      var payloadBytes := Min(block.Length - currentPayloadBlockLength, chunk.Length - offset);
      next := offset + payloadBytes;
      ghost var full := payloadBlocks[..|payloadBlocks| - 1];
      Blit(block, currentPayloadBlockLength, chunk, offset, payloadBytes);
      assert Holds(full, sealed);
      partial := partial + chunk[offset..next];
      currentPayloadBlockLength := currentPayloadBlockLength + payloadBytes;
      payloadLength := payloadLength + payloadBytes;
      assert block[..currentPayloadBlockLength] == partial;
    }

    method FillRound(chunk: array<byte>, offset: nat, expected: nat) returns (next: nat)
      requires Sound() && expectedPayloadLength == Some(expected) && |Received()| < expected
      requires offset < chunk.Length && Foreign(chunk)
      modifies this`payloadBlocks, this`currentPayloadBlock, this`currentPayloadBlockLength, this`payloadLength,
               this`sealed, this`partial, this`blocksOwned, blocksOwned
      ensures Sound() && fresh(blocksOwned - old(blocksOwned))
      ensures offset < next <= chunk.Length
      ensures Received() == old(Received()) + chunk[offset..next]
    {
      OpenBlock(expected);
      assert currentPayloadBlock == payloadBlocks[|payloadBlocks| - 1];
      next := FillOnce(chunk, offset, expected);
    }

    /** The inner loop: runs until the chunk is used up or the frame is complete. */
    method FillPayload(chunk: array<byte>, offset: nat, expected: nat) returns (next: nat)
      requires Sound() && expectedPayloadLength == Some(expected) && |Received()| < expected
      requires offset < chunk.Length && Foreign(chunk)
      modifies this`payloadBlocks, this`currentPayloadBlock, this`currentPayloadBlockLength, this`payloadLength,
               this`sealed, this`partial, this`blocksOwned, blocksOwned
      ensures Sound() && fresh(blocksOwned - old(blocksOwned))
      ensures offset < next <= chunk.Length
      ensures Received() == old(Received()) + chunk[offset..next]
      ensures next == chunk.Length || |Received()| == expected
    {
      hide BlocksHold;
      next := offset;
      while next < chunk.Length && payloadLength < expected
        invariant Sound() && fresh(blocksOwned - old(blocksOwned)) && Foreign(chunk)
        invariant expectedPayloadLength == Some(expected)
        invariant offset <= next <= chunk.Length
        invariant next == offset ==> Received() == old(Received())
        invariant Received() == old(Received()) + chunk[offset..next]
      {
        ghost var from := next;
        next := FillRound(chunk, next, expected);
        assert chunk[offset..next] == chunk[offset..from] + chunk[from..next];
      }
    }

    /** Joins the blocks of a complete frame; a single block is handed out as it is. */
    method TakePayload(expected: nat) returns (payload: array<byte>)
      requires Sound() && expectedPayloadLength == Some(expected) && |Received()| == expected
      modifies this`payloadBlocks, this`currentPayloadBlock, this`currentPayloadBlockLength, this`headerLength,
               this`expectedPayloadLength, this`payloadLength, this`sealed, this`partial, this`blocksOwned
      ensures Sound() && headerLength == 0 && expectedPayloadLength == None && payloadBlocks == []
      ensures payload[..] == old(Received())
      ensures payload != header && (payload in old(blocksOwned) || fresh(payload))
    {
      if |payloadBlocks| == 1 {
        payload := payloadBlocks[0];
        assert payload[..] == payload[..currentPayloadBlockLength];
      } else {
        payload := JoinBlocks(expected);
      }
      Reset();
    }

    /** Copies the blocks one after the other into one array. */
    method JoinBlocks(expected: nat) returns (payload: array<byte>)
      requires BlocksHold(expected) && |Received()| == expected
      ensures fresh(payload) && payload[..] == Received()
    {
      payload := new byte[expected];
      var offset := 0;
      ghost var whole := Received();
      assert |payloadBlocks| > 0;
      hide BlocksHold, Received;
      for j := 0 to |payloadBlocks|
        modifies payload
        invariant offset == Min(j * BLOCK_SIZE, expected)
        invariant payload[..offset] == whole[..offset]
      {
        var block := payloadBlocks[j];
        BlockSlice(j, expected);
        offset := CopyBlock(payload, offset, block, whole);
      }
      BlockSlice(|payloadBlocks| - 1, expected);
      assert payload[..] == payload[..offset];
    }

    /** In a complete frame every block is full and holds the next slice of the payload. */
    lemma BlockSlice(j: nat, expected: nat)
      requires BlocksHold(expected) && |Received()| == expected && j < |payloadBlocks|
      ensures var b := payloadBlocks[j];
              && j * BLOCK_SIZE + b.Length <= expected
              && b.Length == Min(BLOCK_SIZE, expected - j * BLOCK_SIZE)
              && b[..] == Received()[j * BLOCK_SIZE..j * BLOCK_SIZE + b.Length]
      ensures expected <= |payloadBlocks| * BLOCK_SIZE
    {
      var n := |payloadBlocks|;
      HoldsLength(payloadBlocks[..n - 1], sealed);
      if j < n - 1 {
        HoldsAt(payloadBlocks[..n - 1], sealed, j);
      } else {
        assert currentPayloadBlock[..] == partial;
      }
    }

    /** What one round did to the bytes `before` it, given the bytes `taken` from the chunk. */
    ghost predicate RoundMeans(round: Round, before: seq<byte>, taken: seq<byte>)
      reads this, header, blocksOwned, if round.Delivered? then {round.payload} else {}
    {
      && Valid() && state == IsOpen
      && match round
         case Hungry => Pending() == before + taken
         case Delivered(payload) =>
           && Foreign(payload) && payload.Length <= maxFrameLength
           && before + taken == Encode(payload[..]) && Pending() == []
         case Refused => |before + taken| == 4 && PrefixValue(before + taken) > maxFrameLength
    }

    /** One round of the outer loop of `push`: the rest of a prefix, if one is due, then payload bytes. */
    method Advance(chunk: array<byte>, offset: nat) returns (next: nat, round: Round)
      requires Valid() && state == IsOpen && Foreign(chunk) && offset < chunk.Length
      modifies this`headerLength, this`payloadBlocks, this`currentPayloadBlock, this`currentPayloadBlockLength,
               this`expectedPayloadLength, this`payloadLength, this`sealed, this`partial, this`blocksOwned,
               header, blocksOwned
      ensures offset < next <= chunk.Length && fresh(blocksOwned - old(blocksOwned))
      ensures RoundMeans(round, old(Pending()), chunk[offset..next])
      ensures round.Delivered? ==> fresh(round.payload) || round.payload in old(blocksOwned)
    {
      hide BlocksHold, Prefix, PrefixValue, Encode;
      next := offset;
      ghost var before := Pending();
      if expectedPayloadLength == None {
        var length;
        next, length := TakeHeader(chunk, offset);
        if length == None {
          return next, Hungry;
        }
        PrefixValueRoundTrip(before + chunk[offset..next]);
        if length.value > maxFrameLength {
          return next, Refused;
        }
        if length.value == 0 {
          var empty := new byte[0];
          assert empty[..] == [];
          EmptyFrame(before + chunk[offset..next]);
          return next, Delivered(empty);
        }
        Expect(length.value);
        assert Pending() == Prefix(length.value) + [] == before + chunk[offset..next];
      } else {
        assert Pending() == before + chunk[offset..next];
      }
      ghost var from := next;
      next, round := AdvancePayload(chunk, next);
      assert chunk[offset..next] == chunk[offset..from] + chunk[from..next];
      Associative(before, chunk[offset..from], chunk[from..next]);
    }

    /** The second half of a round: payload bytes, and the payload itself if that completes it. */
    method AdvancePayload(chunk: array<byte>, offset: nat) returns (next: nat, round: Round)
      requires Valid() && state == IsOpen && Foreign(chunk) && offset <= chunk.Length && expectedPayloadLength.Some?
      modifies this`headerLength, this`payloadBlocks, this`currentPayloadBlock, this`currentPayloadBlockLength,
               this`expectedPayloadLength, this`payloadLength, this`sealed, this`partial, this`blocksOwned, blocksOwned
      ensures offset <= next <= chunk.Length && (offset < chunk.Length ==> offset < next)
      ensures fresh(blocksOwned - old(blocksOwned))
      ensures RoundMeans(round, old(Pending()), chunk[offset..next])
      ensures round.Delivered? ==> fresh(round.payload) || round.payload in old(blocksOwned)
    {
      hide BlocksHold;
      next := offset;
      ghost var before, n := Received(), expectedPayloadLength.value;
      if next < chunk.Length {
        next := FillPayload(chunk, next, expectedPayloadLength.value);
      }
      assert Received() == before + chunk[offset..next];
      Associative(Prefix(n), before, chunk[offset..next]);
      if payloadLength == expectedPayloadLength.value {
        var payload := TakePayload(payloadLength);
        round := Delivered(payload);
      } else {
        round := Hungry;
      }
    }

    method Expect(length: nat)
      requires Sound() && headerLength == 0 && expectedPayloadLength == None && 0 < length <= maxFrameLength
      modifies this`headerLength, this`payloadBlocks, this`currentPayloadBlock, this`currentPayloadBlockLength,
               this`expectedPayloadLength, this`payloadLength, this`sealed, this`partial, this`blocksOwned
      ensures Sound() && expectedPayloadLength == Some(length) && Received() == [] && blocksOwned == {}
    {
      Reset();
      expectedPayloadLength := Some(length);
    }

    method Fail()
      requires Sound()
      modifies this
      ensures Valid() && View() == Failed && blocksOwned == {}
    {
      state := IsFailed;
      Reset();
    }

    /** The arrays hold exactly these payloads, and the decoder keeps none of them. */
    ghost predicate HandsOut(frames: seq<array<byte>>, payloads: Frames)
      reads this, frames
    {
      && |frames| == |payloads|
      && forall i | 0 <= i < |frames| :: Foreign(frames[i]) && frames[i][..] == payloads[i]
    }

    method Push(chunk: array<byte>) returns (r: Result<seq<array<byte>>, FrameError>)
      requires Valid() && Foreign(chunk)
      modifies this, header, blocksOwned
      ensures Valid() && fresh(blocksOwned - old(blocksOwned))
      ensures View() == FrameSpec.Push(old(View()), chunk[..], maxFrameLength).0
      ensures match FrameSpec.Push(old(View()), chunk[..], maxFrameLength).1
              case Err(e) => r == Err(e)
              case Ok(payloads) => r.Ok? && HandsOut(r.value, payloads)
    {
      hide BlocksHold, Parse, Prefix, PrefixValue, Encode;
      if state == IsEnded {
        return Err(HasEnded);
      }
      if state == IsFailed {
        return Err(HasFailed);
      }
      ghost var whole := Parse(Pending() + chunk[..], maxFrameLength);
      ghost var payloads: Frames := [];
      var frames: seq<array<byte>> := [];
      var chunkOffset := 0;
      assert chunk[0..] == chunk[..];
      while chunkOffset < chunk.Length
        invariant Valid() && state == IsOpen && Foreign(chunk) && fresh(blocksOwned - old(blocksOwned))
        invariant chunkOffset <= chunk.Length && chunk[..] == old(chunk[..])
        invariant HandsOut(frames, payloads)
        invariant whole == Before(payloads, Parse(Pending() + chunk[chunkOffset..], maxFrameLength))
      {
        ghost var before, from := Pending(), chunkOffset;
        var round;
        chunkOffset, round := Advance(chunk, chunkOffset);
        assert HandsOut(frames, payloads);
        ParseRound(round, before, chunk[from..chunkOffset], chunk[chunkOffset..]);
        assert chunk[from..] == chunk[from..chunkOffset] + chunk[chunkOffset..];
        match round
        case Hungry =>
        case Delivered(payload) =>
          BeforeBefore(payloads, [payload[..]], Parse(Pending() + chunk[chunkOffset..], maxFrameLength));
          frames := frames + [payload];
          payloads := payloads + [payload[..]];
        case Refused =>
          Fail();
          return Err(TooLong);
      }
      PendingIsStuck();
      assert chunk[chunkOffset..] == [];
      assert Pending() + chunk[chunkOffset..] == Pending();
      return Ok(frames);
    }

    /** One round of the loop is one step of the parse. */
    lemma ParseRound(round: Round, before: seq<byte>, taken: seq<byte>, rest: seq<byte>)
      requires RoundMeans(round, before, taken)
      ensures match round
              case Hungry => before + (taken + rest) == Pending() + rest
              case Delivered(payload) =>
                Parse(before + (taken + rest), maxFrameLength) == Before([payload[..]],
                    Parse(Pending() + rest, maxFrameLength))
              case Refused => Parse(before + (taken + rest), maxFrameLength) == Parsed([], Overlong)
    {
      Associative(before, taken, rest);
      match round
      case Hungry =>
      case Delivered(payload) =>
        ParseEncoded(payload[..], rest, maxFrameLength);
        assert Pending() + rest == rest;
      case Refused =>
        assert (before + (taken + rest))[..4] == before + taken;
    }

    method End() returns (r: Result<(), FrameError>)
      requires Valid()
      modifies this
      ensures Valid() && View() == FrameSpec.End(old(View())).0 && r == FrameSpec.End(old(View())).1
    {
      if state == IsEnded {
        return Err(HasEnded);
      }
      if state == IsFailed {
        return Err(HasFailed);
      }
      if headerLength != 0 || expectedPayloadLength != None {
        Fail();
        return Err(Truncated);
      }
      state := IsEnded;
      return Ok(());
    }

    /** Between pushes the decoder never holds more than one block beyond the bytes it was sent, nor more than the
        frame. */
    lemma AllocationBound(expected: nat)
      requires Valid() && expectedPayloadLength == Some(expected)
      ensures Allocated(payloadBlocks) <= Min(expected, payloadLength + BLOCK_SIZE - 1)
    {
      var n := |payloadBlocks|;
      if n > 0 {
        HoldsLength(payloadBlocks[..n - 1], sealed);
      }
    }
  }
}
