/** The wire format of packages/protocol/src/framing.ts as a parser of whole byte streams,
    and the chunk-by-chunk protocol that refines it. */
module FrameSpec {
  import opened Seqs

  newtype byte = x: int | 0 <= x < 256

  const MAX_UINT32: nat := 0xffff_ffff
  const BLOCK_SIZE: nat := 65536

  datatype FrameError = HasEnded | HasFailed | TooLong | Truncated | NoPrefix | NotOneFrame | PayloadTooLarge

  /** The unsigned big-endian value of a four byte prefix. */
  function PrefixValue(h: seq<byte>): nat
    requires |h| == 4
  {
    h[0] as int * 0x1_000_000 + h[1] as int * 0x1_0000 + h[2] as int * 0x100 + h[3] as int
  }

  /** The prefix of a payload of length n: `n >>> 24`, `n >>> 16`, `n >>> 8`, `n`, each stored in one byte. */
  function Prefix(n: nat): (h: seq<byte>)
    requires n <= MAX_UINT32
    ensures |h| == 4
  {
    [(n / 0x1_000_000 % 256) as byte, (n / 0x1_0000 % 256) as byte, (n / 0x100 % 256) as byte, (n % 256) as byte]
  }

  lemma PrefixRoundTrip(n: nat)
    requires n <= MAX_UINT32
    ensures PrefixValue(Prefix(n)) == n
  {
    ShiftTwice(n);
    ShiftThrice(n);
    assert n == (n / 0x100) * 0x100 + n % 0x100;
    assert n / 0x100 == (n / 0x1_0000) * 0x100 + n / 0x100 % 0x100;
    assert n / 0x1_0000 == (n / 0x1_000_000) * 0x100 + n / 0x1_0000 % 0x100;
    assert n / 0x1_000_000 < 0x100;
  }

  /** Shifting by two bytes is shifting by one, twice. */
  lemma ShiftTwice(n: nat)
    ensures n / 0x1_0000 == n / 0x100 / 0x100
  {
  }

  lemma ShiftThrice(n: nat)
    ensures n / 0x1_000_000 == n / 0x1_0000 / 0x100
  {
  }

  lemma LowByte(high: nat, low: nat)
    requires low < 0x100
    ensures (high * 0x100 + low) / 0x100 == high && (high * 0x100 + low) % 0x100 == low
  {
  }

  lemma PrefixValueRoundTrip(h: seq<byte>)
    requires |h| == 4
    ensures PrefixValue(h) <= MAX_UINT32
    ensures Prefix(PrefixValue(h)) == h
  {
    var a, b, c, d := h[0] as int, h[1] as int, h[2] as int, h[3] as int;
    BytesOf(a, b, c, d, PrefixValue(h));
  }

  /** The four shifted and truncated bytes of a number are the ones it was made of. */
  lemma BytesOf(a: nat, b: nat, c: nat, d: nat, n: nat)
    requires a < 0x100 && b < 0x100 && c < 0x100 && d < 0x100
    requires n == a * 0x1_000_000 + b * 0x1_0000 + c * 0x100 + d
    ensures n <= MAX_UINT32
    ensures n / 0x1_000_000 % 0x100 == a && n / 0x1_0000 % 0x100 == b && n / 0x100 % 0x100 == c && n % 0x100 == d
  {
    var ab, abc := a * 0x100 + b, a * 0x1_0000 + b * 0x100 + c;
    ShiftTwice(n);
    ShiftThrice(n);
    LowByte(abc, d);
    LowByte(ab, c);
    LowByte(a, b);
    LowByte(0, a);
  }

  function Encode(payload: seq<byte>): (frame: seq<byte>)
    requires |payload| <= MAX_UINT32
    ensures |frame| == 4 + |payload|
  {
    Prefix(|payload|) + payload
  }

  /** What a byte stream means: the complete payloads in order, then either an unfinished tail or a frame over the
      limit. */
  datatype Tail = Rest(bytes: seq<byte>) | Overlong

  datatype Parsed = Parsed(frames: Frames, tail: Tail)

  function Parse(s: seq<byte>, max: nat): (p: Parsed)
    decreases |s|
  {
    if |s| < 4 then Parsed([], Rest(s))
    else
      var n := PrefixValue(s[..4]);
      if n > max then Parsed([], Overlong)
      else if |s| < 4 + n then Parsed([], Rest(s))
      else Before([s[4..4 + n]], Parse(s[4 + n..], max))
  }

  type Frames = seq<seq<byte>>

  /** Puts already delivered payloads in front of a parse. */
  function Before(fs: Frames, p: Parsed): Parsed {
    Parsed(fs + p.frames, p.tail)
  }

  lemma BeforeBefore(a: Frames, b: Frames, p: Parsed)
    ensures Before(a, Before(b, p)) == Before(a + b, p)
  {
    assert a + (b + p.frames) == a + b + p.frames;
  }

  lemma ParseFrame(s: seq<byte>, n: nat, max: nat)
    requires |s| >= 4 && n == PrefixValue(s[..4]) && n <= max && |s| >= 4 + n
    ensures Parse(s, max) == Before([s[4..4 + n]], Parse(s[4 + n..], max))
  {
  }

  /** Parsing can be suspended at any byte and resumed from the unfinished tail. */
  lemma {:induction false} ParseAppend(a: seq<byte>, b: seq<byte>, max: nat)
    ensures Parse(a, max).tail.Overlong? ==> Parse(a + b, max) == Parse(a, max)
    ensures Parse(a, max).tail.Rest? ==>
              Parse(a + b, max) == Before(Parse(a, max).frames, Parse(Parse(a, max).tail.bytes + b, max))
    decreases |a|
  {
    if |a| < 4 {
      assert Parse(a, max) == Parsed([], Rest(a));
    } else {
      var n := PrefixValue(a[..4]);
      assert (a + b)[..4] == a[..4];
      if n <= max && |a| >= 4 + n {
        var payload, rest := a[4..4 + n], a[4 + n..];
        ParseAppend(rest, b, max);
        assert (a + b)[4 + n..] == rest + b;
        assert (a + b)[4..4 + n] == payload;
        ParseFrame(a, n, max);
        ParseFrame(a + b, n, max);
        if Parse(rest, max).tail.Rest? {
          BeforeBefore([payload], Parse(rest, max).frames, Parse(Parse(rest, max).tail.bytes + b, max));
        }
      }
    }
  }

  /** One complete frame at the front of a stream is exactly one payload at the front of the parse. */
  lemma ParseEncoded(payload: seq<byte>, s: seq<byte>, max: nat)
    requires |payload| <= max <= MAX_UINT32
    ensures Parse(Encode(payload) + s, max) == Before([payload], Parse(s, max))
  {
    var whole := Encode(payload) + s;
    PrefixRoundTrip(|payload|);
    assert whole[..4] == Prefix(|payload|);
    assert whole[4..4 + |payload|] == payload;
    assert whole[4 + |payload|..] == s;
  }

  /** The tail kept by a parse is never itself parseable any further. */
  lemma {:induction false} ParseTailStuck(s: seq<byte>, max: nat)
    requires Parse(s, max).tail.Rest?
    ensures Parse(Parse(s, max).tail.bytes, max) == Parsed([], Parse(s, max).tail)
    decreases |s|
  {
    if |s| >= 4 && |s| >= 4 + PrefixValue(s[..4]) {
      ParseTailStuck(s[4 + PrefixValue(s[..4])..], max);
    }
  }

  /** The decoder as its callers see it. */
  datatype Decoder = Open(pending: seq<byte>) | Ended | Failed

  function Push(d: Decoder, chunk: seq<byte>, max: nat): (Decoder, Result<Frames, FrameError>) {
    match d
    case Ended => (Ended, Err(HasEnded))
    case Failed => (Failed, Err(HasFailed))
    case Open(pending) =>
      var p := Parse(pending + chunk, max);
      match p.tail
      case Overlong => (Failed, Err(TooLong))
      case Rest(bytes) => (Open(bytes), Ok(p.frames))
  }

  function End(d: Decoder): (Decoder, Result<(), FrameError>) {
    match d
    case Ended => (Ended, Err(HasEnded))
    case Failed => (Failed, Err(HasFailed))
    case Open(pending) => if pending == [] then (Ended, Ok(())) else (Failed, Err(Truncated))
  }

  /** A whole session: every chunk pushed in order. `frames` collects what the successful pushes returned. */
  datatype Session = Session(decoder: Decoder, frames: Frames)

  function Feed(d: Decoder, chunks: seq<seq<byte>>, max: nat): Session
    decreases |chunks|
  {
    if chunks == [] then Session(d, [])
    else
      var (next, out) := Push(d, chunks[0], max);
      var later := Feed(next, chunks[1..], max);
      match out
      case Ok(fs) => Session(later.decoder, fs + later.frames)
      case Err(_) => later
  }

  lemma {:induction false} FailureIsSticky(chunks: seq<seq<byte>>, max: nat)
    ensures Feed(Failed, chunks, max) == Session(Failed, [])
    decreases |chunks|
  {
    if chunks != [] {
      FailureIsSticky(chunks[1..], max);
    }
  }

  /** The bytes a decoder has seen, ended by an unfinished tail, followed by the first k chunks. */
  function Seen(pending: seq<byte>, chunks: seq<seq<byte>>, k: nat): seq<byte>
    requires k <= |chunks|
  {
    pending + Concat(chunks[..k])
  }

  /** The push of chunk k is the one that fails: nothing before it does. */
  ghost predicate FailsAt(pending: seq<byte>, chunks: seq<seq<byte>>, k: nat, max: nat) {
    && k < |chunks|
    && Parse(Seen(pending, chunks, k), max).tail.Rest?
    && Parse(Seen(pending, chunks, k + 1), max).tail.Overlong?
  }

  lemma SeenShift(pending: seq<byte>, next: seq<byte>, chunks: seq<seq<byte>>, k: nat, max: nat)
    requires 0 < |chunks| && k < |chunks|
    requires Parse(pending + chunks[0], max).tail == Rest(next)
    ensures Parse(Seen(pending, chunks, k + 1), max)
         == Before(Parse(pending + chunks[0], max).frames, Parse(Seen(next, chunks[1..], k), max))
  {
    var later := Concat(chunks[1..][..k]);
    assert chunks[..k + 1] == [chunks[0]] + chunks[1..][..k];
    assert Seen(pending, chunks, k + 1) == pending + chunks[0] + later;
    ParseAppend(pending + chunks[0], later, max);
  }

  /** What the pushes of a session owe to the stream they add up to. */
  ghost predicate SessionMatches(pending: seq<byte>, chunks: seq<seq<byte>>, max: nat) {
    var p := Parse(pending + Concat(chunks), max);
    var session := Feed(Open(pending), chunks, max);
    match p.tail
    case Rest(bytes) => session == Session(Open(bytes), p.frames)
    case Overlong =>
      exists k: nat :: FailsAt(pending, chunks, k, max)
        && session == Session(Failed, Parse(Seen(pending, chunks, k), max).frames)
  }

  lemma FailingPush(pending: seq<byte>, chunks: seq<seq<byte>>, max: nat)
    requires Parse(pending, max) == Parsed([], Rest(pending))
    requires chunks != [] && Parse(pending + chunks[0], max).tail.Overlong?
    ensures SessionMatches(pending, chunks, max)
  {
    ConcatFirst(pending, chunks);
    ParseAppend(pending + chunks[0], Concat(chunks[1..]), max);
    FailureIsSticky(chunks[1..], max);
    assert chunks[..0] == [] && chunks[..1] == [chunks[0]];
    assert Concat([chunks[0]]) == chunks[0];
    assert Seen(pending, chunks, 0) == pending && Seen(pending, chunks, 1) == pending + chunks[0];
    assert FailsAt(pending, chunks, 0, max);
  }

  /** Where the later chunks fail. */
  lemma LaterFailure(pending: seq<byte>, next: seq<byte>, chunks: seq<seq<byte>>, k: nat, max: nat)
    requires chunks != [] && Parse(pending + chunks[0], max).tail == Rest(next)
    requires FailsAt(next, chunks[1..], k, max)
    ensures FailsAt(pending, chunks, k + 1, max)
    ensures Parse(Seen(pending, chunks, k + 1), max).frames
         == Parse(pending + chunks[0], max).frames + Parse(Seen(next, chunks[1..], k), max).frames
  {
    SeenShift(pending, next, chunks, k, max);
    SeenShift(pending, next, chunks, k + 1, max);
    hide Parse, Seen;
  }

  lemma SucceedingPush(pending: seq<byte>, next: seq<byte>, chunks: seq<seq<byte>>, max: nat)
    requires chunks != [] && Parse(pending + chunks[0], max).tail == Rest(next)
    requires SessionMatches(next, chunks[1..], max)
    ensures SessionMatches(pending, chunks, max)
  {
    ConcatFirst(pending, chunks);
    ParseAppend(pending + chunks[0], Concat(chunks[1..]), max);
    hide Parse, Concat, Seen, FailsAt;
    if Parse(next + Concat(chunks[1..]), max).tail.Overlong? {
      var k: nat :| FailsAt(next, chunks[1..], k, max)
        && Feed(Open(next), chunks[1..], max) == Session(Failed, Parse(Seen(next, chunks[1..], k), max).frames);
      LaterFailure(pending, next, chunks, k, max);
    }
  }

  /** Chunking independence: the pushes of any split of a stream deliver exactly the payloads of the whole
      stream and keep its tail; and the session fails exactly when the whole stream has an overlong frame,
      having delivered the payloads complete before the failing chunk. */
  lemma {:induction false} FeedRefinesParse(pending: seq<byte>, chunks: seq<seq<byte>>, max: nat)
    requires Parse(pending, max) == Parsed([], Rest(pending))
    ensures SessionMatches(pending, chunks, max)
    decreases |chunks|
  {
    if chunks == [] {
      assert pending + Concat(chunks) == pending;
    } else {
      match Parse(pending + chunks[0], max).tail
      case Overlong =>
        FailingPush(pending, chunks, max);
      case Rest(next) =>
        ParseTailStuck(pending + chunks[0], max);
        FeedRefinesParse(next, chunks[1..], max);
        SucceedingPush(pending, next, chunks, max);
    }
  }

  lemma ConcatFirst(pending: seq<byte>, chunks: seq<seq<byte>>)
    requires chunks != []
    ensures pending + Concat(chunks) == pending + chunks[0] + Concat(chunks[1..])
  {
  }

  /** Two splits of the same bytes fail together, and when they do not fail they agree on everything. */
  lemma ChunkingIndependence(chunks: seq<seq<byte>>, chunks': seq<seq<byte>>, max: nat)
    requires Concat(chunks) == Concat(chunks')
    ensures Feed(Open([]), chunks, max).decoder.Failed? <==> Feed(Open([]), chunks', max).decoder.Failed?
    ensures !Feed(Open([]), chunks, max).decoder.Failed? ==> Feed(Open([]), chunks, max) == Feed(Open([]), chunks', max)
  {
    FeedRefinesParse([], chunks, max);
    FeedRefinesParse([], chunks', max);
    assert [] + Concat(chunks) == [] + Concat(chunks');
  }

  function EncodeAll(payloads: Frames): seq<byte>
    requires forall p <- payloads :: |p| <= MAX_UINT32
  {
    if payloads == [] then [] else Encode(payloads[0]) + EncodeAll(payloads[1..])
  }

  lemma {:induction false} ParseEncodeAll(payloads: Frames, max: nat)
    requires max <= MAX_UINT32
    requires forall p <- payloads :: |p| <= max
    ensures Parse(EncodeAll(payloads), max) == Parsed(payloads, Rest([]))
  {
    if payloads != [] {
      ParseEncodeAll(payloads[1..], max);
      ParseEncoded(payloads[0], EncodeAll(payloads[1..]), max);
      assert payloads == [payloads[0]] + payloads[1..];
    }
  }

  /** Round trip through the wire, however the bytes are cut: the payloads come back in order and `end()` succeeds. */
  lemma WireRoundTrip(payloads: Frames, chunks: seq<seq<byte>>, max: nat)
    requires max <= MAX_UINT32
    requires forall p <- payloads :: |p| <= max
    requires Concat(chunks) == EncodeAll(payloads)
    ensures Feed(Open([]), chunks, max) == Session(Open([]), payloads)
    ensures End(Feed(Open([]), chunks, max).decoder) == (Ended, Ok(()))
  {
    ParseEncodeAll(payloads, max);
    FeedRefinesParse([], chunks, max);
    assert [] + Concat(chunks) == Concat(chunks);
  }

  /** `assertCompleteFrame`. */
  function CheckCompleteFrame(frame: seq<byte>, max: nat): Result<(), FrameError> {
    if |frame| < 4 then Err(NoPrefix)
    else if PrefixValue(frame[..4]) > max then Err(TooLong)
    else if |frame| != 4 + PrefixValue(frame[..4]) then Err(NotOneFrame)
    else Ok(())
  }

  /** A complete frame is one that a fresh decoder turns, in one push and an end, into exactly one payload. */
  lemma CompleteFrameIff(frame: seq<byte>, max: nat)
    requires max <= MAX_UINT32
    ensures CheckCompleteFrame(frame, max).Ok?
       <==> (var (d, out) := Push(Open([]), frame, max); out.Ok? && |out.value| == 1 && End(d).1.Ok?)
    ensures CheckCompleteFrame(frame, max).Ok? <==> exists p :: |p| <= max && frame == Encode(p)
  {
    assert [] + frame == frame;
    if |frame| >= 4 {
      var n := PrefixValue(frame[..4]);
      PrefixValueRoundTrip(frame[..4]);
      if n <= max && |frame| >= 4 + n {
        ParseFrame(frame, n, max);
        if |frame| == 4 + n {
          assert frame == Encode(frame[4..]);
        } else {
          NonEmptyParse(frame[4 + n..], max);
        }
      }
    }
    forall p | |p| <= max && frame == Encode(p)
      ensures CheckCompleteFrame(frame, max).Ok?
    {
      PrefixRoundTrip(|p|);
      assert frame[..4] == Prefix(|p|);
    }
  }

  /** Bytes after a complete frame show: as another payload, as a tail, or as an overlong frame. */
  lemma NonEmptyParse(s: seq<byte>, max: nat)
    requires s != []
    ensures Parse(s, max) != Parsed([], Rest([]))
  {
  }

  /** Bytes that are no frame yet: a header that is not complete, or a payload within the limit that is not. */
  predicate Unfinished(s: seq<byte>, max: nat) {
    |s| < 4 || (PrefixValue(s[..4]) <= max && |s| < 4 + PrefixValue(s[..4]))
  }

  /** Bytes that start with the header of a frame over the limit, however little of it has come. */
  predicate StartsOverlong(s: seq<byte>, max: nat) {
    |s| >= 4 && PrefixValue(s[..4]) > max
  }

  lemma EncodeAllCons(payload: seq<byte>, rest: Frames)
    requires |payload| <= MAX_UINT32 && forall p <- rest :: |p| <= MAX_UINT32
    ensures EncodeAll([payload] + rest) == Encode(payload) + EncodeAll(rest)
  {
    assert ([payload] + rest)[1..] == rest;
  }

  lemma StreamStarts(s: seq<byte>, payload: seq<byte>, more: seq<byte>)
    requires |s| >= 4 && |s| >= 4 + PrefixValue(s[..4]) && payload == s[4..4 + PrefixValue(s[..4])]
    requires more == s[4 + PrefixValue(s[..4])..]
    ensures |payload| <= MAX_UINT32 && s == Encode(payload) + more
  {
    PrefixValueRoundTrip(s[..4]);
    assert s == s[..4] + (payload + more);
  }

  /** What a parse of a stream is: the stream is the frames of the payloads found, all within the limit, and then
      either bytes that are no frame yet or bytes that start a frame over the limit, which is refused at its header. */
  lemma {:induction false} ParseMeans(s: seq<byte>, max: nat) returns (rest: seq<byte>)
    ensures var p := Parse(s, max);
      && (forall f <- p.frames :: |f| <= MAX_UINT32 && |f| <= max) && s == EncodeAll(p.frames) + rest
      && match p.tail {
           case Rest(bytes) => bytes == rest && Unfinished(rest, max)
           case Overlong => StartsOverlong(rest, max)
         }
    decreases |s|
  {
    if Unfinished(s, max) || StartsOverlong(s, max) {
      rest := s;
    } else {
      var n := PrefixValue(s[..4]);
      var payload, more := s[4..4 + n], s[4 + n..];
      rest := ParseMeans(more, max);
      ParseFrame(s, n, max);
      StreamStarts(s, payload, more);
      EncodeAllCons(payload, Parse(more, max).frames);
      hide Encode, EncodeAll, Parse;
      Associative(Encode(payload), EncodeAll(Parse(more, max).frames), rest);
    }
  }

  /** The stream is the frames of these payloads and nothing else. */
  ghost predicate WholeFrames(s: seq<byte>, payloads: Frames, max: nat)
    requires max <= MAX_UINT32
  {
    (forall p <- payloads :: |p| <= max) && s == EncodeAll(payloads)
  }

  /** That is so exactly when its parse finds these payloads and leaves nothing. */
  lemma WholeFramesIff(s: seq<byte>, payloads: Frames, max: nat)
    requires max <= MAX_UINT32
    ensures WholeFrames(s, payloads, max) <==> Parse(s, max) == Parsed(payloads, Rest([]))
  {
    if Parse(s, max) == Parsed(payloads, Rest([])) {
      var rest := ParseMeans(s, max);
      assert EncodeAll(payloads) + [] == EncodeAll(payloads);
    } else if forall p <- payloads :: |p| <= max {
      ParseEncodeAll(payloads, max);
    }
  }

  /** Which error a push or an end reports: a decoder that is over says so, and else the limit or the unfinished frame
      is the only reason. */
  lemma DecoderErrors(d: Decoder, chunk: seq<byte>, max: nat)
    ensures Push(d, chunk, max).1.Err? <==> !d.Open? || Parse(d.pending + chunk, max).tail.Overlong?
    ensures Push(d, chunk, max).1.Err? ==>
      Push(d, chunk, max).1.error == if d.Ended? then HasEnded else if d.Failed? then HasFailed else TooLong
    ensures End(d).1.Err? <==> !d.Open? || d.pending != []
    ensures End(d).1.Err? ==>
      End(d).1.error == if d.Ended? then HasEnded else if d.Failed? then HasFailed else Truncated
    ensures d.Open? && Push(d, chunk, max).1.Err? ==> Push(d, chunk, max).0 == Failed
    ensures d.Open? ==> End(d).0 == if End(d).1.Ok? then Ended else Failed
  {
  }

  /** Which check a frame fails. */
  lemma FrameErrors(frame: seq<byte>, max: nat)
    ensures CheckCompleteFrame(frame, max) == Err(NoPrefix) <==> |frame| < 4
    ensures CheckCompleteFrame(frame, max) == Err(TooLong) <==> StartsOverlong(frame, max)
    ensures CheckCompleteFrame(frame, max) == Err(NotOneFrame) <==>
      |frame| >= 4 && PrefixValue(frame[..4]) <= max && |frame| - 4 != PrefixValue(frame[..4])
  {
  }
}
