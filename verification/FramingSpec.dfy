/** The wire format as a recursive parser, and its laws: parsing is independent of how the bytes are cut into chunks. */
module FramingSpec {
  import opened Basics

  const FRAME_HEADER_LENGTH := 4
  const MAX_UINT32 := 0xffff_ffff
  const DEFAULT_MAX_FRAME_LENGTH := 16 * 1024 * 1024

  datatype FrameError = RangeError | IncompletePrefix | TooLong | NotOneFrame | Truncated | DecoderEnded | DecoderFailed

  /** What a byte stream contains: its whole frames, and either the bytes that follow them or an oversize header. */
  datatype Parsed = Parsed(frames: seq<seq<byte>>, rest: seq<byte>, ok: bool)

  /** The number that bytes spell in base 256, most significant first. */
  function BigEndian(bytes: seq<byte>): nat {
    if bytes == [] then 0 else 0x100 * BigEndian(bytes[..|bytes| - 1]) + bytes[|bytes| - 1]
  }

  lemma HeaderValue(h: seq<byte>)
    requires |h| == FRAME_HEADER_LENGTH
    ensures BigEndian(h) == (h[0] as int) * 0x100_0000 + (h[1] as int) * 0x1_0000 + (h[2] as int) * 0x100 + h[3]
  {
    assert h[..3][..2] == h[..2] && h[..2][..1] == h[..1] && h[..1][..0] == [];
    assert BigEndian(h[..1]) == h[0];
    assert BigEndian(h[..2]) == 0x100 * h[0] as int + h[1];
    assert BigEndian(h[..3]) == 0x100 * BigEndian(h[..2]) + h[2];
  }

  function Parse(max: nat, s: seq<byte>): Parsed {
    if |s| < FRAME_HEADER_LENGTH then Parsed([], s, true)
    else
      var n := BigEndian(s[..4]);
      if n > max then Parsed([], s, false)
      else if |s| < 4 + n then Parsed([], s, true)
      else
        var tail := Parse(max, s[4 + n..]);
        tail.(frames := [s[4..4 + n]] + tail.frames)
  }

  /** The parse of a stream that continues after a parse: a failure stays, and otherwise the rest is parsed on. */
  function Resume(max: nat, p: Parsed, more: seq<byte>): Parsed {
    if !p.ok then Parsed(p.frames, p.rest + more, false)
    else
      var q := Parse(max, p.rest + more);
      Parsed(p.frames + q.frames, q.rest, q.ok)
  }

  /** A stream parses as its prefix does, followed by what the prefix left over joined to the new bytes. */
  lemma {:induction false} ParseAppend(max: nat, s: seq<byte>, t: seq<byte>)
    ensures Parse(max, s + t) == Resume(max, Parse(max, s), t)
    decreases |s|
  {
    if |s| < 4 || (BigEndian(s[..4]) <= max && |s| < 4 + BigEndian(s[..4])) {
      var q := Parse(max, s + t);
      assert Parse(max, s) == Parsed([], s, true) && [] + q.frames == q.frames;
    } else if BigEndian(s[..4]) > max {
      assert (s + t)[..4] == s[..4];
    } else {
      var n := BigEndian(s[..4]);
      assert (s + t)[..4] == s[..4] && (s + t)[4 + n..] == s[4 + n..] + t && (s + t)[4..4 + n] == s[4..4 + n];
      ParseStep(max, s, n);
      ParseStep(max, s + t, n);
      ParseAppend(max, s[4 + n..], t);
      ResumeStep(max, s[4..4 + n], Parse(max, s[4 + n..]), t);
    }
  }

  lemma ResumeStep(max: nat, frame: seq<byte>, p: Parsed, t: seq<byte>)
    ensures var q := Resume(max, p, t);
            Resume(max, Parsed([frame] + p.frames, p.rest, p.ok), t) == Parsed([frame] + q.frames, q.rest, q.ok)
  {
    if p.ok {
      var q := Parse(max, p.rest + t);
      assert [frame] + (p.frames + q.frames) == ([frame] + p.frames) + q.frames;
    }
  }

  /** A stream that starts with a whole frame yields that frame before the rest. */
  lemma ParseStep(max: nat, s: seq<byte>, n: nat)
    requires |s| >= 4 + n && BigEndian(s[..4]) == n <= max
    ensures var tail := Parse(max, s[4 + n..]);
            Parse(max, s) == Parsed([s[4..4 + n]] + tail.frames, tail.rest, tail.ok)
  {
  }

  /** The unconsumed rest holds no whole frame: parsing it again finds nothing. */
  lemma {:induction false} ParseRest(max: nat, s: seq<byte>)
    ensures Parse(max, s).ok ==> Parse(max, Parse(max, s).rest) == Parsed([], Parse(max, s).rest, true)
    decreases |s|
  {
    if |s| >= 4 {
      var n := BigEndian(s[..4]);
      if n <= max && |s| >= 4 + n {
        ParseRest(max, s[4 + n..]);
      }
    }
  }

  // ---- Encoding ----

  /** The length prefix: four bytes, most significant first. */
  function Prefix(n: nat): (prefix: seq<byte>)
    requires n <= MAX_UINT32
    ensures |prefix| == 4 && BigEndian(prefix) == n
  {
    DigitsOfPrefix(n);
    var prefix: seq<byte> := [n / 0x100_0000 % 0x100, n / 0x1_0000 % 0x100, n / 0x100 % 0x100, n % 0x100];
    HeaderValue(prefix);
    prefix
  }

  lemma DigitsOfPrefix(n: nat)
    requires n <= MAX_UINT32
    ensures n == n / 0x100_0000 % 0x100 * 0x100_0000 + n / 0x1_0000 % 0x100 * 0x1_0000 + n / 0x100 % 0x100 * 0x100
      + n % 0x100
  {
    DropDigit(n);
    DropDigit(n / 0x100);
    DropDigit(n / 0x1_0000);
    assert n / 0x100_0000 < 0x100;
  }

  lemma DropDigit(n: nat)
    ensures n == 0x100 * (n / 0x100) + n % 0x100
    ensures n / 0x100 / 0x100 == n / 0x1_0000 && n / 0x1_0000 / 0x100 == n / 0x100_0000
  {
  }

  /** The frame of a payload: the payload behind its length. */
  function Frame(payload: seq<byte>): (frame: seq<byte>)
    requires |payload| <= MAX_UINT32
    ensures |frame| == 4 + |payload| && frame[..4] == Prefix(|payload|) && frame[4..] == payload
  {
    Prefix(|payload|) + payload
  }

  lemma SameDigits(x: nat, c: byte, y: nat, d: byte)
    requires 0x100 * x + c == 0x100 * y + d
    ensures x == y && c == d
  {
  }

  /** The header is unique: bytes with the same length and value are the same bytes. */
  lemma {:induction false} BigEndianInjective(a: seq<byte>, b: seq<byte>)
    requires |a| == |b| && BigEndian(a) == BigEndian(b)
    ensures a == b
  {
    if a != [] {
      var n := |a| - 1;
      SameDigits(BigEndian(a[..n]), a[n], BigEndian(b[..n]), b[n]);
      BigEndianInjective(a[..n], b[..n]);
      assert a == a[..n] + [a[n]] && b == b[..n] + [b[n]];
    }
  }

  ghost predicate Fits(max: nat, payloads: seq<seq<byte>>) {
    max <= MAX_UINT32 && forall p | p in payloads :: |p| <= max
  }

  function Frames(max: nat, payloads: seq<seq<byte>>): seq<byte>
    requires Fits(max, payloads)
  {
    if payloads == [] then [] else Frame(payloads[0]) + Frames(max, payloads[1..])
  }

  /** Round trip: the frames of a list of payloads parse to exactly that list, with nothing left over. */
  lemma {:induction false} ParseFrames(max: nat, payloads: seq<seq<byte>>)
    requires Fits(max, payloads)
    ensures Parse(max, Frames(max, payloads)) == Parsed(payloads, [], true)
  {
    if payloads != [] {
      ParseFrames(max, payloads[1..]);
      var payload, s := payloads[0], Frames(max, payloads);
      assert s[..4] == Prefix(|payload|) && s[4..4 + |payload|] == payload;
      assert s[4 + |payload|..] == Frames(max, payloads[1..]);
      ParseStep(max, s, |payload|);
    }
  }

  /** A whole frame at the front of a stream is the frame of its payload. */
  lemma FirstFrame(s: seq<byte>, n: nat)
    requires |s| >= 4 + n && n == BigEndian(s[..4]) <= MAX_UINT32
    ensures Frame(s[4..4 + n]) + s[4 + n..] == s
  {
    BigEndianInjective(Prefix(n), s[..4]);
    assert s == (s[..4] + s[4..4 + n]) + s[4 + n..];
  }

  /** Nothing else parses to a list of payloads: a stream that leaves no rest is the frames of its payloads. */
  lemma {:induction false} FramesParse(max: nat, s: seq<byte>)
    requires max <= MAX_UINT32
    requires Parse(max, s).ok && Parse(max, s).rest == []
    ensures Fits(max, Parse(max, s).frames) && Frames(max, Parse(max, s).frames) == s
    decreases |s|
  {
    if s != [] {
      var n := BigEndian(s[..4]);
      FramesParse(max, s[4 + n..]);
      ParseStep(max, s, n);
      FirstFrame(s, n);
      var payload, tail := s[4..4 + n], Parse(max, s[4 + n..]).frames;
      assert ([payload] + tail)[1..] == tail;
    }
  }

  // ---- Successive pushes ----

  datatype Pushed = Pushed(frames: seq<seq<byte>>, rest: seq<byte>) | PushFailed(at: nat)

  /** What successive pushes return, one chunk after the other, each parse resuming from the bytes left pending. */
  function PushAll(max: nat, pending: seq<byte>, chunks: seq<seq<byte>>): Pushed
    decreases |chunks|
  {
    if chunks == [] then Pushed([], pending)
    else
      var p := Parse(max, pending + chunks[0]);
      if !p.ok then PushFailed(0)
      else match PushAll(max, p.rest, chunks[1..])
        case PushFailed(k) => PushFailed(k + 1)
        case Pushed(frames, rest) => Pushed(p.frames + frames, rest)
  }

  /** Chunking does not matter: pushing the chunks one by one gives the frames and the rest of the joined bytes. */
  lemma {:induction false} PushAllIsParse(max: nat, pending: seq<byte>, chunks: seq<seq<byte>>)
    requires Parse(max, pending) == Parsed([], pending, true)
    ensures var whole := Parse(max, pending + Flatten(chunks)); var pushed := PushAll(max, pending, chunks);
            if whole.ok then pushed == Pushed(whole.frames, whole.rest)
            else pushed.PushFailed? && pushed.at < |chunks|
    decreases |chunks|
  {
    if chunks == [] {
      assert pending + Flatten(chunks) == pending;
    } else {
      FirstChunk(max, pending, chunks, |chunks|);
      assert chunks[..|chunks|] == chunks && chunks[1..][..|chunks| - 1] == chunks[1..];
      var p := Parse(max, pending + chunks[0]);
      if p.ok {
        ParseRest(max, pending + chunks[0]);
        PushAllIsParse(max, p.rest, chunks[1..]);
      }
    }
  }

  /** The failing push is the first one whose bytes complete an oversize header. */
  lemma {:induction false} FailsAtFirstOversize(max: nat, pending: seq<byte>, chunks: seq<seq<byte>>, k: nat)
    requires Parse(max, pending) == Parsed([], pending, true) && k < |chunks|
    ensures PushAll(max, pending, chunks) == PushFailed(k) <==>
            Parse(max, pending + Flatten(chunks[..k])).ok && !Parse(max, pending + Flatten(chunks[..k + 1])).ok
    decreases k
  {
    var p := Parse(max, pending + chunks[0]);
    FirstChunk(max, pending, chunks, k + 1);
    if k == 0 {
      assert pending + Flatten(chunks[..0]) == pending;
      assert p.rest + Flatten([]) == p.rest;
      ParseRest(max, pending + chunks[0]);
    } else {
      FirstChunk(max, pending, chunks, k);
      if p.ok {
        ParseRest(max, pending + chunks[0]);
        FailsAtFirstOversize(max, p.rest, chunks[1..], k - 1);
      }
    }
  }

  /** The first chunks parse as the first one, resumed with the others. */
  lemma FirstChunk(max: nat, pending: seq<byte>, chunks: seq<seq<byte>>, k: nat)
    requires 0 < k <= |chunks|
    ensures Parse(max, pending + Flatten(chunks[..k])) ==
            Resume(max, Parse(max, pending + chunks[0]), Flatten(chunks[1..][..k - 1]))
  {
    assert chunks[..k][0] == chunks[0] && chunks[..k][1..] == chunks[1..][..k - 1];
    Joined(pending, chunks[0], Flatten(chunks[1..][..k - 1]));
    ParseAppend(max, pending + chunks[0], Flatten(chunks[1..][..k - 1]));
  }

  /** The frames of any payloads under the limit, cut into chunks anywhere, come back as those payloads. */
  lemma EncodedPayloadsComeBack(max: nat, payloads: seq<seq<byte>>, chunks: seq<seq<byte>>)
    requires Fits(max, payloads) && Flatten(chunks) == Frames(max, payloads)
    ensures PushAll(max, [], chunks) == Pushed(payloads, [])
  {
    ParseFrames(max, payloads);
    assert [] + Flatten(chunks) == Frames(max, payloads);
    PushAllIsParse(max, [], chunks);
  }
}
