/** The incremental frame decoder and the frame encoder, working in place on byte arrays. */
module Framing {
  import opened Basics
  import opened FramingSpec

  const PAYLOAD_BLOCK_SIZE := 64 * 1024

  datatype DecoderState = Open | Ended | Failed

  function ResolveMaxFrameLength(option: Option<int>): (r: Result<nat, FrameError>)
    ensures r.Ok? && option.Some? ==> r.value == option.value
    ensures r.Ok? && option.None? ==> r.value == DEFAULT_MAX_FRAME_LENGTH
    ensures r.Ok? ==> r.value <= MAX_UINT32
    ensures r.Err? <==> option.Some? && !(0 <= option.value <= MAX_UINT32)
  {
    var value := if option.Some? then option.value else DEFAULT_MAX_FRAME_LENGTH;
    if 0 <= value <= MAX_UINT32 then Ok(value) else Err(RangeError)
  }

  /** Writes the length prefix and the payload into a new array. */
  method EncodeFrame(payload: seq<byte>) returns (r: Result<array<byte>, FrameError>)
    ensures r.Ok? <==> |payload| <= MAX_UINT32
    ensures r.Ok? ==> fresh(r.value) && r.value[..] == Frame(payload)
  {
    if |payload| > MAX_UINT32 {
      return Err(RangeError);
    }
    var n := |payload|;
    var frame := new byte[FRAME_HEADER_LENGTH + n](_ => 0);
    assert n / 0x100_0000 < 0x100;
    frame[0] := n / 0x100_0000 % 0x100;
    frame[1] := n / 0x1_0000 % 0x100;
    frame[2] := n / 0x100 % 0x100;
    frame[3] := n % 0x100;
    forall i | 0 <= i < n { frame[FRAME_HEADER_LENGTH + i] := payload[i]; }
    assert frame[..] == Prefix(n) + payload;
    return Ok(frame);
  }

  /** The checks on one complete frame, in the order they are made. */
  function CheckCompleteFrame(frame: seq<byte>, option: Option<int>): Result<(), FrameError> {
    if |frame| < FRAME_HEADER_LENGTH then Err(IncompletePrefix)
    else
      var length := BigEndian(frame[..4]);
      match ResolveMaxFrameLength(option)
      case Err(e) => Err(e)
      case Ok(max) =>
        if length > max then Err(TooLong)
        else if |frame| != FRAME_HEADER_LENGTH + length then Err(NotOneFrame)
        else Ok(())
  }

  /** The check accepts exactly the streams that parse to one frame with nothing left over. */
  lemma CheckAcceptsOneFrame(frame: seq<byte>, option: Option<int>)
    ensures CheckCompleteFrame(frame, option).Ok? <==>
            ResolveMaxFrameLength(option).Ok? &&
            exists payload :: Parse(ResolveMaxFrameLength(option).value, frame) == Parsed([payload], [], true)
  {
    var resolved := ResolveMaxFrameLength(option);
    if resolved.Ok? && |frame| >= 4 {
      var max, n := resolved.value, BigEndian(frame[..4]);
      if n <= max && |frame| >= 4 + n {
        ParseStep(max, frame, n);
        if |frame| == 4 + n {
          assert frame[4 + n..] == [] && Parse(max, []) == Parsed([], [], true);
          assert Parse(max, frame) == Parsed([frame[4..4 + n]], [], true);
        } else if Parse(max, frame).rest == [] && Parse(max, frame).ok {
          assert Parse(max, frame[4 + n..]).frames != [];
        }
      }
    }
  }

  /** The number of bytes in the block that starts a given distance into a payload. */
  function BlockLength(expected: nat, start: nat): nat
    requires start <= expected
  {
    if expected - start < PAYLOAD_BLOCK_SIZE then expected - start else PAYLOAD_BLOCK_SIZE
  }

  /** A block holds the part of the data that starts at the given place, as far as the data go. */
  ghost predicate HoldsFrom(block: array<byte>, data: seq<byte>, start: nat)
    reads block
  {
    forall j :: 0 <= j < block.Length && start + j < |data| ==> block[j] == data[start + j]
  }

  /** Copies bytes into a block behind the part of the data that it already holds. */
  method CopyInto(block: array<byte>, filled: nat, bytes: seq<byte>, ghost data: seq<byte>, ghost start: nat)
    requires filled + |bytes| <= block.Length && |data| == start + filled && HoldsFrom(block, data, start)
    modifies block
    ensures HoldsFrom(block, data + bytes, start)
  {
    forall i | 0 <= i < |bytes| { block[filled + i] := bytes[i]; }
    assert forall i :: filled <= i < filled + |bytes| ==> block[i] == bytes[i - filled];
  }

  class FrameDecoder {
    const maxFrameLength: nat
    const header: array<byte>
    var headerLength: nat
    var payloadBlocks: seq<array<byte>>
    var currentPayloadBlock: array?<byte>
    var currentPayloadBlockLength: nat
    var expectedPayloadLength: Option<nat>
    var payloadLength: nat
    var state: DecoderState
    ghost var announced: seq<byte>  // the header of the payload being received
    ghost var received: seq<byte>   // the bytes of that payload received so far

    ghost function Repr(): set<object>
      reads this
    {
      {this, header} + set b | b in payloadBlocks
    }

    /** Blocks follow one another at multiples of the block size, each as long as the payload needs. */
    ghost predicate Layout(expected: nat)
      reads this, set b | b in payloadBlocks
    {
      && header !in payloadBlocks
      && (forall i, j :: 0 <= i < j < |payloadBlocks| ==> payloadBlocks[i] != payloadBlocks[j])
      && (forall k :: 0 <= k < |payloadBlocks| ==>
            PAYLOAD_BLOCK_SIZE * k <= expected &&
              payloadBlocks[k].Length == BlockLength(expected, PAYLOAD_BLOCK_SIZE * k))
    }

    /** Read as one payload, the blocks start with the bytes received. */
    ghost predicate Contents()
      reads this, set b | b in payloadBlocks
    {
      forall k :: 0 <= k < |payloadBlocks| ==> HoldsFrom(payloadBlocks[k], received, PAYLOAD_BLOCK_SIZE * k)
    }

    /** All blocks but the last are full; the last one is current and filled so far. */
    ghost predicate Cursor()
      reads this, set b | b in payloadBlocks
    {
      var count := |payloadBlocks|;
      && payloadLength == |received|
      && (count == 0 ==> currentPayloadBlock == null && currentPayloadBlockLength == 0 && payloadLength == 0)
      && (count > 0 ==>
            && currentPayloadBlock == payloadBlocks[count - 1]
            && payloadLength == PAYLOAD_BLOCK_SIZE * (count - 1) + currentPayloadBlockLength
            && currentPayloadBlockLength <= payloadBlocks[count - 1].Length)
    }

    ghost predicate Header()
      reads this, header
    {
      header.Length == FRAME_HEADER_LENGTH && maxFrameLength <= MAX_UINT32 && state == Open && headerLength == 0
    }

    /** A payload of the announced length is being received; its last byte may already be there. */
    ghost predicate Receiving(n: nat)
      reads this, Repr()
    {
      && Header() && |announced| == 4 && BigEndian(announced) == n
      && expectedPayloadLength == Some(n) && 0 < n <= maxFrameLength && |received| <= n
      && Layout(n) && Contents() && Cursor() && (payloadBlocks != [] ==> 0 < currentPayloadBlockLength)
    }

    ghost predicate NoPayload()
      reads this
    {
      expectedPayloadLength == None && payloadBlocks == [] && currentPayloadBlock == null &&
      currentPayloadBlockLength == 0 && payloadLength == 0 && announced == [] && received == []
    }

    /** The fields encode exactly the bytes received since the last whole frame. */
    ghost predicate Valid()
      reads this, Repr()
    {
      && header.Length == FRAME_HEADER_LENGTH && maxFrameLength <= MAX_UINT32
      && (state != Open ==> headerLength == 0 && NoPayload())
      && match expectedPayloadLength
         case None => NoPayload() && headerLength < FRAME_HEADER_LENGTH
         case Some(n) => Receiving(n) && payloadLength < n
    }

    ghost function Pending(): seq<byte>
      reads this, header
    {
      if expectedPayloadLength == None && headerLength <= header.Length then header[..headerLength]
      else announced + received
    }

    constructor (max: nat)
      requires max <= MAX_UINT32
      ensures Valid() && fresh(Repr())
      ensures maxFrameLength == max && Pending() == [] && state == Open
    {
      maxFrameLength := max;
      header := new byte[FRAME_HEADER_LENGTH](_ => 0);
      headerLength, payloadBlocks, currentPayloadBlock, currentPayloadBlockLength := 0, [], null, 0;
      expectedPayloadLength, payloadLength, state, announced, received := None, 0, Open, [], [];
    }

    method Fail()
      modifies this
      ensures state == Failed && headerLength == 0 && NoPayload()
    {
      state, headerLength, payloadBlocks, currentPayloadBlock := Failed, 0, [], null;
      currentPayloadBlockLength, expectedPayloadLength, payloadLength, announced, received := 0, None, 0, [], [];
    }

    /** Copies what is missing of the header, or as much of it as the chunk holds. */
    method TakeHeader(chunk: seq<byte>, offset: nat) returns (next: nat)
      requires Valid() && state == Open && expectedPayloadLength == None && offset < |chunk|
      modifies this`headerLength, header
      ensures offset < next <= |chunk| && headerLength <= FRAME_HEADER_LENGTH
      ensures headerLength < FRAME_HEADER_LENGTH ==> next == |chunk|
      ensures Pending() == old(Pending()) + chunk[offset..next]
    {
      var headerBytes := if FRAME_HEADER_LENGTH - headerLength < |chunk| - offset
                         then FRAME_HEADER_LENGTH - headerLength else |chunk| - offset;
      forall i | 0 <= i < headerBytes { header[headerLength + i] := chunk[offset + i]; }
      headerLength := headerLength + headerBytes;
      next := offset + headerBytes;
    }

    /** Allocates the next block when there is none or the current one is full. */
    method EnsureBlock(ghost n: nat)
      requires Receiving(n) && payloadLength < n
      modifies this`payloadBlocks, this`currentPayloadBlock, this`currentPayloadBlockLength
      ensures Header() && Layout(n) && Contents() && Cursor()
      ensures payloadBlocks != [] && currentPayloadBlockLength < payloadBlocks[|payloadBlocks| - 1].Length
      ensures fresh(Repr() - old(Repr()))
    {
      if currentPayloadBlock == null || currentPayloadBlockLength == currentPayloadBlock.Length {
        FullSoFar(n);
        AddBlock(n);
      }
    }

    /** When the current block is full but the payload is not, every block has the full size. */
    lemma FullSoFar(n: nat)
      requires Receiving(n) && payloadLength < n
      requires currentPayloadBlock == null || currentPayloadBlockLength == currentPayloadBlock.Length
      ensures payloadLength == PAYLOAD_BLOCK_SIZE * |payloadBlocks|
    {
    }

    method AddBlock(ghost n: nat)
      requires Receiving(n) && payloadLength == PAYLOAD_BLOCK_SIZE * |payloadBlocks| < n
      modifies this`payloadBlocks, this`currentPayloadBlock, this`currentPayloadBlockLength
      ensures Header() && Layout(n) && Contents() && Cursor() && currentPayloadBlockLength == 0
      ensures currentPayloadBlock != null && fresh(currentPayloadBlock) && currentPayloadBlock.Length > 0
      ensures payloadBlocks == old(payloadBlocks) + [currentPayloadBlock]
    {
      var size := if PAYLOAD_BLOCK_SIZE < expectedPayloadLength.value - payloadLength
                  then PAYLOAD_BLOCK_SIZE else expectedPayloadLength.value - payloadLength;
      var block := new byte[size](_ => 0);
      payloadBlocks := payloadBlocks + [block];
      currentPayloadBlock := block;
      currentPayloadBlockLength := 0;
      assert HoldsFrom(block, received, payloadLength);
    }

    /** One turn of the inner loop: fills the current block as far as the block and the chunk allow. */
    method TakeBlock(chunk: seq<byte>, offset: nat, ghost n: nat) returns (next: nat)
      requires Receiving(n) && payloadLength < n && offset < |chunk|
      modifies Repr()
      ensures Receiving(n) && fresh(Repr() - old(Repr()))
      ensures offset < next <= |chunk| && received == old(received) + chunk[offset..next]
      ensures announced == old(announced)
    {
      EnsureBlock(n);
      next := FillBlock(chunk, offset, n);
    }

    method FillBlock(chunk: seq<byte>, offset: nat, ghost n: nat) returns (next: nat)
      requires Header() && Layout(n) && Contents() && Cursor() && offset < |chunk| && |received| <= n
      requires payloadBlocks != [] && currentPayloadBlockLength < payloadBlocks[|payloadBlocks| - 1].Length
      modifies this`currentPayloadBlockLength, this`payloadLength, this`received, payloadBlocks[|payloadBlocks| - 1]
      ensures Header() && Layout(n) && Contents() && Cursor() && 0 < currentPayloadBlockLength && |received| <= n
      ensures offset < next <= |chunk| && received == old(received) + chunk[offset..next]
    {
      var block, filled := currentPayloadBlock, currentPayloadBlockLength;
      var payloadBytes := if block.Length - filled < |chunk| - offset then block.Length - filled else |chunk| - offset;
      next := offset + payloadBytes;
      currentPayloadBlockLength := filled + payloadBytes;
      payloadLength := payloadLength + payloadBytes;
      received := received + chunk[offset..next];
      CopyInto(block, filled, chunk[offset..next], old(received), PAYLOAD_BLOCK_SIZE * (|payloadBlocks| - 1));
      KeepsFullBlocks(n, old(received), chunk[offset..next]);
    }

    /** More data does not concern the blocks before the last one: they are full. */
    lemma KeepsFullBlocks(n: nat, data: seq<byte>, more: seq<byte>)
      requires Layout(n) && payloadBlocks != [] && PAYLOAD_BLOCK_SIZE * (|payloadBlocks| - 1) <= |data|
      requires forall k :: 0 <= k < |payloadBlocks| - 1 ==> HoldsFrom(payloadBlocks[k], data, PAYLOAD_BLOCK_SIZE * k)
      ensures forall k :: 0 <= k < |payloadBlocks| - 1 ==>
        HoldsFrom(payloadBlocks[k], data + more, PAYLOAD_BLOCK_SIZE * k)
    {
      forall k | 0 <= k < |payloadBlocks| - 1 ensures HoldsFrom(payloadBlocks[k], data + more, PAYLOAD_BLOCK_SIZE * k) {
        assert PAYLOAD_BLOCK_SIZE * k + PAYLOAD_BLOCK_SIZE <= PAYLOAD_BLOCK_SIZE * (|payloadBlocks| - 1);
      }
    }

    /** Bytes allocated for the payload. */
    ghost function Allocated(): nat
      reads this, set b | b in payloadBlocks
    {
      TotalLength(payloadBlocks)
    }

    /** Allocation stays within the announced length and within 65535 bytes of what has been received. */
    lemma AllocationBound(n: nat)
      requires Receiving(n)
      ensures Allocated() <= n && Allocated() <= payloadLength + PAYLOAD_BLOCK_SIZE - 1
    {
      FullBlocks(payloadBlocks, n);
    }

    /** The inner loop: copies chunk bytes into blocks until the chunk or the payload ends. */
    method TakePayload(chunk: seq<byte>, offset: nat) returns (next: nat)
      requires expectedPayloadLength.Some? && Receiving(expectedPayloadLength.value)
      requires payloadLength < expectedPayloadLength.value && offset <= |chunk|
      modifies Repr()
      ensures Receiving(old(expectedPayloadLength.value)) && fresh(Repr() - old(Repr()))
      ensures offset <= next <= |chunk| && announced == old(announced)
      ensures received == old(received) + chunk[offset..next]
      ensures next < |chunk| ==> payloadLength == old(expectedPayloadLength.value)
    {
      var n := expectedPayloadLength.value;
      next := offset;
      AllocationBound(n);
      while next < |chunk| && payloadLength < n
        invariant offset <= next <= |chunk| && Receiving(n) && fresh(Repr() - old(Repr()))
        invariant announced == old(announced) && received == old(received) + chunk[offset..next]
        invariant Allocated() <= n && Allocated() <= payloadLength + PAYLOAD_BLOCK_SIZE - 1
        decreases |chunk| - next
      {
        ghost var from := next;
        next := TakeBlock(chunk, next, n);
        Onward(old(received), chunk, offset, from, next);
        AllocationBound(n);
      }
    }

    /** Hands out the payload that is now complete: its only block, or a new array joining its blocks. */
    method TakeFrame() returns (frame: array<byte>)
      requires expectedPayloadLength.Some? && Receiving(expectedPayloadLength.value)
      requires payloadLength == expectedPayloadLength.value
      modifies this
      ensures Valid() && state == Open && Pending() == [] && expectedPayloadLength == None
      ensures frame[..] == old(received) && frame !in Repr()
      ensures fresh(frame) || frame in old(payloadBlocks)
    {
      var n := expectedPayloadLength.value;
      if |payloadBlocks| == 1 {
        frame := payloadBlocks[0];
        assert frame.Length == n;
        assert HoldsFrom(frame, received, PAYLOAD_BLOCK_SIZE * 0);
      } else {
        frame := JoinBlocks();
      }
      payloadBlocks, currentPayloadBlock, currentPayloadBlockLength := [], null, 0;
      expectedPayloadLength, payloadLength, announced, received := None, 0, [], [];
    }

    /** Once all is received, each block is full of its part of the payload. */
    lemma BlockIsPart(n: nat, k: nat)
      requires Receiving(n) && payloadLength == n && k < |payloadBlocks|
      ensures var start, end := PAYLOAD_BLOCK_SIZE * k, PAYLOAD_BLOCK_SIZE * k + payloadBlocks[k].Length;
              && end <= |received| && received[..start] + payloadBlocks[k][..] == received[..end]
              && end == if k + 1 < |payloadBlocks| then PAYLOAD_BLOCK_SIZE * (k + 1) else n
    {
      var start, end := PAYLOAD_BLOCK_SIZE * k, PAYLOAD_BLOCK_SIZE * k + payloadBlocks[k].Length;
      assert HoldsFrom(payloadBlocks[k], received, start);
      assert payloadBlocks[k][..] == received[start..end];
      assert received[..start] + received[start..end] == received[..end];
    }

    /** Copies the blocks one behind the other into a new array. */
    method JoinBlocks() returns (frame: array<byte>)
      requires expectedPayloadLength.Some? && Receiving(expectedPayloadLength.value)
      requires payloadLength == expectedPayloadLength.value
      ensures fresh(frame) && frame[..] == received
    {
      var n := expectedPayloadLength.value;
      frame := new byte[n](_ => 0);
      var offset := 0;
      for k := 0 to |payloadBlocks|
        invariant offset == if k < |payloadBlocks| then PAYLOAD_BLOCK_SIZE * k else n
        invariant offset <= n == frame.Length == |received| && HoldsFrom(frame, received[..offset], 0)
      {
        var block := payloadBlocks[k];
        BlockIsPart(n, k);
        CopyInto(frame, offset, block[..], received[..offset], 0);
        offset := offset + block.Length;
      }
      assert received[..n] == received;
    }

    /** Works on the header: more bytes are needed, it is oversize, it announces nothing, or a payload follows. */
    method TakePrefix(chunk: seq<byte>, offset: nat) returns (next: nat, outcome: HeaderOutcome)
      requires Valid() && state == Open && expectedPayloadLength == None && offset < |chunk|
      modifies this, header
      ensures Valid() && Repr() == old(Repr()) && offset < next <= |chunk| && (state == Open <==> outcome != Oversize)
      ensures var p := old(Pending()) + chunk[offset..next];
              match outcome
              case Incomplete => expectedPayloadLength == None && |p| < 4 && Pending() == p && next == |chunk|
              case Oversize => |p| == 4 && BigEndian(p) > maxFrameLength && state == Failed
              case Empty => expectedPayloadLength == None && |p| == 4 && BigEndian(p) == 0 && Pending() == []
              case Announced => expectedPayloadLength.Some? && announced == p && received == []
    {
      next := TakeHeader(chunk, offset);
      if headerLength < FRAME_HEADER_LENGTH {
        return next, Incomplete;
      }
      outcome := ReadHeader(old(Pending()) + chunk[offset..next]);
    }

    /** Reads the length in a whole header. */
    method ReadHeader(ghost p: seq<byte>) returns (outcome: HeaderOutcome)
      requires header.Length == FRAME_HEADER_LENGTH && headerLength == FRAME_HEADER_LENGTH && header[..] == p
      requires maxFrameLength <= MAX_UINT32 && state == Open && NoPayload()
      modifies this
      ensures Valid() && payloadBlocks == [] && (state == Open <==> outcome != Oversize) && !outcome.Incomplete?
      ensures outcome.Oversize? ==> BigEndian(p) > maxFrameLength && state == Failed
      ensures outcome.Empty? ==> expectedPayloadLength == None && BigEndian(p) == 0 && Pending() == []
      ensures outcome.Announced? ==> expectedPayloadLength.Some? && announced == p && received == []
    {
      assert p[..4] == p;
      var frameLength := (header[0] as int) * 0x100_0000 + (header[1] as int) * 0x1_0000 + (header[2] as int) * 0x100
        + header[3];
      HeaderValue(p);
      headerLength := 0;
      if frameLength > maxFrameLength {
        Fail();
        return Oversize;
      }
      if frameLength == 0 {
        return Empty;
      }
      expectedPayloadLength, payloadBlocks, currentPayloadBlock := Some(frameLength), [], null;
      currentPayloadBlockLength, payloadLength := 0, 0;
      announced, received := p, [];
      outcome := Announced;
    }

    /** One turn of the outer loop: consumes at least one byte and completes at most one frame. */
    method Turn(chunk: seq<byte>, offset: nat) returns (next: nat, completed: seq<array<byte>>, failed: bool)
      requires Valid() && state == Open && offset < |chunk|
      modifies Repr()
      ensures Valid() && fresh(Repr() - old(Repr())) && offset < next <= |chunk|
      ensures var p := Parse(maxFrameLength, old(Pending()) + chunk[offset..next]);
              if failed then !p.ok && state == Failed
              else p.ok && state == Open && Holds(completed, p.frames) && p.rest == Pending()
      ensures forall f | f in completed :: f !in Repr() && (fresh(f) || f in old(payloadBlocks))
    {
      next, completed, failed := offset, [], false;
      if expectedPayloadLength == None {
        next, completed, failed := HeaderTurn(chunk, offset);
        if expectedPayloadLength == None { return; }
      }
      ghost var before, from := Pending(), next;
      assert before == old(Pending()) + chunk[offset..from];
      next, completed := PayloadTurn(chunk, next);
      Onward(old(Pending()), chunk, offset, from, next);
    }

    /** The first half of a turn, on the header: it ends the turn unless a payload is announced. */
    method HeaderTurn(chunk: seq<byte>, offset: nat) returns (next: nat, completed: seq<array<byte>>, failed: bool)
      requires Valid() && state == Open && expectedPayloadLength == None && offset < |chunk|
      modifies this, header
      ensures Valid() && Repr() == old(Repr()) && offset < next <= |chunk| && fresh(set f | f in completed)
      ensures var s := old(Pending()) + chunk[offset..next]; var p := Parse(maxFrameLength, s);
              if expectedPayloadLength.Some? then !failed && state == Open && Pending() == s && completed == []
              else if failed then !p.ok && state == Failed
              else p.ok && state == Open && Holds(completed, p.frames) && p.rest == Pending()
    {
      ghost var before := Pending();
      var outcome;
      next, outcome := TakePrefix(chunk, offset);
      completed, failed := [], outcome == Oversize;
      ghost var p := before + chunk[offset..next];
      ParsePrefix(maxFrameLength, p);
      if outcome == Empty {
        var frame := new byte[0];
        completed := [frame];
      }
    }

    /** The second half of a turn, on the payload. */
    method PayloadTurn(chunk: seq<byte>, offset: nat) returns (next: nat, completed: seq<array<byte>>)
      requires Valid() && state == Open && expectedPayloadLength.Some? && offset <= |chunk|
      modifies Repr()
      ensures Valid() && fresh(Repr() - old(Repr())) && state == Open
      ensures offset <= next <= |chunk| && (offset < |chunk| ==> offset < next)
      ensures var p := Parse(maxFrameLength, old(Pending()) + chunk[offset..next]);
              p.ok && Holds(completed, p.frames) && p.rest == Pending()
      ensures forall f | f in completed :: f !in Repr() && (fresh(f) || f in old(payloadBlocks))
    {
      completed := [];
      next := TakePayload(chunk, offset);
      ghost var p := announced + received;
      assert old(Pending()) + chunk[offset..next] == p;
      assert p[..4] == announced;
      if payloadLength == expectedPayloadLength.value {
        ParseWhole(maxFrameLength, announced, received);
        var frame := TakeFrame();
        completed := [frame];
      }
    }

    /** One pass of the outer loop: the frames completed so far, or the failure. */
    method NextTurn(frames: seq<array<byte>>, chunk: seq<byte>, offset: nat, ghost start: seq<byte>)
      returns (next: nat, more: seq<array<byte>>, failed: bool)
      requires Valid() && state == Open && offset < |chunk| && forall f | f in frames :: f !in Repr()
      requires var p := Parse(maxFrameLength, start + chunk[..offset]);
               p.ok && Holds(frames, p.frames) && p.rest == Pending()
      modifies Repr()
      ensures Valid() && fresh(Repr() - old(Repr())) && offset < next <= |chunk|
      ensures if failed then !Parse(maxFrameLength, start + chunk).ok && state == Failed
              else
                var p := Parse(maxFrameLength, start + chunk[..next]);
                p.ok && Holds(more, p.frames) && p.rest == Pending() && state == Open
      ensures forall f | f in more :: f !in Repr() && (f in frames || fresh(f) || f in old(payloadBlocks))
    {
      ghost var before, payloads := Pending(), Parse(maxFrameLength, start + chunk[..offset]).frames;
      var completed;
      next, completed, failed := Turn(chunk, offset);
      Extend(maxFrameLength, start, chunk, offset, next, payloads, before);
      more := frames + completed;
      if failed {
        StaysFailed(maxFrameLength, start, chunk, next);
      } else {
        HoldsAppend(frames, payloads, completed, Parse(maxFrameLength, before + chunk[offset..next]).frames);
      }
    }

    /** The frames completed by the chunk, in order, or the failure of an oversize header. */
    method Push(chunk: seq<byte>) returns (r: Result<seq<array<byte>>, FrameError>)
      requires Valid()
      modifies Repr()
      ensures Valid() && fresh(Repr() - old(Repr()))
      ensures old(state) == Ended ==> r == Err(DecoderEnded) && state == Ended
      ensures old(state) == Failed ==> r == Err(DecoderFailed) && state == Failed
      ensures old(state) == Open ==>
                var p := Parse(maxFrameLength, old(Pending()) + chunk);
                if p.ok then r.Ok? && Holds(r.value, p.frames) && Pending() == p.rest && state == Open
                else r == Err(TooLong) && state == Failed
      ensures r.Ok? ==> forall f | f in r.value :: f !in Repr() && (fresh(f) || f in old(payloadBlocks))
    {
      if state == Ended { return Err(DecoderEnded); }
      if state == Failed { return Err(DecoderFailed); }
      var frames: seq<array<byte>> := [];
      var chunkOffset := 0;
      ghost var start := Pending();
      PendingHasNoFrame();
      assert start + chunk[..0] == start;
      while chunkOffset < |chunk|
        invariant chunkOffset <= |chunk| && Valid() && state == Open && fresh(Repr() - old(Repr()))
        invariant forall f | f in frames :: f !in Repr() && (fresh(f) || f in old(payloadBlocks))
        invariant var p := Parse(maxFrameLength, start + chunk[..chunkOffset]);
                  p.ok && Holds(frames, p.frames) && p.rest == Pending()
        decreases |chunk| - chunkOffset
      {
        var failed;
        chunkOffset, frames, failed := NextTurn(frames, chunk, chunkOffset, start);
        if failed {
          return Err(TooLong);
        }
      }
      assert chunk[..|chunk|] == chunk;
      r := Ok(frames);
    }

    /** The end of the stream succeeds exactly when no frame is half received. */
    method End() returns (r: Result<(), FrameError>)
      requires Valid()
      modifies this
      ensures Valid()
      ensures old(state) == Ended ==> r == Err(DecoderEnded) && state == Ended
      ensures old(state) == Failed ==> r == Err(DecoderFailed) && state == Failed
      ensures old(state) == Open ==>
                if old(Pending()) == [] then r == Ok(()) && state == Ended else r == Err(Truncated) && state == Failed
    {
      if state == Ended { return Err(DecoderEnded); }
      if state == Failed { return Err(DecoderFailed); }
      if headerLength != 0 || expectedPayloadLength != None {
        Fail();
        return Err(Truncated);
      }
      state := Ended;
      r := Ok(());
    }

    /** The pending bytes hold no whole frame and no oversize header. */
    lemma PendingHasNoFrame()
      requires Valid()
      ensures Parse(maxFrameLength, Pending()) == Parsed([], Pending(), true)
    {
      if expectedPayloadLength.Some? {
        assert Pending()[..4] == announced;
      }
    }
  }

  datatype HeaderOutcome = Incomplete | Oversize | Empty | Announced

  /** What a header alone parses to. */
  lemma ParsePrefix(max: nat, p: seq<byte>)
    requires |p| <= 4
    ensures Parse(max, p) ==
            if |p| < 4 || 0 < BigEndian(p) <= max then Parsed([], p, true)
            else if BigEndian(p) > max then Parsed([], p, false)
            else Parsed([[]], [], true)
  {
    if |p| == 4 {
      assert p[..4] == p;
      if BigEndian(p) == 0 {
        ParseWhole(max, p, []);
        assert p + [] == p;
      }
    }
  }

  /** What one turn over part of the chunk finds is what the joined bytes go on with. */
  lemma Extend(max: nat, start: seq<byte>, chunk: seq<byte>, from: nat, to: nat, payloads: seq<seq<byte>>,
               before: seq<byte>)
    requires from <= to <= |chunk| && Parse(max, start + chunk[..from]) == Parsed(payloads, before, true)
    ensures var p := Parse(max, before + chunk[from..to]);
            Parse(max, start + chunk[..to]) == Parsed(payloads + p.frames, p.rest, p.ok)
  {
    var s, t := start + chunk[..from], chunk[from..to];
    assert start + chunk[..to] == s + t;
    ParseAppend(max, s, t);
  }

  /** A failure in the middle of the chunk is a failure of the whole. */
  lemma StaysFailed(max: nat, start: seq<byte>, chunk: seq<byte>, to: nat)
    requires to <= |chunk| && !Parse(max, start + chunk[..to]).ok
    ensures !Parse(max, start + chunk).ok
  {
    assert start + chunk == (start + chunk[..to]) + chunk[to..];
    ParseAppend(max, start + chunk[..to], chunk[to..]);
  }

  /** A header and its whole payload parse to that payload. */
  lemma ParseWhole(max: nat, header: seq<byte>, payload: seq<byte>)
    requires |header| == 4 && BigEndian(header) == |payload| <= max
    ensures Parse(max, header + payload) == Parsed([payload], [], true)
  {
    var p := header + payload;
    assert p[..4] == header && p[4..4 + |payload|] == payload && p[4 + |payload|..] == [];
    ParseStep(max, p, |payload|);
  }

  lemma Onward(s: seq<byte>, chunk: seq<byte>, a: nat, b: nat, c: nat)
    requires a <= b <= c <= |chunk|
    ensures (s + chunk[a..b]) + chunk[b..c] == s + chunk[a..c]
  {
    assert chunk[a..b] + chunk[b..c] == chunk[a..c];
  }

  lemma HoldsAppend(a: seq<array<byte>>, x: seq<seq<byte>>, b: seq<array<byte>>, y: seq<seq<byte>>)
    requires Holds(a, x) && Holds(b, y)
    ensures Holds(a + b, x + y)
  {
  }

  /** The arrays hold the given byte strings. */
  ghost predicate Holds(arrays: seq<array<byte>>, contents: seq<seq<byte>>)
    reads set f | f in arrays
  {
    |arrays| == |contents| && forall i :: 0 <= i < |arrays| ==> arrays[i][..] == contents[i]
  }

  ghost function TotalLength(blocks: seq<array<byte>>): nat {
    if blocks == [] then 0 else TotalLength(blocks[..|blocks| - 1]) + blocks[|blocks| - 1].Length
  }

  /** Blocks laid out one behind the other allocate their number times the block size, or the announced length. */
  lemma {:induction false} FullBlocks(blocks: seq<array<byte>>, n: nat)
    requires forall k :: 0 <= k < |blocks| ==>
               PAYLOAD_BLOCK_SIZE * k <= n && blocks[k].Length == BlockLength(n, PAYLOAD_BLOCK_SIZE * k)
    ensures TotalLength(blocks) == if PAYLOAD_BLOCK_SIZE * |blocks| < n then PAYLOAD_BLOCK_SIZE * |blocks| else n
  {
    if blocks == [] {
    } else {
      FullBlocks(blocks[..|blocks| - 1], n);
    }
  }
}
