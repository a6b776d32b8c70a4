/** Protocol messages on the wire: validation, CBOR and framing together. */
module Codec {
  import opened Basics
  import opened FramingSpec
  import opened Framing
  import opened Cbor
  import opened CborLaws
  import opened CborWriter
  import opened CborReader
  import ProtocolValues

  datatype CodecError = ProtocolValidationError

  /** A kind of message: the platform's encodings, and the check of its schema. */
  datatype Kind = Kind(platform: Platform, check: Value -> bool)

  predicate Message(kind: Kind, v: Value) {
    ProtocolValues.ProtocolTree(v, false) && kind.check(v)
  }

  lemma {:induction false} ProtocolTreeIsObjects(v: Value, optionalProperty: bool)
    requires ProtocolValues.ProtocolTree(v, optionalProperty)
    ensures Objects(v)
    decreases v
  {
    match v
    case List(items) =>
      forall i | 0 <= i < |items|
        ensures Objects(items[i])
      {
        ProtocolTreeIsObjects(items[i], false);
      }
    case Map(entries) =>
      forall i | 0 <= i < |entries|
        ensures Objects(entries[i].value)
      {
        ProtocolTreeIsObjects(entries[i].value, true);
      }
    case _ =>
  }

  function Limits(maxFrameLength: nat): Options {
    Options(maxFrameLength, DEFAULT_MAX_CBOR_CONTAINER_LENGTH, DEFAULT_MAX_CBOR_DEPTH)
  }

  /** A message that can be sent under a limit. */
  predicate Sendable(kind: Kind, max: nat, v: Value) {
    Message(kind, v) && Encodable(kind.platform, Limits(max), v, 0) && |Encoding(kind.platform, v)| <= max
  }

  /** Succeeds exactly for the messages that can be sent, with the frame of their encoding. */
  method EncodeProtocolMessage(kind: Kind, v: Value, option: Option<int>) returns (r: Result<seq<byte>, CodecError>)
    ensures r.Ok? <==> ResolveMaxFrameLength(option).Ok? && Sendable(kind, ResolveMaxFrameLength(option).value, v)
    ensures r.Ok? ==> |Encoding(kind.platform, v)| <= MAX_UINT32 && r.value == Frame(Encoding(kind.platform, v))
  {
    if !Message(kind, v) || ResolveMaxFrameLength(option).Err? {
      return Err(ProtocolValidationError);
    }
    var max := ResolveMaxFrameLength(option).value;
    ProtocolTreeIsObjects(v, false);
    var payload := EncodeCbor(kind.platform, Limits(max), v);
    if payload.None? {
      return Err(ProtocolValidationError);
    }
    var frame := EncodeFrame(payload.value);
    var complete := CheckCompleteFrame(frame.value[..], option);
    assert complete.Ok?;
    r := Ok(frame.value[..]);
  }

  // ---- Decoding ----

  /** One payload as a message. */
  function ParseMessage(kind: Kind, max: nat, payload: seq<byte>): Option<Value> {
    var v := Decode(kind.platform, Limits(max), payload);
    if v.Some? && Message(kind, v.value) then v else None
  }

  /** All payloads as messages, or nothing when one is not a message. */
  function ParseMessages(kind: Kind, max: nat, payloads: seq<seq<byte>>): (r: Option<seq<Value>>)
    ensures r.Some? ==> |r.value| == |payloads|
  {
    if payloads == [] then Some([])
    else
      var first, others := ParseMessage(kind, max, payloads[0]), ParseMessages(kind, max, payloads[1..]);
      if first.None? || others.None? then None else Some([first.value] + others.value)
  }

  /** The messages of two lists of payloads, put together. */
  function Both(x: Option<seq<Value>>, y: Option<seq<Value>>): Option<seq<Value>> {
    if x.Some? && y.Some? then Some(x.value + y.value) else None
  }

  lemma BothFirst(first: Value, x: Option<seq<Value>>, y: Option<seq<Value>>)
    ensures Both(Some([first]), Both(x, y)) == Both(Both(Some([first]), x), y)
  {
    if x.Some? && y.Some? {
      assert [first] + (x.value + y.value) == [first] + x.value + y.value;
    }
  }

  lemma {:induction false} ParseMessagesAppend(kind: Kind, max: nat, a: seq<seq<byte>>, b: seq<seq<byte>>)
    ensures ParseMessages(kind, max, a + b) == Both(ParseMessages(kind, max, a), ParseMessages(kind, max, b))
  {
    if a == [] {
      assert a + b == b;
      assert ParseMessages(kind, max, b).Some? ==>
        [] + ParseMessages(kind, max, b).value == ParseMessages(kind, max, b).value;
    } else {
      ParseMessagesAppend(kind, max, a[1..], b);
      assert (a + b)[0] == a[0] && (a + b)[1..] == a[1..] + b;
      var first := ParseMessage(kind, max, a[0]);
      if first.Some? {
        BothFirst(first.value, ParseMessages(kind, max, a[1..]), ParseMessages(kind, max, b));
      }
    }
  }

  method ParseOne(kind: Kind, max: nat, payload: seq<byte>) returns (r: Option<Value>)
    ensures r == ParseMessage(kind, max, payload)
  {
    r := DecodeCbor(payload, kind.platform, Limits(max));
    if r.Some? && !Message(kind, r.value) {
      r := None;
    }
  }

  /** The messages of the frames that were completed, until one is none. */
  method ParseAll(kind: Kind, max: nat, frames: seq<array<byte>>, ghost payloads: seq<seq<byte>>)
    returns (r: Option<seq<Value>>)
    requires Holds(frames, payloads)
    ensures r == ParseMessages(kind, max, payloads)
  {
    ghost var all := ParseMessages(kind, max, payloads);
    var messages := [];
    for i := 0 to |frames|
      invariant var others := ParseMessages(kind, max, payloads[i..]);
        (all.Some? <==> others.Some?) && (all.Some? ==> all.value == messages + others.value)
    {
      assert payloads[i..][0] == payloads[i] && payloads[i..][1..] == payloads[i + 1..];
      var message := ParseOne(kind, max, frames[i][..]);
      if message.None? {
        return None;
      }
      messages := messages + [message.value];
    }
    assert messages + [] == messages;
    r := Some(messages);
  }

  class ValidatedMessageDecoder {
    const kind: Kind
    const maxFrameLength: nat
    const frames: FrameDecoder
    var failed: bool

    ghost predicate Valid()
      reads this, frames, frames.Repr()
    {
      frames.Valid() && frames.maxFrameLength == maxFrameLength && this !in frames.Repr()
    }

    constructor (kind: Kind, max: nat)
      requires max <= MAX_UINT32
      ensures Valid() && !failed && frames.state == Open && frames.Pending() == []
      ensures fresh(frames) && fresh(frames.Repr()) && this.kind == kind && maxFrameLength == max
    {
      this.kind, maxFrameLength, failed := kind, max, false;
      frames := new FrameDecoder(max);
    }

    /** The messages completed by the chunk, in order; a frame that is no message fails the decoder for good. */
    method Push(chunk: seq<byte>) returns (r: Result<seq<Value>, CodecError>)
      requires Valid()
      modifies this`failed, frames, frames.Repr()
      ensures Valid() && fresh(frames.Repr() - old(frames.Repr()))
      ensures r.Err? <==> failed
      ensures old(failed) || old(frames.state) != Open ==> r.Err?
      ensures !old(failed) && old(frames.state) == Open ==>
        var p := Parse(maxFrameLength, old(frames.Pending()) + chunk);
        var messages := ParseMessages(kind, maxFrameLength, p.frames);
        && (r.Ok? <==> p.ok && messages.Some?)
        && (r.Ok? ==> r.value == messages.value && frames.Pending() == p.rest && frames.state == Open)
    {
      if failed {
        return Err(ProtocolValidationError);
      }
      var messages := PushFrames(chunk);
      failed := messages.None?;
      r := if messages.Some? then Ok(messages.value) else Err(ProtocolValidationError);
    }

    method PushFrames(chunk: seq<byte>) returns (messages: Option<seq<Value>>)
      requires Valid()
      modifies frames, frames.Repr()
      ensures Valid() && fresh(frames.Repr() - old(frames.Repr())) && failed == old(failed)
      ensures old(frames.state) != Open ==> messages.None?
      ensures old(frames.state) == Open ==>
        var p := Parse(maxFrameLength, old(frames.Pending()) + chunk);
        && messages == (if p.ok then ParseMessages(kind, maxFrameLength, p.frames) else None)
        && (messages.Some? ==> frames.Pending() == p.rest && frames.state == Open)
    {
      var pushed := frames.Push(chunk);
      messages := None;
      if pushed.Ok? {
        messages := ParseAll(kind, maxFrameLength, pushed.value,
          Parse(maxFrameLength, old(frames.Pending()) + chunk).frames);
      }
    }

    /** The end of the stream succeeds exactly when the decoder has not failed or ended and no frame is half
        received. */
    method End() returns (r: Result<(), CodecError>)
      requires Valid()
      modifies this`failed, frames
      ensures Valid() && (r.Err? <==> failed)
      ensures r.Ok? <==> !old(failed) && old(frames.state) == Open && old(frames.Pending()) == []
      ensures frames.state != Open || failed
    {
      if failed {
        return Err(ProtocolValidationError);
      }
      var ended := frames.End();
      if ended.Err? {
        failed := true;
        return Err(ProtocolValidationError);
      }
      r := Ok(());
    }
  }

  // ---- Streams of messages ----

  datatype Received = Received(messages: seq<Value>, rest: seq<byte>)

  /** What successive pushes return together, from the bytes left pending by earlier ones, while none fails. */
  function ReceiveAll(kind: Kind, max: nat, pending: seq<byte>, chunks: seq<seq<byte>>): Option<Received>
    decreases |chunks|
  {
    if chunks == [] then Some(Received([], pending))
    else
      var p := Parse(max, pending + chunks[0]);
      var messages := ParseMessages(kind, max, p.frames);
      if !p.ok || messages.None? then None else After(messages.value, ReceiveAll(kind, max, p.rest, chunks[1..]))
  }

  /** What is received after some messages, together with them. */
  function After(messages: seq<Value>, others: Option<Received>): Option<Received> {
    if others.None? then None else Some(Received(messages + others.value.messages, others.value.rest))
  }

  lemma AfterAfter(a: seq<Value>, b: seq<Value>, others: Option<Received>)
    ensures After(a, After(b, others)) == After(a + b, others) && After([], others) == others
  {
    if others.Some? {
      assert [] + others.value.messages == others.value.messages;
      assert a + (b + others.value.messages) == a + b + others.value.messages;
    }
  }

  /** Pushing chunk by chunk parses the same payloads as the joined bytes, each as a message. */
  lemma {:induction false} ReceiveAllIsParse(kind: Kind, max: nat, pending: seq<byte>, chunks: seq<seq<byte>>)
    ensures var pushed := PushAll(max, pending, chunks);
      pushed.PushFailed? ==> ReceiveAll(kind, max, pending, chunks).None?
    ensures var pushed := PushAll(max, pending, chunks);
      pushed.Pushed? ==>
        var messages := ParseMessages(kind, max, pushed.frames);
        ReceiveAll(kind, max, pending, chunks) == if messages.Some? then Some(Received(messages.value, pushed.rest))
          else None
    decreases |chunks|
  {
    if chunks != [] {
      var p := Parse(max, pending + chunks[0]);
      if p.ok {
        ReceiveAllIsParse(kind, max, p.rest, chunks[1..]);
        var others := PushAll(max, p.rest, chunks[1..]);
        if others.Pushed? {
          ParseMessagesAppend(kind, max, p.frames, others.frames);
        }
      }
    }
  }

  /** The values that messages arrive as. */
  function Stripped(messages: seq<Value>): seq<Value> {
    if messages == [] then [] else [Strip(messages[0])] + Stripped(messages[1..])
  }

  function Payloads(kind: Kind, messages: seq<Value>): (r: seq<seq<byte>>)
    ensures |r| == |messages|
  {
    if messages == [] then [] else [Encoding(kind.platform, messages[0])] + Payloads(kind, messages[1..])
  }

  ghost predicate AllSendable(kind: Kind, max: nat, messages: seq<Value>) {
    forall m | m in messages :: Sendable(kind, max, m)
  }

  /** The schema takes each of the messages as it arrives, without its undefined properties. */
  ghost predicate AllArrive(kind: Kind, messages: seq<Value>) {
    forall m | m in messages :: Message(kind, Strip(m))
  }

  lemma {:induction false} PayloadsAsMessages(kind: Kind, max: nat, messages: seq<Value>)
    requires max <= MAX_UINT32 && AllSendable(kind, max, messages)
    ensures Fits(max, Payloads(kind, messages))
    ensures ParseMessages(kind, max, Payloads(kind, messages)) == if AllArrive(kind, messages)
      then Some(Stripped(messages)) else None
  {
    if messages != [] {
      assert Sendable(kind, max, messages[0]);
      EncodedValuesComeBack(kind.platform, Limits(max), messages[0]);
      assert forall m | m in messages :: m == messages[0] || m in messages[1..];
      PayloadsAsMessages(kind, max, messages[1..]);
      var payloads := Payloads(kind, messages);
      assert payloads[0] == Encoding(kind.platform, messages[0]) && payloads[1..] == Payloads(kind, messages[1..]);
    }
  }

  /** Any list of messages that can be sent, joined and cut into chunks anywhere, is received as that list, without its
      undefined properties, and leaves nothing pending, exactly when the schema takes each of them in that form. */
  lemma SentMessagesAreReceived(kind: Kind, max: nat, messages: seq<Value>, chunks: seq<seq<byte>>)
    requires max <= MAX_UINT32 && AllSendable(kind, max, messages)
    requires Fits(max, Payloads(kind, messages)) && Flatten(chunks) == Frames(max, Payloads(kind, messages))
    ensures ReceiveAll(kind, max, [], chunks) == if AllArrive(kind, messages)
      then Some(Received(Stripped(messages), [])) else None
  {
    PayloadsAsMessages(kind, max, messages);
    EncodedPayloadsComeBack(max, Payloads(kind, messages), chunks);
    ReceiveAllIsParse(kind, max, [], chunks);
  }

  /** When no push fails, the stream can end exactly when it is a whole number of frames. */
  lemma EndsWithWholeFrames(kind: Kind, max: nat, chunks: seq<seq<byte>>)
    requires max <= MAX_UINT32 && ReceiveAll(kind, max, [], chunks).Some?
    ensures ReceiveAll(kind, max, [], chunks).value.rest == [] <==>
      exists payloads :: Fits(max, payloads) && Frames(max, payloads) == Flatten(chunks)
  {
    var stream := Flatten(chunks);
    assert [] + stream == stream;
    PushAllIsParse(max, [], chunks);
    ReceiveAllIsParse(kind, max, [], chunks);
    if Parse(max, stream).rest == [] {
      FramesParse(max, stream);
    }
    forall payloads | Fits(max, payloads) && Frames(max, payloads) == stream
      ensures Parse(max, stream).rest == []
    {
      FramingSpec.ParseFrames(max, payloads);
    }
  }

  lemma ReceiveFrom(kind: Kind, max: nat, pending: seq<byte>, chunks: seq<seq<byte>>, i: nat)
    requires i < |chunks|
    ensures var p := Parse(max, pending + chunks[i]);
      var messages := ParseMessages(kind, max, p.frames);
      ReceiveAll(kind, max, pending, chunks[i..]) ==
        if !p.ok || messages.None? then None else After(messages.value, ReceiveAll(kind, max, p.rest, chunks[i + 1..]))
  {
    assert chunks[i..][0] == chunks[i] && chunks[i..][1..] == chunks[i + 1..];
  }

  /** Pushes the chunks of a stream one after the other and ends it. */
  method ReceiveStream(decoder: ValidatedMessageDecoder, chunks: seq<seq<byte>>)
    returns (r: Result<seq<Value>, CodecError>)
    requires decoder.Valid() && !decoder.failed && decoder.frames.state == Open && decoder.frames.Pending() == []
    modifies decoder`failed, decoder.frames, decoder.frames.Repr()
    ensures decoder.Valid()
    ensures var received := ReceiveAll(decoder.kind, decoder.maxFrameLength, [], chunks);
      r == if received.Some? && received.value.rest == [] then Ok(received.value.messages)
        else Err(ProtocolValidationError)
  {
    ghost var all := ReceiveAll(decoder.kind, decoder.maxFrameLength, [], chunks);
    var messages := [];
    AfterAfter([], [], all);
    assert chunks[0..] == chunks;
    for i := 0 to |chunks|
      invariant decoder.Valid() && !decoder.failed && decoder.frames.state == Open
      invariant fresh(decoder.frames.Repr() - old(decoder.frames.Repr()))
      invariant all == After(messages,
        ReceiveAll(decoder.kind, decoder.maxFrameLength, decoder.frames.Pending(), chunks[i..]))
    {
      ReceiveFrom(decoder.kind, decoder.maxFrameLength, decoder.frames.Pending(), chunks, i);
      var pushed := decoder.Push(chunks[i]);
      if pushed.Err? {
        return Err(ProtocolValidationError);
      }
      AfterAfter(messages, pushed.value,
        ReceiveAll(decoder.kind, decoder.maxFrameLength, decoder.frames.Pending(), chunks[i + 1..]));
      messages := messages + pushed.value;
    }
    assert messages + [] == messages;
    var ended := decoder.End();
    r := if ended.Ok? then Ok(messages) else Err(ProtocolValidationError);
  }
}
