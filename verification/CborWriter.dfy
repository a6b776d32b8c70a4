/** The encoder: a writer over a growing buffer, and the recursion over a value. */
module CborWriter {
  import opened Basics
  import opened FramingSpec
  import opened Cbor

  class CborWriter {
    var buffer: array<byte>
    var offset: nat
    const maxByteLength: nat

    ghost predicate Valid()
      reads this
    {
      offset <= buffer.Length <= maxByteLength
    }

    ghost function Contents(): (r: seq<byte>)
      requires Valid()
      reads this, buffer
      ensures |r| == offset
    {
      buffer[..offset]
    }

    constructor (maxByteLength: nat)
      ensures Valid() && fresh(buffer) && Contents() == [] && this.maxByteLength == maxByteLength
    {
      this.maxByteLength := maxByteLength;
      buffer := new byte[if maxByteLength < 256 then maxByteLength else 256];
      offset := 0;
    }

    /** Makes room for more bytes, unless the limit forbids it; the buffer never grows beyond the limit. */
    method EnsureCapacity(additionalBytes: nat) returns (ok: bool)
      requires Valid()
      modifies this`buffer
      ensures Valid() && Contents() == old(Contents()) && (buffer == old(buffer) || fresh(buffer))
      ensures ok <==> offset + additionalBytes <= maxByteLength
      ensures ok ==> offset + additionalBytes <= buffer.Length
    {
      var required := offset + additionalBytes;
      if required > maxByteLength {
        return false;
      }
      if required <= buffer.Length {
        return true;
      }
      var capacity := if buffer.Length < 1 then 1 else buffer.Length;
      while capacity < required
        invariant 1 <= capacity <= maxByteLength
        decreases required - capacity
      {
        var doubled := if required < capacity * 2 then capacity * 2 else required;
        capacity := if maxByteLength < doubled then maxByteLength else doubled;
      }
      var expanded := new byte[capacity];
      var n := offset;
      for i := 0 to n
        invariant n <= buffer.Length && n <= expanded.Length && buffer[..n] == old(Contents())
        invariant expanded[..i] == buffer[..n][..i]
      {
        expanded[i] := buffer[i];
      }
      assert expanded[..n] == old(Contents());
      buffer := expanded;
      return true;
    }

    method WriteBytes(bytes: seq<byte>) returns (ok: bool)
      requires Valid()
      modifies this, buffer
      ensures Valid() && (buffer == old(buffer) || fresh(buffer))
      ensures ok <==> old(offset) + |bytes| <= maxByteLength
      ensures Contents() == if ok then old(Contents()) + bytes else old(Contents())
    {
      ghost var before := Contents();
      ok := EnsureCapacity(|bytes|);
      if !ok {
        return;
      }
      for i := 0 to |bytes|
        invariant Valid() && offset == old(offset) && (buffer == old(buffer) || fresh(buffer))
        invariant old(offset) + |bytes| <= buffer.Length
        invariant buffer[..offset + i] == before + bytes[..i]
      {
        buffer[offset + i] := bytes[i];
      }
      offset := offset + |bytes|;
    }

    method WriteByte(value: byte) returns (ok: bool)
      requires Valid()
      modifies this, buffer
      ensures Valid() && (buffer == old(buffer) || fresh(buffer))
      ensures ok <==> old(offset) < maxByteLength
      ensures Contents() == if ok then old(Contents()) + [value] else old(Contents())
    {
      ok := WriteBytes([value]);
    }

    /** The lowest bytes of a number, most significant first. */
    method WriteUint(value: nat, width: nat) returns (ok: bool)
      requires Valid()
      modifies this, buffer
      ensures Valid() && (buffer == old(buffer) || fresh(buffer))
      ensures ok <==> old(offset) + width <= maxByteLength
      ensures Contents() == if ok then old(Contents()) + Digits(value, width) else old(Contents())
    {
      ok := WriteBytes(Digits(value, width));
    }
  }

  /** Two words, the upper one first. */
  method WriteUint64(writer: CborWriter, value: nat) returns (ok: bool)
    requires writer.Valid()
    modifies writer, writer.buffer
    ensures writer.Valid() && (writer.buffer == old(writer.buffer) || fresh(writer.buffer))
    ensures ok <==> old(writer.offset) + 8 <= writer.maxByteLength
    ensures ok ==> writer.Contents() == old(writer.Contents()) + Digits(value, 8)
  {
    var high := value / 0x1_0000_0000;
    var low := value - high * 0x1_0000_0000;
    ghost var before := writer.Contents();
    ok := writer.WriteUint(high, 4);
    if ok {
      ok := writer.WriteUint(low, 4);
      TwoWords(high, low, value);
      assert before + Digits(high, 4) + Digits(low, 4) == before + (Digits(high, 4) + Digits(low, 4));
    }
  }

  lemma TwoWords(high: nat, low: nat, value: nat)
    requires value == high * 0x1_0000_0000 + low && low <= MAX_UINT32
    ensures Digits(value, 8) == Digits(high, 4) + Digits(low, 4)
  {
    assert Power(2) == 0x1_0000 && Power(4) == 0x1_0000_0000;
    DigitsSplit(high, low, 4, 4);
  }

  method WriteTail(writer: CborWriter, value: nat) returns (ok: bool)
    requires writer.Valid()
    modifies writer, writer.buffer
    ensures writer.Valid() && (writer.buffer == old(writer.buffer) || fresh(writer.buffer))
    ensures ok <==> old(writer.offset) + |Tail(value)| <= writer.maxByteLength
    ensures ok ==> writer.Contents() == old(writer.Contents()) + Tail(value)
  {
    if value < 24 {
      ok := true;
    } else if value <= 0xff {
      ok := writer.WriteUint(value, 1);
    } else if value <= 0xffff {
      ok := writer.WriteUint(value, 2);
    } else if value <= MAX_UINT32 {
      ok := writer.WriteUint(value, 4);
    } else {
      ok := WriteUint64(writer, value);
    }
  }

  /** The head of an item: fails exactly when it does not fit. */
  method WriteArgument(writer: CborWriter, major: nat, value: nat) returns (ok: bool)
    requires writer.Valid() && major < 8
    modifies writer, writer.buffer
    ensures writer.Valid() && (writer.buffer == old(writer.buffer) || fresh(writer.buffer))
    ensures ok <==> old(writer.offset) + |Argument(major, value)| <= writer.maxByteLength
    ensures ok ==> writer.Contents() == old(writer.Contents()) + Argument(major, value)
  {
    ghost var before := writer.Contents();
    ok := writer.WriteByte(32 * major + Info(value));
    if ok {
      ghost var head := writer.Contents();
      ok := WriteTail(writer, value);
      assert ok ==> before + [32 * major + Info(value)] + Tail(value) == before + Argument(major, value);
    }
  }

  // ---- The recursion ----

  /** Objects have distinct keys, at every depth. */
  predicate Objects(v: Value)
    decreases v
  {
    match v
    case List(items) => forall i | 0 <= i < |items| :: Objects(items[i])
    case Map(entries) => DistinctKeys(entries) && forall i | 0 <= i < |entries| :: Objects(entries[i].value)
    case _ => true
  }

  /** What a failed or successful write leaves behind: the bytes exactly when it is allowed and they fit. */
  twostate predicate Wrote(writer: CborWriter, ok: bool, allowed: bool, bytes: seq<byte>)
    requires old(writer.Valid())
    reads writer, writer.buffer
  {
    && writer.Valid() && (writer.buffer == old(writer.buffer) || fresh(writer.buffer))
    && (ok <==> allowed && old(writer.offset) + |bytes| <= writer.maxByteLength)
    && (ok ==> writer.Contents() == old(writer.Contents()) + bytes)
  }

  method EncodeText(writer: CborWriter, p: Platform, text: string) returns (ok: bool)
    requires writer.Valid()
    modifies writer, writer.buffer
    ensures Wrote(writer, ok, GoodText(p, text), TextEncoding(p, text))
  {
    var bytes := p.utf8(text);
    if |bytes| > writer.maxByteLength || p.text(bytes) != Some(text) {
      return false;
    }
    ok := EncodeBytes(writer, 3, bytes);
  }

  method EncodeBytes(writer: CborWriter, major: nat, bytes: seq<byte>) returns (ok: bool)
    requires writer.Valid() && major < 8
    modifies writer, writer.buffer
    ensures Wrote(writer, ok, true, Argument(major, |bytes|) + bytes)
  {
    ghost var before := writer.Contents();
    ok := WriteArgument(writer, major, |bytes|);
    if ok {
      ok := writer.WriteBytes(bytes);
      Joined(before, Argument(major, |bytes|), bytes);
    }
  }

  method EncodeScalar(writer: CborWriter, p: Platform, o: Options, v: Value, depth: nat) returns (ok: bool)
    requires writer.Valid() && !v.List? && !v.Map? && depth <= o.maxDepth
    modifies writer, writer.buffer
    ensures Wrote(writer, ok, Encodable(p, o, v, depth), Encoding(p, v))
  {
    match v
    case Null => ok := writer.WriteByte(0xf6);
    case Bool(b) => ok := writer.WriteByte(if b then 0xf5 else 0xf4);
    case Integer(n) =>
      if !SafeInteger(n) {
        return false;
      }
      if n >= 0 {
        ok := WriteArgument(writer, 0, n);
      } else {
        ok := WriteArgument(writer, 1, -1 - n);
      }
    case Float(bits) =>
      if !GoodFloat(p, bits) {
        return false;
      }
      ok := writer.WriteBytes([0xfb] + bits);
    case Text(text) => ok := EncodeText(writer, p, text);
    case Bytes(bytes) => ok := EncodeBytes(writer, 2, bytes);
    case Undefined => ok := false;
    case Unsupported => ok := false;
  }

  /** Writes a value: succeeds exactly when the value is encodable and its encoding fits. */
  method EncodeValue(writer: CborWriter, p: Platform, o: Options, v: Value, depth: nat) returns (ok: bool)
    requires writer.Valid() && Objects(v)
    modifies writer, writer.buffer
    ensures Wrote(writer, ok, Encodable(p, o, v, depth), Encoding(p, v))
    decreases v, 1
  {
    if depth > o.maxDepth {
      return false;
    }
    match v
    case List(items) => ok := EncodeItems(writer, p, o, items, depth);
    case Map(entries) => ok := EncodeEntries(writer, p, o, entries, depth);
    case _ => ok := EncodeScalar(writer, p, o, v, depth);
  }

  method EncodeItems(writer: CborWriter, p: Platform, o: Options, items: seq<Value>, depth: nat) returns (ok: bool)
    requires writer.Valid() && Objects(List(items)) && depth <= o.maxDepth
    modifies writer, writer.buffer
    ensures Wrote(writer, ok, Encodable(p, o, List(items), depth), Encoding(p, List(items)))
    decreases items, 1
  {
    if |items| > o.maxContainerLength {
      return false;
    }
    ghost var before := writer.Contents();
    ok := WriteArgument(writer, 4, |items|);
    if ok {
      ok := EncodeAll(writer, p, o, items, depth + 1);
      Joined(before, Argument(4, |items|), AllEncodings(p, items));
    }
  }

  method EncodeAll(writer: CborWriter, p: Platform, o: Options, items: seq<Value>, depth: nat) returns (ok: bool)
    requires writer.Valid() && Objects(List(items))
    modifies writer, writer.buffer
    ensures Wrote(writer, ok, AllEncodable(p, o, items, depth), AllEncodings(p, items))
    decreases items, 0
  {
    ghost var whole := writer.Contents() + AllEncodings(p, items);
    for i := 0 to |items|
      invariant writer.Valid() && (writer.buffer == old(writer.buffer) || fresh(writer.buffer))
      invariant writer.Contents() + AllEncodings(p, items[i..]) == whole
      invariant AllEncodable(p, o, items, depth) <==> AllEncodable(p, o, items[i..], depth)
    {
      ItemsFrom(p, o, items, i, depth, writer.Contents());
      ok := EncodeValue(writer, p, o, items[i], depth);
      if !ok {
        return;
      }
    }
    ok := true;
  }

  lemma ItemsFrom(p: Platform, o: Options, items: seq<Value>, i: nat, depth: nat, before: seq<byte>)
    requires i < |items|
    ensures before + AllEncodings(p, items[i..]) == before + Encoding(p, items[i]) + AllEncodings(p, items[i + 1..])
    ensures AllEncodable(p, o, items[i..], depth) <==>
      Encodable(p, o, items[i], depth) && AllEncodable(p, o, items[i + 1..], depth)
  {
    assert items[i..][0] == items[i] && items[i..][1..] == items[i + 1..];
  }

  method EncodeEntries(writer: CborWriter, p: Platform, o: Options, entries: seq<Entry>, depth: nat) returns (ok: bool)
    requires writer.Valid() && Objects(Map(entries)) && depth <= o.maxDepth
    modifies writer, writer.buffer
    ensures Wrote(writer, ok, Encodable(p, o, Map(entries), depth), Encoding(p, Map(entries)))
    decreases entries, 1
  {
    var length := |Defined(entries)|;
    if length > o.maxContainerLength {
      return false;
    }
    ghost var before := writer.Contents();
    ok := WriteArgument(writer, 5, length);
    if ok {
      ok := EncodeAllEntries(writer, p, o, entries, depth + 1);
      Joined(before, Argument(5, length), EntryEncodings(p, entries));
    }
  }

  /** The properties without a value are skipped. */
  method EncodeAllEntries(writer: CborWriter, p: Platform, o: Options, entries: seq<Entry>, depth: nat)
    returns (ok: bool)
    requires writer.Valid() && Objects(Map(entries))
    modifies writer, writer.buffer
    ensures Wrote(writer, ok, EntriesEncodable(p, o, entries, depth), EntryEncodings(p, entries))
    decreases entries, 0
  {
    ghost var whole := writer.Contents() + EntryEncodings(p, entries);
    for i := 0 to |entries|
      invariant writer.Valid() && (writer.buffer == old(writer.buffer) || fresh(writer.buffer))
      invariant writer.Contents() + EntryEncodings(p, entries[i..]) == whole
      invariant EntriesEncodable(p, o, entries, depth) <==> EntriesEncodable(p, o, entries[i..], depth)
    {
      EntriesFrom(p, o, entries, i, depth, writer.Contents());
      if !entries[i].value.Undefined? {
        ok := EncodeText(writer, p, entries[i].key);
        if !ok {
          return;
        }
        ok := EncodeValue(writer, p, o, entries[i].value, depth);
        if !ok {
          return;
        }
      }
    }
    ok := true;
  }

  lemma EntriesFrom(p: Platform, o: Options, entries: seq<Entry>, i: nat, depth: nat, before: seq<byte>)
    requires i < |entries|
    ensures var e, others := entries[i], EntryEncodings(p, entries[i + 1..]);
      before + EntryEncodings(p, entries[i..]) ==
        if e.value.Undefined? then before + others else before + TextEncoding(p, e.key) + Encoding(p, e.value) + others
    ensures EntriesEncodable(p, o, entries[i..], depth) <==>
      ((entries[i].value.Undefined? || (GoodText(p, entries[i].key) && Encodable(p, o, entries[i].value, depth)))
       && EntriesEncodable(p, o, entries[i + 1..], depth))
  {
    assert entries[i..][0] == entries[i] && entries[i..][1..] == entries[i + 1..];
  }

  method EncodeCbor(p: Platform, o: Options, v: Value) returns (r: Option<seq<byte>>)
    requires Objects(v)
    ensures r == if Encodable(p, o, v, 0) && |Encoding(p, v)| <= o.maxByteLength then Some(Encoding(p, v)) else None
  {
    var writer := new CborWriter(o.maxByteLength);
    var ok := EncodeValue(writer, p, o, v, 0);
    assert ok ==> writer.Contents() == [] + Encoding(p, v) == Encoding(p, v);
    r := if ok then Some(writer.buffer[..writer.offset]) else None;
  }
}
