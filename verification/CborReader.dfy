/** The decoder: a reader that moves an offset over the bytes of one payload. */
module CborReader {
  import opened Basics
  import opened FramingSpec
  import opened Cbor

  class CborReader {
    const bytes: seq<byte>
    const platform: Platform
    const options: Options
    var offset: nat

    ghost predicate Valid()
      reads this
    {
      offset <= |bytes|
    }

    ghost function Rest(): seq<byte>
      requires Valid()
      reads this
    {
      bytes[offset..]
    }

    constructor (bytes: seq<byte>, platform: Platform, options: Options)
      ensures Valid() && Rest() == bytes && this.bytes == bytes && this.platform == platform && this.options == options
    {
      this.bytes, this.platform, this.options, offset := bytes, platform, options, 0;
    }

    /** What was read is what the decoding function gets from the rest, and the offset is behind it. */
    twostate predicate Reads<T>(new r: Option<T>, new got: Option<Got<T>>)
      requires old(Valid())
      reads this
    {
      && Valid() && old(offset) <= offset
      && (r.Some? <==> got.Some?)
      && (r.Some? ==> r.value == got.value.value && Rest() == got.value.rest)
    }

    method ReadBytes(length: nat) returns (r: Option<seq<byte>>)
      requires Valid()
      modifies this
      ensures Reads(r, Take(old(Rest()), length))
    {
      if length > |bytes| - offset {
        return None;
      }
      var start := offset;
      offset := offset + length;
      assert bytes[start..][..length] == bytes[start..offset] && bytes[start..][length..] == bytes[offset..];
      r := Some(bytes[start..offset]);
    }

    method ReadByte() returns (r: Option<byte>)
      requires Valid()
      modifies this
      ensures Valid() && old(offset) <= offset && (r.Some? <==> old(Rest()) != [])
      ensures r.Some? ==> old(offset) < offset && r.value == old(Rest())[0] && Rest() == old(Rest())[1..]
    {
      if offset >= |bytes| {
        return None;
      }
      r := Some(bytes[offset]);
      offset := offset + 1;
    }

    method ReadWord(n: nat) returns (r: Option<nat>)
      requires Valid() && (n == 1 || n == 2 || n == 4)
      modifies this
      ensures Reads(r, Word(old(Rest()), n))
    {
      var word := ReadBytes(n);
      if word.None? {
        return None;
      }
      var w := word.value;
      assert w[..0] == [] && w[..n] == w;
      if n == 1 {
        r := Some(w[0]);
      } else if n == 2 {
        assert BigEndian(w[..1]) == w[0];
        r := Some((w[0] as int) * 0x100 + w[1]);
      } else {
        HeaderValue(w);
        r := Some((w[0] as int) * 0x100_0000 + (w[1] as int) * 0x1_0000 + (w[2] as int) * 0x100 + w[3]);
      }
    }

    method ReadArgumentValue(info: nat) returns (r: Option<nat>)
      requires Valid()
      modifies this
      ensures Reads(r, ReadArgument(info, old(Rest())))
    {
      if info < 24 {
        r := Some(info);
      } else if info == 24 {
        r := ReadWord(1);
      } else if info == 25 {
        r := ReadWord(2);
      } else if info == 26 {
        r := ReadWord(4);
      } else if info == 27 {
        var high := ReadWord(4);
        if high.None? {
          return None;
        }
        var low := ReadWord(4);
        if low.None? || high.value > 0x1f_ffff {
          return None;
        }
        r := Some(high.value * 0x1_0000_0000 + low.value);
      } else {
        r := None;
      }
    }

    method ReadLengthValue(info: nat, limit: nat) returns (r: Option<nat>)
      requires Valid()
      modifies this
      ensures Reads(r, ReadLength(info, old(Rest()), limit))
    {
      r := ReadArgumentValue(info);
      if r.Some? && r.value > limit {
        r := None;
      }
    }

    method ReadBytesValue(info: nat, limit: nat) returns (r: Option<seq<byte>>)
      requires Valid()
      modifies this
      ensures Reads(r, Cbor.ReadBytes(info, old(Rest()), limit))
    {
      var length := ReadLengthValue(info, limit);
      if length.None? {
        return None;
      }
      r := ReadBytes(length.value);
    }

    method ReadSimpleValue(info: nat) returns (r: Option<Value>)
      requires Valid()
      modifies this
      ensures Reads(r, ReadSimple(platform, info, old(Rest())))
    {
      if info == 20 || info == 21 {
        return Some(Bool(info == 21));
      }
      if info == 22 {
        return Some(Null);
      }
      if info != 27 {
        return None;
      }
      var bits := ReadBytes(8);
      if bits.None? {
        return None;
      }
      match platform.number(bits.value)
      case Whole(n) => r := if SafeInteger(n) then Some(Integer(n)) else None;
      case Finite => r := Some(Float(bits.value));
      case NotFinite => r := None;
    }

    method ReadScalarValue(major: nat, info: nat) returns (r: Option<Value>)
      requires Valid()
      modifies this
      ensures Reads(r, ReadScalar(platform, options, major, info, old(Rest())))
    {
      r := None;
      if major <= 1 {
        var argument := ReadArgumentValue(info);
        if argument.Some? {
          var n: int := if major == 0 then argument.value else -1 - (argument.value as int);
          r := if SafeInteger(n) then Some(Integer(n)) else None;
        }
      } else if major == 2 {
        var content := ReadBytesValue(info, options.maxByteLength);
        r := if content.Some? then Some(Bytes(content.value)) else None;
      } else if major == 3 {
        var content := ReadBytesValue(info, options.maxByteLength);
        if content.Some? {
          var text := platform.text(content.value);
          r := if text.Some? then Some(Text(text.value)) else None;
        }
      } else if major == 7 {
        r := ReadSimpleValue(info);
      }
    }

    method ReadItem(depth: nat) returns (r: Option<Value>)
      requires Valid()
      modifies this
      ensures Reads(r, Item(platform, options, old(Rest()), depth))
      decreases |bytes| - offset, 0
    {
      if depth > options.maxDepth {
        return None;
      }
      var initial := ReadByte();
      if initial.None? {
        return None;
      }
      var majorType, additionalInformation := initial.value / 32, initial.value % 32;
      r := ReadBodyValue(majorType, additionalInformation, depth);
    }

    method ReadBodyValue(major: nat, info: nat, depth: nat) returns (r: Option<Value>)
      requires Valid()
      modifies this
      ensures Reads(r, ReadBody(platform, options, major, info, old(Rest()), depth))
      decreases |bytes| - offset, 2
    {
      if major == 4 {
        var length := ReadLengthValue(info, options.maxContainerLength);
        if length.None? {
          return None;
        }
        var items := ReadItems(length.value, depth + 1);
        r := if items.Some? then Some(List(items.value)) else None;
      } else if major == 5 {
        var length := ReadLengthValue(info, options.maxContainerLength);
        if length.None? {
          return None;
        }
        var entries := ReadEntries(length.value, depth + 1);
        r := if entries.Some? then Some(Map(entries.value)) else None;
      } else {
        r := ReadScalarValue(major, info);
      }
    }

    method ReadItems(length: nat, depth: nat) returns (r: Option<seq<Value>>)
      requires Valid()
      modifies this
      ensures Reads(r, Items(platform, options, old(Rest()), length, depth))
      decreases |bytes| - offset, 1
    {
      ghost var all := Items(platform, options, Rest(), length, depth);
      var result := [];
      for index := 0 to length
        invariant Valid() && old(offset) <= offset
        invariant var others := Items(platform, options, Rest(), length - index, depth);
          && (all.Some? <==> others.Some?)
          && (all.Some? ==> all.value.value == result + others.value.value && all.value.rest == others.value.rest)
      {
        var item := ReadItem(depth);
        if item.None? {
          return None;
        }
        result := result + [item.value];
      }
      assert result + [] == result;
      r := Some(result);
    }

    method ReadEntries(length: nat, depth: nat) returns (r: Option<seq<Entry>>)
      requires Valid()
      modifies this
      ensures Reads(r, Entries(platform, options, old(Rest()), length, depth, {}))
      decreases |bytes| - offset, 1
    {
      ghost var all := Entries(platform, options, Rest(), length, depth, {});
      var result, keys := [], {};
      for index := 0 to length
        invariant Valid() && old(offset) <= offset
        invariant var others := Entries(platform, options, Rest(), length - index, depth, keys);
          && (all.Some? <==> others.Some?)
          && (all.Some? ==> all.value.value == result + others.value.value && all.value.rest == others.value.rest)
      {
        var key := ReadItem(depth);
        if key.None? || !key.value.Text? || key.value.text in keys {
          return None;
        }
        var value := ReadItem(depth);
        if value.None? {
          return None;
        }
        result, keys := result + [Entry(key.value.text, value.value)], keys + {key.value.text};
      }
      assert result + [] == result;
      r := Some(result);
    }
  }

  /** Decodes exactly one item. */
  method DecodeCbor(bytes: seq<byte>, platform: Platform, options: Options) returns (r: Option<Value>)
    ensures r == Decode(platform, options, bytes)
  {
    if |bytes| > options.maxByteLength {
      return None;
    }
    var reader := new CborReader(bytes, platform, options);
    r := reader.ReadItem(0);
    if r.Some? && reader.offset != |bytes| {
      r := None;
    }
  }
}
