/** Round trips of the CBOR subset. */
module CborLaws {
  import opened Basics
  import opened FramingSpec
  import opened Cbor

  // ---- Heads ----

  lemma {:induction false} DigitsBack(value: nat, n: nat)
    requires value < Power(n)
    ensures BigEndian(Digits(value, n)) == value
  {
    if n > 0 {
      DigitsBack(value / 0x100, n - 1);
      assert Digits(value, n)[..n - 1] == Digits(value / 0x100, n - 1);
    }
  }

  lemma WordBack(value: nat, n: nat, rest: seq<byte>)
    requires value < Power(n)
    ensures Word(Digits(value, n) + rest, n) == Some(Got(value, rest))
  {
    var s := Digits(value, n) + rest;
    assert s[..n] == Digits(value, n) && s[n..] == rest;
    DigitsBack(value, n);
  }

  lemma Powers()
    ensures Power(1) == 0x100 && Power(2) == 0x1_0000 && Power(4) == 0x1_0000_0000
  {
    assert Power(3) == 0x100_0000;
  }

  lemma ReadTail(value: nat, rest: seq<byte>)
    requires value <= MAX_SAFE_INTEGER
    ensures ReadArgument(Info(value), Tail(value) + rest) == Some(Got(value, rest))
  {
    Powers();
    if value < 24 {
      assert [] + rest == rest;
    } else if value <= 0xff {
      WordBack(value, 1, rest);
    } else if value <= 0xffff {
      WordBack(value, 2, rest);
    } else if value <= MAX_UINT32 {
      WordBack(value, 4, rest);
    } else {
      var high, low := value / 0x1_0000_0000, value % 0x1_0000_0000;
      DigitsSplit(high, low, 4, 4);
      assert high * Power(4) + low == value;
      ReadTwoWords(high, low, rest);
    }
  }

  lemma ReadTwoWords(high: nat, low: nat, rest: seq<byte>)
    requires high <= 0x1f_ffff && low <= MAX_UINT32
    ensures ReadArgument(27, Digits(high, 4) + Digits(low, 4) + rest) == Some(Got(high * 0x1_0000_0000 + low, rest))
  {
    Powers();
    assert Digits(high, 4) + Digits(low, 4) + rest == Digits(high, 4) + (Digits(low, 4) + rest);
    WordBack(high, 4, Digits(low, 4) + rest);
    WordBack(low, 4, rest);
  }

  lemma ArgumentBack(major: nat, value: nat, rest: seq<byte>)
    requires major < 8 && value <= MAX_SAFE_INTEGER
    ensures var s := Argument(major, value) + rest;
      s[0] / 32 == major && ReadArgument(s[0] % 32, s[1..]) == Some(Got(value, rest))
  {
    var s := Argument(major, value) + rest;
    assert s[1..] == Tail(value) + rest && s[0] == 32 * major + Info(value);
    ReadTail(value, rest);
  }

  /** A head and the bytes it announces. */
  lemma BytesBack(major: nat, bytes: seq<byte>, limit: nat, rest: seq<byte>)
    requires major < 8 && |bytes| <= limit <= MAX_UINT32
    ensures var s := Argument(major, |bytes|) + bytes + rest;
      s[0] / 32 == major && ReadBytes(s[0] % 32, s[1..], limit) == Some(Got(bytes, rest))
  {
    ArgumentBack(major, |bytes|, bytes + rest);
    assert Argument(major, |bytes|) + bytes + rest == Argument(major, |bytes|) + (bytes + rest);
    assert (bytes + rest)[..|bytes|] == bytes && (bytes + rest)[|bytes|..] == rest;
  }

  lemma TextBack(p: Platform, o: Options, text: string, depth: nat, rest: seq<byte>)
    requires GoodText(p, text) && o.Resolved() && |p.utf8(text)| <= o.maxByteLength && depth <= o.maxDepth
    ensures Item(p, o, TextEncoding(p, text) + rest, depth) == Some(Got(Text(text), rest))
  {
    BytesBack(3, p.utf8(text), o.maxByteLength, rest);
  }

  lemma IntegerBack(p: Platform, o: Options, n: int, depth: nat, rest: seq<byte>)
    requires SafeInteger(n) && depth <= o.maxDepth
    ensures Item(p, o, Encoding(p, Integer(n)) + rest, depth) == Some(Got(Integer(n), rest))
  {
    if n >= 0 {
      ArgumentBack(0, n, rest);
    } else {
      ArgumentBack(1, -1 - n, rest);
    }
  }

  lemma FloatBack(p: Platform, o: Options, bits: seq<byte>, depth: nat, rest: seq<byte>)
    requires GoodFloat(p, bits) && depth <= o.maxDepth
    ensures Item(p, o, Encoding(p, Float(bits)) + rest, depth) == Some(Got(Float(bits), rest))
  {
    var s := [0xfb] + bits + rest;
    assert s[1..] == bits + rest && (bits + rest)[..8] == bits && (bits + rest)[8..] == rest;
  }

  lemma DefinedStep(entries: seq<Entry>)
    requires entries != []
    ensures |Defined(entries)| == (if entries[0].value.Undefined? then 0 else 1) + |Defined(entries[1..])|
  {
  }

  // ---- Steps of the decoder ----

  lemma ItemsStep(p: Platform, o: Options, s: seq<byte>, n: nat, depth: nat, first: Got<Value>, others: Got<seq<Value>>)
    requires n > 0 && Item(p, o, s, depth) == Some(first) && Items(p, o, first.rest, n - 1, depth) == Some(others)
    ensures Items(p, o, s, n, depth) == Some(Got([first.value] + others.value, others.rest))
  {
  }

  lemma EntriesStep(p: Platform, o: Options, s: seq<byte>, n: nat, depth: nat, keys: set<string>,
                    key: string, t: seq<byte>, value: Got<Value>, others: Got<seq<Entry>>)
    requires n > 0 && key !in keys
    requires Item(p, o, s, depth) == Some(Got(Text(key), t)) && Item(p, o, t, depth) == Some(value)
    requires Entries(p, o, value.rest, n - 1, depth, keys + {key}) == Some(others)
    ensures Entries(p, o, s, n, depth, keys) == Some(Got([Entry(key, value.value)] + others.value, others.rest))
  {
  }

  lemma ListStep(p: Platform, o: Options, s: seq<byte>, n: nat, depth: nat, items: Got<seq<Value>>)
    requires n <= o.maxContainerLength && o.Resolved() && depth <= o.maxDepth
    requires Items(p, o, s, n, depth + 1) == Some(items)
    ensures Item(p, o, Argument(4, n) + s, depth) == Some(Got(List(items.value), items.rest))
  {
    ArgumentBack(4, n, s);
    var info, t := (Argument(4, n) + s)[0] % 32, (Argument(4, n) + s)[1..];
    assert ReadBody(p, o, 4, info, t, depth) == Some(Got(List(items.value), items.rest));
  }

  lemma MapStep(p: Platform, o: Options, s: seq<byte>, n: nat, depth: nat, entries: Got<seq<Entry>>)
    requires n <= o.maxContainerLength && o.Resolved() && depth <= o.maxDepth
    requires Entries(p, o, s, n, depth + 1, {}) == Some(entries)
    ensures Item(p, o, Argument(5, n) + s, depth) == Some(Got(Map(entries.value), entries.rest))
  {
    ArgumentBack(5, n, s);
    var info, t := (Argument(5, n) + s)[0] % 32, (Argument(5, n) + s)[1..];
    assert ReadBody(p, o, 5, info, t, depth) == Some(Got(Map(entries.value), entries.rest));
  }

  // ---- Whole values ----

  lemma ScalarBack(p: Platform, o: Options, v: Value, depth: nat, rest: seq<byte>)
    requires o.Resolved() && Encodable(p, o, v, depth) && |Encoding(p, v)| <= o.maxByteLength && !v.List? && !v.Map?
    ensures Item(p, o, Encoding(p, v) + rest, depth) == Some(Got(v, rest))
  {
    match v
    case Null => assert ([0xf6] + rest)[1..] == rest;
    case Bool(b) => assert ([if b then 0xf5 else 0xf4] + rest)[1..] == rest;
    case Integer(n) => IntegerBack(p, o, n, depth, rest);
    case Float(bits) => FloatBack(p, o, bits, depth, rest);
    case Text(text) => TextBack(p, o, text, depth, rest);
    case Bytes(bytes) => BytesBack(2, bytes, o.maxByteLength, rest);
  }

  /** Round trip: whatever follows it, the encoding of a value decodes to the value without its undefined properties. */
  lemma {:induction false} ItemBack(p: Platform, o: Options, v: Value, depth: nat, rest: seq<byte>)
    requires o.Resolved() && Encodable(p, o, v, depth) && |Encoding(p, v)| <= o.maxByteLength
    ensures Item(p, o, Encoding(p, v) + rest, depth) == Some(Got(Strip(v), rest))
    decreases v, 2
  {
    match v
    case List(items) =>
      EncodingOfList(p, items, rest);
      ListBack(p, o, items, depth, rest);
    case Map(entries) =>
      EncodingOfMap(p, entries, rest);
      MapBack(p, o, entries, depth, rest);
    case _ => ScalarBack(p, o, v, depth, rest);
  }

  lemma EncodingOfList(p: Platform, items: seq<Value>, rest: seq<byte>)
    ensures Encoding(p, List(items)) + rest == Argument(4, |items|) + (AllEncodings(p, items) + rest)
  {
  }

  lemma EncodingOfMap(p: Platform, entries: seq<Entry>, rest: seq<byte>)
    ensures Encoding(p, Map(entries)) + rest == Argument(5, |Defined(entries)|) + (EntryEncodings(p, entries) + rest)
  {
  }

  lemma ListBack(p: Platform, o: Options, items: seq<Value>, depth: nat, rest: seq<byte>)
    requires o.Resolved() && depth <= o.maxDepth && |items| <= o.maxContainerLength
    requires AllEncodable(p, o, items, depth + 1)
    requires |AllEncodings(p, items)| <= o.maxByteLength
    ensures Item(p, o, Argument(4, |items|) + (AllEncodings(p, items) + rest), depth)
      == Some(Got(List(StripAll(items)), rest))
    decreases items, 1
  {
    ItemsBack(p, o, items, depth + 1, rest);
    ListStep(p, o, AllEncodings(p, items) + rest, |items|, depth, Got(StripAll(items), rest));
  }

  lemma MapBack(p: Platform, o: Options, entries: seq<Entry>, depth: nat, rest: seq<byte>)
    requires o.Resolved() && depth <= o.maxDepth && |Defined(entries)| <= o.maxContainerLength
    requires DistinctKeys(entries) && EntriesEncodable(p, o, entries, depth + 1)
    requires |EntryEncodings(p, entries)| <= o.maxByteLength
    ensures Item(p, o, Argument(5, |Defined(entries)|) + (EntryEncodings(p, entries) + rest), depth)
      == Some(Got(Map(StripEntries(entries)), rest))
    decreases entries, 1
  {
    EntriesBack(p, o, entries, depth + 1, {}, rest);
    MapStep(p, o, EntryEncodings(p, entries) + rest, |Defined(entries)|, depth, Got(StripEntries(entries), rest));
  }

  lemma {:induction false} ItemsBack(p: Platform, o: Options, items: seq<Value>, depth: nat, rest: seq<byte>)
    requires o.Resolved() && AllEncodable(p, o, items, depth) && |AllEncodings(p, items)| <= o.maxByteLength
    ensures Items(p, o, AllEncodings(p, items) + rest, |items|, depth) == Some(Got(StripAll(items), rest))
    decreases items, 0
  {
    if items != [] {
      var others := AllEncodings(p, items[1..]) + rest;
      ItemBack(p, o, items[0], depth, others);
      ItemsBack(p, o, items[1..], depth, rest);
      ItemsStep(p, o, Encoding(p, items[0]) + others, |items|, depth, Got(Strip(items[0]), others),
        Got(StripAll(items[1..]), rest));
      EncodingOfFirst(p, items, rest);
    } else {
      assert [] + rest == rest;
    }
  }

  lemma {:induction false} EntriesBack(p: Platform, o: Options, entries: seq<Entry>, depth: nat, keys: set<string>,
                                       rest: seq<byte>)
    requires o.Resolved() && EntriesEncodable(p, o, entries, depth) && |EntryEncodings(p, entries)| <= o.maxByteLength
    requires DistinctKeys(entries) && forall e | e in entries :: e.key !in keys
    ensures Entries(p, o, EntryEncodings(p, entries) + rest, |Defined(entries)|, depth, keys)
      == Some(Got(StripEntries(entries), rest))
    decreases entries, 0
  {
    if entries == [] {
      assert [] + rest == rest;
    } else if entries[0].value.Undefined? {
      EntriesBack(p, o, entries[1..], depth, keys, rest);
    } else {
      var e, others := entries[0], EntryEncodings(p, entries[1..]) + rest;
      assert e in entries;
      EntryLengths(p, entries);
      ItemBack(p, o, e.value, depth, others);
      EntriesBack(p, o, entries[1..], depth, keys + {e.key}, rest);
      FirstEntryBack(p, o, entries, depth, keys, rest);
      EncodingOfFirstEntry(p, entries, rest);
    }
  }

  lemma FirstEntryBack(p: Platform, o: Options, entries: seq<Entry>, depth: nat, keys: set<string>, rest: seq<byte>)
    requires entries != [] && !entries[0].value.Undefined? && entries[0].key !in keys
    requires o.Resolved() && depth <= o.maxDepth && GoodText(p, entries[0].key)
    requires |p.utf8(entries[0].key)| <= o.maxByteLength
    requires var others := EntryEncodings(p, entries[1..]) + rest;
      Item(p, o, Encoding(p, entries[0].value) + others, depth) == Some(Got(Strip(entries[0].value), others))
    requires Entries(p, o, EntryEncodings(p, entries[1..]) + rest, |Defined(entries[1..])|, depth,
      keys + {entries[0].key})
      == Some(Got(StripEntries(entries[1..]), rest))
    ensures Entries(p, o,
      TextEncoding(p, entries[0].key) + (Encoding(p, entries[0].value) + (EntryEncodings(p, entries[1..]) + rest)),
      |Defined(entries)|, depth, keys) == Some(Got(StripEntries(entries), rest))
  {
    var e, others := entries[0], EntryEncodings(p, entries[1..]) + rest;
    var t := Encoding(p, e.value) + others;
    TextBack(p, o, e.key, depth, t);
    EntriesStep(p, o, TextEncoding(p, e.key) + t, |Defined(entries)|, depth, keys, e.key, t,
      Got(Strip(e.value), others), Got(StripEntries(entries[1..]), rest));
  }

  lemma EncodingOfFirst(p: Platform, items: seq<Value>, rest: seq<byte>)
    requires items != []
    ensures AllEncodings(p, items) + rest == Encoding(p, items[0]) + (AllEncodings(p, items[1..]) + rest)
  {
  }

  lemma EncodingOfFirstEntry(p: Platform, entries: seq<Entry>, rest: seq<byte>)
    requires entries != [] && !entries[0].value.Undefined?
    ensures EntryEncodings(p, entries) + rest
      == TextEncoding(p, entries[0].key) + (Encoding(p, entries[0].value) + (EntryEncodings(p, entries[1..]) + rest))
  {
  }

  lemma EntryLengths(p: Platform, entries: seq<Entry>)
    requires entries != [] && !entries[0].value.Undefined?
    ensures |EntryEncodings(p, entries)| ==
      |TextEncoding(p, entries[0].key)| + |Encoding(p, entries[0].value)| + |EntryEncodings(p, entries[1..])|
    ensures |p.utf8(entries[0].key)| <= |TextEncoding(p, entries[0].key)|
  {
  }

  /** Whatever the encoder accepts, and writes within the limit, the decoder with the same limits reads back. */
  lemma EncodedValuesComeBack(p: Platform, o: Options, v: Value)
    requires o.Resolved() && Encodable(p, o, v, 0) && |Encoding(p, v)| <= o.maxByteLength
    ensures Decode(p, o, Encoding(p, v)) == Some(Strip(v))
  {
    ItemBack(p, o, v, 0, []);
    assert Encoding(p, v) + [] == Encoding(p, v);
  }

  // ---- What the decoder accepts can be encoded ----

  /** Strict UTF-8: no two byte sequences decode to the same text. */
  ghost predicate Strict(p: Platform) {
    forall b | p.text(b).Some? :: p.utf8(p.text(b).value) == b
  }

  /** The value needs no more bytes than were read for it, is encodable as it is, and has no undefined property. */
  ghost predicate Normal(p: Platform, o: Options, s: seq<byte>, depth: nat, r: Option<Got<Value>>) {
    r.Some? ==>
      && Encodable(p, o, r.value.value, depth) && Strip(r.value.value) == r.value.value && !r.value.value.Undefined?
      && |Encoding(p, r.value.value)| + |r.value.rest| <= |s|
  }

  lemma {:induction false} BigEndianBound(s: seq<byte>)
    ensures BigEndian(s) < Power(|s|)
  {
    if s != [] {
      BigEndianBound(s[..|s| - 1]);
    }
  }

  /** No argument is read from fewer bytes than it is written in. */
  lemma ArgumentIsShortest(info: nat, s: seq<byte>)
    ensures var r := ReadArgument(info, s);
      r.Some? ==> r.value.value <= MAX_SAFE_INTEGER && |Tail(r.value.value)| + |r.value.rest| <= |s|
  {
    Powers();
    if |s| >= 1 {
      BigEndianBound(s[..1]);
    }
    if |s| >= 2 {
      BigEndianBound(s[..2]);
    }
    if |s| >= 4 {
      BigEndianBound(s[..4]);
    }
    if |s| >= 8 {
      BigEndianBound(s[4..][..4]);
    }
  }

  lemma BytesAreNormal(p: Platform, info: nat, s: seq<byte>, limit: nat)
    ensures var r := ReadBytes(info, s, limit);
      r.Some? ==> |Tail(|r.value.value|)| + |r.value.value| + |r.value.rest| <= |s|
  {
    ArgumentIsShortest(info, s);
  }

  lemma IntegerIsNormal(p: Platform, o: Options, s: seq<byte>, depth: nat, major: nat, info: nat)
    requires s != [] && depth <= o.maxDepth && major <= 1
    ensures Normal(p, o, s, depth, ReadInteger(major, info, s[1..]))
  {
    ArgumentIsShortest(info, s[1..]);
  }

  lemma TextIsNormal(p: Platform, o: Options, s: seq<byte>, depth: nat, info: nat)
    requires Strict(p) && s != [] && depth <= o.maxDepth
    ensures Normal(p, o, s, depth, ReadText(p, o, info, s[1..]))
  {
    BytesAreNormal(p, info, s[1..], o.maxByteLength);
  }

  lemma SimpleIsNormal(p: Platform, o: Options, s: seq<byte>, depth: nat, info: nat)
    requires s != [] && depth <= o.maxDepth
    ensures Normal(p, o, s, depth, ReadSimple(p, info, s[1..]))
  {
    assert forall n | SafeInteger(n) :: |Encoding(p, Integer(n))| <= 9;
  }

  lemma ScalarIsNormal(p: Platform, o: Options, s: seq<byte>, depth: nat, major: nat, info: nat)
    requires Strict(p) && s != [] && depth <= o.maxDepth
    ensures Normal(p, o, s, depth, ReadScalar(p, o, major, info, s[1..]))
  {
    if major <= 1 {
      IntegerIsNormal(p, o, s, depth, major, info);
    } else if major == 2 {
      BytesAreNormal(p, info, s[1..], o.maxByteLength);
    } else if major == 3 {
      TextIsNormal(p, o, s, depth, info);
    } else if major == 7 {
      SimpleIsNormal(p, o, s, depth, info);
    }
  }

  lemma {:induction false} ItemIsNormal(p: Platform, o: Options, s: seq<byte>, depth: nat)
    requires Strict(p)
    ensures Normal(p, o, s, depth, Item(p, o, s, depth))
    decreases |s|, 0
  {
    if depth <= o.maxDepth && s != [] {
      BodyIsNormal(p, o, s, depth, s[0] / 32, s[0] % 32);
    }
  }

  lemma BodyIsNormal(p: Platform, o: Options, s: seq<byte>, depth: nat, major: nat, info: nat)
    requires Strict(p) && s != [] && depth <= o.maxDepth
    ensures Normal(p, o, s, depth, ReadBody(p, o, major, info, s[1..], depth))
    decreases |s| - 1, 2
  {
    if major == 4 || major == 5 {
      ArgumentIsShortest(info, s[1..]);
      var length := ReadLength(info, s[1..], o.maxContainerLength);
      if length.Some? && major == 4 {
        ItemsAreNormal(p, o, length.value.rest, length.value.value, depth + 1);
      } else if length.Some? {
        EntriesAreNormal(p, o, length.value.rest, length.value.value, depth + 1, {});
      }
    } else {
      ScalarIsNormal(p, o, s, depth, major, info);
    }
  }

  lemma {:induction false} ItemsAreNormal(p: Platform, o: Options, s: seq<byte>, n: nat, depth: nat)
    requires Strict(p)
    ensures var r := Items(p, o, s, n, depth);
      r.Some? ==>
        && AllEncodable(p, o, r.value.value, depth) && StripAll(r.value.value) == r.value.value
        && |AllEncodings(p, r.value.value)| + |r.value.rest| <= |s|
    decreases |s|, 1, n
  {
    if n > 0 {
      ItemIsNormal(p, o, s, depth);
      var first := Item(p, o, s, depth);
      if first.Some? {
        ItemsAreNormal(p, o, first.value.rest, n - 1, depth);
      }
    }
  }

  ghost predicate NormalEntries(p: Platform, o: Options, s: seq<byte>, n: nat, depth: nat, keys: set<string>,
                                r: Option<Got<seq<Entry>>>)
  {
    r.Some? ==>
      && EntriesEncodable(p, o, r.value.value, depth) && StripEntries(r.value.value) == r.value.value
      && |Defined(r.value.value)| == n
      && DistinctKeys(r.value.value) && (forall e | e in r.value.value :: e.key !in keys)
      && |EntryEncodings(p, r.value.value)| + |r.value.rest| <= |s|
  }

  lemma NormalFirst(p: Platform, o: Options, s: seq<byte>, n: nat, depth: nat, keys: set<string>,
                    key: string, t: seq<byte>, value: Got<Value>, others: Got<seq<Entry>>)
    requires n > 0 && key !in keys
    requires Normal(p, o, s, depth, Some(Got(Text(key), t))) && Normal(p, o, t, depth, Some(value))
    requires NormalEntries(p, o, value.rest, n - 1, depth, keys + {key}, Some(others))
    ensures NormalEntries(p, o, s, n, depth, keys, Some(Got([Entry(key, value.value)] + others.value, others.rest)))
  {
    var entries := [Entry(key, value.value)] + others.value;
    assert entries[1..] == others.value;
    DefinedStep(entries);
    assert forall e | e in others.value :: e.key != key;
    assert |EntryEncodings(p, entries)|
      == |TextEncoding(p, key)| + |Encoding(p, value.value)| + |EntryEncodings(p, others.value)|;
  }

  lemma {:induction false} EntriesAreNormal(p: Platform, o: Options, s: seq<byte>, n: nat, depth: nat,
                                            keys: set<string>)
    requires Strict(p)
    ensures NormalEntries(p, o, s, n, depth, keys, Entries(p, o, s, n, depth, keys))
    decreases |s|, 1, n
  {
    if n > 0 {
      ItemIsNormal(p, o, s, depth);
      var key := Item(p, o, s, depth);
      if key.Some? && key.value.value.Text? && key.value.value.text !in keys {
        ItemIsNormal(p, o, key.value.rest, depth);
        var value := Item(p, o, key.value.rest, depth);
        if value.Some? {
          EntriesAreNormal(p, o, value.value.rest, n - 1, depth, keys + {key.value.value.text});
          var others := Entries(p, o, value.value.rest, n - 1, depth, keys + {key.value.value.text});
          if others.Some? {
            NormalFirst(p, o, s, n, depth, keys, key.value.value.text, key.value.rest, value.value, others.value);
          }
        }
      }
    }
  }

  /** Decoding normalizes: what was decoded encodes in no more bytes, and decodes again to the same value. */
  lemma DecodedValuesComeBack(p: Platform, o: Options, s: seq<byte>)
    requires Strict(p) && o.Resolved() && Decode(p, o, s).Some?
    ensures var v := Decode(p, o, s).value;
      Encodable(p, o, v, 0) && |Encoding(p, v)| <= |s| && Decode(p, o, Encoding(p, v)) == Some(v)
  {
    ItemIsNormal(p, o, s, 0);
    EncodedValuesComeBack(p, o, Decode(p, o, s).value);
  }
}
