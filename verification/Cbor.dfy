/** The strict, definite-length CBOR subset of the wire format (RFC 8949): what values are encodable, as which bytes,
    and what bytes decode to. */
module Cbor {
  import opened Basics
  import opened FramingSpec

  const MAX_SAFE_INTEGER := 0x1f_ffff_ffff_ffff
  const MAX_CONFIGURED_DEPTH := 512
  const DEFAULT_MAX_CBOR_CONTAINER_LENGTH := 1_000_000
  const DEFAULT_MAX_CBOR_DEPTH := 64

  datatype Options = Options(maxByteLength: nat, maxContainerLength: nat, maxDepth: nat) {
    predicate Resolved() {
      maxByteLength <= MAX_UINT32 && maxContainerLength <= MAX_UINT32 && maxDepth <= MAX_CONFIGURED_DEPTH
    }
  }

  /** The number that eight bytes hold as a 64-bit float: an integer other than negative zero, or another finite
      number. */
  datatype Number = Whole(n: int) | Finite | NotFinite

  /** What the platform does: UTF-8 with replacement of what is not a scalar value, its strict inverse, and floats. */
  datatype Platform = Platform(utf8: string -> seq<byte>, text: seq<byte> -> Option<string>,
                               number: seq<byte> -> Number)

  /** A value, as a tree. A number is an integer, or a float that holds none, given by its bytes. */
  datatype Value =
    | Null
    | Bool(b: bool)
    | Integer(n: int)
    | Float(bits: seq<byte>)
    | Text(text: string)
    | Bytes(bytes: seq<byte>)
    | List(items: seq<Value>)
    | Map(entries: seq<Entry>)
    | Undefined
    | Unsupported

  datatype Entry = Entry(key: string, value: Value)

  predicate SafeInteger(n: int) {
    -MAX_SAFE_INTEGER <= n <= MAX_SAFE_INTEGER
  }

  // ---- Encoding ----

  /** The entries that are written: those with a value. */
  function Defined(entries: seq<Entry>): (r: seq<Entry>)
    ensures |r| <= |entries|
  {
    if entries == [] then []
    else (if entries[0].value.Undefined? then [] else [entries[0]]) + Defined(entries[1..])
  }

  predicate DistinctKeys(entries: seq<Entry>) {
    forall i, j | 0 <= i < j < |entries| :: entries[i].key != entries[j].key
  }

  predicate GoodText(p: Platform, text: string) {
    p.text(p.utf8(text)) == Some(text)
  }

  predicate GoodFloat(p: Platform, bits: seq<byte>) {
    |bits| == 8 && p.number(bits).Finite?
  }

  /** What the encoder accepts at a nesting depth, whatever the length of the result. The keys of an object are
      distinct. */
  predicate Encodable(p: Platform, o: Options, v: Value, depth: nat)
    decreases v
  {
    depth <= o.maxDepth &&
    match v
    case Null => true
    case Bool(_) => true
    case Integer(n) => SafeInteger(n)
    case Float(bits) => GoodFloat(p, bits)
    case Text(text) => GoodText(p, text)
    case Bytes(_) => true
    case List(items) => |items| <= o.maxContainerLength && AllEncodable(p, o, items, depth + 1)
    case Map(entries) =>
      DistinctKeys(entries) && |Defined(entries)| <= o.maxContainerLength && EntriesEncodable(p, o, entries, depth + 1)
    case Undefined => false
    case Unsupported => false
  }

  predicate AllEncodable(p: Platform, o: Options, items: seq<Value>, depth: nat)
    decreases items
  {
    items == [] || (Encodable(p, o, items[0], depth) && AllEncodable(p, o, items[1..], depth))
  }

  predicate EntriesEncodable(p: Platform, o: Options, entries: seq<Entry>, depth: nat)
    decreases entries
  {
    entries == [] ||
    ((entries[0].value.Undefined? || (GoodText(p, entries[0].key) && Encodable(p, o, entries[0].value, depth)))
     && EntriesEncodable(p, o, entries[1..], depth))
  }

  /** The last bytes of a number in base 256, most significant first. */
  function Digits(value: nat, n: nat): (r: seq<byte>)
    ensures |r| == n
  {
    if n == 0 then [] else Digits(value / 0x100, n - 1) + [value % 0x100]
  }

  /** How the first byte and the bytes after it carry an argument: in the fewest bytes. */
  function Info(value: nat): nat {
    if value < 24 then value else if value <= 0xff then 24 else if value <= 0xffff then 25
      else if value <= MAX_UINT32 then 26 else 27
  }

  function Width(value: nat): nat {
    if value < 24 then 0 else if value <= 0xff then 1 else if value <= 0xffff then 2 else if value <= MAX_UINT32 then 4
      else 8
  }

  function Tail(value: nat): seq<byte> {
    Digits(value, Width(value))
  }

  function Power(n: nat): nat {
    if n == 0 then 1 else 0x100 * Power(n - 1)
  }

  /** The bytes of a number are those of its upper and of its lower part. */
  lemma {:induction false} DigitsSplit(high: nat, low: nat, m: nat, n: nat)
    requires low < Power(n)
    ensures Digits(high * Power(n) + low, m + n) == Digits(high, m) + Digits(low, n)
    decreases n
  {
    if n == 0 {
      assert Digits(low, 0) == [];
    } else {
      var value := high * Power(n) + low;
      assert value == 0x100 * (high * Power(n - 1)) + low;
      assert value / 0x100 == high * Power(n - 1) + low / 0x100 && value % 0x100 == low % 0x100;
      DigitsSplit(high, low / 0x100, m, n - 1);
    }
  }

  /** The head of an item: its major type and its argument. */
  function Argument(major: nat, value: nat): (r: seq<byte>)
    requires major < 8
    ensures r != []
  {
    [32 * major + Info(value)] + Tail(value)
  }

  /** The bytes of an encodable value. */
  function Encoding(p: Platform, v: Value): (r: seq<byte>)
    decreases v
  {
    match v
    case Null => [0xf6]
    case Bool(b) => [if b then 0xf5 else 0xf4]
    case Integer(n) => if n >= 0 then Argument(0, n) else Argument(1, -1 - n)
    case Float(bits) => [0xfb] + bits
    case Text(text) => TextEncoding(p, text)
    case Bytes(bytes) => Argument(2, |bytes|) + bytes
    case List(items) => Argument(4, |items|) + AllEncodings(p, items)
    case Map(entries) => Argument(5, |Defined(entries)|) + EntryEncodings(p, entries)
    case Undefined => []
    case Unsupported => []
  }

  function TextEncoding(p: Platform, text: string): seq<byte> {
    Argument(3, |p.utf8(text)|) + p.utf8(text)
  }

  function AllEncodings(p: Platform, items: seq<Value>): seq<byte>
    decreases items
  {
    if items == [] then [] else Encoding(p, items[0]) + AllEncodings(p, items[1..])
  }

  function EntryEncodings(p: Platform, entries: seq<Entry>): seq<byte>
    decreases entries
  {
    if entries == [] then []
    else if entries[0].value.Undefined? then EntryEncodings(p, entries[1..])
    else TextEncoding(p, entries[0].key) + Encoding(p, entries[0].value) + EntryEncodings(p, entries[1..])
  }

  /** A value without its undefined properties. */
  function Strip(v: Value): Value
    decreases v
  {
    match v
    case List(items) => List(StripAll(items))
    case Map(entries) => Map(StripEntries(entries))
    case _ => v
  }

  function StripAll(items: seq<Value>): (r: seq<Value>)
    ensures |r| == |items|
    decreases items
  {
    if items == [] then [] else [Strip(items[0])] + StripAll(items[1..])
  }

  function StripEntries(entries: seq<Entry>): (r: seq<Entry>)
    decreases entries
  {
    if entries == [] then []
    else if entries[0].value.Undefined? then StripEntries(entries[1..])
    else [Entry(entries[0].key, Strip(entries[0].value))] + StripEntries(entries[1..])
  }

  // ---- Decoding ----

  /** What was read from the front of the bytes, and the bytes after it. */
  datatype Got<+T> = Got(value: T, rest: seq<byte>)

  function Take(s: seq<byte>, n: nat): (r: Option<Got<seq<byte>>>)
    ensures r.Some? <==> n <= |s|
    ensures r.Some? ==> r.value.value + r.value.rest == s && |r.value.value| == n
  {
    if n > |s| then None else Some(Got(s[..n], s[n..]))
  }

  /** A number of `n` bytes. */
  function Word(s: seq<byte>, n: nat): (r: Option<Got<nat>>)
    ensures r.Some? ==> |r.value.rest| <= |s|
  {
    if |s| < n then None else Some(Got(BigEndian(s[..n]), s[n..]))
  }

  function ReadArgument(info: nat, s: seq<byte>): (r: Option<Got<nat>>)
    ensures r.Some? ==> |r.value.rest| <= |s|
  {
    if info < 24 then Some(Got(info, s))
    else if info == 24 then Word(s, 1)
    else if info == 25 then Word(s, 2)
    else if info == 26 then Word(s, 4)
    else if info == 27 then
      var high := Word(s, 4);
      var low := if high.Some? then Word(high.value.rest, 4) else None;
      if low.None? || high.value.value > 0x1f_ffff then None
      else Some(Got(high.value.value * 0x1_0000_0000 + low.value.value, low.value.rest))
    else None
  }

  function ReadLength(info: nat, s: seq<byte>, limit: nat): (r: Option<Got<nat>>)
    ensures r.Some? ==> |r.value.rest| <= |s| && r.value.value <= limit && r == ReadArgument(info, s)
  {
    var length := ReadArgument(info, s);
    if length.Some? && length.value.value <= limit then length else None
  }

  function ReadBytes(info: nat, s: seq<byte>, limit: nat): (r: Option<Got<seq<byte>>>)
    ensures r.Some? ==> |r.value.rest| <= |s|
  {
    var length := ReadLength(info, s, limit);
    if length.None? then None else Take(length.value.rest, length.value.value)
  }

  function ReadInteger(major: nat, info: nat, s: seq<byte>): (r: Option<Got<Value>>)
    ensures r.Some? ==> |r.value.rest| <= |s|
  {
    var argument := ReadArgument(info, s);
    if argument.None? then None
    else
      var n := if major == 0 then argument.value.value else -1 - argument.value.value;
      if SafeInteger(n) then Some(Got(Integer(n), argument.value.rest)) else None
  }

  function ReadText(p: Platform, o: Options, info: nat, s: seq<byte>): (r: Option<Got<Value>>)
    ensures r.Some? ==> |r.value.rest| <= |s|
  {
    var bytes := ReadBytes(info, s, o.maxByteLength);
    if bytes.None? || p.text(bytes.value.value).None? then None
    else Some(Got(Text(p.text(bytes.value.value).value), bytes.value.rest))
  }

  function ReadSimple(p: Platform, info: nat, s: seq<byte>): (r: Option<Got<Value>>)
    ensures r.Some? ==> |r.value.rest| <= |s|
  {
    if info == 20 || info == 21 then Some(Got(Bool(info == 21), s))
    else if info == 22 then Some(Got(Null, s))
    else if info == 27 && |s| >= 8 then
      match p.number(s[..8])
      case Whole(n) => if SafeInteger(n) then Some(Got(Integer(n), s[8..])) else None
      case Finite => Some(Got(Float(s[..8]), s[8..]))
      case NotFinite => None
    else None
  }

  function ReadScalar(p: Platform, o: Options, major: nat, info: nat, s: seq<byte>): (r: Option<Got<Value>>)
    ensures r.Some? ==> |r.value.rest| <= |s|
  {
    if major <= 1 then ReadInteger(major, info, s)
    else if major == 2 then
      var bytes := ReadBytes(info, s, o.maxByteLength);
      if bytes.None? then None else Some(Got(Bytes(bytes.value.value), bytes.value.rest))
    else if major == 3 then ReadText(p, o, info, s)
    else if major == 7 then ReadSimple(p, info, s)
    else None
  }

  /** One item from the front of the bytes, if it is well formed and within the limits. */
  function Item(p: Platform, o: Options, s: seq<byte>, depth: nat): (r: Option<Got<Value>>)
    ensures r.Some? ==> |r.value.rest| < |s|
    decreases |s|, 0
  {
    if depth > o.maxDepth || s == [] then None else ReadBody(p, o, s[0] / 32, s[0] % 32, s[1..], depth)
  }

  function ReadBody(p: Platform, o: Options, major: nat, info: nat, s: seq<byte>, depth: nat): (r: Option<Got<Value>>)
    ensures r.Some? ==> |r.value.rest| <= |s|
    decreases |s|, 2
  {
    if major == 4 then
      var length := ReadLength(info, s, o.maxContainerLength);
      if length.None? then None
      else
        var items := Items(p, o, length.value.rest, length.value.value, depth + 1);
        if items.None? then None else Some(Got(List(items.value.value), items.value.rest))
    else if major == 5 then
      var length := ReadLength(info, s, o.maxContainerLength);
      if length.None? then None
      else
        var entries := Entries(p, o, length.value.rest, length.value.value, depth + 1, {});
        if entries.None? then None else Some(Got(Map(entries.value.value), entries.value.rest))
    else ReadScalar(p, o, major, info, s)
  }

  function Items(p: Platform, o: Options, s: seq<byte>, n: nat, depth: nat): (r: Option<Got<seq<Value>>>)
    ensures r.Some? ==> |r.value.rest| <= |s| && |r.value.value| == n
    decreases |s|, 1, n
  {
    if n == 0 then Some(Got([], s))
    else
      var first := Item(p, o, s, depth);
      if first.None? then None
      else
        var others := Items(p, o, first.value.rest, n - 1, depth);
        if others.None? then None else Some(Got([first.value.value] + others.value.value, others.value.rest))
  }

  function Entries(p: Platform, o: Options, s: seq<byte>, n: nat, depth: nat,
                   keys: set<string>): (r: Option<Got<seq<Entry>>>)
    ensures r.Some? ==> |r.value.rest| <= |s| && |r.value.value| == n
    decreases |s|, 1, n
  {
    if n == 0 then Some(Got([], s))
    else
      var key := Item(p, o, s, depth);
      if key.None? || !key.value.value.Text? || key.value.value.text in keys then None
      else
        var value := Item(p, o, key.value.rest, depth);
        if value.None? then None
        else
          var others := Entries(p, o, value.value.rest, n - 1, depth, keys + {key.value.value.text});
          if others.None? then None
          else Some(Got([Entry(key.value.value.text, value.value.value)] + others.value.value, others.value.rest))
  }

  /** Exactly one item, and nothing after it. */
  function Decode(p: Platform, o: Options, s: seq<byte>): Option<Value> {
    if |s| > o.maxByteLength then None
    else
      var item := Item(p, o, s, 0);
      if item.None? || item.value.rest != [] then None else Some(item.value.value)
  }
}
