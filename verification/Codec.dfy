/**
 * The TradeOrder and ActiveOrders messages: parse, print, size and merge
 * (proto/generated/trade_market_protocol.pb.cc).
 */
module Codec {
  import opened Orders
  import opened Utf8
  import opened Wire

  /** kind is the open enum `type`; usdCost is the raw word of the double. */
  datatype Fields = Fields(
    kind: int32, usdCost: word, usdAmount: int32, timestamp: int64, orderId: int64, usdVolume: int32,
    username: seq<byte>)

  const EMPTY := Fields(0, 0, 0, 0, 0, 0, [])

  /** Unmodelled: the input has an unknown field, which the runtime would keep aside. */
  datatype Outcome<T> = Parsed(value: T) | Failed | Unmodelled

  // ---------- Printing ----------

  function IntField(tag: byte, v: int64): seq<byte> {
    if v == 0 then [] else [tag] + Varint(ToWord(v))
  }

  function WordField(tag: byte, w: word): seq<byte> {
    if w == 0 then [] else [tag] + Fixed(w, 8)
  }

  function BytesField(tag: byte, data: seq<byte>): seq<byte> {
    if data == [] then [] else [tag] + Delimited(data)
  }

  /** The fields in number order, those with their default value omitted. */
  function Encode(o: Fields): seq<byte> {
    IntField(8, o.kind) + (WordField(17, o.usdCost) + (IntField(24, o.usdAmount) + (IntField(32, o.timestamp)
    + (IntField(40, o.orderId) + (IntField(48, o.usdVolume) + BytesField(58, o.username))))))
  }

  /** Field by field: the key holds the number and the wire type (0 varint, 1 eight bytes, 2 delimited). */
  lemma FieldsAreNumbered(o: Fields)
    ensures Encode(o)
         == Field(o.kind != 0, 8 * 1 + 0, Varint(ToWord(o.kind)))
          + Field(o.usdCost != 0, 8 * 2 + 1, Fixed(o.usdCost, 8))
          + Field(o.usdAmount != 0, 8 * 3 + 0, Varint(ToWord(o.usdAmount)))
          + Field(o.timestamp != 0, 8 * 4 + 0, Varint(ToWord(o.timestamp)))
          + Field(o.orderId != 0, 8 * 5 + 0, Varint(ToWord(o.orderId)))
          + Field(o.usdVolume != 0, 8 * 6 + 0, Varint(ToWord(o.usdVolume)))
          + Field(o.username != [], 8 * 7 + 2, Delimited(o.username))
  {
    OneByteKeys();
    var a, b, c := IntField(8, o.kind), WordField(17, o.usdCost), IntField(24, o.usdAmount);
    var d, e, f := IntField(32, o.timestamp), IntField(40, o.orderId), IntField(48, o.usdVolume);
    var g := BytesField(58, o.username);
    hide Varint, Fixed, ToWord, Delimited;
    assert a == Field(o.kind != 0, 8, Varint(ToWord(o.kind))) && b == Field(o.usdCost != 0, 17, Fixed(o.usdCost, 8));
    assert c == Field(o.usdAmount != 0, 24, Varint(ToWord(o.usdAmount)));
    assert d == Field(o.timestamp != 0, 32, Varint(ToWord(o.timestamp)));
    assert e == Field(o.orderId != 0, 40, Varint(ToWord(o.orderId)));
    assert f == Field(o.usdVolume != 0, 48, Varint(ToWord(o.usdVolume)));
    assert g == Field(o.username != [], 58, Delimited(o.username));
    hide *;
    Flatten([], a, b, c, d, e, f, g);
    assert [] + a == a;
  }

  /** A field as the wire format has it: its key, a varint, and its value; nothing when it is not printed. */
  function Field(printed: bool, key: nat, value: seq<byte>): seq<byte> {
    if printed then Varint(key) + value else []
  }

  lemma OneByteKeys()
    ensures forall key: byte | key < 128 :: Varint(key) == [key]
  {
  }

  // ---------- Merging ----------

  function Merge(to: Fields, from: Fields): Fields {
    Fields(
      if from.kind != 0 then from.kind else to.kind,
      if from.usdCost != 0 then from.usdCost else to.usdCost,
      if from.usdAmount != 0 then from.usdAmount else to.usdAmount,
      if from.timestamp != 0 then from.timestamp else to.timestamp,
      if from.orderId != 0 then from.orderId else to.orderId,
      if from.usdVolume != 0 then from.usdVolume else to.usdVolume,
      if from.username != [] then from.username else to.username)
  }

  // ---------- Parsing ----------

  /** One field: its tag, then its value, stored over what the message has. */
  ghost function ParseField(o: Fields, s: seq<byte>): (r: Outcome<(Fields, seq<byte>)>)
    ensures r.Parsed? ==> |r.value.1| < |s|
  {
    match ReadTag(s)
    case Bad => Failed
    case Got(tag, rest) =>
      if tag == 8 || tag == 24 || tag == 32 || tag == 40 || tag == 48 then
        match ReadVarint(rest, MAX_VARINT)
        case Bad => Failed
        case Got(n, rest) => Parsed((WithInt(o, tag, n), rest))
      else if tag == 17 then
        match ReadFixed64(rest)
        case Bad => Failed
        case Got(w, rest) => Parsed((o.(usdCost := w), rest))
      else if tag == 58 then
        match ReadDelimited(rest)
        case Bad => Failed
        case Got(data, rest) => if IsText(data) then Parsed((o.(username := data), rest)) else Failed
      else if tag == 0 || tag % 8 == 4 then Failed
      else Unmodelled
  }

  function WithInt(o: Fields, tag: nat, n: nat): Fields {
    if tag == 8 then o.(kind := ToInt32(n))
    else if tag == 24 then o.(usdAmount := ToInt32(n))
    else if tag == 32 then o.(timestamp := ToInt64(n))
    else if tag == 40 then o.(orderId := ToInt64(n))
    else o.(usdVolume := ToInt32(n))
  }

  /** Field after field, later values over earlier ones, until the input ends. */
  ghost function Parse(o: Fields, s: seq<byte>): Outcome<Fields>
    decreases |s|
  {
    if s == [] then Parsed(o)
    else
      match ParseField(o, s)
      case Failed => Failed
      case Unmodelled => Unmodelled
      case Parsed((o', rest)) => Parse(o', rest)
  }

  // ---------- Parsing is sequential ----------

  lemma FieldParsesAhead(o: Fields, s: seq<byte>, more: seq<byte>)
    requires ParseField(o, s).Parsed?
    ensures ParseField(o, s + more) == Parsed((ParseField(o, s).value.0, ParseField(o, s).value.1 + more))
  {
    hide ReadVarint, ReadFixed64, ReadDelimited, ReadTag, IsText;
    TagReadsAhead(s, more);
    var tag, rest := ReadTag(s).value, ReadTag(s).rest;
    if tag == 17 {
      Fixed64ReadsAhead(rest, more);
    } else if tag == 58 {
      DelimitedReadsAhead(rest, more);
    } else {
      VarintReadsAhead(rest, more, MAX_VARINT);
    }
  }

  /** Parsing a concatenation is parsing the second part over what the first gave, for any bytes that parse. */
  lemma {:induction false} ParseIsSequential(o: Fields, s: seq<byte>, more: seq<byte>)
    requires Parse(o, s).Parsed?
    ensures Parse(o, s + more) == Parse(Parse(o, s).value, more)
    decreases |s|
  {
    if s == [] {
      assert s + more == more;
    } else {
      FieldParsesAhead(o, s, more);
      var (o', rest) := ParseField(o, s).value;
      ParseIsSequential(o', rest, more);
    }
  }

  // ---------- What is printed parses back ----------

  lemma IntFieldParses(o: Fields, tag: byte, v: int64)
    requires tag == 8 || tag == 24 || tag == 32 || tag == 40 || tag == 48
    ensures Parse(o, IntField(tag, v)) == Parsed(if v == 0 then o else WithInt(o, tag, ToWord(v)))
  {
    if v != 0 {
      TagReadsBack(tag, Varint(ToWord(v)));
      VarintHasItsSize(ToWord(v));
      assert Varint(ToWord(v)) + [] == Varint(ToWord(v));
      VarintReadsBack(ToWord(v), [], MAX_VARINT);
      hide Varint, ReadVarint, ReadTag, ToWord, WithInt;
      assert Parse(WithInt(o, tag, ToWord(v)), []) == Parsed(WithInt(o, tag, ToWord(v)));
    }
  }

  lemma WordFieldParses(o: Fields, w: word)
    ensures Parse(o, WordField(17, w)) == Parsed(if w == 0 then o else o.(usdCost := w))
  {
    if w != 0 {
      TagReadsBack(17, Fixed(w, 8));
      assert Fixed(w, 8) + [] == Fixed(w, 8);
      Fixed64ReadsBack(w, []);
      hide Fixed, ReadFixed64, ReadTag;
      assert Parse(o.(usdCost := w), []) == Parsed(o.(usdCost := w));
    }
  }

  lemma BytesFieldParses(o: Fields, data: seq<byte>)
    requires IsText(data) && |data| <= MAX_LENGTH
    ensures Parse(o, BytesField(58, data)) == Parsed(if data == [] then o else o.(username := data))
  {
    if data != [] {
      TagReadsBack(58, Delimited(data));
      assert Delimited(data) + [] == Delimited(data);
      DelimitedReadsBack(data, []);
      hide Delimited, ReadDelimited, ReadTag, IsText;
      assert Parse(o.(username := data), []) == Parsed(o.(username := data));
    }
  }

  lemma BytesFieldFails(o: Fields, data: seq<byte>)
    requires !IsText(data) || |data| > MAX_LENGTH
    ensures Parse(o, BytesField(58, data)) == Failed
  {
    TagReadsBack(58, Delimited(data));
    if |data| > MAX_LENGTH {
      LongDelimitedIsBad(data);
    } else {
      assert Delimited(data) + [] == Delimited(data);
      DelimitedReadsBack(data, []);
    }
    EmptyIsText();
    assert data != [];
    hide Delimited, ReadDelimited, ReadTag, IsText;
  }

  /** The username is the UTF-8 encoding of some text, and short enough for the format. */
  ghost predicate Encodable(o: Fields) {
    IsText(o.username) && |o.username| <= MAX_LENGTH
  }

  /** A field's bytes in front, and how the rest goes on from the message they leave. */
  lemma Step(o: Fields, first: seq<byte>, o': Fields, rest: seq<byte>)
    requires Parse(o, first) == Parsed(o')
    ensures Parse(o, first + rest) == Parse(o', rest)
  {
    ParseIsSequential(o, first, rest);
  }

  /** Everything but the username parses back; what becomes of the whole is up to the username. */
  lemma EncodedParsesToUsername(acc: Fields, o: Fields)
    ensures Parse(acc, Encode(o)) == Parse(Merge(acc, o.(username := [])), BytesField(58, o.username))
  {
    var o1 := acc.(kind := if o.kind == 0 then acc.kind else o.kind);
    var o2 := o1.(usdCost := if o.usdCost == 0 then o1.usdCost else o.usdCost);
    var o3 := o2.(usdAmount := if o.usdAmount == 0 then o2.usdAmount else o.usdAmount);
    var o4 := o3.(timestamp := if o.timestamp == 0 then o3.timestamp else o.timestamp);
    var o5 := o4.(orderId := if o.orderId == 0 then o4.orderId else o.orderId);
    var o6 := o5.(usdVolume := if o.usdVolume == 0 then o5.usdVolume else o.usdVolume);
    SignedReadsBack(o.kind);
    SignedReadsBack(o.usdAmount);
    SignedReadsBack(o.timestamp);
    SignedReadsBack(o.orderId);
    SignedReadsBack(o.usdVolume);
    IntFieldParses(acc, 8, o.kind);
    WordFieldParses(o1, o.usdCost);
    IntFieldParses(o2, 24, o.usdAmount);
    IntFieldParses(o3, 32, o.timestamp);
    IntFieldParses(o4, 40, o.orderId);
    IntFieldParses(o5, 48, o.usdVolume);
    hide Parse, IntField, WordField, BytesField, ToInt32, ToInt64, ToWord, IsText;
    var f7 := BytesField(58, o.username);
    var f6 := IntField(48, o.usdVolume) + f7;
    var f5 := IntField(40, o.orderId) + f6;
    var f4 := IntField(32, o.timestamp) + f5;
    var f3 := IntField(24, o.usdAmount) + f4;
    var f2 := WordField(17, o.usdCost) + f3;
    Step(acc, IntField(8, o.kind), o1, f2);
    Step(o1, WordField(17, o.usdCost), o2, f3);
    Step(o2, IntField(24, o.usdAmount), o3, f4);
    Step(o3, IntField(32, o.timestamp), o4, f5);
    Step(o4, IntField(40, o.orderId), o5, f6);
    Step(o5, IntField(48, o.usdVolume), o6, f7);
  }

  /** Printed fields, parsed over any message, merge into it. */
  lemma EncodedParsesAsMerge(acc: Fields, o: Fields)
    requires Encodable(o)
    ensures Parse(acc, Encode(o)) == Parsed(Merge(acc, o))
  {
    EncodedParsesToUsername(acc, o);
    BytesFieldParses(Merge(acc, o.(username := [])), o.username);
  }

  lemma RoundTrip(o: Fields)
    requires Encodable(o)
    ensures Parse(EMPTY, Encode(o)) == Parsed(o)
  {
    EncodedParsesAsMerge(EMPTY, o);
  }

  /**
   * Round trip: every order whose username is the UTF-8 encoding of some sequence of Unicode scalar values, short
   * enough for the format, parses back to itself; any other is printed all the same, and then does not parse at all.
   */
  lemma RoundTripIff(o: Fields)
    ensures Parse(EMPTY, Encode(o)) == Parsed(o)
            <==> |o.username| <= MAX_LENGTH && exists text: seq<scalar> :: EncodeText(text) == o.username
    ensures Parse(EMPTY, Encode(o)) == Parsed(o) || Parse(EMPTY, Encode(o)) == Failed
  {
    hide Parse, Encode, Merge, BytesField;
    if Encodable(o) {
      RoundTrip(o);
      assert |o.username| <= MAX_LENGTH && exists text: seq<scalar> :: EncodeText(text) == o.username;
    } else {
      EncodedParsesToUsername(EMPTY, o);
      BytesFieldFails(Merge(EMPTY, o.(username := [])), o.username);
      assert !(|o.username| <= MAX_LENGTH && exists text: seq<scalar> :: EncodeText(text) == o.username);
    }
  }

  /** Concatenating two printed orders is merging them. */
  lemma ConcatenationIsMerge(a: Fields, b: Fields)
    requires Encodable(a) && Encodable(b)
    ensures Parse(EMPTY, Encode(a) + Encode(b)) == Parsed(Merge(a, b))
  {
    RoundTrip(a);
    ParseIsSequential(EMPTY, Encode(a), Encode(b));
    EncodedParsesAsMerge(a, b);
  }

  // ---------- Last one wins ----------

  /** The tags of the fields an input sets. */
  ghost function Mentions(s: seq<byte>): set<nat>
    decreases |s|
  {
    if s == [] || ReadTag(s).Bad? || !ParseField(EMPTY, s).Parsed? then {}
    else {ReadTag(s).value} + Mentions(ParseField(EMPTY, s).value.1)
  }

  /** The mentioned fields of v over those of o. */
  function Overlay(o: Fields, v: Fields, tags: set<nat>): Fields {
    Fields(
      if 8 in tags then v.kind else o.kind,
      if 17 in tags then v.usdCost else o.usdCost,
      if 24 in tags then v.usdAmount else o.usdAmount,
      if 32 in tags then v.timestamp else o.timestamp,
      if 40 in tags then v.orderId else o.orderId,
      if 48 in tags then v.usdVolume else o.usdVolume,
      if 58 in tags then v.username else o.username)
  }

  lemma FieldOverlays(o: Fields, s: seq<byte>)
    requires ParseField(o, s).Parsed?
    ensures ReadTag(s).Got? && ParseField(EMPTY, s).Parsed? && ParseField(EMPTY, s).value.1 == ParseField(o, s).value.1
    ensures ParseField(o, s).value.0 == Overlay(o, ParseField(EMPTY, s).value.0, {ReadTag(s).value})
  {
    hide ReadVarint, ReadFixed64, ReadDelimited, ReadTag, IsText, ToInt32, ToInt64;
  }

  lemma OverlayTwice(o: Fields, v: Fields, w: Fields, tag: nat, tags: set<nat>)
    ensures Overlay(Overlay(o, v, {tag}), w, tags) == Overlay(o, Overlay(Overlay(EMPTY, v, {tag}), w, tags), {tag} + tags)
  {
  }

  /** Whether an input parses does not depend on the message it is parsed into. */
  lemma {:induction false} SuccessIsTheInputs(o: Fields, p: Fields, s: seq<byte>)
    requires Parse(o, s).Parsed?
    ensures Parse(p, s).Parsed?
    decreases |s|
  {
    hide Overlay, ReadTag;
    if s != [] {
      FieldOverlays(o, s);
      assert ParseField(p, s).Parsed? && ParseField(p, s).value.1 == ParseField(o, s).value.1;
      hide ParseField;
      SuccessIsTheInputs(ParseField(o, s).value.0, ParseField(p, s).value.0, ParseField(o, s).value.1);
    }
  }

  lemma OverlayNothing(o: Fields, v: Fields)
    ensures Overlay(o, v, {}) == o
  {
  }

  /** What an input does to a message: the fields it mentions get the last value it gives them, the others stay. */
  lemma {:induction false} LastOneWins(o: Fields, s: seq<byte>)
    requires Parse(o, s).Parsed?
    ensures Parse(EMPTY, s).Parsed?
    ensures Parse(o, s).value == Overlay(o, Parse(EMPTY, s).value, Mentions(s))
    decreases |s|
  {
    hide ParseField, Overlay, ReadTag;
    if s == [] {
      OverlayNothing(o, EMPTY);
    } else {
      FieldOverlays(o, s);
      FieldOverlays(EMPTY, s);
      var (first, rest) := ParseField(EMPTY, s).value;
      LastOneWins(ParseField(o, s).value.0, rest);
      SuccessIsTheInputs(EMPTY, first, rest);
      LastOneWins(first, rest);
      OverlayTwice(o, first, Parse(EMPTY, rest).value, ReadTag(s).value, Mentions(rest));
      OverlayTwice(EMPTY, first, Parse(EMPTY, rest).value, ReadTag(s).value, Mentions(rest));
    }
  }

  /** The second input spells out a default value for a field the first message has set. */
  predicate ClearsSomething(a: Fields, b: Fields, tags: set<nat>) {
    || (8 in tags && b.kind == 0 && a.kind != 0)
    || (17 in tags && b.usdCost == 0 && a.usdCost != 0)
    || (24 in tags && b.usdAmount == 0 && a.usdAmount != 0)
    || (32 in tags && b.timestamp == 0 && a.timestamp != 0)
    || (40 in tags && b.orderId == 0 && a.orderId != 0)
    || (48 in tags && b.usdVolume == 0 && a.usdVolume != 0)
    || (58 in tags && b.username == [] && a.username != [])
  }

  /** A field an input does not mention keeps its default. */
  lemma UnmentionedIsDefault(s: seq<byte>)
    requires Parse(EMPTY, s).Parsed?
    ensures Parse(EMPTY, s).value == Overlay(EMPTY, Parse(EMPTY, s).value, Mentions(s))
  {
    LastOneWins(EMPTY, s);
  }

  /**
   * For any two inputs that parse, however they were printed, parsing the concatenation merges the two messages
   * except when the second spells out a default over a value of the first: the parser overwrites, the merge does not.
   */
  lemma ConcatenationIsMergeIff(s: seq<byte>, t: seq<byte>)
    requires Parse(EMPTY, s).Parsed? && Parse(EMPTY, t).Parsed?
    ensures var a, b := Parse(EMPTY, s).value, Parse(EMPTY, t).value;
            Parse(EMPTY, s + t) == Parsed(Merge(a, b)) <==> !ClearsSomething(a, b, Mentions(t))
  {
    ParseIsSequential(EMPTY, s, t);
    SuccessIsTheInputs(EMPTY, Parse(EMPTY, s).value, t);
    LastOneWins(Parse(EMPTY, s).value, t);
    UnmentionedIsDefault(t);
    hide Parse, Mentions;
  }

  /** usd_amount 5, then usd_amount 0 spelled out: the parser ends with 0, the merge with 5. */
  lemma SpelledOutZeroIsNotMerged()
    ensures var s, t := [24, 5], [24, 0];
            && Parse(EMPTY, s) == Parsed(EMPTY.(usdAmount := 5)) && Parse(EMPTY, t) == Parsed(EMPTY)
            && Parse(EMPTY, s + t) == Parsed(EMPTY)
            && Merge(EMPTY.(usdAmount := 5), EMPTY) == EMPTY.(usdAmount := 5)
  {
    AmountParses(EMPTY, 5);
    AmountParses(EMPTY, 0);
    AmountParses(EMPTY.(usdAmount := 5), 0);
    ParseIsSequential(EMPTY, [24, 5], [24, 0]);
  }

  lemma AmountParses(o: Fields, n: byte)
    requires n < 128
    ensures Parse(o, [24, n]) == Parsed(o.(usdAmount := n))
  {
    TagReadsBack(24, [n]);
    assert [24] + [n] == [24, n];
    assert ReadVarint([n], MAX_VARINT) == Got(n, []);
    assert Parse(o.(usdAmount := n), []) == Parsed(o.(usdAmount := n));
  }

  // ---------- The message object ----------

  /** Each field is written only if it differs from its default. */
  method PutInt(target: seq<byte>, tag: byte, v: int64) returns (target': seq<byte>)
    ensures target' == target + IntField(tag, v)
  {
    target' := target;
    if v != 0 {
      target' := target' + ([tag] + Varint(ToWord(v)));
    }
  }

  method PutWord(target: seq<byte>, tag: byte, w: word) returns (target': seq<byte>)
    ensures target' == target + WordField(tag, w)
  {
    target' := target;
    if w != 0 {
      target' := target' + ([tag] + Fixed(w, 8));
    }
  }

  method PutBytes(target: seq<byte>, tag: byte, data: seq<byte>) returns (target': seq<byte>)
    ensures target' == target + BytesField(tag, data)
  {
    target' := target;
    if data != [] {
      target' := target' + ([tag] + Delimited(data));
    }
  }

  lemma Flatten(
    t: seq<byte>, a: seq<byte>, b: seq<byte>, c: seq<byte>, d: seq<byte>, e: seq<byte>, f: seq<byte>, g: seq<byte>)
    ensures t + a + b + c + d + e + f + g == t + (a + (b + (c + (d + (e + (f + g))))))
  {
    assert e + f + g == e + (f + g);
  }

  /** The sizes are counted from the values, not from the bytes; a default counts nothing. */
  method AddIntSize(total: nat, tag: byte, v: int64) returns (total': nat)
    ensures total' == total + |IntField(tag, v)|
  {
    total' := total;
    if v != 0 {
      VarintHasItsSize(ToWord(v));
      total' := total' + 1 + VarintSize(ToWord(v));
    }
  }

  method AddWordSize(total: nat, tag: byte, w: word) returns (total': nat)
    ensures total' == total + |WordField(tag, w)|
  {
    total' := total;
    if w != 0 {
      total' := total' + 1 + 8;
    }
  }

  method AddBytesSize(total: nat, tag: byte, data: seq<byte>) returns (total': nat)
    requires |data| < WORD
    ensures total' == total + |BytesField(tag, data)|
  {
    total' := total;
    if data != [] {
      VarintHasItsSize(|data|);
      total' := total' + 1 + VarintSize(|data|) + |data|;
    }
  }

  class TradeOrder {
    var kind: int32
    var usdCost: word
    var usdAmount: int32
    var timestamp: int64
    var orderId: int64
    var usdVolume: int32
    var username: seq<byte>

    function Value(): Fields
      reads this
    {
      Fields(kind, usdCost, usdAmount, timestamp, orderId, usdVolume, username)
    }

    constructor ()
      ensures Value() == EMPTY
    {
      kind, usdCost, usdAmount, timestamp, orderId, usdVolume, username := 0, 0, 0, 0, 0, 0, [];
    }

    /** _InternalParse over a whole input; a failure leaves what was parsed before it. */
    method ParseFrom(data: seq<byte>) returns (outcome: Outcome<Fields>)
      modifies this
      ensures outcome == Parse(old(Value()), data)
      ensures outcome.Parsed? ==> outcome.value == Value()
    {
      hide ReadVarint, ReadFixed64, ReadDelimited, ReadTag, IsText, ValidUtf8, ToInt32, ToInt64;
      var rest := data;
      while rest != []
        invariant Parse(old(Value()), data) == Parse(Value(), rest)
        decreases |rest|
      {
        var tag := ReadTag(rest);
        if tag.Bad? {
          return Failed;
        }
        match tag.value / 8 {
          case 1 =>
            if tag.value != 8 {
              return Unusual(tag.value);
            }
            var val := ReadVarint(tag.rest, MAX_VARINT);
            if val.Bad? {
              return Failed;
            }
            kind, rest := ToInt32(val.value), val.rest;
          case 2 =>
            if tag.value != 17 {
              return Unusual(tag.value);
            }
            var val := ReadFixed64(tag.rest);
            if val.Bad? {
              return Failed;
            }
            usdCost, rest := val.value, val.rest;
          case 3 =>
            if tag.value != 24 {
              return Unusual(tag.value);
            }
            var val := ReadVarint(tag.rest, MAX_VARINT);
            if val.Bad? {
              return Failed;
            }
            usdAmount, rest := ToInt32(val.value), val.rest;
          case 4 =>
            if tag.value != 32 {
              return Unusual(tag.value);
            }
            var val := ReadVarint(tag.rest, MAX_VARINT);
            if val.Bad? {
              return Failed;
            }
            timestamp, rest := ToInt64(val.value), val.rest;
          case 5 =>
            if tag.value != 40 {
              return Unusual(tag.value);
            }
            var val := ReadVarint(tag.rest, MAX_VARINT);
            if val.Bad? {
              return Failed;
            }
            orderId, rest := ToInt64(val.value), val.rest;
          case 6 =>
            if tag.value != 48 {
              return Unusual(tag.value);
            }
            var val := ReadVarint(tag.rest, MAX_VARINT);
            if val.Bad? {
              return Failed;
            }
            usdVolume, rest := ToInt32(val.value), val.rest;
          case 7 =>
            if tag.value != 58 {
              return Unusual(tag.value);
            }
            var val := ReadDelimited(tag.rest);
            if val.Bad? {
              return Failed;
            }
            ValidIffText(val.value);
            if !ValidUtf8(val.value) {
              return Failed;
            }
            username, rest := val.value, val.rest;
          case _ =>
            return Unusual(tag.value);
        }
      }
      outcome := Parsed(Value());
    }

    /** _InternalSerialize. */
    method SerializeTo(target: seq<byte>) returns (target': seq<byte>)
      ensures target' == target + Encode(Value())
    {
      hide IntField, WordField, BytesField;
      target' := PutInt(target, 8, kind);
      target' := PutWord(target', 17, usdCost);
      target' := PutInt(target', 24, usdAmount);
      target' := PutInt(target', 32, timestamp);
      target' := PutInt(target', 40, orderId);
      target' := PutInt(target', 48, usdVolume);
      target' := PutBytes(target', 58, username);
      Flatten(target, IntField(8, kind), WordField(17, usdCost), IntField(24, usdAmount), IntField(32, timestamp),
              IntField(40, orderId), IntField(48, usdVolume), BytesField(58, username));
    }

    /** ByteSizeLong, which adds up sizes in its own order, is the number of bytes printed. */
    method ByteSizeLong() returns (total: nat)
      requires |username| < WORD
      ensures total == |Encode(Value())|
    {
      hide IntField, BytesField, WordField;
      total := AddBytesSize(0, 58, username);
      total := AddWordSize(total, 17, usdCost);
      total := AddIntSize(total, 8, kind);
      total := AddIntSize(total, 24, usdAmount);
      total := AddIntSize(total, 32, timestamp);
      total := AddIntSize(total, 40, orderId);
      total := AddIntSize(total, 48, usdVolume);
    }

    /** MergeImpl. */
    method MergeFrom(from: TradeOrder)
      requires from != this
      modifies this
      ensures Value() == Merge(old(Value()), from.Value())
    {
      if from.username != [] {
        username := from.username;
      }
      if from.usdCost != 0 {
        usdCost := from.usdCost;
      }
      if from.kind != 0 {
        kind := from.kind;
      }
      if from.usdAmount != 0 {
        usdAmount := from.usdAmount;
      }
      if from.timestamp != 0 {
        timestamp := from.timestamp;
      }
      if from.orderId != 0 {
        orderId := from.orderId;
      }
      if from.usdVolume != 0 {
        usdVolume := from.usdVolume;
      }
    }
  }

  /** Tag 0 and end-group tags end the message where no end is due; other tags are unknown fields. */
  function Unusual(tag: nat): Outcome<Fields> {
    if tag == 0 || tag % 8 == 4 then Failed else Unmodelled
  }

  // ---------- ActiveOrders ----------

  datatype Lists = Lists(buys: seq<Fields>, sells: seq<Fields>)

  const NO_ORDERS := Lists([], [])

  function EncodeAll(tag: byte, orders: seq<Fields>): seq<byte> {
    if orders == [] then []
    else EncodeAll(tag, orders[..|orders| - 1]) + ([tag] + Delimited(Encode(orders[|orders| - 1])))
  }

  function EncodeLists(l: Lists): seq<byte> {
    EncodeAll(10, l.buys) + EncodeAll(18, l.sells)
  }

  /** An order on its own in one of the lists, as the wire format has it: buys are field 1, sells field 2, delimited. */
  lemma ListsAreNumbered(o: Fields)
    ensures EncodeLists(Lists([o], [])) == Field(true, 8 * 1 + 2, Delimited(Encode(o)))
    ensures EncodeLists(Lists([], [o])) == Field(true, 8 * 2 + 2, Delimited(Encode(o)))
  {
    OneByteKeys();
    hide Encode, Delimited, Varint;
    assert EncodeAll(10, [o]) == EncodeAll(10, [o][..0]) + ([10] + Delimited(Encode(o)));
    assert EncodeAll(18, [o]) == EncodeAll(18, [o][..0]) + ([18] + Delimited(Encode(o)));
  }

  /** Repeated messages append. */
  function MergeLists(to: Lists, from: Lists): Lists {
    Lists(to.buys + from.buys, to.sells + from.sells)
  }

  function WithOrder(l: Lists, tag: nat, o: Fields): Lists {
    if tag == 10 then l.(buys := l.buys + [o]) else l.(sells := l.sells + [o])
  }

  /** One submessage: its tag, its length, and its bytes parsed into a new order. */
  ghost function ParseEntry(l: Lists, s: seq<byte>): (r: Outcome<(Lists, seq<byte>)>)
    ensures r.Parsed? ==> |r.value.1| < |s|
  {
    match ReadTag(s)
    case Bad => Failed
    case Got(tag, rest) =>
      if tag == 10 || tag == 18 then
        match ReadDelimited(rest)
        case Bad => Failed
        case Got(data, rest) =>
          match Parse(EMPTY, data)
          case Failed => Failed
          case Unmodelled => Unmodelled
          case Parsed(o) => Parsed((WithOrder(l, tag, o), rest))
      else if tag == 0 || tag % 8 == 4 then Failed
      else Unmodelled
  }

  ghost function ParseLists(l: Lists, s: seq<byte>): Outcome<Lists>
    decreases |s|
  {
    if s == [] then Parsed(l)
    else
      match ParseEntry(l, s)
      case Failed => Failed
      case Unmodelled => Unmodelled
      case Parsed((l', rest)) => ParseLists(l', rest)
  }

  lemma EntryParsesAhead(l: Lists, s: seq<byte>, more: seq<byte>)
    requires ParseEntry(l, s).Parsed?
    ensures ParseEntry(l, s + more) == Parsed((ParseEntry(l, s).value.0, ParseEntry(l, s).value.1 + more))
  {
    hide ReadDelimited, ReadTag, Parse;
    TagReadsAhead(s, more);
    DelimitedReadsAhead(ReadTag(s).rest, more);
  }

  lemma {:induction false} ParseListsIsSequential(l: Lists, s: seq<byte>, more: seq<byte>)
    requires ParseLists(l, s).Parsed?
    ensures ParseLists(l, s + more) == ParseLists(ParseLists(l, s).value, more)
    decreases |s|
  {
    if s == [] {
      assert s + more == more;
    } else {
      EntryParsesAhead(l, s, more);
      hide ParseEntry;
      var (l', rest) := ParseEntry(l, s).value;
      ParseListsIsSequential(l', rest, more);
    }
  }

  /** An order that fits in a submessage. */
  ghost predicate Nestable(o: Fields) {
    Encodable(o) && |Encode(o)| <= MAX_LENGTH
  }

  ghost predicate AllNestable(orders: seq<Fields>) {
    forall o | o in orders :: Nestable(o)
  }

  lemma EntryParses(l: Lists, tag: byte, o: Fields)
    requires (tag == 10 || tag == 18) && Nestable(o)
    ensures ParseLists(l, [tag] + Delimited(Encode(o))) == Parsed(WithOrder(l, tag, o))
  {
    TagReadsBack(tag, Delimited(Encode(o)));
    assert Delimited(Encode(o)) + [] == Delimited(Encode(o));
    DelimitedReadsBack(Encode(o), []);
    RoundTrip(o);
    hide Delimited, ReadDelimited, ReadTag, Encode, Parse;
    assert ParseLists(WithOrder(l, tag, o), []) == Parsed(WithOrder(l, tag, o));
  }

  function WithOrders(l: Lists, tag: nat, orders: seq<Fields>): Lists {
    if tag == 10 then l.(buys := l.buys + orders) else l.(sells := l.sells + orders)
  }

  lemma {:induction false} EntriesParse(l: Lists, tag: byte, orders: seq<Fields>)
    requires (tag == 10 || tag == 18) && AllNestable(orders)
    ensures ParseLists(l, EncodeAll(tag, orders)) == Parsed(WithOrders(l, tag, orders))
    decreases |orders|
  {
    hide ParseEntry, Encode, Delimited, Nestable;
    if orders == [] {
      assert WithOrders(l, tag, orders) == l;
    } else {
      var n := |orders| - 1;
      assert orders == orders[..n] + [orders[n]];
      assert orders[n] in orders && forall o | o in orders[..n] :: o in orders;
      EntriesParse(l, tag, orders[..n]);
      EntryParses(WithOrders(l, tag, orders[..n]), tag, orders[n]);
      ParseListsIsSequential(l, EncodeAll(tag, orders[..n]), [tag] + Delimited(Encode(orders[n])));
      assert l.buys + orders == l.buys + orders[..n] + [orders[n]]
          && l.sells + orders == l.sells + orders[..n] + [orders[n]];
    }
  }

  /** Printed lists, parsed over any message, append to it. */
  lemma EncodedListsParseAsMerge(acc: Lists, l: Lists)
    requires AllNestable(l.buys) && AllNestable(l.sells)
    ensures ParseLists(acc, EncodeLists(l)) == Parsed(MergeLists(acc, l))
  {
    hide ParseLists, EncodeAll, AllNestable;
    EntriesParse(acc, 10, l.buys);
    EntriesParse(WithOrders(acc, 10, l.buys), 18, l.sells);
    ParseListsIsSequential(acc, EncodeAll(10, l.buys), EncodeAll(18, l.sells));
  }

  lemma ListsRoundTrip(l: Lists)
    requires AllNestable(l.buys) && AllNestable(l.sells)
    ensures ParseLists(NO_ORDERS, EncodeLists(l)) == Parsed(l)
  {
    hide ParseLists, EncodeLists, AllNestable;
    EncodedListsParseAsMerge(NO_ORDERS, l);
    assert MergeLists(NO_ORDERS, l) == l;
  }

  lemma ListsConcatenationIsMerge(a: Lists, b: Lists)
    requires AllNestable(a.buys) && AllNestable(a.sells) && AllNestable(b.buys) && AllNestable(b.sells)
    ensures ParseLists(NO_ORDERS, EncodeLists(a) + EncodeLists(b)) == Parsed(MergeLists(a, b))
  {
    ListsRoundTrip(a);
    ParseListsIsSequential(NO_ORDERS, EncodeLists(a), EncodeLists(b));
    EncodedListsParseAsMerge(a, b);
  }

  lemma EntryAppends(p: Lists, l: Lists, s: seq<byte>)
    requires ParseEntry(p, s).Parsed?
    ensures ParseEntry(NO_ORDERS, s).Parsed? && ParseEntry(NO_ORDERS, s).value.1 == ParseEntry(p, s).value.1
    ensures ParseEntry(l, s) == Parsed((MergeLists(l, ParseEntry(NO_ORDERS, s).value.0), ParseEntry(p, s).value.1))
  {
    hide ReadDelimited, ReadTag, Parse;
    var o := Parse(EMPTY, ReadDelimited(ReadTag(s).rest).value).value;
    assert [] + [o] == [o] && l.sells + [] == l.sells && l.buys + [] == l.buys;
  }

  lemma MergeListsAssociates(a: Lists, b: Lists, c: Lists)
    ensures MergeLists(MergeLists(a, b), c) == MergeLists(a, MergeLists(b, c))
  {
  }

  lemma {:induction false} ParsedListsAppend(p: Lists, l: Lists, s: seq<byte>)
    requires ParseLists(p, s).Parsed?
    ensures ParseLists(NO_ORDERS, s).Parsed?
    ensures ParseLists(l, s) == Parsed(MergeLists(l, ParseLists(NO_ORDERS, s).value))
    decreases |s|
  {
    if s == [] {
      assert MergeLists(l, NO_ORDERS) == l;
    } else {
      EntryAppends(p, l, s);
      EntryAppends(p, NO_ORDERS, s);
      hide ParseEntry, MergeLists;
      var (p', rest) := ParseEntry(p, s).value;
      var first := ParseEntry(NO_ORDERS, s).value.0;
      ParsedListsAppend(p', first, rest);
      ParsedListsAppend(p', MergeLists(l, first), rest);
      MergeListsAssociates(l, first, ParseLists(NO_ORDERS, rest).value);
    }
  }

  /** For lists, any two inputs that parse, however they were printed, concatenate to the merge, without exception. */
  lemma ListInputsConcatenate(s: seq<byte>, t: seq<byte>)
    requires ParseLists(NO_ORDERS, s).Parsed? && ParseLists(NO_ORDERS, t).Parsed?
    ensures ParseLists(NO_ORDERS, s + t)
         == Parsed(MergeLists(ParseLists(NO_ORDERS, s).value, ParseLists(NO_ORDERS, t).value))
  {
    ParseListsIsSequential(NO_ORDERS, s, t);
    ParsedListsAppend(NO_ORDERS, ParseLists(NO_ORDERS, s).value, t);
  }

  // ---------- The ActiveOrders object ----------

  /** The orders printed with the lengths given for them, whatever their bytes come to. */
  function EncodeSized(tag: byte, orders: seq<Fields>, sizes: seq<nat>): seq<byte>
    requires |sizes| == |orders|
  {
    if orders == [] then []
    else
      var n := |orders| - 1;
      EncodeSized(tag, orders[..n], sizes[..n]) + ([tag] + (Varint(sizes[n]) + Encode(orders[n])))
  }

  function Sizes(orders: seq<Fields>): (sizes: seq<nat>)
    ensures |sizes| == |orders|
  {
    seq(|orders|, i requires 0 <= i < |orders| => |Encode(orders[i])|)
  }

  lemma {:induction false} SizedIsDelimited(tag: byte, orders: seq<Fields>)
    ensures EncodeSized(tag, orders, Sizes(orders)) == EncodeAll(tag, orders)
  {
    hide Encode;
    if orders != [] {
      var n := |orders| - 1;
      assert Sizes(orders)[..n] == Sizes(orders[..n]);
      SizedIsDelimited(tag, orders[..n]);
    }
  }

  /** buySizes and sellSizes are the orders' cached sizes: what each one's ByteSizeLong last said, or 0. */
  class ActiveOrders {
    var buys: seq<Fields>
    var sells: seq<Fields>
    var buySizes: seq<nat>
    var sellSizes: seq<nat>

    function Value(): Lists
      reads this
    {
      Lists(buys, sells)
    }

    predicate Valid()
      reads this
    {
      |buySizes| == |buys| && |sellSizes| == |sells|
    }

    /** ByteSizeLong has been called since the orders last changed. */
    ghost predicate Sized()
      reads this
    {
      buySizes == Sizes(buys) && sellSizes == Sizes(sells)
    }

    constructor ()
      ensures Value() == NO_ORDERS && Valid()
    {
      buys, sells, buySizes, sellSizes := [], [], [], [];
    }

    /** _InternalParse over a whole input: each submessage is parsed by a new order object. */
    method ParseFrom(data: seq<byte>) returns (outcome: Outcome<Lists>)
      requires Valid()
      modifies this
      ensures Valid() && outcome == ParseLists(old(Value()), data)
      ensures outcome.Parsed? ==> outcome.value == Value()
    {
      hide ReadDelimited, ReadTag, Parse;
      var rest := data;
      while rest != []
        invariant Valid() && ParseLists(old(Value()), data) == ParseLists(Value(), rest)
        decreases |rest|
      {
        var tag := ReadTag(rest);
        if tag.Bad? {
          return Failed;
        }
        if tag.value != 10 && tag.value != 18 {
          return if tag.value == 0 || tag.value % 8 == 4 then Failed else Unmodelled;
        }
        var message := ReadDelimited(tag.rest);
        if message.Bad? {
          return Failed;
        }
        var order := new TradeOrder();
        var parsed := order.ParseFrom(message.value);
        if !parsed.Parsed? {
          return if parsed.Failed? then Failed else Unmodelled;
        }
        if tag.value == 10 {
          buys, buySizes := buys + [order.Value()], buySizes + [0];
        } else {
          sells, sellSizes := sells + [order.Value()], sellSizes + [0];
        }
        rest := message.rest;
      }
      outcome := Parsed(Value());
    }

    /** _InternalSerialize: the two lists in turn, each order with its tag and its cached size for a length. */
    method SerializeTo(target: seq<byte>) returns (target': seq<byte>)
      requires Valid()
      ensures target' == target + (EncodeSized(10, buys, buySizes) + EncodeSized(18, sells, sellSizes))
      ensures Sized() ==> target' == target + EncodeLists(Value())
    {
      hide EncodeAll, EncodeSized, Sizes;
      target' := PutAll(target, 10, buys, buySizes);
      target' := PutAll(target', 18, sells, sellSizes);
      SizedIsDelimited(10, buys);
      SizedIsDelimited(18, sells);
    }

    /** ByteSizeLong is the number of bytes printed; it brings the cached sizes up to date. */
    method ByteSizeLong() returns (total: nat)
      requires AllAddressable(buys) && AllAddressable(sells)
      modifies this`buySizes, this`sellSizes
      ensures Valid() && Sized() && total == |EncodeLists(Value())|
    {
      total, buySizes := AddAllSizes(0, 10, buys);
      total, sellSizes := AddAllSizes(total, 18, sells);
    }

    /** MergeImpl. */
    method MergeFrom(from: ActiveOrders)
      requires Valid() && from != this
      modifies this
      ensures Valid() && Value() == MergeLists(old(Value()), from.Value())
    {
      buys, buySizes := buys + from.buys, buySizes + seq(|from.buys|, i => 0);
      sells, sellSizes := sells + from.sells, sellSizes + seq(|from.sells|, i => 0);
    }
  }

  /** A message object holding these fields. */
  method FieldsToOrder(o: Fields) returns (order: TradeOrder)
    ensures fresh(order) && order.Value() == o
  {
    order := new TradeOrder();
    order.kind, order.usdCost, order.usdAmount := o.kind, o.usdCost, o.usdAmount;
    order.timestamp, order.orderId, order.usdVolume := o.timestamp, o.orderId, o.usdVolume;
    order.username := o.username;
  }

  method PutAll(target: seq<byte>, tag: byte, orders: seq<Fields>, sizes: seq<nat>) returns (target': seq<byte>)
    requires |sizes| == |orders|
    ensures target' == target + EncodeSized(tag, orders, sizes)
  {
    hide Encode, Varint;
    target' := target;
    for i := 0 to |orders|
      invariant target' == target + EncodeSized(tag, orders[..i], sizes[..i])
    {
      var order := FieldsToOrder(orders[i]);
      var bytes := order.SerializeTo([]);
      assert bytes == Encode(orders[i]);
      target' := target' + ([tag] + (Varint(sizes[i]) + bytes));
      assert orders[..i + 1][..i] == orders[..i] && sizes[..i + 1][..i] == sizes[..i];
    }
    assert orders[..|orders|] == orders && sizes[..|orders|] == sizes;
  }

  /** Sizes fit in a machine word. */
  ghost predicate AllAddressable(orders: seq<Fields>) {
    forall i | 0 <= i < |orders| :: |Encode(orders[i])| < WORD
  }

  lemma UsernameIsShorter(o: Fields)
    ensures |o.username| <= |Encode(o)|
  {
    hide IntField, WordField;
  }

  method AddAllSizes(total: nat, tag: byte, orders: seq<Fields>) returns (total': nat, sizes: seq<nat>)
    requires AllAddressable(orders)
    ensures total' == total + |EncodeAll(tag, orders)| && sizes == Sizes(orders)
  {
    hide Encode, Varint;
    total', sizes := total + |orders|, [];
    for i := 0 to |orders|
      invariant total' == total + |orders| - i + |EncodeAll(tag, orders[..i])| && sizes == Sizes(orders)[..i]
    {
      UsernameIsShorter(orders[i]);
      var order := FieldsToOrder(orders[i]);
      var size := order.ByteSizeLong();
      VarintHasItsSize(size);
      total', sizes := total' + VarintSize(size) + size, sizes + [size];
      assert orders[..i + 1][..i] == orders[..i];
    }
    assert orders[..|orders|] == orders;
  }
}