/**
 * The primitives of the Protocol Buffers encoding ("Base 128 Varints", "Message Structure"): varints, fixed 64-bit
 * words and length-delimited bytes.
 */
module Wire {
  import opened Orders

  type byte = x: int | 0 <= x < 0x100
  type word = x: int | 0 <= x < 0x1_0000_0000_0000_0000
  type int64 = x: int | -0x8000_0000_0000_0000 <= x < 0x8000_0000_0000_0000

  const WORD := 0x1_0000_0000_0000_0000
  const WORD32 := 0x1_0000_0000
  const MAX_VARINT := 10
  const MAX_TAG := 5
  /** The longest length-delimited value the runtime accepts: just under 2 GiB. */
  const MAX_LENGTH := 0x7FFF_FFEF

  /** What a reader finds at the front of its input, and the input after it. */
  datatype Read<T> = Got(value: T, rest: seq<byte>) | Bad

  // ---------- Varints ----------

  function Varint(n: nat): (s: seq<byte>)
    ensures |s| > 0
  {
    if n < 128 then [n] else [128 + n % 128] + Varint(n / 128)
  }

  /** The varint at the front, if it ends within `max` bytes. */
  function ReadVarint(s: seq<byte>, max: nat): (r: Read<nat>)
    ensures r.Got? ==> |r.rest| < |s|
    decreases max
  {
    if s == [] || max == 0 then Bad
    else if s[0] < 128 then Got(s[0], s[1..])
    else
      match ReadVarint(s[1..], max - 1)
      case Bad => Bad
      case Got(v, rest) => Got(s[0] - 128 + 128 * v, rest)
  }

  /** The number of 7-bit groups, as the size functions count it: one more for each power of 128 reached. */
  function VarintSize(n: nat): nat {
    if n < 0x80 then 1
    else if n < 0x4000 then 2
    else if n < 0x20_0000 then 3
    else if n < 0x1000_0000 then 4
    else if n < 0x8_0000_0000 then 5
    else if n < 0x400_0000_0000 then 6
    else if n < 0x2_0000_0000_0000 then 7
    else if n < 0x100_0000_0000_0000 then 8
    else if n < 0x8000_0000_0000_0000 then 9
    else 10
  }

  lemma {:induction false} VarintHasItsSize(n: nat)
    requires n < WORD
    ensures |Varint(n)| == VarintSize(n)
  {
    if n >= 128 {
      VarintHasItsSize(n / 128);
    }
  }

  lemma {:induction false} VarintReadsBack(n: nat, rest: seq<byte>, max: nat)
    requires |Varint(n)| <= max
    ensures ReadVarint(Varint(n) + rest, max) == Got(n, rest)
  {
    if n < 128 {
      assert (Varint(n) + rest)[1..] == rest;
    } else {
      assert (Varint(n) + rest)[1..] == Varint(n / 128) + rest;
      VarintReadsBack(n / 128, rest, max - 1);
    }
  }

  lemma {:induction false} LongVarintIsBad(n: nat, rest: seq<byte>, max: nat)
    requires |Varint(n)| > max
    ensures ReadVarint(Varint(n) + rest, max).Bad?
  {
    if n >= 128 && max > 0 {
      assert (Varint(n) + rest)[1..] == Varint(n / 128) + rest;
      LongVarintIsBad(n / 128, rest, max - 1);
    }
  }

  /** The number whose base-128 digits are the low seven bits of the bytes, the lowest first. */
  function Groups(s: seq<byte>): nat {
    if s == [] then 0 else s[0] % 128 + 128 * Groups(s[1..])
  }

  /** The byte at k is the first without a continuation bit. */
  predicate EndsAt(s: seq<byte>, k: nat) {
    k < |s| && s[k] < 128 && forall i | 0 <= i < k :: s[i] >= 128
  }

  /** A varint is read, padded with zero groups or not, exactly when it ends within `max` bytes. */
  lemma VarintMeans(s: seq<byte>, max: nat)
    ensures ReadVarint(s, max).Got? <==> exists k: nat :: k < max && EndsAt(s, k)
    ensures forall k: nat | k < max && EndsAt(s, k) :: ReadVarint(s, max) == Got(Groups(s[..k + 1]), s[k + 1..])
  {
    hide ReadVarint, Groups;
    forall k: nat | k < max && EndsAt(s, k)
      ensures ReadVarint(s, max) == Got(Groups(s[..k + 1]), s[k + 1..])
    {
      VarintThatEnds(s, max, k);
    }
    if ReadVarint(s, max).Got? {
      var k := EndOfVarint(s, max);
    }
  }

  lemma {:induction false} VarintThatEnds(s: seq<byte>, max: nat, k: nat)
    requires k < max && EndsAt(s, k)
    ensures ReadVarint(s, max) == Got(Groups(s[..k + 1]), s[k + 1..])
    decreases k
  {
    if k == 0 {
      assert s[..1][1..] == [];
    } else {
      EndsFurtherOn(s, k - 1);
      VarintThatEnds(s[1..], max - 1, k - 1);
      assert s[..k + 1][1..] == s[1..][..k] && s[1..][k..] == s[k + 1..];
    }
  }

  lemma {:induction false} EndOfVarint(s: seq<byte>, max: nat) returns (k: nat)
    requires ReadVarint(s, max).Got?
    ensures k < max && EndsAt(s, k)
    decreases max
  {
    k := 0;
    if s[0] >= 128 {
      k := EndOfVarint(s[1..], max - 1);
      EndsFurtherOn(s, k);
      k := k + 1;
    }
  }

  lemma EndsFurtherOn(s: seq<byte>, k: nat)
    requires s != [] && s[0] >= 128
    ensures EndsAt(s[1..], k) <==> EndsAt(s, k + 1)
  {
    if EndsAt(s[1..], k) {
      assert forall i | 0 < i < k + 1 :: s[i] == s[1..][i - 1];
    } else if EndsAt(s, k + 1) {
      assert forall i | 0 <= i < k :: s[1..][i] == s[i + 1];
    }
  }

  /** A reader that succeeds does not look past what it consumed. */
  lemma {:induction false} VarintReadsAhead(s: seq<byte>, more: seq<byte>, max: nat)
    requires ReadVarint(s, max).Got?
    ensures ReadVarint(s + more, max) == Got(ReadVarint(s, max).value, ReadVarint(s, max).rest + more)
  {
    assert (s + more)[1..] == s[1..] + more;
    if s[0] >= 128 {
      VarintReadsAhead(s[1..], more, max - 1);
    }
  }

  // ---------- Signed numbers in varints ----------

  /** Sign extension to 64 bits: negative numbers take ten bytes. */
  function ToWord(v: int64): word {
    if v < 0 then v + WORD else v
  }

  function ToInt64(n: nat): int64 {
    var w := n % WORD;
    if w < WORD / 2 then w else w - WORD
  }

  /** The low 32 bits as a signed number, whatever the high bits. */
  function ToInt32(n: nat): int32 {
    var w := n % WORD32;
    if w < WORD32 / 2 then w else w - WORD32
  }

  lemma SignedReadsBack(v: int64)
    ensures ToInt64(ToWord(v)) == v && (-0x8000_0000 <= v < 0x8000_0000 ==> ToInt32(ToWord(v)) == v)
    ensures ToWord(v) == 0 <==> v == 0
  {
  }

  /** Whatever number is read, the field gets the one with the same low bits in its range. */
  lemma TruncationKeepsTheLowBits(n: nat)
    ensures (ToInt32(n) - n) % 0x1_0000_0000 == 0 && (ToInt64(n) - n) % 0x1_0000_0000_0000_0000 == 0
  {
    hide ToInt32, ToInt64;
    LowBits32(n);
    LowBits64(n);
  }

  lemma LowBits32(n: nat)
    ensures (ToInt32(n) - n) % WORD32 == 0
  {
    var q, w := n / WORD32, n % WORD32;
    assert n == q * WORD32 + w;
    assert ToInt32(n) - n == -q * WORD32 || ToInt32(n) - n == (-q - 1) * WORD32;
  }

  lemma LowBits64(n: nat)
    ensures (ToInt64(n) - n) % WORD == 0
  {
    var q, w := n / WORD, n % WORD;
    assert n == q * WORD + w;
    assert ToInt64(n) - n == -q * WORD || ToInt64(n) - n == (-q - 1) * WORD;
  }

  // ---------- Fixed words and byte strings ----------

  function Fixed(w: nat, n: nat): (s: seq<byte>)
    ensures |s| == n
  {
    if n == 0 then [] else [w % 0x100] + Fixed(w / 0x100, n - 1)
  }

  function Unfixed(s: seq<byte>): nat {
    if s == [] then 0 else s[0] + 0x100 * Unfixed(s[1..])
  }

  function Power256(n: nat): nat {
    if n == 0 then 1 else 0x100 * Power256(n - 1)
  }

  lemma {:induction false} UnfixedIsSmall(s: seq<byte>)
    ensures Unfixed(s) < Power256(|s|)
  {
    if s != [] {
      UnfixedIsSmall(s[1..]);
    }
  }

  lemma EightBytesAreAWord(s: seq<byte>)
    requires |s| == 8
    ensures Unfixed(s) < WORD
  {
    UnfixedIsSmall(s);
    assert Power256(8) == WORD;
  }

  function ReadFixed64(s: seq<byte>): (r: Read<word>)
    ensures r.Got? ==> |r.rest| < |s|
  {
    if |s| < 8 then Bad
    else
      EightBytesAreAWord(s[..8]);
      Got(Unfixed(s[..8]), s[8..])
  }

  lemma {:induction false} FixedReadsBack(w: nat, n: nat)
    requires w < Power256(n)
    ensures Unfixed(Fixed(w, n)) == w
  {
    if n > 0 {
      FixedReadsBack(w / 0x100, n - 1);
      assert Fixed(w, n)[1..] == Fixed(w / 0x100, n - 1);
    }
  }

  /** The bytes of a word, the lowest first. */
  lemma FixedIsLittleEndian(w: word)
    ensures Fixed(w, 8)
         == [w % 0x100, w / 0x100 % 0x100, w / 0x1_0000 % 0x100, w / 0x100_0000 % 0x100, w / 0x1_0000_0000 % 0x100,
             w / 0x100_0000_0000 % 0x100, w / 0x1_0000_0000_0000 % 0x100, w / 0x100_0000_0000_0000 % 0x100]
  {
    var u := w / 0x1_0000_0000;
    FourBytes(w, 4);
    FourBytes(u, 0);
    assert Fixed(u / 0x1_0000_0000, 0) == [];
    hide Fixed;
    assert u / 0x100 == w / 0x100_0000_0000 && u / 0x1_0000 == w / 0x1_0000_0000_0000;
    assert u / 0x100_0000 == w / 0x100_0000_0000_0000;
  }

  lemma FourBytes(w: nat, n: nat)
    ensures Fixed(w, n + 4)
         == [w % 0x100, w / 0x100 % 0x100, w / 0x1_0000 % 0x100, w / 0x100_0000 % 0x100] + Fixed(w / 0x1_0000_0000, n)
  {
    Shifts(w);
    TwoBytes(w, n + 2);
    TwoBytes(w / 0x1_0000, n);
    hide Fixed;
    var a, b, c, d := w % 0x100, w / 0x100 % 0x100, w / 0x1_0000 % 0x100, w / 0x100_0000 % 0x100;
    assert [a, b] + ([c, d] + Fixed(w / 0x1_0000_0000, n)) == [a, b, c, d] + Fixed(w / 0x1_0000_0000, n);
  }

  lemma Shifts(w: nat)
    ensures w / 0x1_0000 / 0x100 == w / 0x100_0000 && w / 0x1_0000 / 0x1_0000 == w / 0x1_0000_0000
  {
  }

  lemma TwoBytes(w: nat, n: nat)
    ensures Fixed(w, n + 2) == [w % 0x100, w / 0x100 % 0x100] + Fixed(w / 0x1_0000, n)
  {
    assert w / 0x100 / 0x100 == w / 0x1_0000;
    LowestFirst(w, n + 2);
    LowestFirst(w / 0x100, n + 1);
    hide Fixed;
  }

  lemma LowestFirst(w: nat, n: nat)
    requires n > 0
    ensures Fixed(w, n) == [w % 0x100] + Fixed(w / 0x100, n - 1) && |Fixed(w / 0x100, n - 1)| == n - 1
  {
  }

  lemma Fixed64ReadsBack(w: word, rest: seq<byte>)
    ensures ReadFixed64(Fixed(w, 8) + rest) == Got(w, rest)
  {
    assert Power256(8) == WORD;
    FixedReadsBack(w, 8);
    assert (Fixed(w, 8) + rest)[..8] == Fixed(w, 8) && (Fixed(w, 8) + rest)[8..] == rest;
  }

  lemma Fixed64ReadsAhead(s: seq<byte>, more: seq<byte>)
    requires ReadFixed64(s).Got?
    ensures ReadFixed64(s + more) == Got(ReadFixed64(s).value, ReadFixed64(s).rest + more)
  {
    assert (s + more)[..8] == s[..8] && (s + more)[8..] == s[8..] + more;
  }

  function Delimited(data: seq<byte>): seq<byte> {
    Varint(|data|) + data
  }

  /** A length of at most five bytes, then that many bytes. */
  function ReadDelimited(s: seq<byte>): (r: Read<seq<byte>>)
    ensures r.Got? ==> |r.rest| < |s| && |r.value| < |s|
  {
    match ReadVarint(s, MAX_TAG)
    case Bad => Bad
    case Got(length, rest) =>
      if length > MAX_LENGTH || length > |rest| then Bad else Got(rest[..length], rest[length..])
  }

  lemma DelimitedReadsBack(data: seq<byte>, rest: seq<byte>)
    requires |data| <= MAX_LENGTH
    ensures ReadDelimited(Delimited(data) + rest) == Got(data, rest)
  {
    VarintHasItsSize(|data|);
    assert Delimited(data) + rest == Varint(|data|) + (data + rest);
    VarintReadsBack(|data|, data + rest, MAX_TAG);
  }

  lemma LongDelimitedIsBad(data: seq<byte>)
    requires |data| > MAX_LENGTH
    ensures ReadDelimited(Delimited(data)).Bad?
  {
    if |Varint(|data|)| <= MAX_TAG {
      VarintReadsBack(|data|, data, MAX_TAG);
    } else {
      LongVarintIsBad(|data|, data, MAX_TAG);
    }
  }

  lemma DelimitedReadsAhead(s: seq<byte>, more: seq<byte>)
    requires ReadDelimited(s).Got?
    ensures ReadDelimited(s + more) == Got(ReadDelimited(s).value, ReadDelimited(s).rest + more)
  {
    VarintReadsAhead(s, more, MAX_TAG);
    var length, rest := ReadVarint(s, MAX_TAG).value, ReadVarint(s, MAX_TAG).rest;
    assert (rest + more)[..length] == rest[..length] && (rest + more)[length..] == rest[length..] + more;
  }

  /** The field number and wire type: the low 32 bits of a varint of at most five bytes. */
  function ReadTag(s: seq<byte>): (r: Read<nat>)
    ensures r.Got? ==> |r.rest| < |s|
  {
    match ReadVarint(s, MAX_TAG)
    case Bad => Bad
    case Got(v, rest) => Got(v % WORD32, rest)
  }

  /** A tag is read when its varint ends within five bytes, and is the low 32 bits of it. */
  lemma TagMeans(s: seq<byte>)
    ensures ReadTag(s).Got? <==> exists k: nat :: k < 5 && EndsAt(s, k)
    ensures forall k: nat | k < 5 && EndsAt(s, k) :: ReadTag(s) == Got(Groups(s[..k + 1]) % 0x1_0000_0000, s[k + 1..])
  {
    hide ReadVarint, EndsAt;
    VarintMeans(s, MAX_TAG);
  }

  lemma TagReadsBack(tag: byte, rest: seq<byte>)
    requires tag < 128
    ensures ReadTag([tag] + rest) == Got(tag, rest)
  {
    assert Varint(tag) == [tag];
    VarintReadsBack(tag, rest, MAX_TAG);
  }

  lemma TagReadsAhead(s: seq<byte>, more: seq<byte>)
    requires ReadTag(s).Got?
    ensures ReadTag(s + more) == Got(ReadTag(s).value, ReadTag(s).rest + more)
  {
    VarintReadsAhead(s, more, MAX_TAG);
  }
}
