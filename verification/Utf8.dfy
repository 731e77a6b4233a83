/** UTF-8 as RFC 3629 defines it: the encoding of Unicode text (section 3), and the bytes it can leave (section 4). */
module Utf8 {
  import opened Wire

  /** A Unicode scalar value: a code point that is not a surrogate. */
  type scalar = c: int | 0 <= c < 0x11_0000 && !(0xD800 <= c < 0xE000)

  /** The code point in groups of six bits, the highest first. */
  function EncodeScalar(c: scalar): (s: seq<byte>)
    ensures 0 < |s| <= 4
  {
    if c < 0x80 then [c]
    else if c < 0x800 then [0xC0 + High(c), Low(c)]
    else if c < 0x1_0000 then [0xE0 + High(High(c)), Low(High(c)), Low(c)]
    else [0xF0 + High(High(High(c))), Low(High(High(c))), Low(High(c)), Low(c)]
  }

  /** All but the lowest six bits. */
  function High(c: nat): nat {
    c / 0x40
  }

  /** The lowest six bits, as a continuation byte. */
  function Low(c: nat): byte {
    0x80 + c % 0x40
  }

  function EncodeText(text: seq<scalar>): seq<byte> {
    if text == [] then [] else EncodeScalar(text[0]) + EncodeText(text[1..])
  }

  /** The bytes are the encoding of some text. */
  ghost predicate IsText(s: seq<byte>) {
    exists text: seq<scalar> :: EncodeText(text) == s
  }

  lemma EmptyIsText()
    ensures IsText([])
  {
    assert EncodeText([]) == [];
  }

  predicate Tail(s: seq<byte>, n: nat) {
    n <= |s| && forall i | 0 <= i < n :: 0x80 <= s[i] <= 0xBF
  }

  /** The length of the well-formed sequence the bytes start with: no overlong forms, no surrogates, nothing too high. */
  function FirstLength(s: seq<byte>): (n: nat)
    requires s != []
    ensures n <= |s|
  {
    if s[0] <= 0x7F then 1
    else if 0xC2 <= s[0] <= 0xDF && Tail(s[1..], 1) then 2
    else if 0xE0 <= s[0] <= 0xEF && Tail(s[1..], 2) && (s[0] == 0xE0 ==> 0xA0 <= s[1]) && (s[0] == 0xED ==> s[1] <= 0x9F)
    then 3
    else if 0xF0 <= s[0] <= 0xF4 && Tail(s[1..], 3) && (s[0] == 0xF0 ==> 0x90 <= s[1]) && (s[0] == 0xF4 ==> s[1] <= 0x8F)
    then 4
    else 0
  }

  /** One well-formed sequence after another. */
  predicate ValidUtf8(s: seq<byte>) {
    s == [] || (FirstLength(s) > 0 && ValidUtf8(s[FirstLength(s)..]))
  }

  lemma ScalarIsWellFormed(c: scalar, rest: seq<byte>)
    ensures FirstLength(EncodeScalar(c) + rest) == |EncodeScalar(c)|
  {
  }

  /** Six more bits, from a continuation byte. */
  function Glue(high: int, b: byte): int {
    0x40 * high + (b - 0x80)
  }

  lemma GlueTakesApart(high: nat, b: byte)
    requires 0x80 <= b < 0xC0
    ensures Glue(high, b) >= 0 && High(Glue(high, b)) == high && Low(Glue(high, b)) == b
  {
  }

  lemma GluesBack(c: nat)
    ensures Glue(High(c), Low(c)) == c
  {
  }

  /** The code point in a sequence of one to four bytes. */
  function CodePoint(s: seq<byte>): int
    requires 0 < |s| <= 4
  {
    match |s|
    case 1 => s[0]
    case 2 => Glue(s[0] as int - 0xC0, s[1])
    case 3 => Glue(Glue(s[0] as int - 0xE0, s[1]), s[2])
    case _ => Glue(Glue(Glue(s[0] as int - 0xF0, s[1]), s[2]), s[3])
  }

  lemma ScalarReadsBack(c: scalar)
    ensures CodePoint(EncodeScalar(c)) == c
  {
    GluesBack(c);
    GluesBack(High(c));
    GluesBack(High(High(c)));
    hide Glue, High, Low;
  }

  lemma FirstIsScalar(s: seq<byte>)
    requires s != [] && FirstLength(s) > 0
    ensures var n := FirstLength(s);
            var c := CodePoint(s[..n]);
            && 0 <= c < 0x11_0000 && !(0xD800 <= c < 0xE000)
            && (n == 1 <==> c < 0x80) && (n <= 2 <==> c < 0x800) && (n <= 3 <==> c < 0x1_0000)
  {
  }

  /** A well-formed sequence is the encoding of its code point. */
  function FirstScalar(s: seq<byte>): (c: scalar)
    requires s != [] && FirstLength(s) > 0
    ensures EncodeScalar(c) == s[..FirstLength(s)]
  {
    FirstIsScalar(s);
    FirstIsEncoded(s);
    CodePoint(s[..FirstLength(s)])
  }

  lemma FirstBytes(s: seq<byte>)
    requires s != [] && FirstLength(s) > 0
    ensures FirstLength(s) <= 4
    ensures forall i | 1 <= i < FirstLength(s) :: 0x80 <= s[i] < 0xC0
    ensures FirstLength(s) == 2 ==> s[0] >= 0xC0
    ensures FirstLength(s) == 3 ==> s[0] >= 0xE0
    ensures FirstLength(s) == 4 ==> s[0] >= 0xF0
  {
  }

  lemma FirstIsEncoded(s: seq<byte>)
    requires s != [] && FirstLength(s) > 0
    ensures var c := CodePoint(s[..FirstLength(s)]);
            0 <= c < 0x11_0000 && !(0xD800 <= c < 0xE000) && EncodeScalar(c) == s[..FirstLength(s)]
  {
    hide FirstLength, Glue, High, Low;
    FirstIsScalar(s);
    FirstBytes(s);
    var n := FirstLength(s);
    if n == 2 {
      GlueTakesApart(s[0] - 0xC0, s[1]);
    } else if n == 3 {
      var high := s[0] - 0xE0;
      GlueTakesApart(high, s[1]);
      GlueTakesApart(Glue(high, s[1]), s[2]);
    } else if n == 4 {
      var high := s[0] - 0xF0;
      GlueTakesApart(high, s[1]);
      GlueTakesApart(Glue(high, s[1]), s[2]);
      GlueTakesApart(Glue(Glue(high, s[1]), s[2]), s[3]);
    }
  }

  lemma {:induction false} TextIsValid(text: seq<scalar>)
    ensures ValidUtf8(EncodeText(text))
  {
    hide FirstLength, EncodeScalar;
    if text != [] {
      var first, rest := EncodeScalar(text[0]), EncodeText(text[1..]);
      TextIsValid(text[1..]);
      ScalarIsWellFormed(text[0], rest);
      assert (first + rest)[|first|..] == rest;
    }
  }

  lemma {:induction false} ValidIsText(s: seq<byte>) returns (text: seq<scalar>)
    requires ValidUtf8(s)
    ensures EncodeText(text) == s
  {
    hide FirstLength, EncodeScalar, FirstScalar;
    if s == [] {
      text := [];
    } else {
      var n := FirstLength(s);
      var rest := ValidIsText(s[n..]);
      text := [FirstScalar(s)] + rest;
      assert text[1..] == rest && s[..n] + s[n..] == s;
    }
  }

  /** The bytes the check accepts are exactly the encodings of Unicode text. */
  lemma ValidIffText(s: seq<byte>)
    ensures ValidUtf8(s) <==> IsText(s)
  {
    if ValidUtf8(s) {
      var text := ValidIsText(s);
    } else if text: seq<scalar> :| EncodeText(text) == s {
      TextIsValid(text);
    }
  }

  /** No two texts have the same encoding. */
  lemma {:induction false} EncodingIsUnique(a: seq<scalar>, b: seq<scalar>)
    requires EncodeText(a) == EncodeText(b)
    ensures a == b
  {
    hide FirstLength, EncodeScalar, CodePoint;
    if a != [] && b != [] {
      var x, y := EncodeText(a[1..]), EncodeText(b[1..]);
      ScalarIsWellFormed(a[0], x);
      ScalarIsWellFormed(b[0], y);
      var s, n := EncodeText(a), |EncodeScalar(a[0])|;
      assert s[..n] == EncodeScalar(a[0]) == EncodeScalar(b[0]);
      ScalarReadsBack(a[0]);
      ScalarReadsBack(b[0]);
      assert s[n..] == x == y;
      EncodingIsUnique(a[1..], b[1..]);
    }
  }
}
