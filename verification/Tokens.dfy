/**
 The compact token: three unpadded base64url segments joined by dots, read back by a lenient decoder behind
 a canonicality check. The keyed hash is a parameter.

 Base64url is section 5 of RFC 4648, the unpadded form section 2 of RFC 7515, the compact serialization
 section 7.1 of RFC 7515, canonical encodings section 3.5 of RFC 4648. The decoder is Python's: it skips
 characters outside the alphabet, takes the standard alphabet as well, stops at a complete padding and
 ignores the bits a last character has too many.
 */
module Tokens {
  import opened Common

  type Byte = b: int | 0 <= b < 256

  type Sextet = v: int | 0 <= v < 64

  // ---------------------------------------------------------------- the alphabet

  function Symbol(v: Sextet): char {
    if v < 26 then ('A' as int + v) as char
    else if v < 52 then ('a' as int + v - 26) as char
    else if v < 62 then ('0' as int + v - 52) as char
    else if v == 62 then '-'
    else '_'
  }

  predicate InUrlAlphabet(c: char) {
    'A' <= c <= 'Z' || 'a' <= c <= 'z' || '0' <= c <= '9' || c == '-' || c == '_'
  }

  /** The value the decoder gives a character of either alphabet. */
  function ValueOf(c: char): Option<Sextet> {
    if 'A' <= c <= 'Z' then Some(c as int - 'A' as int)
    else if 'a' <= c <= 'z' then Some(c as int - 'a' as int + 26)
    else if '0' <= c <= '9' then Some(c as int - '0' as int + 52)
    else if c == '-' || c == '+' then Some(62)
    else if c == '_' || c == '/' then Some(63)
    else None
  }

  lemma SymbolHasItsValue(v: Sextet)
    ensures ValueOf(Symbol(v)) == Some(v) && InUrlAlphabet(Symbol(v))
    ensures Symbol(v) != '=' && Symbol(v) != '.' && Symbol(v) as int < 128
  {
  }

  lemma ValueHasItsSymbol(c: char)
    requires InUrlAlphabet(c)
    ensures ValueOf(c).Some? && Symbol(ValueOf(c).value) == c
  {
  }

  predicate SameStretch(v: Sextet, w: Sextet) {
    w < 26 || (26 <= v && w < 52) || (52 <= v && w < 62)
  }

  /** The alphabet by its corners, and that letters and digits run in order: table 2 of section 5 of RFC 4648. */
  lemma AlphabetInOrder(v: Sextet, w: Sextet)
    ensures Symbol(0) == 'A' && Symbol(25) == 'Z' && Symbol(26) == 'a' && Symbol(51) == 'z'
    ensures Symbol(52) == '0' && Symbol(61) == '9' && Symbol(62) == '-' && Symbol(63) == '_'
    ensures v <= w && SameStretch(v, w) ==> Symbol(w) as int == Symbol(v) as int + (w - v)
  {
  }

  // ---------------------------------------------------------------- encoding

  /** The characters of up to three bytes, without padding. */
  function Group(b: seq<Byte>): string
    requires 1 <= |b| <= 3
  {
    if |b| == 1 then [Symbol(b[0] / 4), Symbol(b[0] % 4 * 16)]
    else if |b| == 2 then [Symbol(b[0] / 4), Symbol(b[0] % 4 * 16 + b[1] / 16), Symbol(b[1] % 16 * 4)]
    else [Symbol(b[0] / 4), Symbol(b[0] % 4 * 16 + b[1] / 16), Symbol(b[1] % 16 * 4 + b[2] / 64), Symbol(b[2] % 64)]
  }

  /** Bytes and characters as the digits of one number, the first one highest. */
  function BytesValue(b: seq<Byte>): int {
    if b == [] then 0 else BytesValue(b[..|b| - 1]) * 256 + b[|b| - 1]
  }

  function TextValue(s: string): int {
    if s == "" then 0
    else
      var last := ValueOf(s[|s| - 1]);
      TextValue(s[..|s| - 1]) * 64 + (if last.Some? then last.value else 0)
  }

  lemma TwoBytesValue(b: seq<Byte>)
    requires |b| == 2
    ensures BytesValue(b) == b[0] as int * 256 + b[1] as int
  {
    var one := b[..1];
    assert one[..0] == [] && one[0] == b[0];
    assert BytesValue(one) == b[0] as int;
  }

  lemma ThreeBytesValue(b: seq<Byte>)
    requires |b| == 3
    ensures BytesValue(b) == (b[0] as int * 256 + b[1] as int) * 256 + b[2] as int
  {
    TwoBytesValue(b[..2]);
  }

  lemma TextValueOf(s: string, v: Sextet)
    requires ValueOf(Symbol(v)) == Some(v)
    ensures TextValue(s + [Symbol(v)]) == TextValue(s) * 64 + v
  {
    assert (s + [Symbol(v)])[..|s|] == s;
  }

  lemma TextValueOfTwo(v: Sextet, w: Sextet)
    ensures TextValue([Symbol(v), Symbol(w)]) == v * 64 + w
  {
    hide Symbol, ValueOf;
    SymbolHasItsValue(v);
    SymbolHasItsValue(w);
    TextValueOf("", v);
    TextValueOf([Symbol(v)], w);
    assert "" + [Symbol(v)] == [Symbol(v)] && [Symbol(v)] + [Symbol(w)] == [Symbol(v), Symbol(w)];
  }

  /** A group spells the number of its bytes, six bits a character, filled up with zero bits at the end. */
  lemma GroupIsBigEndian(b: seq<Byte>)
    requires 1 <= |b| <= 3
    ensures |Group(b)| == |b| + 1
    ensures TextValue(Group(b)) == BytesValue(b) * (if |b| == 1 then 16 else if |b| == 2 then 4 else 1)
  {
    hide Symbol, ValueOf, TextValue;
    var v: Sextet := b[0] / 4;
    if |b| == 1 {
      TextValueOfTwo(v, b[0] % 4 * 16);
    } else {
      var w: Sextet := b[0] % 4 * 16 + b[1] / 16;
      TextValueOfTwo(v, w);
      if |b| == 2 {
        TwoBytesValue(b);
        var x: Sextet := b[1] % 16 * 4;
        SymbolHasItsValue(x);
        TextValueOf([Symbol(v), Symbol(w)], x);
        assert Group(b) == [Symbol(v), Symbol(w)] + [Symbol(x)];
      } else {
        var x: Sextet, y: Sextet := b[1] % 16 * 4 + b[2] / 64, b[2] % 64;
        SymbolHasItsValue(x);
        SymbolHasItsValue(y);
        TextValueOf([Symbol(v), Symbol(w)], x);
        TextValueOf([Symbol(v), Symbol(w)] + [Symbol(x)], y);
        assert Group(b) == [Symbol(v), Symbol(w)] + [Symbol(x)] + [Symbol(y)];
        ThreeBytesValue(b);
      }
    }
  }

  function Equals(n: nat): (s: string)
    ensures |s| == n && forall c | c in s :: c == '='
  {
    if n == 0 then "" else "=" + Equals(n - 1)
  }

  /** Padded base64url. */
  function Padded(b: seq<Byte>): string {
    if b == [] then ""
    else if |b| <= 3 then Group(b) + Equals(3 - |b|)
    else Group(b[..3]) + Padded(b[3..])
  }

  /** The text without its trailing equals signs. */
  function Strip(s: string): string {
    if s != "" && s[|s| - 1] == '=' then Strip(s[..|s| - 1]) else s
  }

  function Encode(b: seq<Byte>): string {
    Strip(Padded(b))
  }

  /** The unpadded form written out: the reference for stripping. */
  function Unpadded(b: seq<Byte>): string {
    if b == [] then ""
    else if |b| <= 3 then Group(b)
    else Group(b[..3]) + Unpadded(b[3..])
  }

  /** Equals signs that bring a text of length n to a multiple of four: Python's `-n % 4`. */
  function Missing(n: nat): (m: nat)
    ensures m < 4 && (n + m) % 4 == 0
  {
    (4 - n % 4) % 4
  }

  lemma GroupSymbols(b: seq<Byte>)
    requires 1 <= |b| <= 3
    ensures |Group(b)| == |b| + 1 && forall c | c in Group(b) :: InUrlAlphabet(c)
  {
    hide Symbol;
    forall v: Sextet
      ensures InUrlAlphabet(Symbol(v))
    {
      SymbolHasItsValue(v);
    }
  }

  lemma {:induction false} UnpaddedSymbols(b: seq<Byte>)
    ensures forall c | c in Unpadded(b) :: InUrlAlphabet(c)
  {
    hide Group, InUrlAlphabet;
    if b == [] {
    } else if |b| <= 3 {
      GroupSymbols(b);
    } else {
      GroupSymbols(b[..3]);
      UnpaddedSymbols(b[3..]);
    }
  }

  /** Padded text is the unpadded one followed by as many equals signs as its length asks for. */
  lemma {:induction false} PaddingIsMissingLength(b: seq<Byte>)
    ensures Padded(b) == Unpadded(b) + Equals(Missing(|Unpadded(b)|))
    ensures |Padded(b)| % 4 == 0
  {
    hide Group, Equals, Missing;
    if b == [] {
      NothingMissing();
    } else if |b| <= 3 {
      GroupSymbols(b);
      MissingAfterGroup(|b|);
    } else {
      GroupSymbols(b[..3]);
      PaddingIsMissingLength(b[3..]);
      MissingAfterFour(|Unpadded(b[3..])|);
    }
  }

  lemma NothingMissing()
    ensures Equals(Missing(0)) == ""
  {
  }

  lemma MissingAfterGroup(n: nat)
    requires 1 <= n <= 3
    ensures Missing(n + 1) == 3 - n
  {
  }

  lemma MissingAfterFour(n: nat)
    ensures Missing(n + 4) == Missing(n)
  {
  }

  lemma {:induction false} StripUndoesEquals(s: string, n: nat)
    requires s == "" || s[|s| - 1] != '='
    ensures Strip(s + Equals(n)) == s
  {
    var t := s + Equals(n);
    if n == 0 {
      assert t == s;
    } else {
      assert t[|t| - 1] == Equals(n)[n - 1];
      assert Equals(n)[n - 1] in Equals(n);
      EqualsButLast(n);
      assert t[..|t| - 1] == s + Equals(n - 1);
      StripUndoesEquals(s, n - 1);
    }
  }

  lemma {:induction false} EqualsButLast(n: nat)
    requires n > 0
    ensures Equals(n)[..n - 1] == Equals(n - 1)
  {
    if n > 1 {
      EqualsButLast(n - 1);
    }
  }

  /** Stripping gives the unpadded form, and padding by `-len % 4` undoes it. */
  lemma PaddingUndoesStripping(b: seq<Byte>)
    ensures Encode(b) == Unpadded(b)
    ensures Encode(b) + Equals(Missing(|Encode(b)|)) == Padded(b)
  {
    PaddingIsMissingLength(b);
    UnpaddedSymbols(b);
    var u := Unpadded(b);
    assert u != "" ==> u[|u| - 1] in u;
    StripUndoesEquals(u, Missing(|u|));
  }

  // ---------------------------------------------------------------- the lenient decoder

  /** Position in the group of four, bits carried over, equals signs seen, and the bytes so far. */
  datatype Scan = Scan(position: nat, left: nat, pads: nat, out: seq<Byte>)

  predicate ScanOk(s: Scan) {
    && s.position < 4
    && (s.position <= 1 ==> s.left < 64)
    && (s.position == 2 ==> s.left < 16)
    && (s.position == 3 ==> s.left < 4)
  }

  function Feed(s: Scan, v: Sextet): (r: Scan)
    requires ScanOk(s)
    ensures ScanOk(r)
  {
    if s.position == 0 then Scan(1, v, 0, s.out)
    else if s.position == 1 then Scan(2, v % 16, 0, s.out + [s.left * 4 + v / 16])
    else if s.position == 2 then Scan(3, v % 4, 0, s.out + [s.left * 16 + v / 4])
    else Scan(0, 0, 0, s.out + [s.left * 64 + v])
  }

  /** None if the text ends inside a group without its padding. */
  function Decoding(text: string, s: Scan): Option<seq<Byte>>
    requires ScanOk(s)
  {
    if text == "" then
      if s.position == 0 then Some(s.out) else None
    else if text[0] == '=' then
      if s.position < 2 then Decoding(text[1..], s)
      else if s.position + s.pads + 1 >= 4 then Some(s.out)
      else Decoding(text[1..], s.(pads := s.pads + 1))
    else
      match ValueOf(text[0])
      case None => Decoding(text[1..], s)
      case Some(v) => Decoding(text[1..], Feed(s, v))
  }

  const START := Scan(0, 0, 0, [])

  predicate Ascii(s: string) {
    forall c | c in s :: c as int < 128
  }

  /** None for what the library refuses. */
  function Decode(text: string): Option<seq<Byte>> {
    if !Ascii(text) then None else Decoding(text + Equals(Missing(|text|)), START)
  }

  lemma DecodingSymbol(v: Sextet, rest: string, s: Scan)
    requires ScanOk(s)
    ensures Decoding([Symbol(v)] + rest, s) == Decoding(rest, Feed(s, v))
  {
    SymbolHasItsValue(v);
    assert ([Symbol(v)] + rest)[1..] == rest;
  }

  lemma DecodingTwo(v: Sextet, w: Sextet, rest: string, s: Scan)
    requires ScanOk(s)
    ensures Decoding([Symbol(v), Symbol(w)] + rest, s) == Decoding(rest, Feed(Feed(s, v), w))
  {
    hide Decoding, Feed, Symbol;
    DecodingSymbol(v, [Symbol(w)] + rest, s);
    DecodingSymbol(w, rest, Feed(s, v));
    assert [Symbol(v), Symbol(w)] + rest == [Symbol(v)] + ([Symbol(w)] + rest);
  }

  lemma DecodingFour(v: Sextet, w: Sextet, x: Sextet, y: Sextet, rest: string, s: Scan)
    requires ScanOk(s)
    ensures Decoding([Symbol(v), Symbol(w), Symbol(x), Symbol(y)] + rest, s)
         == Decoding(rest, Feed(Feed(Feed(Feed(s, v), w), x), y))
  {
    hide Decoding, Feed, Symbol;
    DecodingTwo(v, w, [Symbol(x), Symbol(y)] + rest, s);
    DecodingTwo(x, y, rest, Feed(Feed(s, v), w));
    assert [Symbol(v), Symbol(w), Symbol(x), Symbol(y)] + rest
        == [Symbol(v), Symbol(w)] + ([Symbol(x), Symbol(y)] + rest);
  }

  lemma DecodingEquals(position: nat, left: nat, out: seq<Byte>)
    requires 2 <= position < 4 && ScanOk(Scan(position, left, 0, out))
    ensures Decoding(Equals(4 - position), Scan(position, left, 0, out)) == Some(out)
  {
    if position == 2 {
      assert Equals(2)[0] == '=' && Equals(2)[1..] == Equals(1);
      assert Equals(1)[0] == '=';
    } else {
      assert Equals(1)[0] == '=';
    }
  }

  lemma DecodingGroup(b: seq<Byte>, rest: string, out: seq<Byte>)
    requires |b| == 3
    ensures Decoding(Group(b) + rest, Scan(0, 0, 0, out)) == Decoding(rest, Scan(0, 0, 0, out + b))
  {
    hide Decoding, Symbol;
    DecodingFour(b[0] / 4, b[0] % 4 * 16 + b[1] / 16, b[1] % 16 * 4 + b[2] / 64, b[2] % 64, rest, Scan(0, 0, 0, out));
    assert out + [b[0]] + [b[1]] + [b[2]] == out + b;
  }

  lemma DecodingOneByte(b: seq<Byte>, out: seq<Byte>)
    requires |b| == 1
    ensures Decoding(Group(b) + Equals(2), Scan(0, 0, 0, out)) == Some(out + b)
  {
    hide Decoding, Symbol;
    DecodingTwo(b[0] / 4, b[0] % 4 * 16, Equals(2), Scan(0, 0, 0, out));
    assert out + [b[0]] == out + b;
    DecodingEquals(2, 0, out + b);
  }

  lemma DecodingTwoBytes(b: seq<Byte>, out: seq<Byte>)
    requires |b| == 2
    ensures Decoding(Group(b) + Equals(1), Scan(0, 0, 0, out)) == Some(out + b)
  {
    hide Decoding, Symbol;
    var v: Sextet, w: Sextet, x: Sextet := b[0] / 4, b[0] % 4 * 16 + b[1] / 16, b[1] % 16 * 4;
    var start := Scan(0, 0, 0, out);
    var middle := Feed(Feed(start, v), w);
    assert middle == Scan(2, b[1] / 16, 0, out + [b[0]]);
    assert Group(b) + Equals(1) == [Symbol(v), Symbol(w)] + ([Symbol(x)] + Equals(1));
    DecodingTwo(v, w, [Symbol(x)] + Equals(1), start);
    DecodingSymbol(x, Equals(1), middle);
    assert out + [b[0]] + [b[1]] == out + b;
    assert Feed(middle, x) == Scan(3, 0, 0, out + b);
    DecodingEquals(3, 0, out + b);
  }

  lemma {:induction false} DecodingPadded(b: seq<Byte>, out: seq<Byte>)
    ensures Decoding(Padded(b), Scan(0, 0, 0, out)) == Some(out + b)
  {
    hide Group;
    if b == [] {
      assert out + b == out;
    } else if |b| == 1 {
      DecodingOneByte(b, out);
    } else if |b| == 2 {
      DecodingTwoBytes(b, out);
    } else {
      var rest := b[3..];
      DecodingGroup(b[..3], Padded(rest), out);
      DecodingPadded(rest, out + b[..3]);
      assert out + b[..3] + rest == out + b;
      PaddedInGroups(b);
    }
  }

  lemma PaddedInGroups(b: seq<Byte>)
    requires |b| >= 3
    ensures Padded(b) == Group(b[..3]) + Padded(b[3..])
  {
    if |b| == 3 {
      assert b[..3] == b;
    }
  }

  /** Round trip: every byte string comes back. */
  lemma DecodeUndoesEncode(b: seq<Byte>)
    ensures Decode(Encode(b)) == Some(b)
  {
    PaddingUndoesStripping(b);
    UnpaddedSymbols(b);
    DecodingPadded(b, []);
    assert [] + b == b;
  }

  /** No two byte strings have the same encoding. */
  lemma EncodeIsInjective(a: seq<Byte>, b: seq<Byte>)
    requires Encode(a) == Encode(b)
    ensures a == b
  {
    DecodeUndoesEncode(a);
    DecodeUndoesEncode(b);
  }

  // ---------------------------------------------------------------- canonical segments

  /** The check of `decode_token` on a segment. */
  predicate Canonical(segment: string) {
    var b := Decode(segment);
    b.Some? && Encode(b.value) == segment
  }

  /** A segment passes exactly if it is the encoding of some byte string. */
  lemma CanonicalExactlyIfEncoded(segment: string)
    ensures Canonical(segment) <==> exists b :: Encode(b) == segment
  {
    forall b | Encode(b) == segment
      ensures Canonical(segment)
    {
      DecodeUndoesEncode(b);
    }
  }

  /** Every byte string has exactly one accepted spelling. */
  lemma OneSpelling(b: seq<Byte>, segment: string)
    ensures Canonical(segment) && Decode(segment) == Some(b) <==> segment == Encode(b)
  {
    DecodeUndoesEncode(b);
  }

  /** The same by its characters: url-safe ones, no lone one in the last group, no stray bits in the last one. */
  predicate WellSpelled(s: string) {
    && (forall c | c in s :: InUrlAlphabet(c))
    && |s| % 4 != 1
    && (|s| % 4 == 2 ==> StrayBits(s, 16) == 0)
    && (|s| % 4 == 3 ==> StrayBits(s, 4) == 0)
  }

  function StrayBits(s: string, modulus: nat): int
    requires s != "" && modulus > 0
  {
    var v := ValueOf(s[|s| - 1]);
    if v.Some? then v.value % modulus else 0
  }

  lemma GroupIsWellSpelled(b: seq<Byte>)
    requires 1 <= |b| <= 3
    ensures WellSpelled(Group(b))
  {
    GroupSymbols(b);
    hide Symbol;
    if |b| == 1 {
      SymbolHasItsValue(b[0] % 4 * 16);
    } else if |b| == 2 {
      SymbolHasItsValue(b[1] % 16 * 4);
    }
  }

  lemma PrependGroup(g: string, s: string)
    requires |g| == 4 && (forall c | c in g :: InUrlAlphabet(c)) && WellSpelled(s)
    ensures WellSpelled(g + s)
  {
    assert (|s| + 4) % 4 == |s| % 4;
    assert |s| > 0 ==> (g + s)[|g + s| - 1] == s[|s| - 1];
  }

  lemma {:induction false} EncodedIsWellSpelled(b: seq<Byte>)
    ensures WellSpelled(Unpadded(b))
  {
    hide Group, WellSpelled;
    if b == [] {
      EmptyIsWellSpelled();
    } else if |b| <= 3 {
      GroupIsWellSpelled(b);
    } else {
      EncodedIsWellSpelled(b[3..]);
      GroupSymbols(b[..3]);
      PrependGroup(Group(b[..3]), Unpadded(b[3..]));
    }
  }

  lemma EmptyIsWellSpelled()
    ensures WellSpelled("")
  {
  }

  /** Four symbols are the group of three bytes. */
  lemma FourAreAGroup(g: string) returns (b: seq<Byte>)
    requires |g| == 4 && forall c | c in g :: InUrlAlphabet(c)
    ensures |b| == 3 && Group(b) == g
  {
    forall i | 0 <= i < 4
      ensures ValueOf(g[i]).Some? && Symbol(ValueOf(g[i]).value) == g[i]
    {
      assert g[i] in g;
      ValueHasItsSymbol(g[i]);
    }
    hide Symbol, ValueOf;
    var v: int, w: int := ValueOf(g[0]).value, ValueOf(g[1]).value;
    var x: int, y: int := ValueOf(g[2]).value, ValueOf(g[3]).value;
    b := [v * 4 + w / 16, w % 16 * 16 + x / 4, x % 4 * 64 + y];
    assert b[0] / 4 == v && b[0] % 4 * 16 + b[1] / 16 == w;
    assert b[1] % 16 * 4 + b[2] / 64 == x && b[2] % 64 == y;
  }

  lemma LastGroup(g: string) returns (b: seq<Byte>)
    requires (|g| == 2 || |g| == 3) && WellSpelled(g)
    ensures |b| == |g| - 1 && Group(b) == g
  {
    forall i | 0 <= i < |g|
      ensures ValueOf(g[i]).Some? && Symbol(ValueOf(g[i]).value) == g[i]
    {
      assert g[i] in g;
      ValueHasItsSymbol(g[i]);
    }
    hide Symbol, ValueOf;
    var v: int, w: int := ValueOf(g[0]).value, ValueOf(g[1]).value;
    if |g| == 2 {
      b := [v * 4 + w / 16];
      assert b[0] / 4 == v && b[0] % 4 * 16 == w;
    } else {
      var x: int := ValueOf(g[2]).value;
      b := [v * 4 + w / 16, w % 16 * 16 + x / 4];
      assert b[0] / 4 == v && b[0] % 4 * 16 + b[1] / 16 == w && b[1] % 16 * 4 == x;
    }
  }

  lemma DropGroup(s: string)
    requires WellSpelled(s) && |s| >= 4
    ensures WellSpelled(s[4..]) && forall c | c in s[..4] :: InUrlAlphabet(c)
  {
    assert (|s| - 4) % 4 == |s| % 4;
    assert forall c | c in s[4..] :: c in s;
    assert forall c | c in s[..4] :: c in s;
  }

  lemma {:induction false} WellSpelledIsEncoded(s: string) returns (b: seq<Byte>)
    requires WellSpelled(s)
    ensures Unpadded(b) == s
  {
    hide Group;
    if s == "" {
      b := [];
    } else if |s| < 4 {
      b := LastGroup(s);
    } else {
      DropGroup(s);
      var first := FourAreAGroup(s[..4]);
      var rest := WellSpelledIsEncoded(s[4..]);
      b := first + rest;
      assert b[..3] == first && b[3..] == rest && s == s[..4] + s[4..];
      UnpaddedInGroups(b);
    }
  }

  lemma UnpaddedInGroups(b: seq<Byte>)
    requires |b| >= 3
    ensures Unpadded(b) == Group(b[..3]) + Unpadded(b[3..])
  {
    if |b| == 3 {
      assert b[..3] == b;
    }
  }

  /** What the canonicality check accepts, without decoding anything. */
  lemma CanonicalExactlyIfWellSpelled(segment: string)
    ensures Canonical(segment) <==> WellSpelled(segment)
  {
    hide WellSpelled, Encode;
    CanonicalExactlyIfEncoded(segment);
    if WellSpelled(segment) {
      var b := WellSpelledIsEncoded(segment);
      PaddingUndoesStripping(b);
    }
    if Canonical(segment) {
      var b := Decode(segment).value;
      PaddingUndoesStripping(b);
      EncodedIsWellSpelled(b);
    }
  }

  /** Without the check the spelling is not unique: a stray bit or a foreign character goes unnoticed. */
  lemma LenientSpellings()
    ensures Decode("AA") == Some([0]) && Decode("AB") == Some([0]) && Decode("A!A==") == Some([0])
    ensures Canonical("AA") && !Canonical("AB") && !Canonical("A!A==")
  {
    LenientOne();
    LenientTwo();
    DecodeUndoesEncode([0]);
    PaddingUndoesStripping([0]);
    assert Encode([0]) == "AA";
  }

  lemma LenientOne()
    ensures Decode("AB") == Some([0])
  {
    assert "AB" + Equals(Missing(2)) == [Symbol(0), Symbol(1)] + Equals(2);
    assert Feed(Feed(START, 0), 1) == Scan(2, 1, 0, [0]);
    DecodingTwo(0, 1, Equals(2), START);
    DecodingEquals(2, 1, [0]);
  }

  lemma LenientTwo()
    ensures Decode("A!A==") == Some([0])
  {
    var text := "A!A==" + Equals(3);
    assert text == [Symbol(0)] + text[1..];
    DecodingSymbol(0, text[1..], START);
    assert text[1..][1..] == [Symbol(0)] + text[3..];
    DecodingSymbol(0, text[3..], Scan(1, 0, 0, []));
    assert Feed(Scan(1, 0, 0, []), 0) == Scan(2, 0, 0, [0]);
    assert text[3] == '=' && text[4] == '=' && text[3..][1..] == text[4..];
  }

  // ---------------------------------------------------------------- joining and splitting

  function Join(parts: seq<string>): string
    requires parts != []
  {
    if |parts| == 1 then parts[0] else parts[0] + "." + Join(parts[1..])
  }

  predicate NoDot(s: string) {
    '.' !in s
  }

  /** The length of the longest prefix without a dot. */
  function DotAt(s: string): (n: nat)
    ensures n <= |s| && NoDot(s[..n]) && (n < |s| ==> s[n] == '.')
  {
    if s == "" || s[0] == '.' then 0
    else
      var n := DotAt(s[1..]) + 1;
      assert s[..n] == [s[0]] + s[1..][..n - 1];
      n
  }

  /** Python's `split(".")`. */
  function Split(s: string): (parts: seq<string>)
    ensures parts != []
  {
    var n := DotAt(s);
    if n == |s| then [s] else [s[..n]] + Split(s[n + 1..])
  }

  lemma {:induction false} JoinUndoesSplit(s: string)
    ensures Join(Split(s)) == s && forall p | p in Split(s) :: NoDot(p)
  {
    var n := DotAt(s);
    if n < |s| {
      JoinUndoesSplit(s[n + 1..]);
      assert Split(s)[1..] == Split(s[n + 1..]);
      assert s == s[..n] + "." + s[n + 1..];
    } else {
      assert s[..n] == s;
    }
  }

  lemma {:induction false} FirstDot(p: string, rest: string)
    requires NoDot(p)
    ensures DotAt(p) == |p| && DotAt(p + "." + rest) == |p|
  {
    if p == "" {
    } else {
      FirstDot(p[1..], rest);
      assert (p + "." + rest)[1..] == p[1..] + "." + rest;
    }
  }

  /** Texts without dots are recovered from their joined form: the segments of a token are unique. */
  lemma {:induction false} SplitUndoesJoin(parts: seq<string>)
    requires parts != [] && forall p | p in parts :: NoDot(p)
    ensures Split(Join(parts)) == parts
  {
    assert NoDot(parts[0]);
    if |parts| == 1 {
      FirstDot(parts[0], "");
    } else {
      var rest := Join(parts[1..]);
      assert forall p | p in parts[1..] :: p in parts;
      FirstDot(parts[0], rest);
      SplitUndoesJoin(parts[1..]);
      var s := Join(parts);
      assert s[..|parts[0]|] == parts[0] && s[|parts[0]| + 1..] == rest;
    }
  }

  // ---------------------------------------------------------------- issuing and opening

  datatype Opened = Opened(header: seq<Byte>, payload: seq<Byte>) | Malformed | NonCanonical | BadSignature

  function SigningInput(header: string, payload: string): string {
    header + "." + payload
  }

  /** The token `issue_token` makes of its two texts; `mac` is the keyed hash. */
  function Issue(header: seq<Byte>, payload: seq<Byte>, mac: string -> seq<Byte>): string {
    var input := SigningInput(Encode(header), Encode(payload));
    input + "." + Encode(mac(input))
  }

  /** The first segment that is no good decides on the error. */
  function CheckSegments(parts: seq<string>): (bad: Option<Opened>)
    ensures bad.Some? ==> !bad.value.Opened?
  {
    if parts == [] then None
    else if Decode(parts[0]).None? then Some(Malformed)
    else if Encode(Decode(parts[0]).value) != parts[0] then Some(NonCanonical)
    else CheckSegments(parts[1..])
  }

  /** The part of `decode_token` before the JSON texts are read. */
  function Open(token: string, mac: string -> seq<Byte>): Opened {
    var parts := Split(token);
    if |parts| != 3 then Malformed
    else
      var bad := CheckSegments(parts);
      if bad.Some? then bad.value
      else
        var signature := Decode(parts[2]);
        var header, payload := Decode(parts[0]), Decode(parts[1]);
        if signature.None? || header.None? || payload.None? then Malformed
        else if mac(SigningInput(parts[0], parts[1])) != signature.value then BadSignature
        else Opened(header.value, payload.value)
  }

  lemma {:induction false} SegmentsPass(parts: seq<string>)
    ensures CheckSegments(parts).None? <==> forall p | p in parts :: Canonical(p)
  {
    hide Decode, Encode;
    if parts == [] {
    } else {
      SegmentsPass(parts[1..]);
      assert parts[0] in parts;
      if !Canonical(parts[0]) {
        assert CheckSegments(parts).Some?;
      }
      assert forall p :: p in parts <==> p == parts[0] || p in parts[1..];
    }
  }

  lemma EncodedHasNoDot(b: seq<Byte>)
    ensures NoDot(Encode(b))
  {
    PaddingUndoesStripping(b);
    UnpaddedSymbols(b);
  }

  lemma ThreeParts(a: string, b: string, c: string)
    ensures Join([a, b, c]) == a + "." + b + "." + c
  {
    assert [a, b, c][1..] == [b, c] && [b, c][1..] == [c];
    assert Join([c]) == c;
    assert Join([b, c]) == b + "." + c;
    assert a + "." + (b + "." + c) == a + "." + b + "." + c;
  }

  lemma IssueSplits(header: seq<Byte>, payload: seq<Byte>, mac: string -> seq<Byte>)
    ensures var signature := mac(SigningInput(Encode(header), Encode(payload)));
      Split(Issue(header, payload, mac)) == [Encode(header), Encode(payload), Encode(signature)]
  {
    var signature := mac(SigningInput(Encode(header), Encode(payload)));
    EncodedHasNoDot(header);
    EncodedHasNoDot(payload);
    EncodedHasNoDot(signature);
    ThreeParts(Encode(header), Encode(payload), Encode(signature));
    SplitUndoesJoin([Encode(header), Encode(payload), Encode(signature)]);
  }

  lemma IssuedOpens(header: seq<Byte>, payload: seq<Byte>, mac: string -> seq<Byte>)
    ensures Open(Issue(header, payload, mac), mac) == Opened(header, payload)
  {
    hide Encode, Decode, Split, Issue, CheckSegments;
    var signature := mac(SigningInput(Encode(header), Encode(payload)));
    IssueSplits(header, payload, mac);
    DecodeUndoesEncode(header);
    DecodeUndoesEncode(payload);
    DecodeUndoesEncode(signature);
    SegmentsPass(Split(Issue(header, payload, mac)));
  }

  /**
   The token opens to a header and a payload exactly if it is the one issued for them: every accepted token
   has one spelling, and every issued one is accepted.
   */
  lemma OpensExactlyIfIssued(token: string, header: seq<Byte>, payload: seq<Byte>, mac: string -> seq<Byte>)
    ensures Open(token, mac) == Opened(header, payload) <==> token == Issue(header, payload, mac)
  {
    IssuedOpens(header, payload, mac);
    if Open(token, mac) == Opened(header, payload) {
      OpenedIsIssued(token, mac);
    }
  }

  /**
   Which error a token gets that is not opened: malformed without three segments or if the first bad segment
   does not decode, not canonical if that one decodes, and a bad signature if there is no bad segment.
   */
  lemma Refusals(token: string, mac: string -> seq<Byte>)
    ensures
      var parts := Split(token);
      if |parts| != 3 then Open(token, mac) == Malformed
      else if bad: nat :| bad < 3 && IsFirstBad(parts, bad) then
        Open(token, mac) == if Decode(parts[bad]).None? then Malformed else NonCanonical
      else
        (Open(token, mac) == BadSignature <==> Some(mac(parts[0] + "." + parts[1])) != Decode(parts[2]))
        && (Open(token, mac) != BadSignature ==> Open(token, mac).Opened?)
  {
    hide Encode, Decode, Split;
    var parts := Split(token);
    if |parts| == 3 {
      FirstBadDecides(parts);
    }
  }

  predicate IsFirstBad(parts: seq<string>, bad: nat)
    requires bad < |parts|
  {
    !Canonical(parts[bad]) && forall i :: 0 <= i < bad ==> Canonical(parts[i])
  }

  lemma FirstBadDecides(parts: seq<string>)
    requires |parts| == 3
    ensures forall bad: nat | bad < 3 && IsFirstBad(parts, bad) ::
      CheckSegments(parts) == Some(if Decode(parts[bad]).None? then Malformed else NonCanonical)
    ensures (forall bad: nat | bad < 3 :: !IsFirstBad(parts, bad)) ==>
      CheckSegments(parts) == None && Canonical(parts[0]) && Canonical(parts[1]) && Canonical(parts[2])
  {
    hide Encode, Decode;
    var rest := parts[1..];
    var last := rest[1..];
    assert last[1..] == [] && rest[0] == parts[1] && last[0] == parts[2];
    assert Canonical(parts[2]) ==> CheckSegments(last) == None;
    assert Canonical(parts[1]) ==> CheckSegments(rest) == CheckSegments(last);
    assert Canonical(parts[0]) ==> CheckSegments(parts) == CheckSegments(rest);
    assert IsFirstBad(parts, 0) <==> !Canonical(parts[0]);
    assert IsFirstBad(parts, 1) <==> Canonical(parts[0]) && !Canonical(parts[1]);
    assert IsFirstBad(parts, 2) <==> Canonical(parts[0]) && Canonical(parts[1]) && !Canonical(parts[2]);
  }

  lemma OpenedIsIssued(token: string, mac: string -> seq<Byte>)
    requires Open(token, mac).Opened?
    ensures token == Issue(Open(token, mac).header, Open(token, mac).payload, mac)
  {
    hide Encode, Decode, Split, CheckSegments;
    var parts := Split(token);
    SegmentsPass(parts);
    assert parts[0] in parts && parts[1] in parts && parts[2] in parts;
    JoinUndoesSplit(token);
    ThreeParts(parts[0], parts[1], parts[2]);
    assert parts == [parts[0], parts[1], parts[2]];
  }
}
