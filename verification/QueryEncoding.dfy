/**
 The percent-encoder of the query-string builder: UTF-16 code units, read in segments of 1024, to
 percent-encoded UTF-8. It is undone by percent-decoding and UTF-8 decoding exactly when no
 surrogate pair lies across the edge of a segment.
 */
module QueryEncoding {
  import opened Basics
  import opened Options

  type Unit = c: bv24 | c < 0x10000
  type Byte = b: bv24 | b < 0x100
  type CodePoint = bv24

  const LIMIT: nat := 1024

  /** The last position of a segment. */
  predicate EndsSegment(at: nat) { at % 1024 == 1023 }

  predicate IsSurrogate(c: CodePoint) { 0xD800 <= c < 0xE000 }

  predicate IsHigh(c: Unit) { 0xD800 <= c < 0xDC00 }

  predicate IsLow(c: Unit) { 0xDC00 <= c < 0xE000 }

  // ----- what the encoder writes -----

  predicate IsUnreserved(c: CodePoint) {
    || c == 0x2D || c == 0x2E || c == 0x5F || c == 0x7E
    || 0x30 <= c <= 0x39 || 0x41 <= c <= 0x5A || 0x61 <= c <= 0x7A
  }

  /** Left as it is: an unreserved character and, in the older format, a parenthesis. */
  predicate IsPlain(c: CodePoint, rfc1738: bool) { IsUnreserved(c) || (rfc1738 && (c == 0x28 || c == 0x29)) }

  function HexDigit(n: bv24): Unit
    requires n < 16
  {
    if n < 10 then 0x30 + n else 0x37 + n
  }

  /** An entry of the table of escapes. */
  function Hex(b: Byte): seq<Unit> { [0x25, HexDigit(b >> 4), HexDigit(b & 0xF)] }

  function HexAll(bytes: seq<Byte>): seq<Unit> {
    if bytes == [] then [] else Hex(bytes[0]) + HexAll(bytes[1..])
  }

  // the bytes of a character: a leading one, and trailing ones with six bits each
  function Lead2(c: CodePoint): Byte
    requires c < 0x800
  {
    0xC0 | (c >> 6)
  }

  function Lead3(c: CodePoint): Byte
    requires c < 0x10000
  {
    0xE0 | (c >> 12)
  }

  function Lead4(c: CodePoint): Byte { 0xF0 | (c >> 18) }

  function Tail0(c: CodePoint): Byte { 0x80 | (c & 0x3F) }

  function Tail6(c: CodePoint): Byte { 0x80 | ((c >> 6) & 0x3F) }

  function Tail12(c: CodePoint): Byte { 0x80 | ((c >> 12) & 0x3F) }

  function Bytes(c: CodePoint): seq<Byte> {
    if c < 0x80 then [c]
    else if c < 0x800 then [Lead2(c), Tail0(c)]
    else if c < 0x10000 then [Lead3(c), Tail6(c), Tail0(c)]
    else [Lead4(c), Tail12(c), Tail6(c), Tail0(c)]
  }

  function Escape(c: CodePoint, rfc1738: bool): seq<Unit> {
    if IsPlain(c, rfc1738) then [c] else HexAll(Bytes(c))
  }

  function EscapeAll(cs: seq<CodePoint>, rfc1738: bool): seq<Unit> {
    if cs == [] then [] else Escape(cs[0], rfc1738) + EscapeAll(cs[1..], rfc1738)
  }

  /** Two units taken for a surrogate pair; past the end of a segment there is nothing, which counts as 0. */
  function Combine(hi: Unit, lo: Unit): CodePoint { 0x10000 + (((hi & 0x3FF) << 10) | (lo & 0x3FF)) }

  /** The code points the encoder takes `s` for, when `s` begins at position `at` of the whole string. */
  function ReadFrom(s: seq<Unit>, at: nat): seq<CodePoint> {
    if s == [] then []
    else if !IsSurrogate(s[0]) then [s[0]] + ReadFrom(s[1..], at + 1)
    else if EndsSegment(at) || |s| == 1 then [Combine(s[0], 0)] + ReadFrom(s[1..], at + 1)
    else [Combine(s[0], s[1])] + ReadFrom(s[2..], at + 2)
  }

  function Encoded(s: seq<Unit>, rfc1738: bool): seq<Unit> { EscapeAll(ReadFrom(s, 0), rfc1738) }

  /** The code point read at `i` of a segment, and where the next turn starts. */
  function TakenAt(segment: seq<Unit>, i: nat): CodePoint
    requires i < |segment|
  {
    if IsSurrogate(segment[i]) then Combine(segment[i], if i + 1 < |segment| then segment[i + 1] else 0)
    else segment[i]
  }

  function NextAt(segment: seq<Unit>, i: nat): nat
    requires i < |segment|
  {
    if IsSurrogate(segment[i]) then i + 2 else i + 1
  }

  /** One turn of the inner loop: what the unit at `i` of a segment adds, and where the next turn starts. */
  method EscapeAt(segment: seq<Unit>, i: nat, rfc1738: bool) returns (piece: seq<Unit>, next: nat)
    requires i < |segment|
    ensures piece == Escape(TakenAt(segment, i), rfc1738) && next == NextAt(segment, i)
  {
    var c := segment[i];
    next := i + 1;
    EscapeParts(c, rfc1738);
    CombineScalar(c, if next < |segment| then segment[next] else 0);
    hide Escape, Hex, Lead2, Lead3, Lead4, Tail0, Tail6, Tail12, Combine;
    if IsPlain(c, rfc1738) {
      return [c], next;
    }
    if c < 0x80 {
      return Hex(c), next;
    }
    if c < 0x800 {
      return Hex(Lead2(c)) + Hex(Tail0(c)), next;
    }
    if c < 0xD800 || c >= 0xE000 {
      return Hex(Lead3(c)) + Hex(Tail6(c)) + Hex(Tail0(c)), next;
    }
    var lo: Unit := if next < |segment| then segment[next] else 0;
    var pair := Combine(c, lo);
    next := next + 1;
    EscapeParts(pair, rfc1738);
    piece := Hex(Lead4(pair)) + Hex(Tail12(pair)) + Hex(Tail6(pair)) + Hex(Tail0(pair));
  }

  lemma PlainIsAscii(c: CodePoint, rfc1738: bool)
    ensures IsPlain(c, rfc1738) ==> c < 0x80 && !IsSurrogate(c)
  {
  }

  lemma EscapeParts(c: CodePoint, rfc1738: bool)
    ensures IsPlain(c, rfc1738) ==> Escape(c, rfc1738) == [c] && c < 0x80 && !IsSurrogate(c)
    ensures !IsPlain(c, rfc1738) && c < 0x80 ==> Escape(c, rfc1738) == Hex(c)
    ensures 0x80 <= c < 0x800 ==> Escape(c, rfc1738) == Hex(Lead2(c)) + Hex(Tail0(c))
    ensures 0x800 <= c < 0x10000 ==> Escape(c, rfc1738) == Hex(Lead3(c)) + Hex(Tail6(c)) + Hex(Tail0(c))
    ensures 0x10000 <= c ==>
      Escape(c, rfc1738) == Hex(Lead4(c)) + Hex(Tail12(c)) + Hex(Tail6(c)) + Hex(Tail0(c))
  {
    PlainIsAscii(c, rfc1738);
    hide IsPlain, Hex, HexAll, Lead2, Lead3, Lead4, Tail0, Tail6, Tail12;
    if c < 0x80 {
      HexOne(c);
    } else if c < 0x800 {
      HexTwo(Lead2(c), Tail0(c));
    } else if c < 0x10000 {
      HexThree(Lead3(c), Tail6(c), Tail0(c));
    } else {
      HexFour(Lead4(c), Tail12(c), Tail6(c), Tail0(c));
    }
  }

  lemma HexOne(a: Byte)
    ensures HexAll([a]) == Hex(a)
  {
    assert [a][1..] == [];
  }

  lemma HexTwo(a: Byte, b: Byte)
    ensures HexAll([a, b]) == Hex(a) + Hex(b)
  {
    assert [a, b][1..] == [b];
    HexOne(b);
  }

  lemma HexThree(a: Byte, b: Byte, c: Byte)
    ensures HexAll([a, b, c]) == Hex(a) + Hex(b) + Hex(c)
  {
    assert [a, b, c][1..] == [b, c];
    HexTwo(b, c);
  }

  lemma HexFour(a: Byte, b: Byte, c: Byte, d: Byte)
    ensures HexAll([a, b, c, d]) == Hex(a) + Hex(b) + Hex(c) + Hex(d)
  {
    assert [a, b, c, d][1..] == [b, c, d];
    HexThree(b, c, d);
  }

  /** What is still to be written when `s` has been read up to position `at`. */
  function Left(s: seq<Unit>, at: nat, rfc1738: bool): seq<Unit>
    requires at <= |s|
  {
    EscapeAll(ReadFrom(s[at..], at), rfc1738)
  }

  predicate IsSegment(s: seq<Unit>, j: nat, end: nat) {
    j % 1024 == 0 && j < end <= |s| && (end == j + LIMIT || end == |s| < j + LIMIT)
  }

  /** What the encoder reads at `i` of the segment from `j` to `end`, and where it goes on. */
  lemma Reading(s: seq<Unit>, j: nat, end: nat, i: nat)
    requires IsSegment(s, j, end) && i < end - j
    ensures var at := j + i; var next := j + Min(NextAt(s[j..end], i), end - j);
      ReadFrom(s[at..], at) == [TakenAt(s[j..end], i)] + ReadFrom(s[next..], next)
  {
    var at, segment := j + i, s[j..end];
    assert EndsSegment(at) <==> at + 1 == j + LIMIT;
    hide EndsSegment, Combine, IsSurrogate;
    assert segment[i] == s[at] && (at + 1 < end ==> segment[i + 1] == s[at + 1]);
    var rest := s[at..];
    assert rest[1..] == s[at + 1..];
    if at + 1 < end { assert rest[1] == s[at + 1] && rest[2..] == s[at + 2..]; }
  }

  lemma EscapeNext(c: CodePoint, cs: seq<CodePoint>, rfc1738: bool)
    ensures EscapeAll([c] + cs, rfc1738) == Escape(c, rfc1738) + EscapeAll(cs, rfc1738)
  {
    assert ([c] + cs)[1..] == cs;
  }

  /** One turn of the inner loop, seen from the whole text. */
  lemma Turn(s: seq<Unit>, j: nat, end: nat, i: nat, rfc1738: bool)
    requires IsSegment(s, j, end) && i < end - j
    ensures var segment := s[j..end];
      Left(s, j + i, rfc1738)
      == Escape(TakenAt(segment, i), rfc1738) + Left(s, j + Min(NextAt(segment, i), end - j), rfc1738)
  {
    Reading(s, j, end, i);
    hide ReadFrom, Escape, EscapeAll, TakenAt, NextAt;
    var after := j + Min(NextAt(s[j..end], i), end - j);
    EscapeNext(TakenAt(s[j..end], i), ReadFrom(s[after..], after), rfc1738);
  }

  method Encode(s: seq<Unit>, rfc1738: bool) returns (out: seq<Unit>)
    ensures out == Encoded(s, rfc1738)
  {
    out := [];
    var j := 0;
    LeftEnds(s, rfc1738);
    hide Left, Encoded;
    while j < |s|
      invariant j % 1024 == 0
      invariant out + Left(s, Min(j, |s|), rfc1738) == Encoded(s, rfc1738)
    {
      var end := Min(j + LIMIT, |s|);
      var segment := if |s| >= LIMIT then s[j..end] else s;
      assert segment == s[j..end];
      var arr := EncodeSegment(s, j, end, segment, rfc1738);
      assert out + (arr + Left(s, end, rfc1738)) == out + arr + Left(s, end, rfc1738);
      out := out + arr;
      j := j + LIMIT;
    }
    assert out + [] == out;
  }

  lemma LeftEnds(s: seq<Unit>, rfc1738: bool)
    ensures [] + Left(s, 0, rfc1738) == Encoded(s, rfc1738) && Left(s, |s|, rfc1738) == []
  {
    assert s[0..] == s && s[|s|..] == [];
  }

  /** The inner loop over one segment. */
  method EncodeSegment(ghost s: seq<Unit>, ghost j: nat, ghost end: nat, segment: seq<Unit>, rfc1738: bool)
    returns (arr: seq<Unit>)
    requires IsSegment(s, j, end) && segment == s[j..end]
    ensures arr + Left(s, end, rfc1738) == Left(s, j, rfc1738)
  {
    hide Left, TakenAt, Escape;
    arr := [];
    var i := 0;
    assert [] + Left(s, j, rfc1738) == Left(s, j, rfc1738);
    while i < |segment|
      invariant i <= |segment| + 1
      invariant arr + Left(s, j + Min(i, |segment|), rfc1738) == Left(s, j, rfc1738)
    {
      var piece, next := EscapeAt(segment, i, rfc1738);
      Turn(s, j, end, i, rfc1738);
      ghost var left := Left(s, j + Min(next, |segment|), rfc1738);
      assert arr + (piece + left) == arr + piece + left;
      arr, i := arr + piece, next;
    }
  }

  // ----- reading it back -----

  /** RFC 3986, section 2.1, either case of hexadecimal digit. */
  function HexValue(c: Unit): (r: Option<bv24>)
    ensures r.Some? ==> r.value < 16
  {
    if 0x30 <= c <= 0x39 then Some(c - 0x30)
    else if 0x41 <= c <= 0x46 then Some(c - 0x37)
    else if 0x61 <= c <= 0x66 then Some(c - 0x57)
    else None
  }

  function HexPair(high: Unit, low: Unit): Option<Byte> {
    if HexValue(high) == None || HexValue(low) == None then None
    else Some((HexValue(high).value << 4) | HexValue(low).value)
  }

  function PercentDecode(t: seq<Unit>): Option<seq<Byte>> {
    if t == [] then Some([])
    else if t[0] == 0x25 then
      if |t| < 3 || HexPair(t[1], t[2]) == None then None
      else Before([HexPair(t[1], t[2]).value], PercentDecode(t[3..]))
    else if t[0] < 0x80 then Before([t[0]], PercentDecode(t[1..]))
    else None
  }

  function Before<T>(first: seq<T>, rest: Option<seq<T>>): Option<seq<T>> {
    if rest.Some? then Some(first + rest.value) else None
  }

  predicate IsTail(b: Byte) { 0x80 <= b <= 0xBF }

  // the bits that two, three or four bytes carry
  function Value2(a: Byte, b: Byte): CodePoint { ((a & 0x1F) << 6) | (b & 0x3F) }

  function Value3(a: Byte, b: Byte, c: Byte): CodePoint { ((a & 0xF) << 12) | ((b & 0x3F) << 6) | (c & 0x3F) }

  function Value4(a: Byte, b: Byte, c: Byte, d: Byte): CodePoint {
    ((a & 0x7) << 18) | ((b & 0x3F) << 12) | ((c & 0x3F) << 6) | (d & 0x3F)
  }

  // which second byte may follow, so that no character is written longer than need be, nor a surrogate,
  // nor one past the last
  predicate Second3(a: Byte, b: Byte) { IsTail(b) && (a == 0xE0 ==> b >= 0xA0) && (a == 0xED ==> b <= 0x9F) }

  predicate Second4(a: Byte, b: Byte) { IsTail(b) && (a == 0xF0 ==> b >= 0x90) && (a == 0xF4 ==> b <= 0x8F) }

  /** The character at the head of some bytes, and its length: RFC 3629, sections 3 and 4. */
  function Utf8Head(b: seq<Byte>): (r: Option<(CodePoint, nat)>)
    requires b != []
    ensures r.Some? ==> 1 <= r.value.1 <= |b|
  {
    if b[0] < 0x80 then Some((b[0], 1))
    else if 0xC2 <= b[0] <= 0xDF && |b| >= 2 && IsTail(b[1]) then
      Some((Value2(b[0], b[1]), 2))
    else if 0xE0 <= b[0] <= 0xEF && |b| >= 3 && Second3(b[0], b[1]) && IsTail(b[2]) then
      Some((Value3(b[0], b[1], b[2]), 3))
    else if 0xF0 <= b[0] <= 0xF4 && |b| >= 4 && Second4(b[0], b[1]) && IsTail(b[2]) && IsTail(b[3]) then
      Some((Value4(b[0], b[1], b[2], b[3]), 4))
    else None
  }

  function Utf8Decode(b: seq<Byte>): Option<seq<CodePoint>>
    decreases |b|
  {
    if b == [] then Some([])
    else
      var h := Utf8Head(b);
      if h == None then None else Before([h.value.0], Utf8Decode(b[h.value.1..]))
  }

  /** What a server that undoes both encodings receives. */
  function Received(t: seq<Unit>): Option<seq<CodePoint>> {
    var b := PercentDecode(t);
    if b == None then None else Utf8Decode(b.value)
  }

  /** What a well-formed UTF-16 text says: RFC 2781, section 2.2. */
  predicate WellFormed(s: seq<Unit>) {
    if s == [] then true
    else if !IsSurrogate(s[0]) then WellFormed(s[1..])
    else |s| >= 2 && IsHigh(s[0]) && IsLow(s[1]) && WellFormed(s[2..])
  }

  function PairValue(hi: Unit, lo: Unit): CodePoint
    requires IsHigh(hi) && IsLow(lo)
  {
    0x10000 + ((hi - 0xD800) << 10) + (lo - 0xDC00)
  }

  function CodePoints(s: seq<Unit>): seq<CodePoint>
    requires WellFormed(s)
  {
    if s == [] then []
    else if !IsSurrogate(s[0]) then [s[0]] + CodePoints(s[1..])
    else [PairValue(s[0], s[1])] + CodePoints(s[2..])
  }

  // ----- whatever is read is sent without loss -----

  predicate IsScalar(c: CodePoint) { c < 0x110000 && !IsSurrogate(c) }

  lemma HexBack(b: Byte)
    ensures HexPair(Hex(b)[1], Hex(b)[2]) == Some(b)
  {
  }

  lemma HexFirst(b: Byte, rest: seq<Unit>)
    ensures PercentDecode(Hex(b) + rest) == Before([b], PercentDecode(rest))
  {
    HexBack(b);
    hide HexPair, HexDigit;
    assert (Hex(b) + rest)[3..] == rest;
  }

  lemma {:induction false} DecodeHexAll(bytes: seq<Byte>, rest: seq<Unit>)
    ensures PercentDecode(HexAll(bytes) + rest) == Before(bytes, PercentDecode(rest))
  {
    hide Hex, PercentDecode;
    if bytes == [] {
      assert HexAll(bytes) + rest == rest;
      if PercentDecode(rest).Some? { assert [] + PercentDecode(rest).value == PercentDecode(rest).value; }
    } else {
      var tail := HexAll(bytes[1..]);
      DecodeHexAll(bytes[1..], rest);
      HexFirst(bytes[0], tail + rest);
      assert HexAll(bytes) + rest == Hex(bytes[0]) + (tail + rest);
      if PercentDecode(rest).Some? {
        assert bytes == [bytes[0]] + bytes[1..];
        assert bytes + PercentDecode(rest).value == [bytes[0]] + (bytes[1..] + PercentDecode(rest).value);
      }
    }
  }

  lemma DecodeEscape(c: CodePoint, rfc1738: bool, rest: seq<Unit>)
    ensures PercentDecode(Escape(c, rfc1738) + rest) == Before(Bytes(c), PercentDecode(rest))
  {
    if IsPlain(c, rfc1738) {
      var t := [c] + rest;
      assert t[1..] == rest;
    } else {
      DecodeHexAll(Bytes(c), rest);
    }
  }

  function BytesAll(cs: seq<CodePoint>): seq<Byte> {
    if cs == [] then [] else Bytes(cs[0]) + BytesAll(cs[1..])
  }

  lemma {:induction false} DecodeEscapeAll(cs: seq<CodePoint>, rfc1738: bool)
    ensures PercentDecode(EscapeAll(cs, rfc1738)) == Some(BytesAll(cs))
  {
    if cs != [] {
      DecodeEscapeAll(cs[1..], rfc1738);
      DecodeEscape(cs[0], rfc1738, EscapeAll(cs[1..], rfc1738));
    }
  }

  lemma Bits2(c: CodePoint)
    requires 0x80 <= c < 0x800
    ensures 0xC2 <= Lead2(c) <= 0xDF && IsTail(Tail0(c)) && Value2(Lead2(c), Tail0(c)) == c
  {
  }

  /** The bits of three bytes, spelled out. */
  lemma Spread3(c: bv24)
    requires 0x800 <= c < 0x10000
    ensures ((((0xE0 | (c >> 12)) & 0xF) << 12) | (((0x80 | ((c >> 6) & 0x3F)) & 0x3F) << 6)
             | ((0x80 | (c & 0x3F)) & 0x3F)) == c
    ensures 0xE0 <= 0xE0 | (c >> 12) <= 0xEF
    ensures 0x80 <= 0x80 | ((c >> 6) & 0x3F) <= 0xBF && 0x80 <= 0x80 | (c & 0x3F) <= 0xBF
    ensures 0xE0 | (c >> 12) == 0xE0 ==> 0x80 | ((c >> 6) & 0x3F) >= 0xA0
    ensures 0xE0 | (c >> 12) == 0xED && !(0xD800 <= c < 0xE000) ==> 0x80 | ((c >> 6) & 0x3F) <= 0x9F
  {
  }

  lemma Bits3(c: CodePoint)
    requires 0x800 <= c < 0x10000 && IsScalar(c)
    ensures 0xE0 <= Lead3(c) <= 0xEF && Second3(Lead3(c), Tail6(c)) && IsTail(Tail0(c))
    ensures Value3(Lead3(c), Tail6(c), Tail0(c)) == c
  {
    Spread3(c);
  }

  /** The bits of four bytes, spelled out. */
  lemma Spread4(c: bv24)
    requires 0x10000 <= c < 0x110000
    ensures ((((0xF0 | (c >> 18)) & 0x7) << 18) | (((0x80 | ((c >> 12) & 0x3F)) & 0x3F) << 12)
             | (((0x80 | ((c >> 6) & 0x3F)) & 0x3F) << 6) | ((0x80 | (c & 0x3F)) & 0x3F)) == c
  {
  }

  lemma Lead4InRange(c: CodePoint)
    requires 0x10000 <= c < 0x110000
    ensures 0xF0 <= Lead4(c) <= 0xF4 && Second4(Lead4(c), Tail12(c))
  {
  }

  lemma TailsInRange(c: CodePoint)
    ensures IsTail(Tail6(c)) && IsTail(Tail0(c))
  {
  }

  lemma Value4Back(c: CodePoint)
    requires 0x10000 <= c < 0x110000
    ensures Value4(Lead4(c), Tail12(c), Tail6(c), Tail0(c)) == c
  {
    Spread4(c);
  }

  lemma Bits4(c: CodePoint)
    requires 0x10000 <= c < 0x110000
    ensures 0xF0 <= Lead4(c) <= 0xF4 && Second4(Lead4(c), Tail12(c)) && IsTail(Tail6(c)) && IsTail(Tail0(c))
    ensures Value4(Lead4(c), Tail12(c), Tail6(c), Tail0(c)) == c
  {
    hide Lead4, Tail12, Tail6, Tail0, Second4, Value4, IsTail;
    Lead4InRange(c);
    TailsInRange(c);
    Value4Back(c);
  }

  lemma Utf8HeadBack(c: CodePoint, rest: seq<Byte>)
    requires IsScalar(c)
    ensures Utf8Head(Bytes(c) + rest) == Some((c, |Bytes(c)|))
  {
    if c < 0x80 {
    } else if c < 0x800 {
      Bits2(c);
    } else if c < 0x10000 {
      Bits3(c);
    } else {
      Bits4(c);
    }
    hide Lead2, Lead3, Lead4, Tail0, Tail6, Tail12, Value2, Value3, Value4, Second3, Second4, IsTail, IsScalar;
  }

  lemma {:induction false} Utf8Back(cs: seq<CodePoint>)
    requires forall c :: c in cs ==> IsScalar(c)
    ensures Utf8Decode(BytesAll(cs)) == Some(cs)
  {
    if cs != [] {
      Utf8Back(cs[1..]);
      Utf8HeadBack(cs[0], BytesAll(cs[1..]));
      assert (Bytes(cs[0]) + BytesAll(cs[1..]))[|Bytes(cs[0])|..] == BytesAll(cs[1..]);
      assert cs == [cs[0]] + cs[1..];
    }
  }

  lemma CombineScalar(hi: Unit, lo: Unit)
    ensures IsScalar(Combine(hi, lo)) && Combine(hi, lo) >= 0x10000
    ensures IsHigh(hi) && IsLow(lo) ==> Combine(hi, lo) == PairValue(hi, lo)
  {
  }

  lemma {:induction false} ReadScalars(s: seq<Unit>, at: nat)
    ensures forall c :: c in ReadFrom(s, at) ==> IsScalar(c)
    decreases |s|
  {
    if s != [] {
      CombineScalar(s[0], 0);
      if |s| >= 2 {
        CombineScalar(s[0], s[1]);
        ReadScalars(s[2..], at + 2);
      }
      ReadScalars(s[1..], at + 1);
    }
  }

  /** Whatever the text, the receiver gets exactly the code points the encoder took it for. */
  lemma ReceivedAsRead(s: seq<Unit>, rfc1738: bool)
    ensures Received(Encoded(s, rfc1738)) == Some(ReadFrom(s, 0))
  {
    DecodeEscapeAll(ReadFrom(s, 0), rfc1738);
    ReadScalars(s, 0);
    Utf8Back(ReadFrom(s, 0));
  }

  // ----- and when that is what the text says -----

  /** A surrogate pair across the edge of a segment. */
  predicate Straddles(s: seq<Unit>, at: nat) {
    exists i :: 0 <= i < |s| - 1 && IsHigh(s[i]) && IsLow(s[i + 1]) && EndsSegment(at + i)
  }

  function Width(c: CodePoint): nat {
    if c < 0x80 then 1 else if c < 0x800 then 2 else if c < 0x10000 then 3 else 4
  }

  function WidthAll(cs: seq<CodePoint>): nat {
    if cs == [] then 0 else Width(cs[0]) + WidthAll(cs[1..])
  }

  lemma StraddlesRest(s: seq<Unit>, at: nat, n: nat)
    requires n <= |s|
    requires forall i :: 0 <= i < n && i + 1 < |s| && IsHigh(s[i]) ==> !IsLow(s[i + 1]) || !EndsSegment(at + i)
    ensures Straddles(s, at) <==> Straddles(s[n..], at + n)
  {
    if Straddles(s, at) {
      var i :| 0 <= i < |s| - 1 && IsHigh(s[i]) && IsLow(s[i + 1]) && EndsSegment(at + i);
      assert s[n..][i - n] == s[i] && s[n..][i - n + 1] == s[i + 1];
    }
    if Straddles(s[n..], at + n) {
      var i :| 0 <= i < |s[n..]| - 1 && IsHigh(s[n..][i]) && IsLow(s[n..][i + 1]) && EndsSegment(at + n + i);
      assert s[n..][i] == s[i + n] && s[n..][i + 1] == s[i + n + 1];
    }
  }

  lemma Sorts(c: Unit)
    ensures IsSurrogate(c) <==> IsHigh(c) || IsLow(c)
    ensures !(IsHigh(c) && IsLow(c))
    ensures IsLow(c) ==> IsSurrogate(c)
  {
  }

  lemma WidthNext(c: CodePoint, cs: seq<CodePoint>)
    ensures WidthAll([c] + cs) == Width(c) + WidthAll(cs)
  {
    assert ([c] + cs)[1..] == cs;
  }

  /** What a unit that is read by itself, or as the first of a pair, adds to the bytes. */
  lemma ReadWidth(s: seq<Unit>, at: nat)
    requires s != []
    ensures var n := if IsSurrogate(s[0]) && !EndsSegment(at) && |s| > 1 then 2 else 1;
      WidthAll(ReadFrom(s, at))
      == (if IsSurrogate(s[0]) then 4 else Width(s[0])) + WidthAll(ReadFrom(s[n..], at + n))
  {
    CombineScalar(s[0], 0);
    hide Combine, IsSurrogate, EndsSegment, WidthAll;
    WidthNext(s[0], ReadFrom(s[1..], at + 1));
    WidthNext(Combine(s[0], 0), ReadFrom(s[1..], at + 1));
    if |s| > 1 {
      CombineScalar(s[0], s[1]);
      WidthNext(Combine(s[0], s[1]), ReadFrom(s[2..], at + 2));
    }
  }

  lemma PointsWidth(s: seq<Unit>)
    requires s != [] && WellFormed(s)
    ensures if IsSurrogate(s[0]) then WidthAll(CodePoints(s)) == 4 + WidthAll(CodePoints(s[2..]))
            else WidthAll(CodePoints(s)) == Width(s[0]) + WidthAll(CodePoints(s[1..]))
  {
    if IsSurrogate(s[0]) {
      CombineScalar(s[0], s[1]);
      hide Combine, PairValue, WidthAll;
      WidthNext(PairValue(s[0], s[1]), CodePoints(s[2..]));
    } else {
      hide WidthAll;
      WidthNext(s[0], CodePoints(s[1..]));
    }
  }

  lemma UnitWidth(c: Unit)
    ensures 1 <= Width(c) <= 3
  {
  }

  /** In step with the text, the encoder reads what it says up to the first pair it splits; then it reads more. */
  lemma {:induction false} InStep(s: seq<Unit>, at: nat)
    requires WellFormed(s)
    ensures !Straddles(s, at) ==> ReadFrom(s, at) == CodePoints(s)
    ensures Straddles(s, at) ==> WidthAll(ReadFrom(s, at)) > WidthAll(CodePoints(s))
    decreases |s|, 0
  {
    if s != [] {
      ReadWidth(s, at);
      PointsWidth(s);
      Sorts(s[0]);
      if !IsSurrogate(s[0]) {
        InStep(s[1..], at + 1);
        StraddlesRest(s, at, 1);
      } else {
        Sorts(s[1]);
        CombineScalar(s[0], s[1]);
        hide WidthAll, Combine, PairValue, EndsSegment, IsSurrogate, IsHigh, IsLow;
        if EndsSegment(at) {
          assert Straddles(s, at);
          assert s[1..][1..] == s[2..];
          OutOfStep(s[1..], at + 1);
        } else {
          InStep(s[2..], at + 2);
          StraddlesRest(s, at, 2);
        }
      }
    }
  }

  /** One low surrogate behind, it reads at least one byte too much. */
  lemma {:induction false} OutOfStep(s: seq<Unit>, at: nat)
    requires s != [] && IsLow(s[0]) && WellFormed(s[1..])
    ensures WidthAll(ReadFrom(s, at)) > WidthAll(CodePoints(s[1..]))
    decreases |s|, 1
  {
    var w := s[1..];
    Sorts(s[0]);
    ReadWidth(s, at);
    hide ReadFrom, CodePoints, WidthAll, EndsSegment, IsSurrogate, IsHigh, IsLow, Straddles;
    if EndsSegment(at) || |s| == 1 {
      InStep(w, at + 1);
    } else {
      assert s[2..] == w[1..];
      PointsWidth(w);
      UnitWidth(w[0]);
      if !IsSurrogate(w[0]) {
        InStep(w[1..], at + 2);
      } else {
        assert w[1..][1..] == w[2..];
        OutOfStep(w[1..], at + 2);
      }
    }
  }

  /** For a well-formed text the receiver gets what it says exactly when no pair lies across a segment's edge. */
  lemma ReceivedIff(s: seq<Unit>, rfc1738: bool)
    requires WellFormed(s)
    ensures Received(Encoded(s, rfc1738)) == Some(CodePoints(s)) <==> !Straddles(s, 0)
  {
    ReceivedAsRead(s, rfc1738);
    InStep(s, 0);
  }

  function Letters(n: nat): seq<Unit> { if n == 0 then [] else [0x61] + Letters(n - 1) }

  lemma LetterThen(s: seq<Unit>)
    requires WellFormed(s)
    ensures WellFormed([0x61] + s)
  {
    assert ([0x61] + s)[1..] == s;
  }

  lemma {:induction false} LettersThen(n: nat, s: seq<Unit>)
    requires WellFormed(s)
    ensures |Letters(n)| == n && WellFormed(Letters(n) + s)
  {
    hide WellFormed;
    if n == 0 {
      assert Letters(n) + s == s;
    } else {
      LettersThen(n - 1, s);
      LetterThen(Letters(n - 1) + s);
      assert Letters(n) + s == [0x61] + (Letters(n - 1) + s);
    }
  }

  /** So 1023 letters and then U+1F600 do not arrive. */
  lemma SplitPair()
    ensures var s := Letters(1023) + [0xD83D, 0xDE00];
      WellFormed(s) && Received(Encoded(s, false)) != Some(CodePoints(s))
  {
    var pair: seq<Unit> := [0xD83D, 0xDE00];
    assert pair[2..] == [];
    LettersThen(1023, pair);
    var s := Letters(1023) + pair;
    assert IsHigh(s[1023]) && IsLow(s[1024]) && EndsSegment(0 + 1023);
    ReceivedIff(s, false);
  }

  // ----- the characters used -----

  /** Only unreserved characters and escapes with upper-case digits, and in the older format parentheses. */
  predicate IsEscaped(t: seq<Unit>, rfc1738: bool) {
    if t == [] then true
    else if t[0] == 0x25 then |t| >= 3 && IsUpperHex(t[1]) && IsUpperHex(t[2]) && IsEscaped(t[3..], rfc1738)
    else IsPlain(t[0], rfc1738) && IsEscaped(t[1..], rfc1738)
  }

  predicate IsUpperHex(c: Unit) { 0x30 <= c <= 0x39 || 0x41 <= c <= 0x46 }

  lemma HexEscaped(b: Byte, rest: seq<Unit>, rfc1738: bool)
    requires IsEscaped(rest, rfc1738)
    ensures IsEscaped(Hex(b) + rest, rfc1738)
  {
    assert (Hex(b) + rest)[3..] == rest;
  }

  lemma {:induction false} HexAllEscaped(bytes: seq<Byte>, rest: seq<Unit>, rfc1738: bool)
    requires IsEscaped(rest, rfc1738)
    ensures IsEscaped(HexAll(bytes) + rest, rfc1738)
  {
    hide Hex, IsEscaped;
    if bytes == [] {
      assert HexAll(bytes) + rest == rest;
    } else {
      HexAllEscaped(bytes[1..], rest, rfc1738);
      HexEscaped(bytes[0], HexAll(bytes[1..]) + rest, rfc1738);
      assert HexAll(bytes) + rest == Hex(bytes[0]) + (HexAll(bytes[1..]) + rest);
    }
  }

  lemma {:induction false} EncodedIsEscaped(cs: seq<CodePoint>, rfc1738: bool)
    ensures IsEscaped(EscapeAll(cs, rfc1738), rfc1738)
  {
    if cs != [] {
      EncodedIsEscaped(cs[1..], rfc1738);
      var rest := EscapeAll(cs[1..], rfc1738);
      if IsPlain(cs[0], rfc1738) {
        assert ([cs[0]] + rest)[1..] == rest;
      } else {
        HexAllEscaped(Bytes(cs[0]), rest, rfc1738);
      }
    }
  }

  /** The characters that are written as they are: letters, digits, four signs, and in the older format parentheses. */
  lemma PlainAre(c: CodePoint, rfc1738: bool)
    ensures var x := c as int;
      Escape(c, rfc1738) == [c]
      <==> || 'A' as int <= x <= 'Z' as int || 'a' as int <= x <= 'z' as int || '0' as int <= x <= '9' as int
           || x == '-' as int || x == '.' as int || x == '_' as int || x == '~' as int
           || (rfc1738 && (x == '(' as int || x == ')' as int))
  {
    if !IsPlain(c, rfc1738) {
      var bytes := Bytes(c);
      assert |HexAll(bytes)| >= 3 by { assert HexAll(bytes) == Hex(bytes[0]) + HexAll(bytes[1..]); }
    }
  }
}
