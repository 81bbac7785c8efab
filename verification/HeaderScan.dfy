/**
  Lane selection for gossip payloads: a scan that reads no further than a leading `type` member,
  against the full parse of the header.

  JSON follows RFC 8259; text is UTF-8 as in RFC 3629.  The full parse takes the header as an
  object or as an array, ignores members that it does not know, and takes a unit variant as a
  string or as a one-member object with a null.
*/
module HeaderScan {
  import opened Basics

  type byte = x: int | 0 <= x < 256

  const QUOTE: byte := 0x22
  const BACKSLASH: byte := 0x5C
  const LBRACE: byte := 0x7B
  const RBRACE: byte := 0x7D
  const LBRACKET: byte := 0x5B
  const RBRACKET: byte := 0x5D
  const COLON: byte := 0x3A
  const COMMA: byte := 0x2C
  const MINUS: byte := 0x2D
  const PLUS: byte := 0x2B
  const DOT: byte := 0x2E
  const ZERO: byte := 0x30
  const NINE: byte := 0x39
  const U: byte := 0x75

  datatype Lane = Snapshot | Event

  predicate Ascii(s: string) { forall i | 0 <= i < |s| :: s[i] as int < 128 }

  function Text(s: string): seq<byte>
    requires Ascii(s)
  {
    seq(|s|, i requires 0 <= i < |s| => s[i] as int)
  }

  const TYPE: seq<byte> := Text("type")

  function Label(l: Lane): seq<byte> { if l.Snapshot? then Text("snapshot_announce_v1") else Text("event_v1") }

  function LaneOf(t: seq<byte>): Option<Lane> {
    if t == Label(Snapshot) then Some(Snapshot) else if t == Label(Event) then Some(Event) else None
  }

  // ----- Strings -----

  datatype Char = Plain(b: byte) | Escape(e: byte) | Unicode(h0: byte, h1: byte, h2: byte, h3: byte)

  predicate IsHex(b: byte) { 0x30 <= b <= 0x39 || 0x41 <= b <= 0x46 || 0x61 <= b <= 0x66 }

  /** The bytes that may follow a backslash on their own: `"`, `\`, `/`, b, f, n, r, t. */
  predicate IsEscape(b: byte) { b in {0x22, 0x5C, 0x2F, 0x62, 0x66, 0x6E, 0x72, 0x74} }

  predicate ValidChar(c: Char) {
    match c
    case Plain(b) => b >= 0x20 && b != QUOTE && b != BACKSLASH
    case Escape(e) => IsEscape(e)
    case Unicode(h0, h1, h2, h3) => IsHex(h0) && IsHex(h1) && IsHex(h2) && IsHex(h3)
  }

  predicate Valid(cs: seq<Char>) { forall c | c in cs :: ValidChar(c) }

  function EncodeChar(c: Char): seq<byte> {
    match c
    case Plain(b) => [b]
    case Escape(e) => [BACKSLASH, e]
    case Unicode(h0, h1, h2, h3) => [BACKSLASH, U, h0, h1, h2, h3]
  }

  function Encode(cs: seq<Char>): seq<byte> { if cs == [] then [] else EncodeChar(cs[0]) + Encode(cs[1..]) }

  function Literal(cs: seq<Char>): seq<byte> { [QUOTE] + Encode(cs) + [QUOTE] }

  function HexValue(b: byte): (v: nat)
    requires IsHex(b)
    ensures v < 16
  {
    if b <= 0x39 then b - 0x30 else if b <= 0x46 then b - 0x41 + 10 else b - 0x61 + 10
  }

  function Unescape(e: byte): byte {
    if e == 0x62 then 8 else if e == 0x66 then 12 else if e == 0x6E then 10 else if e == 0x72 then 13
    else if e == 0x74 then 9 else e
  }

  function CodeUnit(c: Char): nat
    requires c.Unicode? && ValidChar(c)
    ensures CodeUnit(c) < 0x10000
  {
    ((HexValue(c.h0) * 16 + HexValue(c.h1)) * 16 + HexValue(c.h2)) * 16 + HexValue(c.h3)
  }

  predicate High(u: nat) { 0xD800 <= u < 0xDC00 }

  predicate Low(u: nat) { 0xDC00 <= u < 0xE000 }

  function Scalar(u: nat): seq<byte>
    requires u < 0x110000
  {
    if u < 0x80 then [u]
    else if u < 0x800 then [0xC0 + u / 0x40, 0x80 + u % 0x40]
    else if u < 0x10000 then [0xE0 + u / 0x1000, 0x80 + u / 0x40 % 0x40, 0x80 + u % 0x40]
    else [0xF0 + u / 0x40000, 0x80 + u / 0x1000 % 0x40, 0x80 + u / 0x40 % 0x40, 0x80 + u % 0x40]
  }

  /** The bytes that characters stand for, unless a surrogate is alone. */
  function Unescaped(cs: seq<Char>): Option<seq<byte>>
    requires Valid(cs)
  {
    if cs == [] then Some([])
    else
      match cs[0]
      case Plain(b) => After([b], Unescaped(cs[1..]))
      case Escape(e) => After([Unescape(e)], Unescaped(cs[1..]))
      case Unicode(_, _, _, _) =>
        var u := CodeUnit(cs[0]);
        if Low(u) then None
        else if !High(u) then After(Scalar(u), Unescaped(cs[1..]))
        else if |cs| >= 2 && cs[1].Unicode? && Low(CodeUnit(cs[1])) then
          After(Scalar(0x10000 + (u - 0xD800) * 0x400 + (CodeUnit(cs[1]) - 0xDC00)), Unescaped(cs[2..]))
        else None
  }

  function After(b: seq<byte>, rest: Option<seq<byte>>): Option<seq<byte>> {
    if rest.None? then None else Some(b + rest.value)
  }

  predicate Continues(b: seq<byte>, n: nat) { |b| > n && forall i | 1 <= i <= n :: 0x80 <= b[i] < 0xC0 }

  predicate IsUtf8(b: seq<byte>) {
    if b == [] then true
    else if b[0] < 0x80 then IsUtf8(b[1..])
    else if 0xC2 <= b[0] < 0xE0 && Continues(b, 1) then IsUtf8(b[2..])
    else if 0xE0 <= b[0] < 0xF0 && Continues(b, 2) then
      (b[0] == 0xE0 ==> b[1] >= 0xA0) && (b[0] == 0xED ==> b[1] < 0xA0) && IsUtf8(b[3..])
    else if 0xF0 <= b[0] < 0xF5 && Continues(b, 3) then
      (b[0] == 0xF0 ==> b[1] >= 0x90) && (b[0] == 0xF4 ==> b[1] < 0x90) && IsUtf8(b[4..])
    else false
  }

  function Decode(cs: seq<Char>): Option<seq<byte>>
    requires Valid(cs)
  {
    var b := Unescaped(cs);
    if b.Some? && IsUtf8(b.value) then b else None
  }

  /** The characters between the quotes, if they are well-formed. */
  function ParseChars(b: seq<byte>): (r: Option<seq<Char>>)
    ensures r.Some? ==> Valid(r.value) && Encode(r.value) == b
    decreases |b|
  {
    if b == [] then Some([])
    else if b[0] == BACKSLASH then
      if |b| >= 2 && IsEscape(b[1]) then Prepend(Escape(b[1]), b, 2)
      else if |b| >= 6 && b[1] == U && IsHex(b[2]) && IsHex(b[3]) && IsHex(b[4]) && IsHex(b[5]) then
        Prepend(Unicode(b[2], b[3], b[4], b[5]), b, 6)
      else None
    else if b[0] < 0x20 || b[0] == QUOTE then None
    else Prepend(Plain(b[0]), b, 1)
  }

  function Prepend(c: Char, b: seq<byte>, n: nat): (r: Option<seq<Char>>)
    requires 0 < n <= |b| && ValidChar(c) && EncodeChar(c) == b[..n]
    ensures r.Some? ==> Valid(r.value) && Encode(r.value) == b
    decreases |b|, 0
  {
    var rest := ParseChars(b[n..]);
    if rest.None? then None
    else
      assert ([c] + rest.value)[1..] == rest.value;
      assert b == b[..n] + b[n..];
      Some([c] + rest.value)
  }

  /** The first character is recognised whatever follows. */
  lemma ParseFirst(c: Char, rest: seq<byte>)
    requires ValidChar(c)
    ensures var b := EncodeChar(c) + rest;
            b[..|EncodeChar(c)|] == EncodeChar(c) && b[|EncodeChar(c)|..] == rest
                && ParseChars(b) == Prepend(c, b, |EncodeChar(c)|)
  {
    var b := EncodeChar(c) + rest;
    assert b[0] == EncodeChar(c)[0];
    if !c.Plain? {
      assert b[1] == EncodeChar(c)[1];
    }
    if c.Unicode? {
      assert b[2] == c.h0 && b[3] == c.h1 && b[4] == c.h2 && b[5] == c.h3;
    }
  }

  lemma {:induction false} ParseEncode(cs: seq<Char>)
    requires Valid(cs)
    ensures ParseChars(Encode(cs)) == Some(cs)
  {
    if cs != [] {
      ParseEncode(cs[1..]);
      ParseFirst(cs[0], Encode(cs[1..]));
      hide ParseChars, EncodeChar;
      assert cs == [cs[0]] + cs[1..];
    }
  }

  /** A string literal and nothing else. */
  function DecodeLiteral(b: seq<byte>): Option<seq<byte>> {
    if |b| < 2 || b[0] != QUOTE || b[|b| - 1] != QUOTE then None
    else
      var cs := ParseChars(b[1..|b| - 1]);
      if cs.None? then None else Decode(cs.value)
  }

  lemma DecodeOfLiteral(cs: seq<Char>)
    requires Valid(cs)
    ensures DecodeLiteral(Literal(cs)) == Decode(cs)
  {
    ParseEncode(cs);
    assert Literal(cs)[1..|Literal(cs)| - 1] == Encode(cs);
  }

  // ----- The end of a string -----

  function Scan(p: seq<byte>, i: nat, escaped: bool): Option<nat>
    decreases |p| - i
  {
    if i >= |p| then None
    else if escaped then Scan(p, i + 1, false)
    else if p[i] == BACKSLASH then Scan(p, i + 1, true)
    else if p[i] == QUOTE then Some(i + 1)
    else Scan(p, i + 1, false)
  }

  function StringEnd(p: seq<byte>, start: nat): Option<nat> {
    if start < |p| && p[start] == QUOTE then Scan(p, start + 1, false) else None
  }

  method JsonStringEnd(p: seq<byte>, start: nat) returns (r: Option<nat>)
    ensures r == StringEnd(p, start)
  {
    if start >= |p| || p[start] != QUOTE {
      return None;
    }
    var i, escaped := start + 1, false;
    while i < |p|
      invariant start < i <= |p|
      invariant StringEnd(p, start) == Scan(p, i, escaped)
    {
      if escaped {
        escaped := false;
      } else if p[i] == BACKSLASH {
        escaped := true;
      } else if p[i] == QUOTE {
        return Some(i + 1);
      }
      i := i + 1;
    }
    return None;
  }

  /** The run of backslashes right before a position, from `low` on. */
  function Backslashes(p: seq<byte>, low: nat, i: nat): nat
    requires i <= |p|
  {
    if i > low && p[i - 1] == BACKSLASH then 1 + Backslashes(p, low, i - 1) else 0
  }

  /** A quote closes the string that opened at `start` when an even run of backslashes precedes it. */
  predicate Closes(p: seq<byte>, start: nat, i: nat) {
    start < i < |p| && p[i] == QUOTE && Backslashes(p, start + 1, i) % 2 == 0
  }

  lemma {:induction false} ScanFindsFirst(p: seq<byte>, start: nat, i: nat)
    requires start < i <= |p|
    ensures var r := Scan(p, i, Backslashes(p, start + 1, i) % 2 == 1);
            if r.None? then forall j | i <= j :: !Closes(p, start, j)
            else i < r.value && Closes(p, start, r.value - 1) && forall j | i <= j < r.value - 1 :: !Closes(p, start, j)
    decreases |p| - i
  {
    if i < |p| && !Closes(p, start, i) {
      ScanFindsFirst(p, start, i + 1);
    }
  }

  /** The end is just past the first closing quote; there is none exactly when no quote closes. */
  lemma EndIsFirstClosingQuote(p: seq<byte>, start: nat)
    requires start < |p| && p[start] == QUOTE
    ensures var r := StringEnd(p, start);
            if r.None? then forall j: nat :: !Closes(p, start, j)
            else r.value > 0 && Closes(p, start, r.value - 1) && forall j: nat | j < r.value - 1 :: !Closes(p, start, j)
  {
    ScanFindsFirst(p, start, start + 1);
  }

  /** The bytes `w` stand at position `i`. */
  predicate Stands(p: seq<byte>, i: nat, w: seq<byte>) { i + |w| <= |p| && forall k | 0 <= k < |w| :: w[k] == p[i + k] }

  lemma StandsParts(p: seq<byte>, i: nat, v: seq<byte>, w: seq<byte>)
    requires Stands(p, i, v + w)
    ensures Stands(p, i, v) && Stands(p, i + |v|, w)
  {
    assert forall k | 0 <= k < |v| :: v[k] == (v + w)[k];
    assert forall k | 0 <= k < |w| :: w[k] == (v + w)[|v| + k];
  }

  lemma StandsJoined(p: seq<byte>, i: nat, v: seq<byte>, w: seq<byte>)
    requires Stands(p, i, v) && Stands(p, i + |v|, w)
    ensures Stands(p, i, v + w)
  {
    forall k | 0 <= k < |v + w|
      ensures (v + w)[k] == p[i + k]
    {
      if k < |v| {
        assert v[k] == p[i + k];
      } else {
        assert w[k - |v|] == p[i + |v| + (k - |v|)];
      }
    }
  }

  lemma {:induction false} ScanOverChars(p: seq<byte>, i: nat, cs: seq<Char>)
    requires Valid(cs) && Stands(p, i, Encode(cs) + [QUOTE])
    ensures Scan(p, i, false) == Some(i + |Encode(cs)| + 1)
    decreases |cs|
  {
    if cs == [] {
      assert (Encode(cs) + [QUOTE])[0] == QUOTE;
    } else {
      var n := |EncodeChar(cs[0])|;
      assert Encode(cs) + [QUOTE] == EncodeChar(cs[0]) + (Encode(cs[1..]) + [QUOTE]);
      StandsParts(p, i, EncodeChar(cs[0]), Encode(cs[1..]) + [QUOTE]);
      ScanOverChars(p, i + n, cs[1..]);
      SkipChar(p, i, cs[0]);
    }
  }

  lemma SkipChar(p: seq<byte>, i: nat, c: Char)
    requires ValidChar(c) && Stands(p, i, EncodeChar(c))
    ensures Scan(p, i, false) == Scan(p, i + |EncodeChar(c)|, false)
  {
    var w := EncodeChar(c);
    assert w[0] == p[i];
    if !c.Plain? {
      assert w[1] == p[i + 1];
      assert Scan(p, i, false) == Scan(p, i + 2, false);
    }
    if c.Unicode? {
      assert w[2] == p[i + 2] && w[3] == p[i + 3] && w[4] == p[i + 4] && w[5] == p[i + 5];
      assert Scan(p, i + 2, false) == Scan(p, i + 3, false) == Scan(p, i + 4, false);
      assert Scan(p, i + 4, false) == Scan(p, i + 5, false) == Scan(p, i + 6, false);
    }
  }

  /** Wherever a string literal stands, whatever surrounds it, the end found is its end. */
  lemma EndOfLiteral(p: seq<byte>, i: nat, cs: seq<Char>)
    requires Valid(cs) && Stands(p, i, Literal(cs))
    ensures StringEnd(p, i) == Some(i + |Literal(cs)|)
  {
    assert Literal(cs) == [QUOTE] + (Encode(cs) + [QUOTE]);
    StandsParts(p, i, [QUOTE], Encode(cs) + [QUOTE]);
    assert [QUOTE][0] == p[i];
    ScanOverChars(p, i + 1, cs);
  }

  // ----- The full parse -----

  predicate At(p: seq<byte>, i: nat, b: byte) { i < |p| && p[i] == b }

  predicate JsonSpace(b: byte) { b in {0x20, 0x09, 0x0A, 0x0D} }

  function Ws(p: seq<byte>, i: nat): (j: nat)
    ensures i <= j && (i <= |p| ==> j <= |p|)
    decreases |p| - i
  {
    if i < |p| && JsonSpace(p[i]) then Ws(p, i + 1) else i
  }

  /** The characters up to the closing quote, and the position after it. */
  function ReadChars(p: seq<byte>, i: nat): (r: Option<(seq<Char>, nat)>)
    ensures r.Some? ==> i < r.value.1 <= |p| && Valid(r.value.0) && Stands(p, i, Encode(r.value.0) + [QUOTE])
    ensures r.Some? ==> r.value.1 == i + |Encode(r.value.0)| + 1
    decreases |p| - i
  {
    if i >= |p| then None
    else if p[i] == QUOTE then Some(([], i + 1))
    else if p[i] == BACKSLASH then
      if i + 1 < |p| && IsEscape(p[i + 1]) then ReadMore(p, i, Escape(p[i + 1]))
      else if i + 5 < |p| && p[i + 1] == U && IsHex(p[i + 2]) && IsHex(p[i + 3]) && IsHex(p[i + 4])
          && IsHex(p[i + 5]) then
        ReadMore(p, i, Unicode(p[i + 2], p[i + 3], p[i + 4], p[i + 5]))
      else None
    else if p[i] < 0x20 then None
    else ReadMore(p, i, Plain(p[i]))
  }

  function ReadMore(p: seq<byte>, i: nat, c: Char): (r: Option<(seq<Char>, nat)>)
    requires ValidChar(c) && Stands(p, i, EncodeChar(c))
    ensures r.Some? ==> i < r.value.1 <= |p| && Valid(r.value.0) && Stands(p, i, Encode(r.value.0) + [QUOTE])
    ensures r.Some? ==> r.value.1 == i + |Encode(r.value.0)| + 1
    decreases |p| - i, 0
  {
    var rest := ReadChars(p, i + |EncodeChar(c)|);
    if rest.None? then None
    else
      StandsTogether(p, i, c, rest.value.0);
      Some(([c] + rest.value.0, rest.value.1))
  }

  lemma StandsTogether(p: seq<byte>, i: nat, c: Char, cs: seq<Char>)
    requires Stands(p, i, EncodeChar(c)) && Stands(p, i + |EncodeChar(c)|, Encode(cs) + [QUOTE])
    ensures Encode([c] + cs) == EncodeChar(c) + Encode(cs)
    ensures Stands(p, i, Encode([c] + cs) + [QUOTE])
  {
    assert ([c] + cs)[1..] == cs;
    StandsJoined(p, i, EncodeChar(c), Encode(cs) + [QUOTE]);
    assert Encode([c] + cs) + [QUOTE] == EncodeChar(c) + (Encode(cs) + [QUOTE]);
  }

  /** A string that may be ignored. */
  function ReadString(p: seq<byte>, i: nat): (r: Option<(seq<Char>, nat)>)
    ensures r.Some? ==> i < r.value.1 <= |p| && Valid(r.value.0)
  {
    if At(p, i, QUOTE) then ReadChars(p, i + 1) else None
  }

  /** A string that is read as text. */
  function ReadText(p: seq<byte>, i: nat): (r: Option<(seq<byte>, nat)>)
    ensures r.Some? ==> At(p, i, QUOTE) && i < r.value.1 <= |p|
  {
    var s := ReadString(p, i);
    if s.None? || Decode(s.value.0).None? then None else Some((Decode(s.value.0).value, s.value.1))
  }

  function Word(p: seq<byte>, i: nat, w: seq<byte>): (r: Option<nat>)
    requires w != []
    ensures r.Some? ==> i < r.value <= |p|
  {
    if Stands(p, i, w) then Some(i + |w|) else None
  }

  predicate Digit(p: seq<byte>, i: nat) { i < |p| && ZERO <= p[i] <= NINE }

  function Digits(p: seq<byte>, i: nat): (j: nat)
    ensures i <= j && (i <= |p| ==> j <= |p|) && (Digit(p, i) ==> i < j)
    decreases |p| - i
  {
    if Digit(p, i) then Digits(p, i + 1) else i
  }

  /** The fraction and the exponent of a number. */
  function Fraction(p: seq<byte>, i: nat): (r: Option<nat>)
    ensures r.Some? ==> i <= r.value && (i <= |p| ==> r.value <= |p|)
  {
    if !At(p, i, DOT) then Some(i) else if Digit(p, i + 1) then Some(Digits(p, i + 1)) else None
  }

  function Exponent(p: seq<byte>, i: nat): (r: Option<nat>)
    ensures r.Some? ==> i <= r.value && (i <= |p| ==> r.value <= |p|)
  {
    if !At(p, i, 0x65) && !At(p, i, 0x45) then Some(i)
    else
      var j := if At(p, i + 1, PLUS) || At(p, i + 1, MINUS) then i + 2 else i + 1;
      if Digit(p, j) then Some(Digits(p, j)) else None
  }

  function SkipNumber(p: seq<byte>, i: nat): (r: Option<nat>)
    ensures r.Some? ==> i < r.value <= |p|
  {
    var j := if At(p, i, MINUS) then i + 1 else i;
    if !Digit(p, j) then None
    else
      var whole := if p[j] == ZERO then j + 1 else Digits(p, j);
      var frac := Fraction(p, whole);
      if frac.None? then None else Exponent(p, frac.value)
  }

  /** A value that is ignored. */
  function SkipValue(p: seq<byte>, i: nat): (r: Option<nat>)
    ensures r.Some? ==> i < r.value <= |p|
    decreases |p| - i, 0
  {
    if i >= |p| then None
    else if p[i] == QUOTE then
      var s := ReadString(p, i);
      if s.None? then None else Some(s.value.1)
    else if p[i] == LBRACE then
      var j := Ws(p, i + 1);
      if At(p, j, RBRACE) then Some(j + 1) else SkipMembers(p, j)
    else if p[i] == LBRACKET then
      var j := Ws(p, i + 1);
      if At(p, j, RBRACKET) then Some(j + 1) else SkipElements(p, j)
    else if p[i] == 0x74 then Word(p, i, [0x74, 0x72, 0x75, 0x65])
    else if p[i] == 0x66 then Word(p, i, [0x66, 0x61, 0x6C, 0x73, 0x65])
    else if p[i] == 0x6E then Word(p, i, NULL)
    else SkipNumber(p, i)
  }

  const NULL: seq<byte> := [0x6E, 0x75, 0x6C, 0x6C]

  function SkipElements(p: seq<byte>, i: nat): (r: Option<nat>)
    ensures r.Some? ==> i < r.value <= |p|
    decreases |p| - i, 1
  {
    var e := SkipValue(p, i);
    if e.None? then None
    else
      var j := Ws(p, e.value);
      if At(p, j, COMMA) then SkipElements(p, Ws(p, j + 1)) else if At(p, j, RBRACKET) then Some(j + 1) else None
  }

  function SkipMembers(p: seq<byte>, i: nat): (r: Option<nat>)
    ensures r.Some? ==> i < r.value <= |p|
    decreases |p| - i, 1
  {
    var key := ReadString(p, i);
    if key.None? || !At(p, Ws(p, key.value.1), COLON) then None
    else
      var e := SkipValue(p, Ws(p, Ws(p, key.value.1) + 1));
      if e.None? then None
      else
        var j := Ws(p, e.value);
        if At(p, j, COMMA) then SkipMembers(p, Ws(p, j + 1)) else if At(p, j, RBRACE) then Some(j + 1) else None
  }

  function ReadLane(p: seq<byte>, i: nat): (r: Option<(Lane, nat)>)
    ensures r.Some? ==> At(p, i, QUOTE) && i < r.value.1 <= |p|
  {
    var t := ReadText(p, i);
    if t.None? || LaneOf(t.value.0).None? then None else Some((LaneOf(t.value.0).value, t.value.1))
  }

  /** The message type: a string, or a one-member object with a null. */
  function Variant(p: seq<byte>, i: nat): (r: Option<(Lane, nat)>)
    ensures r.Some? ==> i < r.value.1 <= |p| && (p[i] == QUOTE || p[i] == LBRACE)
  {
    if !At(p, i, LBRACE) then ReadLane(p, i)
    else
      var t := ReadLane(p, Ws(p, i + 1));
      if t.None? || !At(p, Ws(p, t.value.1), COLON) then None
      else
        var e := Word(p, Ws(p, Ws(p, t.value.1) + 1), NULL);
        if e.None? || !At(p, Ws(p, e.value), RBRACE) then None else Some((t.value.0, Ws(p, e.value) + 1))
  }

  /** One member: the type, at most once, or one that is ignored. */
  function HeaderMember(p: seq<byte>, i: nat, seen: Option<Lane>): (r: Option<(Option<Lane>, nat)>)
    ensures r.Some? ==> i < r.value.1 <= |p|
  {
    var key := ReadText(p, i);
    if key.None? || !At(p, Ws(p, key.value.1), COLON) then None
    else
      var v := Ws(p, Ws(p, key.value.1) + 1);
      if key.value.0 != TYPE then
        var e := SkipValue(p, v);
        if e.None? then None else Some((seen, e.value))
      else if seen.Some? then None
      else
        var t := Variant(p, v);
        if t.None? then None else Some((Some(t.value.0), t.value.1))
  }

  function HeaderMembers(p: seq<byte>, i: nat, seen: Option<Lane>): (r: Option<(Lane, nat)>)
    ensures r.Some? ==> i < r.value.1 <= |p|
    decreases |p| - i
  {
    var m := HeaderMember(p, i, seen);
    if m.None? then None
    else
      var j := Ws(p, m.value.1);
      if At(p, j, COMMA) then HeaderMembers(p, Ws(p, j + 1), m.value.0)
      else if At(p, j, RBRACE) && m.value.0.Some? then Some((m.value.0.value, j + 1))
      else None
  }

  function ArrayHeader(p: seq<byte>, i: nat): Option<(Lane, nat)> {
    var t := Variant(p, i);
    if t.None? || !At(p, Ws(p, t.value.1), RBRACKET) then None else Some((t.value.0, Ws(p, t.value.1) + 1))
  }

  /** The lane that the full parse of the header yields. */
  function ParseHeader(p: seq<byte>): Option<Lane> {
    var o := Ws(p, 0);
    var r :=
      if At(p, o, LBRACE) then HeaderMembers(p, Ws(p, o + 1), None)
      else if At(p, o, LBRACKET) then ArrayHeader(p, Ws(p, o + 1))
      else None;
    if r.Some? && Ws(p, r.value.1) == |p| then Some(r.value.0) else None
  }

  // ----- The scan -----

  predicate AsciiSpace(b: byte) { b in {0x20, 0x09, 0x0A, 0x0C, 0x0D} }

  function SkipSpace(p: seq<byte>, i: nat): nat
    decreases |p| - i
  {
    if i < |p| && AsciiSpace(p[i]) then SkipSpace(p, i + 1) else i
  }

  method SkipJsonWhitespace(p: seq<byte>, start: nat) returns (i: nat)
    ensures i == SkipSpace(p, start)
  {
    i := start;
    while i < |p| && AsciiSpace(p[i])
      invariant SkipSpace(p, start) == SkipSpace(p, i)
      decreases |p| - i
    {
      i := i + 1;
    }
  }

  /** The value of a leading `type` member, read as a string. */
  function ScanValue(p: seq<byte>, keyEnd: nat): Option<Lane> {
    var c := SkipSpace(p, keyEnd);
    if !At(p, c, COLON) then None
    else
      var v := SkipSpace(p, c + 1);
      var end := StringEnd(p, v);
      if end.None? || !(v <= end.value <= |p|) then None
      else
        var t := DecodeLiteral(p[v..end.value]);
        if t.None? then None else LaneOf(t.value)
  }

  /** The lane that the scan finds. */
  function Classified(p: seq<byte>): Option<Lane> {
    var o := SkipSpace(p, 0);
    if !At(p, o, LBRACE) then None
    else
      var k := SkipSpace(p, o + 1);
      var end := StringEnd(p, k);
      if end.None? || !(k <= end.value <= |p|) then None
      else
        var key := DecodeLiteral(p[k..end.value]);
        if key.None? then None else if key.value != TYPE then ParseHeader(p) else ScanValue(p, end.value)
  }

  lemma {:induction false} ScanBounds(p: seq<byte>, i: nat, escaped: bool)
    ensures var r := Scan(p, i, escaped); r.Some? ==> i < r.value <= |p|
    decreases |p| - i
  {
    if i < |p| {
      ScanBounds(p, i + 1, false);
      ScanBounds(p, i + 1, true);
    }
  }

  lemma EndBounds(p: seq<byte>, i: nat)
    ensures var r := StringEnd(p, i); r.Some? ==> i < r.value <= |p|
  {
    ScanBounds(p, i + 1, false);
  }

  method ClassifyGossipPayload(p: seq<byte>) returns (r: Option<Lane>)
    ensures r == Classified(p)
  {
    hide SkipSpace, StringEnd, DecodeLiteral, Text, LaneOf, ParseHeader;
    var i := SkipJsonWhitespace(p, 0);
    if i >= |p| || p[i] != LBRACE {
      return None;
    }
    i := SkipJsonWhitespace(p, i + 1);
    var keyEnd := JsonStringEnd(p, i);
    if keyEnd.None? {
      return None;
    }
    EndBounds(p, i);
    var key := DecodeLiteral(p[i..keyEnd.value]);
    if key.None? {
      return None;
    }
    if key.value != TYPE {
      return ParseHeader(p);
    }
    i := SkipJsonWhitespace(p, keyEnd.value);
    if i >= |p| || p[i] != COLON {
      return None;
    }
    i := SkipJsonWhitespace(p, i + 1);
    var valueEnd := JsonStringEnd(p, i);
    if valueEnd.None? {
      return None;
    }
    EndBounds(p, i);
    var t := DecodeLiteral(p[i..valueEnd.value]);
    if t.None? {
      return None;
    }
    return LaneOf(t.value);
  }

  // ----- The scan against the full parse -----

  lemma {:induction false} SkipIsWs(p: seq<byte>, i: nat)
    requires Ws(p, i) < |p| && !AsciiSpace(p[Ws(p, i)])
    ensures SkipSpace(p, i) == Ws(p, i)
    decreases |p| - i
  {
    if i < |p| && JsonSpace(p[i]) {
      SkipIsWs(p, i + 1);
    }
  }

  /** The scan finds the end that the full parse finds, and reads the same text. */
  lemma ScanReadsText(p: seq<byte>, i: nat)
    requires ReadText(p, i).Some?
    ensures var r := ReadText(p, i).value; StringEnd(p, i) == Some(r.1) && DecodeLiteral(p[i..r.1]) == Some(r.0)
  {
    var cs, e := ReadString(p, i).value.0, ReadString(p, i).value.1;
    hide Scan, DecodeLiteral, Decode, Encode, ReadChars;
    ScanOverChars(p, i + 1, cs);
    DecodeOfLiteral(cs);
    LiteralStands(p, i, cs);
  }

  lemma LiteralStands(p: seq<byte>, i: nat, cs: seq<Char>)
    requires At(p, i, QUOTE) && Stands(p, i + 1, Encode(cs) + [QUOTE])
    ensures p[i..i + |Encode(cs)| + 2] == Literal(cs)
  {
    hide Encode;
    var w, v := Encode(cs) + [QUOTE], p[i..i + |Encode(cs)| + 2];
    assert Literal(cs) == [QUOTE] + w;
    forall k | 0 <= k < |v|
      ensures v[k] == ([QUOTE] + w)[k]
    {
      assert k > 0 ==> w[k - 1] == p[i + 1 + (k - 1)];
    }
  }

  /** The first member is a `type` whose value starts with a brace. */
  predicate StartsWithMap(p: seq<byte>) {
    && At(p, Ws(p, 0), LBRACE)
    && var key := ReadText(p, Ws(p, Ws(p, 0) + 1));
       && key.Some? && key.value.0 == TYPE && At(p, Ws(p, key.value.1), COLON)
       && At(p, Ws(p, Ws(p, key.value.1) + 1), LBRACE)
  }

  predicate StartsWithBracket(p: seq<byte>) { At(p, Ws(p, 0), LBRACKET) }

  /** Once seen, the type does not change. */
  lemma {:induction false} SeenStays(p: seq<byte>, i: nat, l: Lane)
    ensures var r := HeaderMembers(p, i, Some(l)); r.Some? ==> r.value.0 == l
    decreases |p| - i
  {
    hide ReadText, SkipValue, Variant;
    var m := HeaderMember(p, i, Some(l));
    if m.Some? && At(p, Ws(p, m.value.1), COMMA) {
      SeenStays(p, Ws(p, Ws(p, m.value.1) + 1), l);
    }
  }

  lemma TextNotSpace(p: seq<byte>, i: nat)
    requires ReadText(p, i).Some?
    ensures i < |p| && !AsciiSpace(p[i])
  {
  }

  /** Of an object with a first member, the scan reads that member as the full parse does. */
  lemma ScanReadsMember(p: seq<byte>)
    requires At(p, Ws(p, 0), LBRACE)
    requires var key := ReadText(p, Ws(p, Ws(p, 0) + 1));
             key.Some? && At(p, Ws(p, key.value.1), COLON)
    ensures var key := ReadText(p, Ws(p, Ws(p, 0) + 1)).value;
            && Classified(p) == (if key.0 != TYPE then ParseHeader(p) else ScanValue(p, key.1))
            && SkipSpace(p, key.1) == Ws(p, key.1)
  {
    hide Ws, SkipSpace, ReadText, StringEnd, DecodeLiteral, ParseHeader, ScanValue, Text;
    var o, k := Ws(p, 0), Ws(p, Ws(p, 0) + 1);
    var key := ReadText(p, k).value;
    SkipIsWs(p, 0);
    TextNotSpace(p, k);
    SkipIsWs(p, o + 1);
    ScanReadsText(p, k);
    SkipIsWs(p, key.1);
  }

  /** The value of a `type` member: a string is read, a brace refused. */
  lemma ScanReadsValue(p: seq<byte>, keyEnd: nat)
    requires SkipSpace(p, keyEnd) == Ws(p, keyEnd) && At(p, Ws(p, keyEnd), COLON)
    requires Variant(p, Ws(p, Ws(p, keyEnd) + 1)).Some?
    ensures var v := Ws(p, Ws(p, keyEnd) + 1);
            ScanValue(p, keyEnd) == if p[v] == LBRACE then None else Some(Variant(p, v).value.0)
  {
    hide Ws, SkipSpace, ReadText, DecodeLiteral, LaneOf, Scan;
    var v := Ws(p, Ws(p, keyEnd) + 1);
    assert !AsciiSpace(p[v]);
    SkipIsWs(p, Ws(p, keyEnd) + 1);
    if p[v] != LBRACE {
      ScanReadsText(p, v);
    }
  }

  /** When the full parse yields a lane, the scan yields the same one, except for arrays and types in map form. */
  lemma ScanAgreesIff(p: seq<byte>, l: Lane)
    requires ParseHeader(p) == Some(l)
    ensures Classified(p) == Some(l) <==> !StartsWithBracket(p) && !StartsWithMap(p)
    ensures Classified(p) in {None, Some(l)}
  {
    hide Classified, ParseHeader, HeaderMembers, Ws, SkipSpace, ReadText, ScanValue, Variant, Text;
    HeaderForm(p, l);
    if At(p, Ws(p, 0), LBRACE) {
      var i := Ws(p, Ws(p, 0) + 1);
      FirstMember(p, i, l);
      ScanReadsMember(p);
      if ReadText(p, i).value.0 == TYPE {
        ScanReadsValue(p, ReadText(p, i).value.1);
      }
    } else {
      BracketIsRefused(p);
    }
  }

  lemma HeaderForm(p: seq<byte>, l: Lane)
    requires ParseHeader(p) == Some(l)
    ensures if At(p, Ws(p, 0), LBRACE)
            then var r := HeaderMembers(p, Ws(p, Ws(p, 0) + 1), None); r.Some? && r.value.0 == l
            else StartsWithBracket(p)
  {
    hide HeaderMembers, Ws, ArrayHeader;
  }

  lemma BracketIsRefused(p: seq<byte>)
    requires StartsWithBracket(p)
    ensures Classified(p) == None
  {
    SkipIsWs(p, 0);
    hide Ws, SkipSpace, StringEnd, DecodeLiteral, ParseHeader, ScanValue, Text;
  }

  lemma FirstMember(p: seq<byte>, i: nat, l: Lane)
    requires HeaderMembers(p, i, None).Some? && HeaderMembers(p, i, None).value.0 == l
    ensures var key := ReadText(p, i);
            && key.Some? && At(p, Ws(p, key.value.1), COLON)
            && (key.value.0 == TYPE ==>
                  var t := Variant(p, Ws(p, Ws(p, key.value.1) + 1)); t.Some? && t.value.0 == l)
  {
    hide ReadText, SkipValue, Variant, Text;
    var m := HeaderMember(p, i, None);
    var j := Ws(p, m.value.1);
    if m.value.0.Some? && At(p, j, COMMA) {
      SeenStays(p, Ws(p, j + 1), m.value.0.value);
    }
  }

  // ----- Two payloads on which they differ -----

  predicate PlainText(t: seq<byte>) {
    forall i | 0 <= i < |t| :: 0x20 <= t[i] < 128 && t[i] != QUOTE && t[i] != BACKSLASH
  }

  function Plains(t: seq<byte>): seq<Char> { seq(|t|, i requires 0 <= i < |t| => Plain(t[i])) }

  lemma {:induction false} PlainsDecode(t: seq<byte>)
    requires PlainText(t)
    ensures Valid(Plains(t)) && Unescaped(Plains(t)) == Some(t) && IsUtf8(t)
  {
    if t != [] {
      PlainsDecode(t[1..]);
      assert Plains(t)[1..] == Plains(t[1..]);
      assert [t[0]] + t[1..] == t;
    }
  }

  lemma {:induction false} ReadPlains(p: seq<byte>, i: nat, t: seq<byte>)
    requires PlainText(t) && Stands(p, i, t + [QUOTE])
    ensures ReadChars(p, i) == Some((Plains(t), i + |t| + 1))
    decreases |t|
  {
    assert (t + [QUOTE])[0] == p[i];
    if t != [] {
      assert t + [QUOTE] == [t[0]] + (t[1..] + [QUOTE]);
      StandsParts(p, i, [t[0]], t[1..] + [QUOTE]);
      ReadPlains(p, i + 1, t[1..]);
      assert EncodeChar(Plain(t[0])) == [t[0]];
      assert ReadChars(p, i) == ReadMore(p, i, Plain(t[0]));
      hide ReadChars;
      assert [Plain(t[0])] + Plains(t[1..]) == Plains(t);
    } else {
      assert Plains(t) == [];
    }
  }

  /** A plain name in quotes is read as that name. */
  lemma ReadName(p: seq<byte>, i: nat, t: seq<byte>)
    requires PlainText(t) && At(p, i, QUOTE) && Stands(p, i + 1, t) && At(p, i + 1 + |t|, QUOTE)
    ensures ReadText(p, i) == Some((t, i + |t| + 2))
  {
    hide ReadChars, Unescaped, IsUtf8, Plains, Valid, PlainText;
    assert Stands(p, i + 1 + |t|, [QUOTE]);
    StandsJoined(p, i + 1, t, [QUOTE]);
    hide Stands;
    ReadPlains(p, i + 1, t);
    PlainsDecode(t);
  }

  lemma Names()
    ensures Label(Event) == [0x65, 0x76, 0x65, 0x6E, 0x74, 0x5F, 0x76, 0x31] && Label(Snapshot) != Label(Event)
    ensures TYPE == [0x74, 0x79, 0x70, 0x65]
  {
    assert |Label(Snapshot)| == 20;
  }

  /** The name of the event lane stands in quotes at a position. */
  predicate EventAt(p: seq<byte>, i: nat) {
    && i + 10 <= |p| && p[i] == QUOTE && p[i + 9] == QUOTE
    && p[i + 1] == 0x65 && p[i + 2] == 0x76 && p[i + 3] == 0x65 && p[i + 4] == 0x6E
    && p[i + 5] == 0x74 && p[i + 6] == 0x5F && p[i + 7] == 0x76 && p[i + 8] == 0x31
  }

  lemma ReadEvent(p: seq<byte>, i: nat)
    requires EventAt(p, i)
    ensures ReadLane(p, i) == Some((Event, i + 10))
  {
    Names();
    hide Label, Text;
    var t: seq<byte> := [0x65, 0x76, 0x65, 0x6E, 0x74, 0x5F, 0x76, 0x31];
    ReadName(p, i, t);
  }

  lemma ReadType(p: seq<byte>, i: nat)
    requires i + 6 <= |p| && p[i] == QUOTE && p[i + 1] == 0x74 && p[i + 2] == 0x79 && p[i + 3] == 0x70
             && p[i + 4] == 0x65 && p[i + 5] == QUOTE
    ensures ReadText(p, i) == Some((TYPE, i + 6))
  {
    Names();
    hide Text;
    var t: seq<byte> := [0x74, 0x79, 0x70, 0x65];
    ReadName(p, i, t);
  }

  /** The array form of an event header. */
  lemma ArrayFormDisagrees()
    ensures var p := Text("[\"event_v1\"]"); ParseHeader(p) == Some(Event) && Classified(p) == None
  {
    var p := Text("[\"event_v1\"]");
    assert |p| == 12 && p[0] == LBRACKET && p[11] == RBRACKET && EventAt(p, 1);
    hide Text;
    ArrayFormParses(p);
    BracketIsRefused(p);
  }

  lemma ArrayFormParses(p: seq<byte>)
    requires |p| == 12 && p[0] == LBRACKET && p[11] == RBRACKET && EventAt(p, 1)
    ensures ParseHeader(p) == Some(Event) && StartsWithBracket(p)
  {
    ReadEvent(p, 1);
    hide ReadLane, Label, Text, HeaderMembers;
    assert Variant(p, 1) == Some((Event, 11));
  }

  /** The type of an event in map form. */
  lemma MapFormDisagrees()
    ensures var p := Text("{\"type\":{\"event_v1\":null}}"); ParseHeader(p) == Some(Event) && Classified(p) == None
  {
    var p := Text("{\"type\":{\"event_v1\":null}}");
    assert |p| == 26 && p[0] == LBRACE && p[7] == COLON && p[8] == LBRACE && p[19] == COLON && p[24] == RBRACE
           && p[25] == RBRACE;
    assert p[1] == QUOTE && p[2] == 0x74 && p[3] == 0x79 && p[4] == 0x70 && p[5] == 0x65 && p[6] == QUOTE;
    assert EventAt(p, 9);
    assert p[20] == 0x6E && p[21] == 0x75 && p[22] == 0x6C && p[23] == 0x6C;
    hide Text;
    ReadType(p, 1);
    MapFormParses(p);
  }

  lemma MapFormParses(p: seq<byte>)
    requires |p| == 26 && p[0] == LBRACE && p[7] == COLON && p[8] == LBRACE && p[19] == COLON && p[24] == RBRACE
             && p[25] == RBRACE
    requires p[1] == QUOTE && ReadText(p, 1) == Some((TYPE, 7)) && EventAt(p, 9)
    requires p[20] == 0x6E && p[21] == 0x75 && p[22] == 0x6C && p[23] == 0x6C
    ensures ParseHeader(p) == Some(Event) && Classified(p) == None
  {
    hide ReadText, Variant, Label, Text, EventAt, SkipValue, ParseHeader, HeaderMembers, Classified;
    MapVariant(p);
    OnlyMember(p);
    assert StartsWithMap(p);
    ScanAgreesIff(p, Event);
  }

  lemma OnlyMember(p: seq<byte>)
    requires |p| == 26 && p[0] == LBRACE && p[1] == QUOTE && p[7] == COLON && p[8] == LBRACE && p[25] == RBRACE
    requires ReadText(p, 1) == Some((TYPE, 7)) && Variant(p, 8) == Some((Event, 25))
    ensures ParseHeader(p) == Some(Event)
  {
    hide ReadText, Variant, Text, SkipValue;
    assert HeaderMember(p, 1, None) == Some((Some(Event), 25));
    hide HeaderMember;
    assert HeaderMembers(p, 1, None) == Some((Event, 26));
    hide HeaderMembers;
    assert Ws(p, 1) == 1;
  }

  lemma MapVariant(p: seq<byte>)
    requires |p| == 26 && p[8] == LBRACE && EventAt(p, 9) && p[19] == COLON && p[24] == RBRACE
    requires p[20] == 0x6E && p[21] == 0x75 && p[22] == 0x6C && p[23] == 0x6C
    ensures Variant(p, 8) == Some((Event, 25))
  {
    ReadEvent(p, 9);
    assert Stands(p, 20, NULL);
    hide ReadLane, Stands;
  }
}
