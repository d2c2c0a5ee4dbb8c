/** UTF-8 as `String` and `from_utf8` use it: shortest form, no surrogates, nothing past U+10FFFF. */
module Utf8 {
  import opened Common

  /** The low six bits of `n`, as a continuation byte. */
  function Tail(n: nat): byte { (0x80 + n % 64) as byte }

  function EncodeChar(c: char): (b: seq<byte>)
    ensures 1 <= |b| <= 4
  {
    var n := c as int;
    if n < 0x80 then [n as byte]
    else if n < 0x800 then [(0xC0 + n / 64) as byte, Tail(n)]
    else if n < 0x1_0000 then [(0xE0 + n / 64 / 64) as byte, Tail(n / 64), Tail(n)]
    else [(0xF0 + n / 64 / 64 / 64) as byte, Tail(n / 64 / 64), Tail(n / 64), Tail(n)]
  }

  function Encode(s: string): seq<byte> { if s == [] then [] else EncodeChar(s[0]) + Encode(s[1..]) }

  predicate Continues(b: byte) { 0x80 <= b < 0xC0 }

  predicate IsScalar(n: int) { 0 <= n < 0xD800 || 0xE000 <= n < 0x11_0000 }

  /** How many bytes the first byte announces; 0 when it cannot start a character. */
  function Width(b: byte): nat {
    if b < 0x80 then 1 else if 0xC2 <= b < 0xE0 then 2 else if 0xE0 <= b < 0xF0 then 3 else if 0xF0 <= b < 0xF5 then 4 else 0
  }

  /** Appends the six bits of a continuation byte. */
  function Shift(n: int, b: byte): int { n * 64 + (b as int - 0x80) }

  /** The code point of a sequence of the announced width. */
  function Point(b: seq<byte>): int
    requires b != [] && |b| == Width(b[0])
  {
    if |b| == 1 then b[0] as int
    else if |b| == 2 then Shift(b[0] as int - 0xC0, b[1])
    else if |b| == 3 then Shift(Shift(b[0] as int - 0xE0, b[1]), b[2])
    else Shift(Shift(Shift(b[0] as int - 0xF0, b[1]), b[2]), b[3])
  }

  /** Well-formed for exactly one character, in its shortest form. */
  predicate IsChar(b: seq<byte>) {
    && b != [] && |b| == Width(b[0])
    && (forall i :: 1 <= i < |b| ==> Continues(b[i]))
    && IsScalar(Point(b))
    && (|b| == 3 ==> Point(b) >= 0x800) && (|b| == 4 ==> Point(b) >= 0x1_0000)
  }

  function Decode(b: seq<byte>): Option<string>
    decreases |b|
  {
    if b == [] then Some([])
    else
      var w := Width(b[0]);
      if w == 0 || w > |b| || !IsChar(b[..w]) then None
      else
        match Decode(b[w..])
        case None => None
        case Some(rest) => Some([Point(b[..w]) as char] + rest)
  }

  lemma {:induction false} ShiftTail(n: nat)
    ensures Shift(n / 64, Tail(n)) == n && Continues(Tail(n))
  {
  }

  lemma {:induction false} TailShift(n: nat, b: byte)
    requires Continues(b)
    ensures Shift(n, b) >= 0 && Shift(n, b) / 64 == n && Tail(Shift(n, b)) == b
  {
  }

  lemma {:induction false} CharRoundTrip(c: char)
    ensures IsChar(EncodeChar(c)) && Point(EncodeChar(c)) == c as int
  {
    var n := c as int;
    ShiftTail(n);
    ShiftTail(n / 64);
    ShiftTail(n / 64 / 64);
  }

  lemma {:induction false} BytesRoundTrip(b: seq<byte>)
    requires IsChar(b)
    ensures EncodeChar(Point(b) as char) == b
  {
    if |b| == 2 {
      TailShift(b[0] as int - 0xC0, b[1]);
    } else if |b| == 3 {
      TailShift(b[0] as int - 0xE0, b[1]);
      TailShift(Shift(b[0] as int - 0xE0, b[1]), b[2]);
    } else if |b| == 4 {
      TailShift(b[0] as int - 0xF0, b[1]);
      TailShift(Shift(b[0] as int - 0xF0, b[1]), b[2]);
      TailShift(Shift(Shift(b[0] as int - 0xF0, b[1]), b[2]), b[3]);
    }
  }

  lemma {:induction false} DecodeEncode(s: string)
    ensures Decode(Encode(s)) == Some(s)
  {
    if s != [] {
      DecodeEncode(s[1..]);
      CharRoundTrip(s[0]);
      var head, b := EncodeChar(s[0]), Encode(s);
      assert b[..|head|] == head && b[|head|..] == Encode(s[1..]);
      assert b[0] == head[0];
      assert s == [s[0]] + s[1..];
    }
  }

  lemma {:induction false} EncodeCons(c: char, s: string)
    ensures Encode([c] + s) == EncodeChar(c) + Encode(s)
  {
    assert ([c] + s)[1..] == s;
  }

  /** Decoding takes one character off the front. */
  lemma {:induction false} DecodeCons(b: seq<byte>) returns (c: char, head: seq<byte>, tail: seq<byte>)
    requires b != [] && Decode(b).Some?
    ensures b == head + tail && head == EncodeChar(c) && Decode(tail).Some? && Decode(b).value == [c] + Decode(tail).value
  {
    var w := Width(b[0]);
    head, tail := b[..w], b[w..];
    assert b == head + tail;
    BytesRoundTrip(head);
    c := Point(head) as char;
  }

  lemma {:induction false} EncodeDecode(b: seq<byte>)
    requires Decode(b).Some?
    ensures Encode(Decode(b).value) == b
    decreases |b|
  {
    if b != [] {
      var c, head, tail := DecodeCons(b);
      EncodeDecode(tail);
      EncodeCons(c, Decode(tail).value);
    }
  }

  lemma {:induction false} EncodeIsInjective(s: string, t: string)
    requires Encode(s) == Encode(t)
    ensures s == t
  {
    DecodeEncode(s);
    DecodeEncode(t);
  }

  lemma {:induction false} EncodeLength(s: string)
    ensures |s| <= |Encode(s)| <= 4 * |s|
  {
    if s != [] {
      EncodeLength(s[1..]);
    }
  }

  lemma {:induction false} EncodeAppend(s: string, t: string)
    ensures Encode(s + t) == Encode(s) + Encode(t)
  {
    if s == [] {
      assert s + t == t;
    } else {
      EncodeAppend(s[1..], t);
      assert (s + t)[1..] == s[1..] + t;
      Associative(EncodeChar(s[0]), Encode(s[1..]), Encode(t));
    }
  }

  /** An ASCII character is in a text exactly when its byte is in the encoding. */
  lemma {:induction false} AsciiMember(s: string, c: char)
    requires c as int < 0x80
    ensures c in s <==> (c as int as byte) in Encode(s)
  {
    if s != [] {
      AsciiMember(s[1..], c);
      AsciiInChar(s[0], c);
      assert s == [s[0]] + s[1..];
    }
  }

  lemma {:induction false} AsciiInChar(d: char, c: char)
    requires c as int < 0x80
    ensures (c as int as byte) in EncodeChar(d) <==> c == d
  {
    CharRoundTrip(d);
    var b := EncodeChar(d);
    if d as int >= 0x80 {
      assert forall i :: 0 <= i < |b| ==> b[i] >= 0x80;
    }
  }
}
