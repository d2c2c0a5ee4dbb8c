/** The gateway's base64 codec, on bytes (agentgw/src/main.rs, lines 1931-2009; section 4 of RFC 4648). */
module Base64 {
  import opened Common

  // ---- The alphabet ----

  const PAD: byte := 61

  function Symbol(v: nat): (b: byte)
    requires v < 64
    ensures b != PAD
  {
    if v < 26 then (65 + v) as byte
    else if v < 52 then (71 + v) as byte
    else if v < 62 then (v - 4) as byte
    else if v == 62 then 43
    else 47
  }

  function Value(b: byte): (r: Option<nat>)
    ensures r.Some? ==> r.value < 64 && Symbol(r.value) == b
  {
    if 65 <= b <= 90 then Some(b as nat - 65)
    else if 97 <= b <= 122 then Some(b as nat - 71)
    else if 48 <= b <= 57 then Some(b as nat + 4)
    else if b == 43 then Some(62)
    else if b == 47 then Some(63)
    else None
  }

  lemma {:induction false} SymbolValue(v: nat)
    requires v < 64
    ensures Value(Symbol(v)) == Some(v)
  {
  }

  /** The alphabet of section 4 of RFC 4648, in its order, and nothing else. */
  lemma {:induction false} AlphabetMeans(b: byte)
    ensures var c := b as char;
            Value(b) ==
              if 'A' <= c <= 'Z' then Some(c as nat - 'A' as nat)
              else if 'a' <= c <= 'z' then Some(26 + c as nat - 'a' as nat)
              else if '0' <= c <= '9' then Some(52 + c as nat - '0' as nat)
              else if c == '+' then Some(62)
              else if c == '/' then Some(63)
              else None
  {
  }

  // ---- Groups ----

  /** Up to three bytes as one 24-bit number, missing ones being zero. */
  function Pack(c: seq<byte>): nat
    requires 1 <= |c| <= 3
  {
    var b0 := c[0] as nat;
    var b1 := if |c| > 1 then c[1] as nat else 0;
    var b2 := if |c| > 2 then c[2] as nat else 0;
    (b0 * 256 + b1) * 256 + b2
  }

  /** The symbols of a group: one more than its bytes. */
  function GroupSymbols(c: seq<byte>): (r: seq<byte>)
    requires 1 <= |c| <= 3
    ensures |r| == |c| + 1
  {
    var n := Pack(c);
    [Symbol(n / 64 / 64 / 64 % 64), Symbol(n / 64 / 64 % 64)]
    + (if |c| > 1 then [Symbol(n / 64 % 64)] else [])
    + (if |c| > 2 then [Symbol(n % 64)] else [])
  }

  predicate AllSymbols(s: seq<byte>) { forall i :: 0 <= i < |s| ==> Value(s[i]).Some? }

  /** Two to four symbols as one 24-bit number, missing ones being zero. */
  function Unpack(s: seq<byte>): nat
    requires 2 <= |s| <= 4 && AllSymbols(s)
  {
    var v0, v1 := Value(s[0]).value, Value(s[1]).value;
    var v2 := if |s| > 2 then Value(s[2]).value else 0;
    var v3 := if |s| > 3 then Value(s[3]).value else 0;
    ((v0 * 64 + v1) * 64 + v2) * 64 + v3
  }

  function GroupBytes(s: seq<byte>): (r: seq<byte>)
    requires 2 <= |s| <= 4 && AllSymbols(s)
    ensures |r| == |s| - 1
  {
    var n := Unpack(s);
    [(n / 256 / 256 % 256) as byte]
    + (if |s| > 2 then [(n / 256 % 256) as byte] else [])
    + (if |s| > 3 then [(n % 256) as byte] else [])
  }

  /** The bits a short last group leaves over. */
  predicate SpareBitsZero(s: seq<byte>)
    requires 2 <= |s| <= 4 && AllSymbols(s)
  {
    (|s| == 2 ==> Value(s[1]).value % 16 == 0) && (|s| == 3 ==> Value(s[2]).value % 4 == 0)
  }

  lemma {:induction false} Sextets(n: nat)
    requires n < 0x100_0000
    ensures n == ((n / 64 / 64 / 64 % 64 * 64 + n / 64 / 64 % 64) * 64 + n / 64 % 64) * 64 + n % 64
  {
  }

  lemma {:induction false} SymbolsOf(c: seq<byte>)
    requires 1 <= |c| <= 3
    ensures AllSymbols(GroupSymbols(c)) && Pack(c) < 0x100_0000
    ensures var n, s := Pack(c), GroupSymbols(c);
            && Value(s[0]).value == n / 64 / 64 / 64 % 64 && Value(s[1]).value == n / 64 / 64 % 64
            && (|c| > 1 ==> Value(s[2]).value == n / 64 % 64) && (|c| > 2 ==> Value(s[3]).value == n % 64)
  {
    var n := Pack(c);
    SymbolValue(n / 64 / 64 / 64 % 64);
    SymbolValue(n / 64 / 64 % 64);
    SymbolValue(n / 64 % 64);
    SymbolValue(n % 64);
  }

  /** What the missing bytes leave zero in the number. */
  lemma {:induction false} SpareSextets(c: seq<byte>)
    requires 1 <= |c| <= 3
    ensures |c| <= 2 ==> Pack(c) % 64 == 0
    ensures |c| == 1 ==> Pack(c) / 64 % 64 == 0
  {
    if |c| == 1 {
      assert Pack(c) == 64 * (c[0] as nat * 1024);
    } else if |c| == 2 {
      assert Pack(c) == 64 * ((c[0] as nat * 256 + c[1] as nat) * 4);
    }
  }

  lemma {:induction false} UnpackSymbols(c: seq<byte>)
    requires 1 <= |c| <= 3
    ensures AllSymbols(GroupSymbols(c)) && Unpack(GroupSymbols(c)) == Pack(c)
  {
    SymbolsOf(c);
    SpareSextets(c);
    Sextets(Pack(c));
  }

  lemma {:induction false} PackedBytes(b0: nat, b1: nat, b2: nat)
    requires b0 < 256 && b1 < 256 && b2 < 256
    ensures var n := (b0 * 256 + b1) * 256 + b2; n / 256 / 256 % 256 == b0 && n / 256 % 256 == b1 && n % 256 == b2
  {
  }

  lemma {:induction false} GroupRoundTrip(c: seq<byte>)
    requires 1 <= |c| <= 3
    ensures AllSymbols(GroupSymbols(c)) && GroupBytes(GroupSymbols(c)) == c
  {
    UnpackSymbols(c);
    PackedBytes(c[0] as nat, if |c| > 1 then c[1] as nat else 0, if |c| > 2 then c[2] as nat else 0);
  }

  lemma {:induction false} PackedSextets(v0: nat, v1: nat, v2: nat, v3: nat)
    requires v0 < 64 && v1 < 64 && v2 < 64 && v3 < 64
    ensures var n := ((v0 * 64 + v1) * 64 + v2) * 64 + v3;
            n < 0x100_0000 && n / 64 / 64 / 64 % 64 == v0 && n / 64 / 64 % 64 == v1 && n / 64 % 64 == v2 && n % 64 == v3
  {
  }

  /** A number below 2^24 from its three bytes. */
  lemma {:induction false} Octets(n: nat)
    requires n < 0x100_0000
    ensures n == (n / 256 / 256 % 256 * 256 + n / 256 % 256) * 256 + n % 256
  {
  }

  lemma {:induction false} Low8(m: nat)
    ensures m * 64 % 256 == m % 4 * 64
  {
    assert m == m / 4 * 4 + m % 4;
    assert m * 64 == m / 4 * 256 + m % 4 * 64;
  }

  lemma {:induction false} High8(k: nat)
    requires k < 4096
    ensures k * 4096 / 256 / 256 % 256 == k / 16 && k / 16 * 65536 == k * 4096 - k % 16 * 4096
  {
    assert k * 4096 / 256 == k * 16;
    assert k * 16 / 256 == k / 16;
  }

  /** What decoding two symbols keeps of their number: the bits beyond the last whole byte are dropped. */
  lemma {:induction false} PackTwo(s: seq<byte>)
    requires |s| == 2 && AllSymbols(s)
    ensures Pack(GroupBytes(s)) == Unpack(s) - Value(s[1]).value % 16 * 4096
  {
    var v0, v1 := Value(s[0]).value, Value(s[1]).value;
    HighByte(v0, v1);
    assert Unpack(s) == (v0 * 64 + v1) * 4096;
  }

  lemma {:induction false} HighByte(v0: nat, v1: nat)
    requires v0 < 64 && v1 < 64
    ensures var n := (v0 * 64 + v1) * 4096; n / 256 / 256 % 256 * 65536 == n - v1 % 16 * 4096
  {
    High8(v0 * 64 + v1);
    assert (v0 * 64 + v1) % 16 == v1 % 16;
  }

  lemma {:induction false} PackThree(s: seq<byte>)
    requires |s| == 3 && AllSymbols(s)
    ensures Pack(GroupBytes(s)) == Unpack(s) - Value(s[2]).value % 4 * 64
  {
    var v0, v1, v2 := Value(s[0]).value, Value(s[1]).value, Value(s[2]).value;
    HighBytes(v0 * 64 + v1, v2);
    assert Unpack(s) == ((v0 * 64 + v1) * 64 + v2) * 64;
  }

  lemma {:induction false} Low2(k: nat, v: nat)
    ensures (k * 64 + v) % 4 == v % 4
  {
    assert k * 64 + v == 4 * (16 * k + v / 4) + v % 4;
  }

  lemma {:induction false} HighBytes(k: nat, v2: nat)
    requires k < 4096 && v2 < 64
    ensures var n := (k * 64 + v2) * 64; (n / 256 / 256 % 256 * 256 + n / 256 % 256) * 256 == n - v2 % 4 * 64
  {
    var m := k * 64 + v2;
    Octets(m * 64);
    Low8(m);
    Low2(k, v2);
  }

  lemma {:induction false} PackFour(s: seq<byte>)
    requires |s| == 4 && AllSymbols(s)
    ensures Pack(GroupBytes(s)) == Unpack(s)
  {
    Octets(Unpack(s));
  }

  lemma {:induction false} LowBits(v: nat)
    ensures v % 16 <= v
  {
    assert v == 16 * (v / 16) + v % 16;
  }

  lemma {:induction false} CanonicalTwo(s: seq<byte>)
    requires |s| == 2 && AllSymbols(s)
    ensures GroupSymbols(GroupBytes(s)) == s <==> Value(s[1]).value % 16 == 0
  {
    var v0, v1 := Value(s[0]).value, Value(s[1]).value;
    LowBits(v1);
    PackTwo(s);
    SymbolsOf(GroupBytes(s));
    PackedSextets(v0, v1 - v1 % 16, 0, 0);
    SameSymbols(GroupSymbols(GroupBytes(s)), s);
  }

  lemma {:induction false} CanonicalThree(s: seq<byte>)
    requires |s| == 3 && AllSymbols(s)
    ensures GroupSymbols(GroupBytes(s)) == s <==> Value(s[2]).value % 4 == 0
  {
    var v0, v1, v2 := Value(s[0]).value, Value(s[1]).value, Value(s[2]).value;
    PackThree(s);
    SymbolsOf(GroupBytes(s));
    PackedSextets(v0, v1, v2 - v2 % 4, 0);
    SameSymbols(GroupSymbols(GroupBytes(s)), s);
  }

  lemma {:induction false} CanonicalFour(s: seq<byte>)
    requires |s| == 4 && AllSymbols(s)
    ensures GroupSymbols(GroupBytes(s)) == s
  {
    PackFour(s);
    SymbolsOf(GroupBytes(s));
    PackedSextets(Value(s[0]).value, Value(s[1]).value, Value(s[2]).value, Value(s[3]).value);
    SameSymbols(GroupSymbols(GroupBytes(s)), s);
  }

  lemma {:induction false} GroupIsCanonical(s: seq<byte>)
    requires 2 <= |s| <= 4 && AllSymbols(s)
    ensures GroupSymbols(GroupBytes(s)) == s <==> SpareBitsZero(s)
  {
    if |s| == 2 {
      CanonicalTwo(s);
    } else if |s| == 3 {
      CanonicalThree(s);
    } else {
      CanonicalFour(s);
    }
  }

  lemma {:induction false} SameSymbols(s: seq<byte>, t: seq<byte>)
    requires |s| == |t| && AllSymbols(s) && AllSymbols(t)
    ensures s == t <==> forall i :: 0 <= i < |s| ==> Value(s[i]) == Value(t[i])
  {
    if forall i :: 0 <= i < |s| ==> Value(s[i]) == Value(t[i]) {
      forall i | 0 <= i < |s| ensures s[i] == t[i] {
        assert Value(s[i]) == Value(t[i]);
      }
    }
  }

  // ---- Whole texts ----

  function EncodeBody(b: seq<byte>): seq<byte> {
    if b == [] then [] else if |b| <= 3 then GroupSymbols(b) else GroupSymbols(b[..3]) + EncodeBody(b[3..])
  }

  /** The remainder, by repeated subtraction. */
  function Rem(n: nat, k: nat): (r: nat)
    requires k > 0
    ensures r < k
  {
    if n < k then n else Rem(n - k, k)
  }

  lemma {:induction false} TimesAtLeast(d: nat, k: nat)
    requires d >= 1
    ensures d * k >= k
  {
    if d > 1 {
      TimesAtLeast(d - 1, k);
      assert d * k == (d - 1) * k + k;
    }
  }

  lemma {:induction false} MultipleIsFar(d: int, k: nat)
    ensures d == 0 || d * k >= k || d * k + k <= 0
  {
    if d >= 1 {
      TimesAtLeast(d, k);
    } else if d <= -1 {
      TimesAtLeast(-d, k);
      assert (-d) * k == -(d * k);
    }
  }

  lemma {:induction false} OneLess(a: int, b: int, k: nat)
    ensures (a - b - 1) * k == a * k - b * k - k
  {
  }

  lemma {:induction false} SameRest(m: nat, k: nat)
    requires k > 0
    ensures (m + k) % k == m % k
  {
    var a, b := (m + k) / k, m / k;
    OneLess(a, b, k);
    MultipleIsFar(a - b - 1, k);
  }

  lemma {:induction false} RemIsMod(n: nat, k: nat)
    requires k > 0
    ensures Rem(n, k) == n % k
  {
    if n >= k {
      RemIsMod(n - k, k);
      SameRest(n - k, k);
    }
  }

  function PadCount(n: nat): nat { if Rem(n, 3) == 0 then 0 else 3 - Rem(n, 3) }

  function Pads(p: nat): seq<byte> { seq(p, _ => PAD) }

  function Encode(b: seq<byte>): seq<byte> { EncodeBody(b) + Pads(PadCount(|b|)) }

  function DecodeBody(s: seq<byte>): Option<seq<byte>>
    decreases |s|
  {
    if s == [] then Some([])
    else if |s| == 1 || !AllSymbols(if |s| <= 4 then s else s[..4]) then None
    else if |s| <= 4 then Some(GroupBytes(s))
    else
      match DecodeBody(s[4..]) case None => None case Some(rest) => Some(GroupBytes(s[..4]) + rest)
  }

  /** How many pad characters the text ends with. */
  function Padding(s: seq<byte>): (p: nat)
    ensures p <= |s|
  {
    if s == [] || s[|s| - 1] != PAD then 0 else 1 + Padding(s[..|s| - 1])
  }

  function Decode(s: seq<byte>): Option<seq<byte>> {
    var p := Padding(s);
    if p > 2 || PAD in s[..|s| - p] || Rem(|s|, 4) != 0 then None else DecodeBody(s[..|s| - p])
  }

  lemma {:induction false} BodyIsSymbols(b: seq<byte>)
    ensures AllSymbols(EncodeBody(b))
  {
    if b != [] {
      if |b| <= 3 {
        SymbolsOf(b);
      } else {
        SymbolsOf(b[..3]);
        BodyIsSymbols(b[3..]);
      }
    }
  }

  lemma {:induction false} PaddedSize(b: seq<byte>)
    ensures Rem(|EncodeBody(b)| + PadCount(|b|), 4) == 0
  {
    if |b| > 3 {
      PaddedSize(b[3..]);
      assert |EncodeBody(b)| == 4 + |EncodeBody(b[3..])|;
    }
  }

  lemma {:induction false} DecodeEncodeBody(b: seq<byte>)
    ensures DecodeBody(EncodeBody(b)) == Some(b)
  {
    if b != [] {
      if |b| <= 3 {
        GroupRoundTrip(b);
      } else {
        GroupRoundTrip(b[..3]);
        DecodeEncodeBody(b[3..]);
        var s := EncodeBody(b);
        assert s[..4] == GroupSymbols(b[..3]) && s[4..] == EncodeBody(b[3..]);
        assert b == b[..3] + b[3..];
        NonemptyBody(b[3..]);
      }
    }
  }

  lemma {:induction false} NonemptyBody(b: seq<byte>)
    requires b != []
    ensures |EncodeBody(b)| >= 2
  {
  }

  lemma {:induction false} PaddingOf(body: seq<byte>, p: nat)
    requires PAD !in body
    ensures Padding(body + Pads(p)) == p
  {
    var s := body + Pads(p);
    if p == 0 {
      assert s == body;
      if body != [] { assert body[|body| - 1] in body; }
    } else {
      PaddingOf(body, p - 1);
      assert s[..|s| - 1] == body + Pads(p - 1);
    }
  }

  lemma {:induction false} NoPadAmongSymbols(s: seq<byte>)
    requires AllSymbols(s)
    ensures PAD !in s
  {
  }

  lemma {:induction false} DecodePadded(body: seq<byte>, p: nat)
    requires AllSymbols(body) && p <= 2 && Rem(|body| + p, 4) == 0
    ensures Decode(body + Pads(p)) == DecodeBody(body)
  {
    var s := body + Pads(p);
    NoPadAmongSymbols(body);
    PaddingOf(body, p);
    assert |s| == |body| + p && s[..|s| - p] == body;
  }

  /** Decoding undoes encoding, for every byte sequence. */
  lemma {:induction false} DecodeEncode(b: seq<byte>)
    ensures Decode(Encode(b)) == Some(b)
  {
    BodyIsSymbols(b);
    PaddedSize(b);
    DecodePadded(EncodeBody(b), PadCount(|b|));
    DecodeEncodeBody(b);
  }

  /** Alphabet characters followed by exactly `p` pads. */
  ghost predicate Padded(s: seq<byte>, p: nat) {
    p <= |s| && AllSymbols(s[..|s| - p]) && s == s[..|s| - p] + Pads(p)
  }

  /** A multiple of four characters, of which at most two are pads, at the end. */
  ghost predicate IsText(s: seq<byte>) { |s| % 4 == 0 && exists p :: 0 <= p <= 2 && Padded(s, p) }

  lemma {:induction false} BodyDecodes(s: seq<byte>)
    ensures DecodeBody(s).Some? <==> AllSymbols(s) && Rem(|s|, 4) != 1
    decreases |s|
  {
    if |s| > 4 {
      BodyDecodes(s[4..]);
      assert s == s[..4] + s[4..];
      SymbolsSplit(s);
    }
  }

  lemma {:induction false} SymbolsSplit(s: seq<byte>)
    requires |s| > 4
    ensures AllSymbols(s) <==> AllSymbols(s[..4]) && AllSymbols(s[4..])
  {
    if AllSymbols(s[..4]) && AllSymbols(s[4..]) {
      forall i | 0 <= i < |s| ensures Value(s[i]).Some? {
        if i < 4 { assert s[i] == s[..4][i]; } else { assert s[i] == s[4..][i - 4]; }
      }
    }
  }

  lemma {:induction false} PadsAtEnd(s: seq<byte>)
    ensures s == s[..|s| - Padding(s)] + Pads(Padding(s))
  {
    if s != [] && s[|s| - 1] == PAD {
      var n := |s| - 1;
      PadsAtEnd(s[..n]);
      var p := Padding(s[..n]);
      assert s == s[..n] + [PAD];
      Associative(s[..n][..n - p], Pads(p), [PAD]);
      assert Pads(p) + [PAD] == Pads(p + 1) && s[..n][..n - p] == s[..n - p];
    } else {
      assert Pads(0) == [] && s[..|s|] == s;
    }
  }

  lemma {:induction false} DecodedIsPadded(s: seq<byte>)
    requires Decode(s).Some?
    ensures Padded(s, Padding(s))
  {
    PadsAtEnd(s);
    BodyDecodes(s[..|s| - Padding(s)]);
  }

  lemma {:induction false} PaddedDecodes(s: seq<byte>, p: nat)
    requires Padded(s, p) && p <= 2 && Rem(|s|, 4) == 0
    ensures Decode(s).Some?
  {
    var body := s[..|s| - p];
    DecodePadded(body, p);
    BodyDecodes(body);
    RemPads(|body|, p);
  }

  lemma {:induction false} RemPads(n: nat, p: nat)
    requires p <= 2 && Rem(n + p, 4) == 0
    ensures Rem(n, 4) == (if p == 0 then 0 else 4 - p)
  {
    if n >= 4 { RemPads(n - 4, p); }
  }

  /** Decoding accepts exactly the well-formed texts. */
  lemma {:induction false} DecodesExactly(s: seq<byte>)
    ensures Decode(s).Some? <==> IsText(s)
  {
    RemIsMod(|s|, 4);
    if Decode(s).Some? {
      DecodedIsPadded(s);
    }
    if IsText(s) {
      var q :| 0 <= q <= 2 && Padded(s, q);
      PaddedDecodes(s, q);
    }
  }

  /** The last group of the body. */
  function LastGroup(s: seq<byte>): seq<byte> { if |s| <= 4 then s else LastGroup(s[4..]) }

  lemma {:induction false} BodyIsCanonical(s: seq<byte>)
    requires DecodeBody(s).Some? && s != []
    ensures 2 <= |LastGroup(s)| <= 4 && AllSymbols(LastGroup(s))
    ensures EncodeBody(DecodeBody(s).value) == s <==> SpareBitsZero(LastGroup(s))
    ensures DecodeBody(s).value != []
    decreases |s|
  {
    if |s| <= 4 {
      GroupIsCanonical(s);
    } else {
      BodyIsCanonical(s[4..]);
      GroupIsCanonical(s[..4]);
      var head, rest := GroupBytes(s[..4]), DecodeBody(s[4..]).value;
      assert (head + rest)[..3] == head && (head + rest)[3..] == rest;
      assert s == s[..4] + s[4..];
      if EncodeBody(head + rest) == s {
        assert EncodeBody(head + rest)[4..] == EncodeBody(rest);
      }
    }
  }

  lemma {:induction false} EncodePadded(body: seq<byte>, p: nat)
    requires DecodeBody(body).Some? && body != [] && p <= 2 && Rem(|body| + p, 4) == 0
    ensures 2 <= |LastGroup(body)| <= 4 && AllSymbols(LastGroup(body))
    ensures Encode(DecodeBody(body).value) == body + Pads(p) <==> SpareBitsZero(LastGroup(body))
  {
    BodyIsCanonical(body);
    PadsMatch(body, p);
    SamePrefix(EncodeBody(DecodeBody(body).value), body, Pads(p));
  }

  /** Encoding what a text decodes to gives the text back exactly when the bits past the last byte are zero. */
  lemma {:induction false} EncodeDecode(s: seq<byte>)
    requires Decode(s).Some? && s != []
    ensures var body := s[..|s| - Padding(s)];
            && body != [] && 2 <= |LastGroup(body)| <= 4 && AllSymbols(LastGroup(body))
            && (Encode(Decode(s).value) == s <==> SpareBitsZero(LastGroup(body)))
  {
    var p := Padding(s);
    var body := s[..|s| - p];
    assert p <= 2 && Decode(s) == DecodeBody(body);
    assert |body| + p == |s|;
    EncodePadded(body, p);
    PadsAtEnd(s);
  }

  /** "QR==" decodes like "QQ==": the four bits past the byte are ignored, so encoding does not give them back. */
  lemma {:induction false} SpareBitsAreIgnored()
    ensures Decode([81, 82, PAD, PAD]) == Some([65]) && Encode([65]) == [81, 81, PAD, PAD]
  {
    var s: seq<byte> := [81, 82, PAD, PAD];
    assert s[..3] == [81, 82, PAD] && s[..3][..2] == [81, 82] == s[..2];
    assert Padding(s[..2]) == 0 && Padding(s[..3]) == 1 && Padding(s) == 2;
    assert GroupBytes([81, 82]) == [65] && GroupSymbols([65]) == [81, 81];
  }

  lemma {:induction false} PadsMatch(body: seq<byte>, p: nat)
    requires DecodeBody(body).Some? && p <= 2 && Rem(|body| + p, 4) == 0
    ensures PadCount(|DecodeBody(body).value|) == p
    decreases |body|
  {
    if |body| > 4 {
      PadsMatch(body[4..], p);
      assert |DecodeBody(body).value| == 3 + |DecodeBody(body[4..]).value|;
    }
  }

  lemma {:induction false} SamePrefix(a: seq<byte>, b: seq<byte>, c: seq<byte>)
    ensures a + c == b + c <==> a == b
  {
    if a + c == b + c {
      assert |a| == |b|;
      assert a == (a + c)[..|a|] && b == (b + c)[..|b|];
    }
  }

  // ---- The loops ----

  lemma {:induction false} EncodeBodyStep(out: seq<byte>, rest: seq<byte>)
    requires |rest| >= 3
    ensures out + EncodeBody(rest) == (out + GroupSymbols(rest[..3])) + EncodeBody(rest[3..])
  {
    Associative(out, GroupSymbols(rest[..3]), EncodeBody(rest[3..]));
    if |rest| == 3 {
      assert rest[..3] == rest && rest[3..] == [];
      assert GroupSymbols(rest) + [] == GroupSymbols(rest);
    }
  }

  /** Three bytes at a time, as long as there are three. */
  method EncodeChunks(input: seq<byte>) returns (out: seq<byte>, rest: seq<byte>)
    ensures out + EncodeBody(rest) == EncodeBody(input)
    ensures |rest| < 3 && PadCount(|input|) == PadCount(|rest|)
  {
    out, rest := [], input;
    while |rest| >= 3
      invariant out + EncodeBody(rest) == EncodeBody(input)
      invariant PadCount(|input|) == PadCount(|rest|)
      decreases |rest|
    {
      EncodeBodyStep(out, rest);
      out := out + GroupSymbols(rest[..3]);
      rest := rest[3..];
    }
  }

  /** A short last chunk is filled up with pads. */
  method B64Encode(input: seq<byte>) returns (out: seq<byte>)
    ensures out == Encode(input)
  {
    var rest;
    out, rest := EncodeChunks(input);
    if rest == [] {
      assert EncodeBody(rest) == [] && out + [] == out;
      assert Pads(0) == [] && out + Pads(0) == out;
    } else {
      out := out + GroupSymbols(rest);
      out := out + Pads(3 - |rest|);
    }
  }

  /** The accumulator after these symbols. */
  function Accumulate(s: seq<byte>): nat
    requires AllSymbols(s)
  {
    if s == [] then 0 else Accumulate(s[..|s| - 1]) * 64 + Value(s[|s| - 1]).value
  }

  /** Shifting the accumulator past the missing symbols gives the group's number. */
  lemma {:induction false} ShiftedIsUnpacked(s: seq<byte>)
    requires 2 <= |s| <= 4 && AllSymbols(s)
    ensures Unpack(s) == Accumulate(s) * (if |s| == 4 then 1 else if |s| == 3 then 64 else 4096)
  {
    assert s[..1][..0] == [] && Accumulate(s[..1]) == Value(s[0]).value;
    assert s[..2][..1] == s[..1] && Accumulate(s[..2]) == Accumulate(s[..1]) * 64 + Value(s[1]).value;
    assert |s| == 2 ==> s[..2] == s;
    if |s| >= 3 { assert s[..3][..2] == s[..2]; }
    assert |s| == 3 ==> s[..3] == s;
  }

  method DecodeChunk(chunk: seq<byte>) returns (r: Option<seq<byte>>)
    requires 1 <= |chunk| <= 4
    ensures r == DecodeBody(chunk)
  {
    var acc := 0;
    for i := 0 to |chunk|
      invariant AllSymbols(chunk[..i]) && acc == Accumulate(chunk[..i])
    {
      var v := Value(chunk[i]);
      if v.None? {
        assert !AllSymbols(chunk);
        return None;
      }
      assert chunk[..i + 1][..i] == chunk[..i];
      acc := acc * 64 + v.value;
    }
    assert chunk[..|chunk|] == chunk;
    if |chunk| < 2 { return None; }
    ShiftedIsUnpacked(chunk);
    acc := acc * (if |chunk| == 4 then 1 else if |chunk| == 3 then 64 else 4096);
    var out := [(acc / 256 / 256 % 256) as byte];
    if |chunk| > 2 { out := out + [(acc / 256 % 256) as byte]; }
    if |chunk| > 3 { out := out + [(acc % 256) as byte]; }
    assert out == GroupBytes(chunk);
    r := Some(out);
  }

  lemma {:induction false} DecodeBodyStep(s: seq<byte>, i: nat, n: nat)
    requires i < |s| && n == Min(4, |s| - i)
    ensures DecodeBody(s[i..]).Some? <==> DecodeBody(s[i..i + n]).Some? && DecodeBody(s[i + n..]).Some?
    ensures DecodeBody(s[i..]).Some? ==> DecodeBody(s[i..]).value == DecodeBody(s[i..i + n]).value + DecodeBody(s[i + n..]).value
  {
    assert s[i..][..n] == s[i..i + n] && s[i..][n..] == s[i + n..];
    if |s| - i <= 4 {
      assert s[i..] == s[i..i + n] && s[i + n..] == [];
    }
  }

  method B64Decode(s: seq<byte>) returns (r: Option<seq<byte>>)
    ensures r == Decode(s)
  {
    var padding := Padding(s);
    if padding > 2 { return None; }
    var bytes := s[..|s| - padding];
    if PAD in bytes { return None; }
    if Rem(|s|, 4) != 0 { return None; }
    var out, i := [], 0;
    assert bytes[0..] == bytes;
    while i < |bytes|
      invariant 0 <= i <= |bytes|
      invariant DecodeBody(bytes).Some? <==> DecodeBody(bytes[i..]).Some?
      invariant DecodeBody(bytes).Some? ==> DecodeBody(bytes).value == out + DecodeBody(bytes[i..]).value
    {
      var n := Min(4, |bytes| - i);
      DecodeBodyStep(bytes, i, n);
      var chunk := DecodeChunk(bytes[i..i + n]);
      if chunk.None? { return None; }
      ghost var rest := DecodeBody(bytes[i + n..]);
      if rest.Some? { Associative(out, chunk.value, rest.value); }
      out := out + chunk.value;
      i := i + n;
    }
    assert out + [] == out;
    r := Some(out);
  }
}
