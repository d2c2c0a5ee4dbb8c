/** The canonical byte frame an approval digest is taken over (approvals/src/lib.rs, lines 94-174). */
module Framing {
  import opened Common
  import opened Capabilities
  import Utf8

  datatype DigestInput = DigestInput(
    requestId: Option<string>, principal: string, actor: string, run: Option<string>, operation: string, target: string,
    capabilities: seq<Capability>, extensionDigest: Option<string>, configDigest: Option<string>, expiry: int, nonce: string)

  // ---- Big-endian numbers ----

  function Pow256(w: nat): nat { if w == 0 then 1 else 256 * Pow256(w - 1) }

  function BigEndian(n: nat, w: nat): (b: seq<byte>)
    ensures |b| == w
  {
    if w == 0 then [] else BigEndian(n / 256, w - 1) + [(n % 256) as byte]
  }

  function Number(b: seq<byte>): nat { if b == [] then 0 else Number(b[..|b| - 1]) * 256 + b[|b| - 1] as nat }

  lemma {:induction false} BigEndianValue(n: nat, w: nat)
    requires n < Pow256(w)
    ensures Number(BigEndian(n, w)) == n
  {
    if w > 0 {
      BigEndianValue(n / 256, w - 1);
      assert BigEndian(n, w)[..w - 1] == BigEndian(n / 256, w - 1);
    }
  }

  const U32 := 0x1_0000_0000

  const U64 := 0x1_0000_0000_0000_0000

  const I64_MIN := -0x8000_0000_0000_0000

  const I64_MAX := 0x7FFF_FFFF_FFFF_FFFF

  /** `as u32` keeps the low 32 bits. */
  function PutU32(n: nat): seq<byte> { BigEndian(n % U32, 4) }

  function PutI64(x: int): seq<byte> { BigEndian(x % U64, 8) }

  lemma {:induction false} Powers()
    ensures Pow256(4) == U32 && Pow256(8) == U64
  {
    assert Pow256(2) == 0x1_0000 && Pow256(4) == 0x1_0000 * Pow256(2);
    assert Pow256(6) == 0x1_0000 * Pow256(4) && Pow256(8) == 0x1_0000 * Pow256(6);
  }

  lemma {:induction false} PutU32Value(n: nat)
    ensures Number(PutU32(n)) == n % U32
  {
    Powers();
    BigEndianValue(n % U32, 4);
  }

  lemma {:induction false} PutI64Injective(x: int, y: int)
    requires I64_MIN <= x <= I64_MAX && I64_MIN <= y <= I64_MAX && PutI64(x) == PutI64(y)
    ensures x == y
  {
    Powers();
    BigEndianValue(x % U64, 8);
    BigEndianValue(y % U64, 8);
  }

  // ---- Fields ----

  function PutBytes(b: seq<byte>): seq<byte> { PutU32(|b|) + b }

  function PutStr(s: string): seq<byte> { PutBytes(Utf8.Encode(s)) }

  function Marker(s: Option<string>): byte { if s.Some? then 1 else 0 }

  function Body(s: Option<string>): seq<byte> { if s.Some? then PutStr(s.value) else [] }

  /** A presence marker and, when present, the length-prefixed text. */
  function PutOptional(s: Option<string>): seq<byte> { [Marker(s)] + Body(s) }

  function PutAll(tokens: seq<string>): seq<byte> {
    if tokens == [] then [] else PutStr(tokens[0]) + PutAll(tokens[1..])
  }

  function TokenList(capabilities: seq<Capability>): seq<string> { Map(capabilities, Print) }

  /** The sorted, duplicate-free list, as a count and its tokens. */
  function PutCapabilities(capabilities: seq<Capability>): seq<byte> { PutList(TokenList(Sorted(Members(capabilities)))) }

  function PutList(tokens: seq<string>): seq<byte> { PutU32(|tokens|) + PutAll(tokens) }

  function Head(i: DigestInput): seq<byte> {
    PutOptional(i.requestId) + PutStr(i.principal) + PutStr(i.actor) + PutOptional(i.run)
  }

  function Frame(i: DigestInput): seq<byte> {
    Head(i) + PutStr(i.operation) + PutStr(i.target) + PutCapabilities(i.capabilities)
    + PutOptional(i.extensionDigest) + PutOptional(i.configDigest) + PutI64(i.expiry) + PutStr(i.nonce)
  }

  // ---- The buffer ----

  /** The vector the source appends to, field by field. */
  class Buffer {
    var data: seq<byte>

    constructor ()
      ensures data == []
    {
      data := [];
    }

    method Extend(b: seq<byte>)
      modifies this
      ensures data == old(data) + b
    {
      data := data + b;
    }

    method AppendStr(s: string)
      modifies this
      ensures data == old(data) + PutStr(s)
    {
      var b := Utf8.Encode(s);
      Associative(data, PutU32(|b|), b);
      data := data + PutU32(|b|);
      data := data + b;
    }

    method AppendOptional(s: Option<string>)
      modifies this
      ensures data == old(data) + PutOptional(s)
    {
      Associative(data, [Marker(s)], Body(s));
      if s.Some? {
        data := data + [1];
        AppendStr(s.value);
      } else {
        data := data + [0];
      }
    }

    method AppendAll(tokens: seq<string>)
      modifies this
      ensures data == old(data) + PutAll(tokens)
    {
      for i := 0 to |tokens|
        invariant data + PutAll(tokens[i..]) == old(data) + PutAll(tokens)
      {
        assert tokens[i..][1..] == tokens[i + 1..];
        Associative(data, PutStr(tokens[i]), PutAll(tokens[i + 1..]));
        AppendStr(tokens[i]);
      }
    }

    method AppendCapabilities(capabilities: seq<Capability>)
      modifies this
      ensures data == old(data) + PutCapabilities(capabilities)
    {
      var tokens := TokenList(Sorted(Members(capabilities)));
      Associative(data, PutU32(|tokens|), PutAll(tokens));
      data := data + PutU32(|tokens|);
      AppendAll(tokens);
    }
  }

  method AppendHead(buffer: Buffer, i: DigestInput)
    requires buffer.data == []
    modifies buffer
    ensures buffer.data == Head(i)
  {
    buffer.AppendOptional(i.requestId);
    assert buffer.data == PutOptional(i.requestId);
    buffer.AppendStr(i.principal);
    buffer.AppendStr(i.actor);
    buffer.AppendOptional(i.run);
  }

  method AppendMiddle(buffer: Buffer, i: DigestInput)
    modifies buffer
    ensures buffer.data == old(buffer.data) + PutStr(i.operation) + PutStr(i.target) + PutCapabilities(i.capabilities)
  {
    buffer.AppendStr(i.operation);
    buffer.AppendStr(i.target);
    buffer.AppendCapabilities(i.capabilities);
  }

  /** Fills a buffer in declaration order. */
  method BuildFrame(i: DigestInput) returns (data: seq<byte>)
    ensures data == Frame(i)
  {
    var buffer := new Buffer();
    AppendHead(buffer, i);
    AppendMiddle(buffer, i);
    buffer.AppendOptional(i.extensionDigest);
    buffer.AppendOptional(i.configDigest);
    buffer.Extend(PutI64(i.expiry));
    buffer.AppendStr(i.nonce);
    data := buffer.data;
  }

  // ---- Injectivity ----

  predicate Short(s: string) { |Utf8.Encode(s)| < U32 }

  predicate ShortOptional(s: Option<string>) { s.Some? ==> Short(s.value) }

  /** Every text field is under 2^32 bytes, and the expiry is a signed 64-bit number. */
  predicate InRange(i: DigestInput) {
    && ShortOptional(i.requestId) && Short(i.principal) && Short(i.actor) && ShortOptional(i.run)
    && Short(i.operation) && Short(i.target) && ShortOptional(i.extensionDigest) && ShortOptional(i.configDigest)
    && Short(i.nonce) && I64_MIN <= i.expiry <= I64_MAX
  }

  lemma {:induction false} SplitEqual(a: seq<byte>, x: seq<byte>, b: seq<byte>, y: seq<byte>)
    requires |a| == |b| && a + x == b + y
    ensures a == b && x == y
  {
    assert (a + x)[..|a|] == a && (b + y)[..|b|] == b;
    assert (a + x)[|a|..] == x && (b + y)[|b|..] == y;
  }

  lemma {:induction false} TakeBytes(a: seq<byte>, x: seq<byte>, b: seq<byte>, y: seq<byte>)
    requires |a| < U32 && |b| < U32 && PutBytes(a) + x == PutBytes(b) + y
    ensures a == b && x == y
  {
    Associative(PutU32(|a|), a, x);
    Associative(PutU32(|b|), b, y);
    SplitEqual(PutU32(|a|), a + x, PutU32(|b|), b + y);
    PutU32Value(|a|);
    PutU32Value(|b|);
    SplitEqual(a, x, b, y);
  }

  /** A length-prefixed string can be taken off the front in one way only. */
  lemma {:induction false} TakeStr(s: string, x: seq<byte>, t: string, y: seq<byte>)
    requires Short(s) && Short(t) && PutStr(s) + x == PutStr(t) + y
    ensures s == t && x == y
  {
    TakeBytes(Utf8.Encode(s), x, Utf8.Encode(t), y);
    Utf8.EncodeIsInjective(s, t);
  }

  lemma {:induction false} TakeOptional(s: Option<string>, x: seq<byte>, t: Option<string>, y: seq<byte>)
    requires ShortOptional(s) && ShortOptional(t) && PutOptional(s) + x == PutOptional(t) + y
    ensures s == t && x == y
  {
    Associative([Marker(s)], Body(s), x);
    Associative([Marker(t)], Body(t), y);
    SplitEqual([Marker(s)], Body(s) + x, [Marker(t)], Body(t) + y);
    TakeBody(s, x, t, y);
  }

  lemma {:induction false} TakeBody(s: Option<string>, x: seq<byte>, t: Option<string>, y: seq<byte>)
    requires ShortOptional(s) && ShortOptional(t) && [Marker(s)] == [Marker(t)] && Body(s) + x == Body(t) + y
    ensures s == t && x == y
  {
    assert Marker(s) == [Marker(s)][0] == [Marker(t)][0] == Marker(t);
    if s.Some? {
      TakeStr(s.value, x, t.value, y);
    } else {
      SplitEqual([], x, [], y);
    }
  }

  lemma {:induction false} TakeAll(a: seq<string>, x: seq<byte>, b: seq<string>, y: seq<byte>)
    requires |a| == |b| && (forall i :: 0 <= i < |a| ==> Short(a[i])) && (forall i :: 0 <= i < |b| ==> Short(b[i]))
    requires PutAll(a) + x == PutAll(b) + y
    ensures a == b && x == y
  {
    if a == [] {
      SplitEqual([], x, [], y);
    } else {
      var ra, rb := PutAll(a[1..]), PutAll(b[1..]);
      Associative(PutStr(a[0]), ra, x);
      Associative(PutStr(b[0]), rb, y);
      TakeStr(a[0], ra + x, b[0], rb + y);
      TakeAll(a[1..], x, b[1..], y);
      assert a == [a[0]] + a[1..] && b == [b[0]] + b[1..];
    }
  }

  lemma {:induction false} TokensAreShort(list: seq<Capability>)
    ensures forall i :: 0 <= i < |TokenList(list)| ==> Short(TokenList(list)[i])
  {
    forall i | 0 <= i < |list| ensures Short(Print(list[i])) {
      PrintLength(list[i]);
      Utf8.EncodeLength(Print(list[i]));
    }
  }

  lemma {:induction false} TokenListIsInjective(a: seq<Capability>, b: seq<Capability>)
    requires TokenList(a) == TokenList(b)
    ensures a == b
  {
    assert |a| == |TokenList(a)| == |TokenList(b)| == |b|;
    forall i | 0 <= i < |a| ensures a[i] == b[i] {
      assert TokenList(a)[i] == TokenList(b)[i];
      PrintIsInjective(a[i], b[i]);
    }
  }

  lemma {:induction false} TakeList(a: seq<string>, x: seq<byte>, b: seq<string>, y: seq<byte>)
    requires |a| < U32 && |b| < U32 && PutList(a) + x == PutList(b) + y
    requires (forall i :: 0 <= i < |a| ==> Short(a[i])) && (forall i :: 0 <= i < |b| ==> Short(b[i]))
    ensures a == b && x == y
  {
    Associative(PutU32(|a|), PutAll(a), x);
    Associative(PutU32(|b|), PutAll(b), y);
    SplitEqual(PutU32(|a|), PutAll(a) + x, PutU32(|b|), PutAll(b) + y);
    PutU32Value(|a|);
    PutU32Value(|b|);
    TakeAll(a, x, b, y);
  }

  lemma {:induction false} SortedTokens(s: set<Capability>)
    ensures var tokens := TokenList(Sorted(s)); |tokens| <= RANKS && forall i :: 0 <= i < |tokens| ==> Short(tokens[i])
  {
    ListedLength(s, AtRank, 0, RANKS);
    TokensAreShort(Sorted(s));
  }

  lemma {:induction false} TakeCapabilities(a: seq<Capability>, x: seq<byte>, b: seq<Capability>, y: seq<byte>)
    requires PutCapabilities(a) + x == PutCapabilities(b) + y
    ensures Members(a) == Members(b) && x == y
  {
    SortedTokens(Members(a));
    SortedTokens(Members(b));
    TakeList(TokenList(Sorted(Members(a))), x, TokenList(Sorted(Members(b))), y);
    TokenListIsInjective(Sorted(Members(a)), Sorted(Members(b)));
    SortedMembers(Members(a));
    SortedMembers(Members(b));
  }

  /** Everything agrees except the order and repetition of capabilities. */
  ghost predicate SameContent(a: DigestInput, b: DigestInput) {
    Members(a.capabilities) == Members(b.capabilities) && a.(capabilities := b.capabilities) == b
  }

  // The frame, cut where the proof takes it apart.
  function Ending(i: DigestInput): seq<byte> {
    PutOptional(i.extensionDigest) + (PutOptional(i.configDigest) + (PutI64(i.expiry) + PutStr(i.nonce)))
  }

  function Middle(i: DigestInput): seq<byte> {
    PutStr(i.operation) + (PutStr(i.target) + (PutCapabilities(i.capabilities) + Ending(i)))
  }

  /** The same frame, nested to the right. */
  lemma {:induction false} FrameNested(i: DigestInput)
    ensures Frame(i) == Head(i) + Middle(i)
    ensures Head(i) + Middle(i) == PutOptional(i.requestId) + (PutStr(i.principal) + (PutStr(i.actor) + (PutOptional(i.run) + Middle(i))))
  {
    var h, o, t, c := Head(i), PutStr(i.operation), PutStr(i.target), PutCapabilities(i.capabilities);
    var e, g, x, n := PutOptional(i.extensionDigest), PutOptional(i.configDigest), PutI64(i.expiry), PutStr(i.nonce);
    Associative(h + o + t + c + e + g, x, n);
    Associative(h + o + t + c + e, g, x + n);
    Associative(h + o + t + c, e, g + (x + n));
    Associative(h + o + t, c, Ending(i));
    Associative(h + o, t, c + Ending(i));
    Associative(h, o, t + (c + Ending(i)));
    HeadNested(i);
  }

  lemma {:induction false} HeadNested(i: DigestInput)
    ensures Head(i) + Middle(i) == PutOptional(i.requestId) + (PutStr(i.principal) + (PutStr(i.actor) + (PutOptional(i.run) + Middle(i))))
  {
    var q, p, a, r := PutOptional(i.requestId), PutStr(i.principal), PutStr(i.actor), PutOptional(i.run);
    Associative(q + p + a, r, Middle(i));
    Associative(q + p, a, r + Middle(i));
    Associative(q, p, a + (r + Middle(i)));
  }

  lemma {:induction false} EndingIsInjective(a: DigestInput, b: DigestInput)
    requires InRange(a) && InRange(b) && Ending(a) == Ending(b)
    ensures a.extensionDigest == b.extensionDigest && a.configDigest == b.configDigest && a.expiry == b.expiry && a.nonce == b.nonce
  {
    var xa, xb := PutI64(a.expiry) + PutStr(a.nonce), PutI64(b.expiry) + PutStr(b.nonce);
    TakeOptional(a.extensionDigest, PutOptional(a.configDigest) + xa, b.extensionDigest, PutOptional(b.configDigest) + xb);
    TakeOptional(a.configDigest, xa, b.configDigest, xb);
    SplitEqual(PutI64(a.expiry), PutStr(a.nonce), PutI64(b.expiry), PutStr(b.nonce));
    PutI64Injective(a.expiry, b.expiry);
    assert PutStr(a.nonce) + [] == PutStr(a.nonce) && PutStr(b.nonce) + [] == PutStr(b.nonce);
    TakeStr(a.nonce, [], b.nonce, []);
  }

  lemma {:induction false} MiddleIsInjective(a: DigestInput, b: DigestInput)
    requires InRange(a) && InRange(b) && Middle(a) == Middle(b)
    ensures a.operation == b.operation && a.target == b.target && Members(a.capabilities) == Members(b.capabilities)
    ensures Ending(a) == Ending(b)
  {
    var ca, cb := PutCapabilities(a.capabilities) + Ending(a), PutCapabilities(b.capabilities) + Ending(b);
    TakeStr(a.operation, PutStr(a.target) + ca, b.operation, PutStr(b.target) + cb);
    TakeStr(a.target, ca, b.target, cb);
    TakeCapabilities(a.capabilities, Ending(a), b.capabilities, Ending(b));
  }

  lemma {:induction false} FrameTaken(a: DigestInput, b: DigestInput)
    requires InRange(a) && InRange(b) && Frame(a) == Frame(b)
    ensures SameContent(a, b)
  {
    FrameNested(a);
    FrameNested(b);
    var ra, rb := PutOptional(a.run) + Middle(a), PutOptional(b.run) + Middle(b);
    var aa, ab := PutStr(a.actor) + ra, PutStr(b.actor) + rb;
    TakeOptional(a.requestId, PutStr(a.principal) + aa, b.requestId, PutStr(b.principal) + ab);
    TakeStr(a.principal, aa, b.principal, ab);
    TakeStr(a.actor, ra, b.actor, rb);
    TakeOptional(a.run, Middle(a), b.run, Middle(b));
    MiddleIsInjective(a, b);
    EndingIsInjective(a, b);
  }

  /**
   * Two inputs in range share a frame exactly when every scalar and optional field agrees and they
   * cite the same set of capabilities.
   */
  lemma {:induction false} FrameIsInjective(a: DigestInput, b: DigestInput)
    requires InRange(a) && InRange(b)
    ensures Frame(a) == Frame(b) <==> SameContent(a, b)
  {
    if Frame(a) == Frame(b) {
      FrameTaken(a, b);
    }
  }

  // ---- Past the range ----

  function Zeros(n: nat): string { seq(n, _ => '\0') }

  lemma {:induction false} EncodeZeros(n: nat)
    ensures Utf8.Encode(Zeros(n)) == seq(n, _ => 0 as byte)
  {
    if n > 0 {
      EncodeZeros(n - 1);
      assert Zeros(n)[1..] == Zeros(n - 1);
    }
  }

  lemma {:induction false} ZeroPrefix()
    ensures PutU32(0) == [0, 0, 0, 0]
  {
    assert BigEndian(0, 2) == [0, 0];
    assert BigEndian(0, 4) == BigEndian(0, 2) + [0] + [0];
  }

  /** 2^32 zero bytes more change neither a length prefix nor where the next, empty field seems to start. */
  lemma {:induction false} LongPair(e: seq<byte>, zeros: seq<byte>)
    requires |zeros| == U32 && forall i :: 0 <= i < U32 ==> zeros[i] == 0
    ensures PutBytes(e + zeros) + PutBytes([]) == PutBytes(e) + PutBytes(zeros)
  {
    ZeroPrefix();
    var zero, length := PutU32(0), PutU32(|e|);
    assert PutU32(|e + zeros|) == length && PutU32(|zeros|) == zero;
    assert zeros + (zero + []) == zero + zeros;
    Associative(length, e, zeros);
    Associative(length + e, zeros, zero + []);
  }

  /**
   * At 2^32 bytes a length prefix wraps. Appending that many zeros to the operation, or moving them into
   * the target, gives two inputs that differ and share a frame, whatever the input.
   */
  lemma {:induction false} LongFieldsCollide(i: DigestInput)
    ensures var a, b := i.(operation := i.operation + Zeros(U32), target := ""), i.(target := Zeros(U32));
            Frame(a) == Frame(b) && !SameContent(a, b)
  {
    var a, b := i.(operation := i.operation + Zeros(U32), target := ""), i.(target := Zeros(U32));
    EncodeZeros(U32);
    Utf8.EncodeAppend(i.operation, Zeros(U32));
    LongPair(Utf8.Encode(i.operation), seq(U32, _ => 0 as byte));
    assert PutStr(a.operation) + PutStr(a.target) == PutStr(b.operation) + PutStr(b.target);
    var rest := PutCapabilities(i.capabilities) + Ending(i);
    Associative(PutStr(a.operation), PutStr(a.target), rest);
    Associative(PutStr(b.operation), PutStr(b.target), rest);
    assert Middle(a) == Middle(b) && Head(a) == Head(b);
    FrameNested(a);
    FrameNested(b);
    assert |a.operation| == |b.operation| + U32;
  }

  predicate Fits(s: string, n: nat) { |Utf8.Encode(s)| <= n }

  predicate FitsOptional(s: Option<string>, n: nat) { s.Some? ==> Fits(s.value, n) }

  /** Every text field has at most `n` bytes, and the expiry is a signed 64-bit number. */
  predicate Within(i: DigestInput, n: nat) {
    && FitsOptional(i.requestId, n) && Fits(i.principal, n) && Fits(i.actor, n) && FitsOptional(i.run, n)
    && Fits(i.operation, n) && Fits(i.target, n) && FitsOptional(i.extensionDigest, n) && FitsOptional(i.configDigest, n)
    && Fits(i.nonce, n) && I64_MIN <= i.expiry <= I64_MAX
  }

  const BARE := DigestInput(None, "", "", None, "", "", [], None, None, 0, "")

  lemma {:induction false} BareCollides(n: nat) returns (a: DigestInput, b: DigestInput)
    requires n >= U32
    ensures Within(a, n) && Within(b, n) && Frame(a) == Frame(b) && !SameContent(a, b)
  {
    LongFieldsCollide(BARE);
    a, b := BARE.(operation := "" + Zeros(U32), target := ""), BARE.(target := Zeros(U32));
    EncodeZeros(U32);
    assert "" + Zeros(U32) == Zeros(U32);
  }

  /** With fields of up to `n` bytes, a frame determines its content exactly when a length of `n` fits its prefix. */
  lemma {:induction false} FrameIsInjectiveIff(n: nat)
    ensures (forall a, b :: Within(a, n) && Within(b, n) && Frame(a) == Frame(b) ==> SameContent(a, b)) <==> n < U32
  {
    if n < U32 {
      forall a, b | Within(a, n) && Within(b, n) && Frame(a) == Frame(b) ensures SameContent(a, b) {
        FrameIsInjective(a, b);
      }
    } else {
      var a, b := BareCollides(n);
    }
  }
}
