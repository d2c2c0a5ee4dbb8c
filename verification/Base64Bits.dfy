/** What base64 text means: the same bits in groups of six instead of eight. */
module Base64Bits {
  import opened Common
  import opened Base64

  /** `acc` followed by the bytes, read as one number. */
  function BytesNumber(acc: nat, b: seq<byte>): nat
    decreases |b|
  {
    if b == [] then acc else BytesNumber(acc * 256 + b[0] as nat, b[1..])
  }

  /** `acc` followed by the symbols' values, read as one number. */
  function SymbolsNumber(acc: nat, s: seq<byte>): nat
    requires AllSymbols(s)
    decreases |s|
  {
    if s == [] then acc else SymbolsNumber(acc * 64 + Value(s[0]).value, s[1..])
  }

  /** The number followed by the zero bits a last group of `rest` bytes needs: none, four or two. */
  function Filled(x: nat, rest: nat): nat { if rest == 0 then x else if rest == 1 then x * 16 else x * 4 }

  lemma {:induction false} BytesAppend(acc: nat, a: seq<byte>, b: seq<byte>)
    ensures BytesNumber(acc, a + b) == BytesNumber(BytesNumber(acc, a), b)
    decreases |a|
  {
    if a == [] {
      assert a + b == b;
    } else {
      BytesAppend(acc * 256 + a[0] as nat, a[1..], b);
      assert (a + b)[1..] == a[1..] + b;
    }
  }

  lemma {:induction false} SymbolsAppend(acc: nat, a: seq<byte>, b: seq<byte>)
    requires AllSymbols(a) && AllSymbols(b)
    ensures AllSymbols(a + b) && SymbolsNumber(acc, a + b) == SymbolsNumber(SymbolsNumber(acc, a), b)
    decreases |a|
  {
    if a == [] {
      assert a + b == b;
    } else {
      assert AllSymbols(a[1..]);
      SymbolsAppend(acc * 64 + Value(a[0]).value, a[1..], b);
      assert (a + b)[1..] == a[1..] + b;
    }
  }

  /** A group of symbols after `acc`, in closed form. */
  lemma {:induction false} SymbolsOfGroup(acc: nat, s: seq<byte>)
    requires 2 <= |s| <= 4 && AllSymbols(s)
    ensures |s| == 2 ==> SymbolsNumber(acc, s) * 0x1000 == acc * 0x100_0000 + Unpack(s)
    ensures |s| == 3 ==> SymbolsNumber(acc, s) * 0x40 == acc * 0x100_0000 + Unpack(s)
    ensures |s| == 4 ==> SymbolsNumber(acc, s) == acc * 0x100_0000 + Unpack(s)
  {
    var n1 := acc * 64 + Value(s[0]).value;
    var n2 := n1 * 64 + Value(s[1]).value;
    assert s[1..][1..] == s[2..];
    assert SymbolsNumber(acc, s) == SymbolsNumber(n2, s[2..]);
    if |s| >= 3 {
      var n3 := n2 * 64 + Value(s[2]).value;
      assert s[2..][1..] == s[3..];
      assert SymbolsNumber(n2, s[2..]) == SymbolsNumber(n3, s[3..]);
      if |s| == 4 {
        assert s[3..][1..] == [];
        assert SymbolsNumber(n3, s[3..]) == n3 * 64 + Value(s[3]).value;
      }
    }
  }

  lemma {:induction false} BytesOfGroup(acc: nat, c: seq<byte>)
    requires 1 <= |c| <= 3
    ensures |c| == 1 ==> BytesNumber(acc, c) * 0x1_0000 == acc * 0x100_0000 + Pack(c)
    ensures |c| == 2 ==> BytesNumber(acc, c) * 0x100 == acc * 0x100_0000 + Pack(c)
    ensures |c| == 3 ==> BytesNumber(acc, c) == acc * 0x100_0000 + Pack(c)
  {
    var n1 := acc * 256 + c[0] as nat;
    assert BytesNumber(acc, c) == BytesNumber(n1, c[1..]);
    if |c| >= 2 {
      var n2 := n1 * 256 + c[1] as nat;
      assert c[1..][1..] == c[2..];
      assert BytesNumber(n1, c[1..]) == BytesNumber(n2, c[2..]);
    }
  }

  lemma {:induction false} GroupKeepsBits(acc: nat, c: seq<byte>)
    requires 1 <= |c| <= 3
    ensures AllSymbols(GroupSymbols(c)) && SymbolsNumber(acc, GroupSymbols(c)) == Filled(BytesNumber(acc, c), Rem(|c|, 3))
  {
    UnpackSymbols(c);
    SymbolsOfGroup(acc, GroupSymbols(c));
    BytesOfGroup(acc, c);
  }

  lemma {:induction false} BodyKeepsBits(acc: nat, b: seq<byte>)
    ensures AllSymbols(EncodeBody(b)) && SymbolsNumber(acc, EncodeBody(b)) == Filled(BytesNumber(acc, b), Rem(|b|, 3))
    decreases |b|
  {
    if 0 < |b| <= 3 {
      GroupKeepsBits(acc, b);
    } else if |b| > 3 {
      GroupKeepsBits(acc, b[..3]);
      BodyKeepsBits(BytesNumber(acc, b[..3]), b[3..]);
      SymbolsAppend(acc, GroupSymbols(b[..3]), EncodeBody(b[3..]));
      BytesAppend(acc, b[..3], b[3..]);
      assert b[..3] + b[3..] == b;
    }
  }

  /** The symbols of a text, its pads aside, spell the input's number followed by zero bits up to a whole symbol. */
  lemma {:induction false} EncodingKeepsBits(b: seq<byte>)
    ensures var s := Encode(b);
            var body := s[..|s| - PadCount(|b|)];
            AllSymbols(body) && SymbolsNumber(0, body) == Filled(BytesNumber(0, b), |b| % 3)
  {
    BodyKeepsBits(0, b);
    RemIsMod(|b|, 3);
    assert Encode(b)[..|Encode(b)| - PadCount(|b|)] == EncodeBody(b);
  }
}
