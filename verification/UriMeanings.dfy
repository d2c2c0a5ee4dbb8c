/** Which texts write a resource URI: the printed form, in which tokens may be percent-escaped byte by byte. */
module UriMeanings {
  import opened Common
  import opened Text
  import opened ResourceUris
  import Utf8

  // ---- Percent-escapes (section 2.1 of RFC 3986) ----

  /** How one byte is written: as itself, or as an escape whose digits may be in either case. */
  datatype Mode = Plain | Escaped(hiUpper: bool, loUpper: bool)

  function Digit(v: nat, upper: bool): byte
    requires v < 16
  {
    if v < 10 then (48 + v) as byte else if upper then (55 + v) as byte else (87 + v) as byte
  }

  function WriteByte(b: byte, m: Mode): seq<byte> {
    if m.Plain? then [b] else [PERCENT, Digit(b as nat / 16, m.hiUpper), Digit(b as nat % 16, m.loUpper)]
  }

  function Write(b: seq<byte>, modes: seq<Mode>): seq<byte>
    requires |modes| == |b|
  {
    if b == [] then [] else WriteByte(b[0], modes[0]) + Write(b[1..], modes[1..])
  }

  /** The modes write `b` as `w`; a percent sign itself must be escaped. */
  ghost predicate Written(w: seq<byte>, b: seq<byte>, modes: seq<Mode>) {
    |modes| == |b| && w == Write(b, modes) && forall i :: 0 <= i < |b| && b[i] == PERCENT ==> !modes[i].Plain?
  }

  lemma {:induction false} DigitIsHex(v: nat, upper: bool)
    requires v < 16
    ensures Hex(Digit(v, upper)) == Some(v as byte)
  {
  }

  lemma {:induction false} HexIsDigit(d: byte) returns (upper: bool)
    requires Hex(d).Some?
    ensures Hex(d).value as nat < 16 && Digit(Hex(d).value as nat, upper) == d
  {
    upper := 65 <= d <= 70;
  }

  lemma {:induction false} WrittenByte(b: byte, m: Mode, rest: seq<byte>)
    requires b == PERCENT ==> !m.Plain?
    ensures PercentDecode(WriteByte(b, m) + rest) ==
              match PercentDecode(rest) case None => None case Some(more) => Some([b] + more)
  {
    var w := WriteByte(b, m) + rest;
    assert w[|WriteByte(b, m)|..] == rest;
    if m.Escaped? {
      DigitIsHex(b as nat / 16, m.hiUpper);
      DigitIsHex(b as nat % 16, m.loUpper);
    }
  }

  lemma {:induction false} WrittenSplits(w: seq<byte>, b: seq<byte>, modes: seq<Mode>) returns (rest: seq<byte>)
    requires Written(w, b, modes) && b != []
    ensures Written(rest, b[1..], modes[1..]) && w == WriteByte(b[0], modes[0]) + rest
    ensures b == [b[0]] + b[1..]
  {
    rest := Write(b[1..], modes[1..]);
  }

  lemma {:induction false} WrittenDecodes(w: seq<byte>, b: seq<byte>, modes: seq<Mode>)
    requires Written(w, b, modes)
    ensures PercentDecode(w) == Some(b)
    decreases |b|
  {
    if b != [] {
      var rest := WrittenSplits(w, b, modes);
      WrittenDecodes(rest, b[1..], modes[1..]);
      WrittenByte(b[0], modes[0], rest);
    }
  }

  /** Three bytes that decode as an escape are how some mode writes the decoded byte. */
  lemma {:induction false} EscapeIsWritten(x: byte, y: byte) returns (m: Mode)
    requires Hex(x).Some? && Hex(y).Some?
    ensures m.Escaped? && WriteByte(Hex(x).value * 16 + Hex(y).value, m) == [PERCENT, x, y]
  {
    var hi := HexIsDigit(x);
    var lo := HexIsDigit(y);
    m := Escaped(hi, lo);
    var h, l := Hex(x).value as nat, Hex(y).value as nat;
    assert (h * 16 + l) / 16 == h && (h * 16 + l) % 16 == l;
  }

  lemma {:induction false} DecodedIsWritten(w: seq<byte>) returns (modes: seq<Mode>)
    requires PercentDecode(w).Some?
    ensures Written(w, PercentDecode(w).value, modes)
    decreases |w|
  {
    if w == [] {
      modes := [];
    } else if w[0] != PERCENT {
      var rest := DecodedIsWritten(w[1..]);
      modes := WrittenMore(w[1..], PercentDecode(w[1..]).value, rest, w[0], Plain);
      assert w == [w[0]] + w[1..];
    } else {
      var m := EscapeIsWritten(w[1], w[2]);
      var rest := DecodedIsWritten(w[3..]);
      modes := WrittenMore(w[3..], PercentDecode(w[3..]).value, rest, Hex(w[1]).value * 16 + Hex(w[2]).value, m);
      assert w == [PERCENT, w[1], w[2]] + w[3..];
    }
  }

  lemma {:induction false} WrittenMore(w: seq<byte>, b: seq<byte>, modes: seq<Mode>, x: byte, m: Mode) returns (more: seq<Mode>)
    requires Written(w, b, modes) && (x == PERCENT ==> !m.Plain?)
    ensures Written(WriteByte(x, m) + w, [x] + b, more)
  {
    more := [m] + modes;
    assert ([x] + b)[1..] == b && more[1..] == modes;
  }

  /** Decoding gives `b` exactly when the text writes `b`: every escape is read as its byte, and nothing else is. */
  lemma {:induction false} PercentMeans(w: seq<byte>, b: seq<byte>)
    ensures PercentDecode(w) == Some(b) <==> exists modes :: Written(w, b, modes)
  {
    if PercentDecode(w) == Some(b) {
      var modes := DecodedIsWritten(w);
    }
    if modes :| Written(w, b, modes) {
      WrittenDecodes(w, b, modes);
    }
  }

  // ---- Tokens and paths ----

  /** The text spells `t`, with any bytes escaped. */
  ghost predicate Spells(s: string, t: string) { exists modes :: Written(Utf8.Encode(s), Utf8.Encode(t), modes) }

  lemma {:induction false} TextMeans(s: string, t: string)
    ensures DecodeText(s) == Some(t) <==> Spells(s, t)
  {
    PercentMeans(Utf8.Encode(s), Utf8.Encode(t));
    Utf8.DecodeEncode(t);
    if DecodeText(s) == Some(t) {
      Utf8.EncodeDecode(PercentDecode(Utf8.Encode(s)).value);
    }
  }

  lemma {:induction false} TokenMeans(s: string, t: string)
    ensures DecodeToken(s) == Some(t) <==> IsToken(t) && Spells(s, t)
  {
    TextMeans(s, t);
  }

  /** Part by part, the texts spell the tokens. */
  ghost predicate AllSpell(parts: seq<string>, tokens: seq<string>) {
    |parts| == |tokens| && forall i :: 0 <= i < |parts| ==> IsToken(tokens[i]) && Spells(parts[i], tokens[i])
  }

  lemma {:induction false} DecodeLast(parts: seq<string>, s: string, tokens: seq<string>, t: string)
    ensures DecodeTokens(parts + [s]) == Some(tokens + [t]) <==> DecodeTokens(parts) == Some(tokens) && DecodeToken(s) == Some(t)
  {
    assert (parts + [s])[..|parts|] == parts;
    if DecodeTokens(parts + [s]) == Some(tokens + [t]) {
      assert (tokens + [t])[..|tokens|] == tokens && (tokens + [t])[|tokens|] == t;
    }
  }

  lemma {:induction false} SpellLast(parts: seq<string>, s: string, tokens: seq<string>, t: string)
    ensures AllSpell(parts + [s], tokens + [t]) <==> AllSpell(parts, tokens) && IsToken(t) && Spells(s, t)
  {
    if AllSpell(parts + [s], tokens + [t]) {
      forall i | 0 <= i < |parts| ensures IsToken(tokens[i]) && Spells(parts[i], tokens[i]) {
        assert (parts + [s])[i] == parts[i] && (tokens + [t])[i] == tokens[i];
      }
      assert (parts + [s])[|parts|] == s && (tokens + [t])[|parts|] == t;
    }
  }

  lemma {:induction false} TokensMean(parts: seq<string>, tokens: seq<string>)
    ensures DecodeTokens(parts) == Some(tokens) <==> AllSpell(parts, tokens)
    decreases |parts|
  {
    if parts != [] && tokens != [] {
      var n, m := |parts| - 1, |tokens| - 1;
      TokensMean(parts[..n], tokens[..m]);
      TokenMeans(parts[n], tokens[m]);
      DecodeLast(parts[..n], parts[n], tokens[..m], tokens[m]);
      SpellLast(parts[..n], parts[n], tokens[..m], tokens[m]);
      assert parts == parts[..n] + [parts[n]] && tokens == tokens[..m] + [tokens[m]];
    } else if parts != [] {
      DecodedSize(parts);
    }
  }

  lemma {:induction false} DecodedSize(parts: seq<string>)
    ensures DecodeTokens(parts).Some? ==> |DecodeTokens(parts).value| == |parts|
  {
    if DecodeTokens(parts).Some? {
      DecodedAreTokens(parts);
    }
  }

  lemma {:induction false} SpellingIsNonempty(s: string, t: string)
    requires Spells(s, t) && t != ""
    ensures s != ""
  {
    var modes :| Written(Utf8.Encode(s), Utf8.Encode(t), modes);
    Utf8.EncodeLength(t);
    assert Write(Utf8.Encode(t), modes) != [];
    Utf8.EncodeLength(s);
  }

  lemma {:induction false} FirstPartEmpty(raw: string)
    ensures raw == "" || StartsWith(raw, "/") ==> Split(raw, '/')[0] == ""
  {
  }

  /** The text spells the path: tokens between slashes, no backslash anywhere. */
  ghost predicate SpellsPath(raw: string, path: string) {
    '\\' !in raw && exists tokens :: AllSpell(Split(raw, '/'), tokens) && path == Join(tokens, '/')
  }

  lemma {:induction false} SpelledStarts(raw: string, tokens: seq<string>)
    requires AllSpell(Split(raw, '/'), tokens)
    ensures raw != "" && !StartsWith(raw, "/")
  {
    assert IsToken(tokens[0]) && Spells(Split(raw, '/')[0], tokens[0]);
    SpellingIsNonempty(Split(raw, '/')[0], tokens[0]);
    FirstPartEmpty(raw);
  }

  lemma {:induction false} PathMeans(raw: string, path: string)
    ensures NormalizePath(raw) == Some(path) <==> SpellsPath(raw, path)
  {
    if NormalizePath(raw) == Some(path) {
      TokensMean(Split(raw, '/'), DecodeTokens(Split(raw, '/')).value);
    }
    if tokens :| AllSpell(Split(raw, '/'), tokens) && path == Join(tokens, '/') {
      TokensMean(Split(raw, '/'), tokens);
      SpelledStarts(raw, tokens);
    }
  }

  // ---- URIs ----

  /** The text writes the value: as it prints, with the tokens of a path or a secret spelled in any way. */
  ghost predicate Writes(raw: string, u: ResourceUri) {
    match u
    case Workspace(id, path) => exists p :: raw == "workspace://" + (id + "/" + p) && SpellsPath(p, path)
    case Secret(namespace, name) =>
      exists ns, n :: raw == "secret://" + (ns + "/" + n) && '/' !in ns && '/' !in n && Spells(ns, namespace) && Spells(n, name)
    case Single(kind, id) => raw == KindToken(kind) + "://" + id
    case Adapter(id, version, digest) => raw == "adapter://" + (id + "@" + version + "#" + digest)
  }

  lemma {:induction false} AtScheme(raw: string)
    requires SplitOnce(raw, "://").Some?
    ensures var (scheme, rest) := SplitOnce(raw, "://").value; raw == scheme + "://" + rest
  {
    FindMatches(raw, "://");
    var i := Find(raw, "://").value;
    assert raw[i..][..3] == "://";
    assert raw[i..] == raw[i..][..3] + raw[i + 3..];
  }

  lemma {:induction false} WorkspaceParsed(rest: string, u: ResourceUri)
    ensures ParseWorkspace(rest) == Some(u) <==>
              u.Workspace? && IsId(u.id) && exists p :: rest == u.id + "/" + p && SpellsPath(p, u.path)
  {
    if SplitOnce(rest, "/").Some? {
      SplitOnceHead(rest, '/');
      var (id, p) := SplitOnce(rest, "/").value;
      assert [] + "/" == "/";
      if u.Workspace? { PathMeans(p, u.path); }
    }
    if u.Workspace? && IsId(u.id) {
      if p :| rest == u.id + "/" + p && SpellsPath(p, u.path) {
        IdHasNo(u.id, '/');
        SplitOnceAt(u.id, p, '/');
        PathMeans(p, u.path);
      }
    }
  }

  /** The body writes a secret: two spelled tokens around one slash. */
  ghost predicate SecretBody(rest: string, u: ResourceUri) {
    && u.Secret? && IsToken(u.namespace) && IsToken(u.name)
    && exists ns, n :: rest == ns + "/" + n && '/' !in ns && '/' !in n && Spells(ns, u.namespace) && Spells(n, u.name)
  }

  lemma {:induction false} SecretIsWritten(rest: string, u: ResourceUri)
    requires ParseSecret(rest) == Some(u)
    ensures SecretBody(rest, u)
  {
    SplitOnceHead(rest, '/');
    var (ns, n) := SplitOnce(rest, "/").value;
    TokenMeans(ns, u.namespace);
    TokenMeans(n, u.name);
    assert rest == ns + "/" + n;
  }

  lemma {:induction false} WrittenSecret(rest: string, u: ResourceUri)
    requires SecretBody(rest, u)
    ensures ParseSecret(rest) == Some(u)
  {
    var ns, n :| rest == ns + "/" + n && '/' !in ns && '/' !in n && Spells(ns, u.namespace) && Spells(n, u.name);
    SplitOnceAt(ns, n, '/');
    TokenMeans(ns, u.namespace);
    TokenMeans(n, u.name);
    SpellingIsNonempty(ns, u.namespace);
    SpellingIsNonempty(n, u.name);
  }

  lemma {:induction false} AdapterParsed(rest: string, u: ResourceUri)
    ensures ParseAdapter(rest) == Some(u) <==> u.Adapter? && IsCanonical(u) && rest == u.id + "@" + u.version + "#" + u.digest
  {
    if ParseAdapter(rest) == Some(u) {
      SplitOnceHead(rest, '#');
      SplitOnceHead(SplitOnce(rest, "#").value.0, '@');
    }
    if u.Adapter? && IsCanonical(u) && rest == u.id + "@" + u.version + "#" + u.digest {
      AdapterReparses(u.id, u.version, u.digest);
    }
  }

  /** The scheme and body write the value. */
  ghost predicate BodyWrites(scheme: string, rest: string, u: ResourceUri) {
    match u
    case Workspace(id, path) => scheme == "workspace" && IsId(id) && exists p :: rest == id + "/" + p && SpellsPath(p, path)
    case Secret(_, _) => scheme == "secret" && SecretBody(rest, u)
    case Single(kind, id) => scheme == KindToken(kind) && rest == id && IsId(id)
    case Adapter(id, version, digest) => scheme == "adapter" && IsCanonical(u) && rest == id + "@" + version + "#" + digest
  }

  lemma {:induction false} ParsedBody(scheme: string, rest: string, u: ResourceUri)
    requires ParseBody(scheme, rest) == Some(u)
    ensures BodyWrites(scheme, rest, u)
  {
    if scheme == "workspace" {
      WorkspaceParsed(rest, u);
    } else if scheme == "secret" {
      SecretIsWritten(rest, u);
    } else if scheme == "adapter" {
      AdapterParsed(rest, u);
    }
  }

  lemma {:induction false} WrittenBody(scheme: string, rest: string, u: ResourceUri)
    requires BodyWrites(scheme, rest, u)
    ensures ParseBody(scheme, rest) == Some(u)
  {
    match u
    case Workspace(id, path) =>
      IdHasNo(id, '/');
      WorkspaceParsed(rest, u);
    case Secret(_, _) => WrittenSecret(rest, u);
    case Single(kind, id) => SingleReparses(kind, id);
    case Adapter(id, version, digest) => AdapterReparses(id, version, digest);
  }

  lemma {:induction false} SchemeOf(u: ResourceUri) returns (scheme: string)
    ensures ':' !in scheme && scheme == match u
                                          case Workspace(_, _) => "workspace"
                                          case Secret(_, _) => "secret"
                                          case Single(kind, _) => KindToken(kind)
                                          case Adapter(_, _, _) => "adapter"
  {
    scheme := match u
              case Workspace(_, _) => "workspace"
              case Secret(_, _) => "secret"
              case Single(kind, _) => KindToken(kind)
              case Adapter(_, _, _) => "adapter";
  }

  lemma {:induction false} BodyIsWritten(scheme: string, rest: string, u: ResourceUri)
    requires BodyWrites(scheme, rest, u)
    ensures Writes(scheme + "://" + rest, u)
  {
    match u
    case Workspace(id, path) => assert "workspace" + "://" == "workspace://";
    case Secret(_, _) => assert "secret" + "://" == "secret://";
    case Single(_, _) =>
    case Adapter(_, _, _) => assert "adapter" + "://" == "adapter://";
  }

  lemma {:induction false} ParsedIsWritten(raw: string, u: ResourceUri)
    requires Parse(raw) == Some(u)
    ensures Writes(raw, u)
  {
    AtScheme(raw);
    var (scheme, rest) := SplitOnce(raw, "://").value;
    ParsedBody(scheme, rest, u);
    BodyIsWritten(scheme, rest, u);
  }

  lemma {:induction false} WrittenIsParsed(raw: string, u: ResourceUri)
    requires IsCanonical(u) && Writes(raw, u)
    ensures Parse(raw) == Some(u)
  {
    assert "workspace" + "://" == "workspace://" && "secret" + "://" == "secret://" && "adapter" + "://" == "adapter://";
    var scheme := SchemeOf(u);
    match u
    case Workspace(id, path) =>
      var p :| raw == "workspace://" + (id + "/" + p) && SpellsPath(p, path);
      assert BodyWrites(scheme, id + "/" + p, u);
      WrittenBody(scheme, id + "/" + p, u);
      SchemeSplits(scheme, id + "/" + p);
    case Secret(namespace, name) =>
      var ns, n :| raw == "secret://" + (ns + "/" + n) && '/' !in ns && '/' !in n && Spells(ns, namespace) && Spells(n, name);
      assert SecretBody(ns + "/" + n, u);
      WrittenBody(scheme, ns + "/" + n, u);
      SchemeSplits(scheme, ns + "/" + n);
    case Single(kind, id) =>
      WrittenBody(scheme, id, u);
      SchemeSplits(scheme, id);
    case Adapter(id, version, digest) =>
      WrittenBody(scheme, id + "@" + version + "#" + digest, u);
      SchemeSplits(scheme, id + "@" + version + "#" + digest);
  }

  /** A text parses to a value exactly when the value is canonical and the text writes it. */
  lemma {:induction false} ParseMeans(raw: string, u: ResourceUri)
    ensures Parse(raw) == Some(u) <==> IsCanonical(u) && Writes(raw, u)
  {
    if Parse(raw) == Some(u) {
      ParsedIsCanonical(raw);
      ParsedIsWritten(raw, u);
    }
    if IsCanonical(u) && Writes(raw, u) {
      WrittenIsParsed(raw, u);
    }
  }
}
