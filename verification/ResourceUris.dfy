/** Parsing and printing resource URIs (resource-uri/src/parser.rs). */
module ResourceUris {
  import opened Common
  import opened Text
  import opened Ids
  import Utf8

  /** Schemes whose body is one bare identifier. */
  datatype Kind = Artifact | Sandbox | Run | Task | Session

  datatype ResourceUri =
    | Workspace(id: string, path: string)
    | Single(kind: Kind, id: string)
    | Secret(namespace: string, name: string)
    | Adapter(id: string, version: string, digest: string)

  function KindToken(k: Kind): string {
    match k
    case Artifact => "artifact" case Sandbox => "sandbox" case Run => "run" case Task => "task" case Session => "session"
  }

  function Print(u: ResourceUri): string {
    match u
    case Workspace(id, path) => "workspace://" + (id + "/" + path)
    case Single(kind, id) => KindToken(kind) + "://" + id
    case Secret(namespace, name) => "secret://" + (namespace + "/" + name)
    case Adapter(id, version, digest) => "adapter://" + (id + "@" + version + "#" + digest)
  }

  // ---- Percent-decoding ----

  const PERCENT: byte := 37

  function Hex(b: byte): Option<byte> {
    if 48 <= b <= 57 then Some(b - 48)
    else if 97 <= b <= 102 then Some(b - 97 + 10)
    else if 65 <= b <= 70 then Some(b - 65 + 10)
    else None
  }

  function PercentDecode(b: seq<byte>): Option<seq<byte>>
    decreases |b|
  {
    if b == [] then Some([])
    else if b[0] != PERCENT then
      match PercentDecode(b[1..]) case None => None case Some(rest) => Some([b[0]] + rest)
    else if |b| < 3 || Hex(b[1]).None? || Hex(b[2]).None? then None
    else
      match PercentDecode(b[3..]) case None => None case Some(rest) => Some([Hex(b[1]).value * 16 + Hex(b[2]).value] + rest)
  }

  function DecodeText(s: string): Option<string> {
    match PercentDecode(Utf8.Encode(s)) case None => None case Some(b) => Utf8.Decode(b)
  }

  method DecodeSegment(segment: string) returns (r: Option<string>)
    ensures r == DecodeText(segment)
  {
    var bytes := Utf8.Encode(segment);
    var out, i := [], 0;
    assert bytes[0..] == bytes;
    while i < |bytes|
      invariant 0 <= i <= |bytes|
      invariant PercentDecode(bytes).Some? <==> PercentDecode(bytes[i..]).Some?
      invariant PercentDecode(bytes).Some? ==> PercentDecode(bytes).value == out + PercentDecode(bytes[i..]).value
      decreases |bytes| - i
    {
      if bytes[i] == PERCENT {
        if i + 2 >= |bytes| { return None; }
        var hi, lo := Hex(bytes[i + 1]), Hex(bytes[i + 2]);
        if hi.None? || lo.None? { return None; }
        assert bytes[i..][3..] == bytes[i + 3..];
        ghost var rest := PercentDecode(bytes[i + 3..]);
        if rest.Some? { Associative(out, [hi.value * 16 + lo.value], rest.value); }
        out := out + [hi.value * 16 + lo.value];
        i := i + 3;
      } else {
        assert bytes[i..][1..] == bytes[i + 1..];
        ghost var rest := PercentDecode(bytes[i + 1..]);
        if rest.Some? { Associative(out, [bytes[i]], rest.value); }
        out := out + [bytes[i]];
        i := i + 1;
      }
    }
    assert out + [] == out;
    r := Utf8.Decode(out);
  }

  /** A parsed value must print back to itself: no delimiter, control or white space. */
  predicate IsTokenChar(c: char) { c !in {'%', '/', '\\', '#', '?'} && !IsControl(c) && !IsSpace(c) }

  predicate IsToken(s: string) { s != "" && s != "." && s != ".." && forall c :: c in s ==> IsTokenChar(c) }

  function DecodeToken(s: string): Option<string> {
    match DecodeText(s) case None => None case Some(t) => if IsToken(t) then Some(t) else None
  }

  function DecodeTokens(parts: seq<string>): Option<seq<string>> {
    if parts == [] then Some([])
    else
      var n := |parts| - 1;
      var init, last := DecodeTokens(parts[..n]), DecodeToken(parts[n]);
      if init.None? || last.None? then None else Some(init.value + [last.value])
  }

  function NormalizePath(raw: string): Option<string> {
    if raw == "" || StartsWith(raw, "/") || '\\' in raw then None
    else
      match DecodeTokens(Split(raw, '/')) case None => None case Some(segments) => Some(Join(segments, '/'))
  }

  method BuildPath(raw: string) returns (r: Option<string>)
    ensures r == NormalizePath(raw)
  {
    if raw == "" || StartsWith(raw, "/") || '\\' in raw { return None; }
    var parts := Split(raw, '/');
    var segments := [];
    for i := 0 to |parts|
      invariant DecodeTokens(parts[..i]) == Some(segments)
    {
      assert parts[..i + 1][..i] == parts[..i];
      var decoded := DecodeSegment(parts[i]);
      if decoded.None? || !IsToken(decoded.value) {
        BadToken(parts, i);
        return None;
      }
      segments := segments + [decoded.value];
    }
    assert parts[..|parts|] == parts;
    r := Some(Join(segments, '/'));
  }

  lemma {:induction false} BadToken(parts: seq<string>, i: nat)
    requires i < |parts| && DecodeToken(parts[i]).None?
    ensures DecodeTokens(parts).None?
    decreases |parts|
  {
    if i < |parts| - 1 {
      BadToken(parts[..|parts| - 1], i);
    }
  }

  // ---- Parsing ----

  predicate IsId(s: string) { IsCanonicalId(Utf8.Encode(s)) }

  predicate IsVersion(s: string) { s != "" && forall c :: c in s ==> IsAlphanumeric(c) || c in {'.', '-', '_'} }

  predicate IsDigest(s: string) { s != "" && forall c :: c in s ==> IsAlphanumeric(c) || c in {':', '-', '_'} }

  function ParseWorkspace(rest: string): Option<ResourceUri> {
    match SplitOnce(rest, "/")
    case None => None
    case Some((id, path)) =>
      if !IsId(id) then None
      else match NormalizePath(path) case None => None case Some(p) => Some(Workspace(id, p))
  }

  function ParseSingle(kind: Kind, rest: string): Option<ResourceUri> {
    if '/' in rest || '#' in rest || '@' in rest || !IsId(rest) then None else Some(Single(kind, rest))
  }

  function ParseSecret(rest: string): Option<ResourceUri> {
    match SplitOnce(rest, "/")
    case None => None
    case Some((namespace, name)) =>
      if namespace == "" || name == "" || '/' in name || '/' in namespace then None
      else
        var ns, n := DecodeToken(namespace), DecodeToken(name);
        if ns.None? || n.None? then None else Some(Secret(ns.value, n.value))
  }

  function ParseAdapter(rest: string): Option<ResourceUri> {
    match SplitOnce(rest, "#")
    case None => None
    case Some((front, digest)) =>
      match SplitOnce(front, "@")
      case None => None
      case Some((id, version)) =>
        if IsVersion(version) && IsDigest(digest) && IsId(id) then Some(Adapter(id, version, digest)) else None
  }

  function ParseBody(scheme: string, rest: string): Option<ResourceUri> {
    if rest == "" then None
    else if scheme == "workspace" then ParseWorkspace(rest)
    else if scheme == "artifact" then ParseSingle(Artifact, rest)
    else if scheme == "secret" then ParseSecret(rest)
    else if scheme == "sandbox" then ParseSingle(Sandbox, rest)
    else if scheme == "run" then ParseSingle(Run, rest)
    else if scheme == "task" then ParseSingle(Task, rest)
    else if scheme == "session" then ParseSingle(Session, rest)
    else if scheme == "adapter" then ParseAdapter(rest)
    else None
  }

  function Parse(raw: string): Option<ResourceUri> {
    match SplitOnce(raw, "://") case None => None case Some((scheme, rest)) => ParseBody(scheme, rest)
  }

  // ---- Canonical values ----

  predicate IsTokenPath(p: string) { forall s :: s in Split(p, '/') ==> IsToken(s) }

  predicate IsCanonical(u: ResourceUri) {
    match u
    case Workspace(id, path) => IsId(id) && IsTokenPath(path)
    case Single(_, id) => IsId(id)
    case Secret(namespace, name) => IsToken(namespace) && IsToken(name)
    case Adapter(id, version, digest) => IsId(id) && IsVersion(version) && IsDigest(digest)
  }

  lemma {:induction false} PercentFree(b: seq<byte>)
    requires PERCENT !in b
    ensures PercentDecode(b) == Some(b)
  {
    if b != [] {
      PercentFree(b[1..]);
      assert b == [b[0]] + b[1..];
    }
  }

  /** A token decodes to itself. */
  lemma {:induction false} TokenDecodes(s: string)
    requires IsToken(s)
    ensures DecodeToken(s) == Some(s)
  {
    Utf8.AsciiMember(s, '%');
    PercentFree(Utf8.Encode(s));
    Utf8.DecodeEncode(s);
  }

  lemma {:induction false} OneMoreDecodes(parts: seq<string>, t: string)
    requires DecodeTokens(parts) == Some(parts) && DecodeToken(t) == Some(t)
    ensures DecodeTokens(parts + [t]) == Some(parts + [t])
  {
    assert (parts + [t])[..|parts|] == parts;
  }

  lemma {:induction false} TokensDecode(parts: seq<string>)
    requires forall i :: 0 <= i < |parts| ==> IsToken(parts[i])
    ensures DecodeTokens(parts) == Some(parts)
  {
    if parts != [] {
      var n := |parts| - 1;
      TokensDecode(parts[..n]);
      TokenDecodes(parts[n]);
      OneMoreDecodes(parts[..n], parts[n]);
      assert parts == parts[..n] + [parts[n]];
    }
  }

  lemma {:induction false} DecodedAreTokens(parts: seq<string>)
    requires DecodeTokens(parts).Some?
    ensures |DecodeTokens(parts).value| == |parts|
    ensures forall i :: 0 <= i < |parts| ==> IsToken(DecodeTokens(parts).value[i])
  {
    if parts != [] {
      DecodedAreTokens(parts[..|parts| - 1]);
    }
  }

  lemma {:induction false} JoinMember(parts: seq<string>, c: char)
    requires c != '/' && (forall i :: 0 <= i < |parts| ==> c !in parts[i])
    ensures c !in Join(parts, '/')
  {
    if |parts| > 1 {
      JoinMember(parts[1..], c);
    }
  }

  /** Normalising yields a path of tokens: no empty, dot or dot-dot segment, no separator, no escape. */
  lemma {:induction false} NormalPathIsTokens(raw: string)
    requires NormalizePath(raw).Some?
    ensures IsTokenPath(NormalizePath(raw).value)
  {
    var segments := DecodeTokens(Split(raw, '/')).value;
    DecodedAreTokens(Split(raw, '/'));
    assert forall i :: 0 <= i < |segments| ==> '/' !in segments[i];
    SplitJoin(segments, '/');
  }

  lemma {:induction false} TokenPathShape(p: string)
    requires IsTokenPath(p)
    ensures p != "" && !StartsWith(p, "/") && '\\' !in p
  {
    var parts := Split(p, '/');
    assert parts[0] in parts;
    JoinSplit(p, '/');
    forall i | 0 <= i < |parts| ensures '\\' !in parts[i] {
      assert parts[i] in parts;
    }
    JoinMember(parts, '\\');
    if p != "" { assert p[0] == parts[0][0]; }
  }

  /** A path of tokens is its own normal form. */
  lemma {:induction false} TokenPathIsFixed(p: string)
    requires IsTokenPath(p)
    ensures NormalizePath(p) == Some(p)
  {
    var parts := Split(p, '/');
    forall i | 0 <= i < |parts| ensures IsToken(parts[i]) {
      assert parts[i] in parts;
    }
    TokenPathShape(p);
    TokensDecode(parts);
    JoinSplit(p, '/');
  }

  lemma {:induction false} IdHasNo(s: string, c: char)
    requires IsId(s) && c in {'/', '#', '@', ':'}
    ensures c !in s && s != ""
  {
    Utf8.AsciiMember(s, c);
    Utf8.EncodeLength(s);
    var b := Utf8.Encode(s);
    forall i | 0 <= i < |b| ensures b[i] != c as int as byte {
    }
  }

  // ---- Round trips ----

  lemma {:induction false} ParsedIsCanonical(raw: string)
    requires Parse(raw).Some?
    ensures IsCanonical(Parse(raw).value)
  {
    var (scheme, rest) := SplitOnce(raw, "://").value;
    if scheme == "workspace" {
      NormalPathIsTokens(SplitOnce(rest, "/").value.1);
    }
  }

  lemma {:induction false} WorkspaceReparses(id: string, path: string)
    requires IsId(id) && IsTokenPath(path)
    ensures ParseBody("workspace", id + "/" + path) == Some(Workspace(id, path))
  {
    IdHasNo(id, '/');
    SplitOnceAt(id, path, '/');
    TokenPathIsFixed(path);
  }

  lemma {:induction false} SingleReparses(kind: Kind, id: string)
    requires IsId(id)
    ensures ParseBody(KindToken(kind), id) == Some(Single(kind, id))
  {
    IdHasNo(id, '/');
    IdHasNo(id, '#');
    IdHasNo(id, '@');
  }

  lemma {:induction false} SecretReparses(namespace: string, name: string)
    requires IsToken(namespace) && IsToken(name)
    ensures ParseBody("secret", namespace + "/" + name) == Some(Secret(namespace, name))
  {
    SplitOnceAt(namespace, name, '/');
    TokenDecodes(namespace);
    TokenDecodes(name);
  }

  lemma {:induction false} AdapterReparses(id: string, version: string, digest: string)
    requires IsId(id) && IsVersion(version) && IsDigest(digest)
    ensures ParseBody("adapter", id + "@" + version + "#" + digest) == Some(Adapter(id, version, digest))
  {
    IdHasNo(id, '@');
    IdHasNo(id, '#');
    SplitOnceAt(id + "@" + version, digest, '#');
    SplitOnceAt(id, version, '@');
  }

  lemma {:induction false} SchemeSplits(scheme: string, body: string)
    requires ':' !in scheme
    ensures Parse(scheme + "://" + body) == ParseBody(scheme, body)
  {
    SplitOnceScheme(scheme, body);
  }

  /** Every canonical value prints to a string that parses back to it. */
  lemma {:induction false} PrintParses(u: ResourceUri)
    requires IsCanonical(u)
    ensures Parse(Print(u)) == Some(u)
  {
    match u
    case Workspace(id, path) =>
      assert "workspace://" + (id + "/" + path) == "workspace" + "://" + (id + "/" + path);
      SchemeSplits("workspace", id + "/" + path);
      WorkspaceReparses(id, path);
    case Single(kind, id) =>
      SchemeSplits(KindToken(kind), id);
      SingleReparses(kind, id);
    case Secret(namespace, name) =>
      assert "secret://" + (namespace + "/" + name) == "secret" + "://" + (namespace + "/" + name);
      SchemeSplits("secret", namespace + "/" + name);
      SecretReparses(namespace, name);
    case Adapter(id, version, digest) =>
      var body := id + "@" + version + "#" + digest;
      assert "adapter://" + body == "adapter" + "://" + body;
      SchemeSplits("adapter", body);
      AdapterReparses(id, version, digest);
  }

  /** Printing is a fixpoint after one parse: whatever is accepted prints to something that means the same. */
  lemma {:induction false} ParsePrintParse(raw: string)
    requires Parse(raw).Some?
    ensures Parse(Print(Parse(raw).value)) == Parse(raw)
  {
    ParsedIsCanonical(raw);
    PrintParses(Parse(raw).value);
  }
}
