/** Grant scopes: domains, egress lists, normalised URIs and coverage (permissions/src/policy.rs). */
module Scopes {
  import opened Common
  import opened Text
  import opened Capabilities

  // ---- Domains ----

  function LowerChar(c: char): char { if 'A' <= c <= 'Z' then c - 'A' + 'a' else c }

  function Lower(s: string): string { Map(s, LowerChar) }

  predicate IsLabel(l: string) {
    && 0 < |l| <= 63
    && IsAlphanumeric(l[0]) && IsAlphanumeric(l[|l| - 1])
    && forall c :: c in l ==> IsAlphanumeric(c) || c == '-'
  }

  predicate IsBody(b: string) {
    && 0 < |b| <= 253
    && forall l :: l in Split(b, '.') ==> IsLabel(l)
  }

  /** Lowercases and validates one token: `*`, a name, or a leading-dot suffix rule. */
  function Domain(token: string): (r: Option<string>)
    ensures r.Some? ==> r.value == Lower(token) && r.value != ""
  {
    var lowered := Lower(token);
    if lowered == "*" then Some(lowered)
    else if StartsWith(lowered, ".") then (if IsBody(lowered[1..]) then Some(lowered) else None)
    else if IsBody(lowered) then Some(lowered)
    else None
  }

  lemma {:induction false} LowerTwice(s: string)
    ensures Lower(Lower(s)) == Lower(s)
  {
  }

  lemma {:induction false} DomainIsFixed(token: string)
    requires Domain(token).Some?
    ensures Domain(Domain(token).value) == Domain(token)
  {
    LowerTwice(token);
  }

  /** The exact, suffix and wildcard rule on normalised tokens. */
  predicate Admits(rule: string, host: string) {
    host != "*" &&
    (rule == "*" || (if StartsWith(rule, ".") then host == rule[1..] || EndsWith(host, rule) else host == rule))
  }

  predicate DomainMatches(rule: string, host: string) {
    Domain(rule).Some? && Domain(host).Some? && Admits(Domain(rule).value, Domain(host).value)
  }

  /** One grant rule against one requested rule, both normalised. */
  predicate RuleCovers(rule: string, requested: string) {
    if requested == "*" then rule == "*"
    else if StartsWith(requested, ".") then
      || rule == "*" || rule == requested
      || (StartsWith(rule, ".") && (requested[1..] == rule[1..] || EndsWith(requested[1..], rule)))
    else Admits(rule, requested)
  }

  predicate DomainCovered(allowed: seq<string>, requested: string) {
    Domain(requested).Some? &&
    exists i :: 0 <= i < |allowed| && Domain(allowed[i]).Some? && RuleCovers(Domain(allowed[i]).value, Domain(requested).value)
  }

  lemma {:induction false} EndsWithTransitive(a: string, b: string, c: string)
    requires EndsWith(a, b) && EndsWith(b, c)
    ensures EndsWith(a, c)
  {
    assert a[|a| - |c|..] == a[|a| - |b|..][|b| - |c|..];
  }

  /** Dropping a leading dot keeps every dotted suffix that is shorter. */
  lemma {:induction false} TailEndsWith(rule: string, suffix: string)
    requires rule != "" && EndsWith(rule[1..], suffix)
    ensures EndsWith(rule, suffix)
  {
    assert rule[|rule| - |suffix|..] == rule[1..][|rule[1..]| - |suffix|..];
  }

  lemma {:induction false} SameTail(a: string, b: string)
    requires StartsWith(a, ".") && StartsWith(b, ".")
    ensures a[1..] == b[1..] <==> a == b
  {
    assert a == "." + a[1..] && b == "." + b[1..];
  }

  /** Between different suffix rules coverage is a longer dotted suffix. */
  lemma {:induction false} SuffixCovers(rule: string, requested: string)
    requires StartsWith(requested, ".") && RuleCovers(rule, requested) && rule != "*" && rule != requested
    ensures StartsWith(rule, ".") && EndsWith(requested[1..], rule) && EndsWith(requested, rule)
  {
    SameTail(requested, rule);
    TailEndsWith(requested, rule);
  }

  /** Whatever a covered rule admits, the covering rule admits. */
  lemma {:induction false} RuleSound(rule: string, requested: string, host: string)
    requires RuleCovers(rule, requested) && Admits(requested, host) && requested != ""
    ensures Admits(rule, host)
  {
    if StartsWith(requested, ".") && rule != "*" && rule != requested {
      SuffixCovers(rule, requested);
      if host != requested[1..] {
        EndsWithTransitive(host, requested, rule);
      }
    }
  }

  lemma {:induction false} RuleReflexive(rule: string)
    requires Domain(rule) == Some(rule)
    ensures RuleCovers(rule, rule)
  {
  }

  lemma {:induction false} RuleTransitive(a: string, b: string, c: string)
    requires RuleCovers(a, b) && RuleCovers(b, c) && b != "" && c != ""
    ensures RuleCovers(a, c)
  {
    if c != "*" && !StartsWith(c, ".") {
      RuleSound(a, b, c);
    } else if c != "*" && b != "*" && b != c && a != "*" && a != b {
      SuffixCovers(b, c);
      SuffixCovers(a, b);
      EndsWithTransitive(c[1..], b, a);
    }
  }

  lemma {:induction false} CoveredTransitive(allowed: seq<string>, middle: seq<string>, requested: string)
    requires (forall i :: 0 <= i < |middle| ==> DomainCovered(allowed, middle[i])) && DomainCovered(middle, requested)
    ensures DomainCovered(allowed, requested)
  {
    var r := Domain(requested).value;
    var j :| 0 <= j < |middle| && Domain(middle[j]).Some? && RuleCovers(Domain(middle[j]).value, r);
    var m := Domain(middle[j]).value;
    assert DomainCovered(allowed, middle[j]);
    var i :| 0 <= i < |allowed| && Domain(allowed[i]).Some? && RuleCovers(Domain(allowed[i]).value, m);
    RuleTransitive(Domain(allowed[i]).value, m, r);
  }

  /** Coverage is sound: a host admitted by a covered request rule is admitted by some grant rule. */
  lemma {:induction false} CoverageIsSound(allowed: seq<string>, requested: string, host: string) returns (i: nat)
    requires DomainCovered(allowed, requested) && DomainMatches(requested, host)
    ensures i < |allowed| && DomainMatches(allowed[i], host)
  {
    var r := Domain(requested).value;
    i :| 0 <= i < |allowed| && Domain(allowed[i]).Some? && RuleCovers(Domain(allowed[i]).value, r);
    RuleSound(Domain(allowed[i]).value, r, Domain(host).value);
  }

  // ---- Egress ----

  predicate Unbounded(domains: seq<string>) { exists i :: 0 <= i < |domains| && Domain(domains[i]) == Some("*") }

  /** The code: an empty grant list covers an empty request only, whatever the module comment says. */
  predicate EgressCovers(grant: Option<seq<string>>, request: Option<seq<string>>) {
    match (grant, request)
    case (None, Some(_)) => false
    case (_, None) => true
    case (Some(g), Some(r)) =>
      if r == [] then g == [] || Unbounded(g)
      else forall i :: 0 <= i < |r| ==> DomainCovered(g, r[i])
  }

  lemma {:induction false} UnboundedCovered(g: seq<string>, m: seq<string>)
    requires Unbounded(m) && forall i :: 0 <= i < |m| ==> DomainCovered(g, m[i])
    ensures Unbounded(g)
  {
    var i :| 0 <= i < |m| && Domain(m[i]) == Some("*");
    assert DomainCovered(g, m[i]);
  }

  lemma {:induction false} EgressTransitive(a: Option<seq<string>>, b: Option<seq<string>>, c: Option<seq<string>>)
    requires EgressCovers(a, b) && EgressCovers(b, c)
    ensures EgressCovers(a, c)
  {
    if c.Some? {
      var g, m, r := a.value, b.value, c.value;
      if r == [] {
        if m != [] { UnboundedCovered(g, m); }
      } else {
        assert DomainCovered(m, r[0]);
        forall i | 0 <= i < |r| ensures DomainCovered(g, r[i]) {
          CoveredTransitive(g, m, r[i]);
        }
      }
    }
  }

  ghost predicate AllDomains(domains: seq<string>) { forall i :: 0 <= i < |domains| ==> Domain(domains[i]).Some? }

  lemma {:induction false} CoveredBySelf(domains: seq<string>, i: nat)
    requires i < |domains|
    ensures DomainCovered(domains, domains[i]) <==> Domain(domains[i]).Some?
  {
    if Domain(domains[i]).Some? {
      DomainIsFixed(domains[i]);
      RuleReflexive(Domain(domains[i]).value);
    }
  }

  // ---- URIs ----

  predicate IsSchemeChar(c: char) { IsAlphanumeric(c) || c == '+' || c == '-' || c == '.' }

  predicate IsScheme(s: string) { s != "" && forall c :: c in s ==> IsSchemeChar(c) }

  predicate IsSegment(s: string) {
    s != "" && s != "." && s != ".." && forall c :: c in s ==> !IsSpace(c) && c != '\\' && !IsControl(c)
  }

  predicate IsPath(p: string) { forall s :: s in Split(p, '/') ==> IsSegment(s) }

  function StripSlash(s: string): string { if EndsWith(s, "/") then s[..|s| - 1] else s }

  function NormalizeUri(uri: string): Option<string> {
    match Find(uri, "://")
    case None => None
    case Some(i) =>
      var scheme, rest := uri[..i], StripSlash(uri[i + 3..]);
      if IsScheme(scheme) && rest != "" && IsPath(rest) then Some(scheme + "://" + rest) else None
  }

  function NormalizePath(p: string): Option<string> {
    if p != "" && !StartsWith(p, "/") && Find(p, "://").None? && IsPath(p) then Some(p) else None
  }

  /** Joins the path to the root and confines it there. */
  function NormalizedWorkspace(uri: string, path: Option<string>): Option<string> {
    match NormalizeUri(uri)
    case None => None
    case Some(root) =>
      if path.None? then Some(root)
      else
        var candidate :=
          if Find(path.value, "://").Some? then NormalizeUri(path.value)
          else match NormalizePath(path.value) case None => None case Some(p) => Some(root + "/" + p);
        if candidate.Some? && SegmentPrefix(root, candidate.value) then candidate else None
  }

  predicate SegmentPrefix(scope: string, target: string) { target == scope || StartsWith(target, scope + "/") }

  // ---- The meaning of a normalised URI ----

  datatype Uri = Uri(scheme: string, segments: seq<string>)

  predicate IsUri(u: Uri) { IsScheme(u.scheme) && u.segments != [] && forall s :: s in u.segments ==> IsSegment(s) && '/' !in s }

  function Render(u: Uri): string { u.scheme + "://" + Join(u.segments, '/') }

  lemma {:induction false} LastPart(s: string, sep: char)
    ensures EndsWith(s, Split(s, sep)[|Split(s, sep)| - 1])
  {
    if s != [] {
      LastPart(s[1..], sep);
      var rest := Split(s[1..], sep);
      var last := rest[|rest| - 1];
      assert s[|s| - |last|..] == s[1..][|s[1..]| - |last|..];
      if s[0] != sep && |rest| == 1 {
        SplitSingle(s[1..], sep);
        assert s == [s[0]] + last;
      }
    }
  }

  lemma {:induction false} SplitSingle(s: string, sep: char)
    requires |Split(s, sep)| == 1
    ensures Split(s, sep) == [s]
  {
    JoinSplit(s, sep);
  }

  lemma {:induction false} NoTrailingSlash(p: string)
    requires IsPath(p)
    ensures StripSlash(p) == p
  {
    var parts := Split(p, '/');
    var last := parts[|parts| - 1];
    LastPart(p, '/');
    SplitClean(p, '/', |parts| - 1);
    assert last in parts && IsSegment(last);
    assert p[|p| - 1] == p[|p| - |last|..][|last| - 1] == last[|last| - 1];
    assert last[|last| - 1] in last;
    if |p| > 0 { assert p[|p| - 1..] == [p[|p| - 1]]; }
  }

  lemma {:induction false} SchemeHasNoColon(s: string)
    requires IsScheme(s)
    ensures ':' !in s
  {
  }

  /** A scheme, `://` and a path of good segments is its own normal form. */
  lemma {:induction false} NormalIsFixed(scheme: string, rest: string)
    requires IsScheme(scheme) && rest != "" && IsPath(rest)
    ensures NormalizeUri(scheme + "://" + rest) == Some(scheme + "://" + rest)
  {
    SchemeHasNoColon(scheme);
    FindAfter(scheme, rest);
    NoTrailingSlash(rest);
    var u := scheme + "://" + rest;
    assert u[..|scheme|] == scheme && u[|scheme| + 3..] == rest;
  }

  /** Normalisation is idempotent. */
  lemma {:induction false} NormalizeTwice(uri: string)
    requires NormalizeUri(uri).Some?
    ensures NormalizeUri(NormalizeUri(uri).value) == NormalizeUri(uri)
  {
    var i := Find(uri, "://").value;
    NormalIsFixed(uri[..i], StripSlash(uri[i + 3..]));
  }

  /** A URI is in normal form exactly when it renders a scheme and a list of good segments. */
  lemma {:induction false} NormalForm(n: string) returns (u: Uri)
    requires NormalizeUri(n) == Some(n)
    ensures IsUri(u) && Render(u) == n
  {
    var i := Find(n, "://").value;
    var rest := StripSlash(n[i + 3..]);
    u := Uri(n[..i], Split(rest, '/'));
    JoinSplit(rest, '/');
    forall s | s in u.segments ensures '/' !in s {
      var k :| 0 <= k < |u.segments| && u.segments[k] == s;
      SplitClean(rest, '/', k);
    }
  }

  lemma {:induction false} RenderIsNormal(u: Uri)
    requires IsUri(u)
    ensures NormalizeUri(Render(u)) == Some(Render(u)) && Split(Join(u.segments, '/'), '/') == u.segments
  {
    SplitJoin(u.segments, '/');
    assert u.segments[0] in u.segments && u.segments[0] != "";
    NormalIsFixed(u.scheme, Join(u.segments, '/'));
  }

  lemma {:induction false} JoinAppend(a: seq<string>, b: seq<string>)
    requires a != [] && b != []
    ensures Join(a + b, '/') == Join(a, '/') + "/" + Join(b, '/')
  {
    if |a| == 1 {
      assert (a + b)[1..] == b;
    } else {
      JoinAppend(a[1..], b);
      assert (a + b)[1..] == a[1..] + b;
      assert a[0] + "/" + (Join(a[1..], '/') + "/" + Join(b, '/')) == (a[0] + "/" + Join(a[1..], '/')) + "/" + Join(b, '/');
    }
  }

  lemma {:induction false} SchemeIsUnique(a: string, x: string, b: string, y: string)
    requires ':' !in a && ':' !in b && a + "://" + x == b + "://" + y
    ensures a == b && x == y
  {
    FindAfter(a, x);
    FindAfter(b, y);
    var s := a + "://" + x;
    assert s[..|a|] == a && s[..|b|] == b;
    assert s[|a| + 3..] == x && s[|b| + 3..] == y;
  }

  lemma {:induction false} PrefixOfRendered(a: Uri, b: Uri)
    requires IsUri(a) && IsUri(b) && a.scheme == b.scheme && a.segments <= b.segments
    ensures SegmentPrefix(Render(a), Render(b))
  {
    var t := b.segments[|a.segments|..];
    assert b.segments == a.segments + t;
    if t == [] {
      assert a.segments + [] == a.segments;
    } else {
      JoinAppend(a.segments, t);
      assert Render(b) == (Render(a) + "/") + Join(t, '/');
    }
  }

  lemma {:induction false} RenderedPrefix(a: Uri, b: Uri, tail: string)
    requires IsUri(a) && IsUri(b) && Render(b) == Render(a) + "/" + tail
    ensures a.scheme == b.scheme && a.segments <= b.segments
  {
    var ja, jb := Join(a.segments, '/'), Join(b.segments, '/');
    SchemeHasNoColon(a.scheme);
    SchemeHasNoColon(b.scheme);
    assert Render(a) + "/" + tail == a.scheme + "://" + (ja + "/" + tail);
    SchemeIsUnique(a.scheme, ja + "/" + tail, b.scheme, jb);
    SplitAtSeparator(ja, tail, '/');
    RenderIsNormal(a);
    RenderIsNormal(b);
    assert b.segments == a.segments + Split(tail, '/');
  }

  lemma {:induction false} RenderIsInjective(a: Uri, b: Uri)
    requires IsUri(a) && IsUri(b) && Render(a) == Render(b)
    ensures a == b
  {
    SchemeHasNoColon(a.scheme);
    SchemeHasNoColon(b.scheme);
    SchemeIsUnique(a.scheme, Join(a.segments, '/'), b.scheme, Join(b.segments, '/'));
    RenderIsNormal(a);
    RenderIsNormal(b);
  }

  /** On normal forms the string test means: same scheme, and one segment list is a prefix of the other. */
  lemma {:induction false} SegmentPrefixMeaning(a: Uri, b: Uri)
    requires IsUri(a) && IsUri(b)
    ensures SegmentPrefix(Render(a), Render(b)) <==> a.scheme == b.scheme && a.segments <= b.segments
  {
    if a.scheme == b.scheme && a.segments <= b.segments {
      PrefixOfRendered(a, b);
    }
    if Render(b) == Render(a) {
      RenderIsInjective(a, b);
    } else if StartsWith(Render(b), Render(a) + "/") {
      var tail := Render(b)[|Render(a)| + 1..];
      assert Render(b) == (Render(a) + "/") + tail;
      RenderedPrefix(a, b, tail);
    }
  }

  lemma {:induction false} PathSegments(p: string)
    requires IsPath(p)
    ensures forall s :: s in Split(p, '/') ==> IsSegment(s) && '/' !in s
  {
    forall s | s in Split(p, '/') ensures '/' !in s {
      var k :| 0 <= k < |Split(p, '/')| && Split(p, '/')[k] == s;
      SplitClean(p, '/', k);
    }
  }

  lemma {:induction false} RenderLonger(u: Uri, tail: seq<string>)
    requires u.segments != [] && tail != []
    ensures Render(Uri(u.scheme, u.segments + tail)) == Render(u) + "/" + Join(tail, '/')
  {
    JoinAppend(u.segments, tail);
    Associative(u.scheme + "://", Join(u.segments, '/') + "/", Join(tail, '/'));
    Associative(u.scheme + "://", Join(u.segments, '/'), "/");
  }

  lemma {:induction false} JoinedIsNormal(root: string, p: string)
    requires NormalizeUri(root) == Some(root) && IsPath(p)
    ensures NormalizeUri(root + "/" + p) == Some(root + "/" + p)
  {
    var u := NormalForm(root);
    PathSegments(p);
    RenderLonger(u, Split(p, '/'));
    JoinSplit(p, '/');
    RenderIsNormal(Uri(u.scheme, u.segments + Split(p, '/')));
  }

  /** A confined path is in normal form, below its root, and so without dot segments. */
  lemma {:induction false} WorkspaceIsConfined(uri: string, path: Option<string>) returns (root: Uri, u: Uri)
    requires NormalizedWorkspace(uri, path).Some?
    ensures IsUri(root) && IsUri(u)
    ensures NormalizeUri(uri) == Some(Render(root)) && NormalizedWorkspace(uri, path) == Some(Render(u))
    ensures root.scheme == u.scheme && root.segments <= u.segments
    ensures forall s :: s in u.segments ==> s != "." && s != ".." && s != ""
  {
    var r := NormalizeUri(uri).value;
    var c := NormalizedWorkspace(uri, path).value;
    NormalizeTwice(uri);
    if path.Some? && Find(path.value, "://").Some? {
      NormalizeTwice(path.value);
    } else if path.Some? {
      JoinedIsNormal(r, path.value);
    }
    root := NormalForm(r);
    u := NormalForm(c);
    SegmentPrefixMeaning(root, u);
  }

  lemma {:induction false} SegmentPrefixTransitive(a: string, b: string, c: string)
    requires SegmentPrefix(a, b) && SegmentPrefix(b, c)
    ensures SegmentPrefix(a, c)
  {
    if b != a && c != b {
      assert StartsWith(c, b + "/") && StartsWith(b, a + "/");
      assert c[..|b|] == b;
      assert c[..|a| + 1] == b[..|a| + 1];
    }
  }

  // ---- Targets ----

  datatype Target =
    | InWorkspace(uri: string, path: Option<string>)
    | OnNetwork(domains: seq<string>)
    | OfSecret(uri: string, egress: Option<seq<string>>)
    | ConfigChange(operation: Action)
    | Children(max: nat)
    | NoTarget

  predicate TargetCovers(scope: Target, target: Target) {
    match (scope, target)
    case (InWorkspace(su, sp), InWorkspace(tu, tp)) =>
      var s, t := NormalizedWorkspace(su, sp), NormalizedWorkspace(tu, tp);
      s.Some? && t.Some? && SegmentPrefix(s.value, t.value)
    case (OnNetwork(allowed), OnNetwork(requested)) =>
      forall i :: 0 <= i < |requested| ==> DomainCovered(allowed, requested[i])
    case (OfSecret(su, se), OfSecret(tu, te)) =>
      var s, t := NormalizeUri(su), NormalizeUri(tu);
      s.Some? && t.Some? && SegmentPrefix(s.value, t.value) && EgressCovers(se, te)
    case (ConfigChange(a), ConfigChange(b)) => a == b
    case (Children(m), Children(n)) => n <= m
    case (NoTarget, NoTarget) => true
    case _ => false
  }

  /** Every URI, path and domain in the target normalises. */
  ghost predicate WellFormed(t: Target) {
    match t
    case InWorkspace(u, p) => NormalizedWorkspace(u, p).Some?
    case OnNetwork(domains) => AllDomains(domains)
    case OfSecret(u, egress) => NormalizeUri(u).Some? && (egress.Some? ==> AllDomains(egress.value))
    case _ => true
  }

  /** A target covers itself exactly when it is well formed. */
  lemma {:induction false} CoversItself(t: Target)
    ensures TargetCovers(t, t) <==> WellFormed(t)
  {
    match t
    case OnNetwork(domains) => AllCoveredBySelf(domains);
    case OfSecret(_, egress) => if egress.Some? { AllCoveredBySelf(egress.value); }
    case _ =>
  }

  lemma {:induction false} AllCoveredBySelf(domains: seq<string>)
    ensures (forall i :: 0 <= i < |domains| ==> DomainCovered(domains, domains[i])) <==> AllDomains(domains)
  {
    forall i | 0 <= i < |domains| ensures DomainCovered(domains, domains[i]) <==> Domain(domains[i]).Some? {
      CoveredBySelf(domains, i);
    }
    if forall i :: 0 <= i < |domains| ==> DomainCovered(domains, domains[i]) {
      forall i | 0 <= i < |domains| ensures Domain(domains[i]).Some? {
        assert DomainCovered(domains, domains[i]);
      }
    }
  }

  /** Coverage composes across every kind of scope. */
  lemma {:induction false} CoverageIsTransitive(a: Target, b: Target, c: Target)
    requires TargetCovers(a, b) && TargetCovers(b, c)
    ensures TargetCovers(a, c)
  {
    match (a, b, c)
    case (InWorkspace(au, ap), InWorkspace(bu, bp), InWorkspace(cu, cp)) =>
      SegmentPrefixTransitive(NormalizedWorkspace(au, ap).value, NormalizedWorkspace(bu, bp).value, NormalizedWorkspace(cu, cp).value);
    case (OnNetwork(x), OnNetwork(y), OnNetwork(z)) =>
      forall i | 0 <= i < |z| ensures DomainCovered(x, z[i]) {
        CoveredTransitive(x, y, z[i]);
      }
    case (OfSecret(au, ae), OfSecret(bu, be), OfSecret(cu, ce)) =>
      SegmentPrefixTransitive(NormalizeUri(au).value, NormalizeUri(bu).value, NormalizeUri(cu).value);
      EgressTransitive(ae, be, ce);
    case _ =>
  }

  /** What an empty egress grant covers: requests without egress or with an empty list, and no others. */
  lemma {:induction false} EmptyEgressGrant(request: Option<seq<string>>)
    ensures EgressCovers(Some([]), request) <==> request.None? || request.value == []
  {
    if request.Some? && request.value != [] {
      assert !DomainCovered([], request.value[0]);
    }
  }

  /** A grant with a `*` entry covers every well-formed request. */
  lemma {:induction false} WildcardEgressGrant(grant: seq<string>, request: Option<seq<string>>)
    requires Unbounded(grant)
    ensures EgressCovers(Some(grant), request) <==> (request.Some? ==> AllDomains(request.value))
  {
    if request.Some? {
      var i :| 0 <= i < |grant| && Domain(grant[i]) == Some("*");
      forall k | 0 <= k < |request.value| ensures DomainCovered(grant, request.value[k]) <==> Domain(request.value[k]).Some? {
        if Domain(request.value[k]).Some? {
          assert RuleCovers("*", Domain(request.value[k]).value);
        }
      }
    }
  }
}
