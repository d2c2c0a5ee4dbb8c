/** What the string tests on scopes mean: locations below one another, and hosts that are admitted. */
module ScopeMeanings {
  import opened Common
  import opened Text
  import opened Capabilities
  import opened Scopes

  // ---- Locations ----

  /** The text writes the location, with or without one closing slash. */
  ghost predicate Names(text: string, u: Uri) { IsUri(u) && (text == Render(u) || text == Render(u) + "/") }

  lemma {:induction false} StripOne(p: string)
    requires IsPath(p)
    ensures StripSlash(p + "/") == p && StripSlash(p) == p
  {
    NoTrailingSlash(p);
    assert (p + "/")[|p + "/"| - 1..] == "/";
    assert (p + "/")[..|p|] == p;
  }

  lemma {:induction false} NamedIsNormalized(text: string, u: Uri)
    requires Names(text, u)
    ensures NormalizeUri(text) == Some(Render(u))
  {
    var rest := Join(u.segments, '/');
    RenderIsNormal(u);
    if text != Render(u) {
      SchemeHasNoColon(u.scheme);
      assert text == u.scheme + "://" + (rest + "/");
      FindAfter(u.scheme, rest + "/");
      assert text[..|u.scheme|] == u.scheme && text[|u.scheme| + 3..] == rest + "/";
      assert u.segments[0] in u.segments && rest != "";
      StripOne(rest);
    }
  }

  lemma {:induction false} AtScheme(text: string)
    requires Find(text, "://").Some?
    ensures var i := Find(text, "://").value; i + 3 <= |text| && text == text[..i] + "://" + text[i + 3..]
  {
    FindMatches(text, "://");
    var i := Find(text, "://").value;
    assert text[i..][..3] == "://";
    assert text[i..] == text[i..][..3] + text[i + 3..];
  }

  lemma {:induction false} StripCases(t: string)
    ensures t == StripSlash(t) || t == StripSlash(t) + "/"
  {
    if EndsWith(t, "/") {
      assert t == t[..|t| - 1] + t[|t| - 1..];
    }
  }

  lemma {:induction false} Unstripped(scheme: string, tail: string)
    ensures var n, text := scheme + "://" + StripSlash(tail), scheme + "://" + tail; text == n || text == n + "/"
  {
    StripCases(tail);
    Associative(scheme + "://", StripSlash(tail), "/");
  }

  lemma {:induction false} NormalizedIsNamed(text: string) returns (u: Uri)
    requires NormalizeUri(text).Some?
    ensures Names(text, u) && NormalizeUri(text) == Some(Render(u))
  {
    NormalizeTwice(text);
    u := NormalForm(NormalizeUri(text).value);
    AtScheme(text);
    var i := Find(text, "://").value;
    Unstripped(text[..i], text[i + 3..]);
  }

  /** A URI normalises to a location exactly when it writes that location. */
  lemma {:induction false} UriMeans(text: string, u: Uri)
    requires IsUri(u)
    ensures NormalizeUri(text) == Some(Render(u)) <==> Names(text, u)
  {
    if Names(text, u) {
      NamedIsNormalized(text, u);
    }
    if NormalizeUri(text) == Some(Render(u)) {
      var v := NormalizedIsNamed(text);
      RenderIsInjective(u, v);
    }
  }

  /** Good segments, at least one. */
  ghost predicate IsTail(tail: seq<string>) { tail != [] && forall s :: s in tail ==> IsSegment(s) && '/' !in s }

  /** The workspace path leads to the location: the root itself, a relative path below it, or a URI below it. */
  ghost predicate Leads(root: Uri, path: Option<string>, u: Uri) {
    || (path.None? && u == root)
    || (path.Some? && Names(path.value, u) && u.scheme == root.scheme && root.segments <= u.segments)
    || (path.Some? && exists tail :: IsTail(tail) && path.value == Join(tail, '/') && u == Uri(root.scheme, root.segments + tail))
  }

  ghost predicate Locates(uri: string, path: Option<string>, u: Uri) { exists root :: Names(uri, root) && Leads(root, path, u) }

  lemma {:induction false} EmptyPart(p: string)
    requires Find(p, "://").Some?
    ensures "" in Split(p, '/')
  {
    AtScheme(p);
    var i := Find(p, "://").value;
    var a, b := p[..i] + ":", p[i + 3..];
    assert p == a + ['/'] + (['/'] + b);
    assert [] + ['/'] + b == ['/'] + b;
    SplitAtSeparator([], b, '/');
    SplitAtSeparator(a, ['/'] + b, '/');
    SplitWhole<char>([], '/');
    assert Split(['/'] + b, '/')[0] == [];
    assert Split(p, '/')[|Split(a, '/')|] == [];
  }

  lemma {:induction false} TailIsPath(tail: seq<string>)
    requires IsTail(tail)
    ensures NormalizePath(Join(tail, '/')) == Some(Join(tail, '/')) && Split(Join(tail, '/'), '/') == tail
  {
    var p := Join(tail, '/');
    SplitJoin(tail, '/');
    assert tail[0] in tail;
    if Find(p, "://").Some? {
      EmptyPart(p);
    }
    JoinStarts(tail);
  }

  lemma {:induction false} JoinStarts(tail: seq<string>)
    requires IsTail(tail)
    ensures tail[0] != "" && Join(tail, '/') != "" && Join(tail, '/')[0] == tail[0][0] && tail[0][0] != '/'
  {
    assert tail[0] in tail && tail[0][0] in tail[0];
  }

  lemma {:induction false} PathIsTail(p: string)
    requires NormalizePath(p).Some?
    ensures NormalizePath(p) == Some(p) && IsTail(Split(p, '/')) && p == Join(Split(p, '/'), '/')
  {
    PathSegments(p);
    JoinSplit(p, '/');
  }

  /** Joining a tail to the root gives the location below it. */
  lemma {:induction false} RelativeMeans(root: Uri, p: string, u: Uri)
    requires IsUri(root) && Find(p, "://").None?
    ensures (NormalizePath(p).Some? && IsUri(u) && Render(u) == Render(root) + "/" + p) <==>
              exists tail :: IsTail(tail) && p == Join(tail, '/') && u == Uri(root.scheme, root.segments + tail)
  {
    if NormalizePath(p).Some? && IsUri(u) && Render(u) == Render(root) + "/" + p {
      PathIsTail(p);
      var tail := Split(p, '/');
      RenderLonger(root, tail);
      RenderIsInjective(u, Uri(root.scheme, root.segments + tail));
    }
    if tail :| IsTail(tail) && p == Join(tail, '/') && u == Uri(root.scheme, root.segments + tail) {
      TailIsPath(tail);
      RenderLonger(root, tail);
    }
  }

  lemma {:induction false} LeadsIsNormalized(uri: string, path: Option<string>, root: Uri, u: Uri)
    requires Names(uri, root) && IsUri(u) && Leads(root, path, u)
    ensures NormalizedWorkspace(uri, path) == Some(Render(u))
  {
    NamedIsNormalized(uri, root);
    if path.Some? {
      SegmentPrefixMeaning(root, u);
      if Names(path.value, u) && u.scheme == root.scheme && root.segments <= u.segments {
        NamedIsNormalized(path.value, u);
      } else {
        var tail :| IsTail(tail) && path.value == Join(tail, '/') && u == Uri(root.scheme, root.segments + tail);
        TailIsPath(tail);
        RelativeMeans(root, path.value, u);
      }
    }
  }

  lemma {:induction false} NormalizedLeads(uri: string, path: Option<string>, u: Uri) returns (root: Uri)
    requires IsUri(u) && NormalizedWorkspace(uri, path) == Some(Render(u))
    ensures Names(uri, root) && Leads(root, path, u)
  {
    root := NormalizedIsNamed(uri);
    SegmentPrefixMeaning(root, u);
    if path.None? {
      RenderIsInjective(root, u);
    } else if Find(path.value, "://").Some? {
      UriMeans(path.value, u);
    } else {
      RelativeMeans(root, path.value, u);
    }
  }

  /** A workspace root and path normalise to a location exactly when they lead there without leaving the root. */
  lemma {:induction false} WorkspaceMeans(uri: string, path: Option<string>, u: Uri)
    requires IsUri(u)
    ensures NormalizedWorkspace(uri, path) == Some(Render(u)) <==> Locates(uri, path, u)
  {
    if NormalizedWorkspace(uri, path) == Some(Render(u)) {
      var root := NormalizedLeads(uri, path, u);
    }
    if root :| Names(uri, root) && Leads(root, path, u) {
      LeadsIsNormalized(uri, path, root, u);
    }
  }

  /** `inner` is `outer` or lies below it. */
  predicate Encloses(outer: Uri, inner: Uri) { inner.scheme == outer.scheme && outer.segments <= inner.segments }

  lemma {:induction false} WorkspaceAt(su: string, sp: Option<string>, tu: string, tp: Option<string>, outer: Uri, inner: Uri)
    requires IsUri(outer) && NormalizedWorkspace(su, sp) == Some(Render(outer))
    requires IsUri(inner) && NormalizedWorkspace(tu, tp) == Some(Render(inner))
    ensures TargetCovers(InWorkspace(su, sp), InWorkspace(tu, tp)) <==> Encloses(outer, inner)
  {
    SegmentPrefixMeaning(outer, inner);
  }

  /** Both sides lead somewhere, and the request's location is the grant's or lies below it. */
  ghost predicate WorkspaceWithin(su: string, sp: Option<string>, tu: string, tp: Option<string>) {
    exists outer, inner :: IsUri(outer) && IsUri(inner) && Locates(su, sp, outer) && Locates(tu, tp, inner) && Encloses(outer, inner)
  }

  lemma {:induction false} CoveredIsWithin(su: string, sp: Option<string>, tu: string, tp: Option<string>)
    requires TargetCovers(InWorkspace(su, sp), InWorkspace(tu, tp))
    ensures WorkspaceWithin(su, sp, tu, tp)
  {
    var r, outer := WorkspaceIsConfined(su, sp);
    var q, inner := WorkspaceIsConfined(tu, tp);
    WorkspaceAt(su, sp, tu, tp, outer, inner);
    WorkspaceMeans(su, sp, outer);
    WorkspaceMeans(tu, tp, inner);
  }

  /** A workspace grant covers exactly the requests that lead to its own location or below it. */
  lemma {:induction false} WorkspaceCoverage(su: string, sp: Option<string>, tu: string, tp: Option<string>)
    ensures TargetCovers(InWorkspace(su, sp), InWorkspace(tu, tp)) <==> WorkspaceWithin(su, sp, tu, tp)
  {
    if TargetCovers(InWorkspace(su, sp), InWorkspace(tu, tp)) {
      CoveredIsWithin(su, sp, tu, tp);
    }
    if outer, inner :| IsUri(outer) && IsUri(inner) && Locates(su, sp, outer) && Locates(tu, tp, inner) && Encloses(outer, inner) {
      WorkspaceMeans(su, sp, outer);
      WorkspaceMeans(tu, tp, inner);
      WorkspaceAt(su, sp, tu, tp, outer, inner);
    }
  }

  /** Both texts write locations, and the second is the first or lies below it. */
  ghost predicate UriWithin(su: string, tu: string) {
    exists outer, inner :: Names(su, outer) && Names(tu, inner) && Encloses(outer, inner)
  }

  /** Both texts normalise, and the string test holds. */
  predicate UriCovers(su: string, tu: string) {
    NormalizeUri(su).Some? && NormalizeUri(tu).Some? && SegmentPrefix(NormalizeUri(su).value, NormalizeUri(tu).value)
  }

  lemma {:induction false} UriAt(su: string, tu: string, outer: Uri, inner: Uri)
    requires Names(su, outer) && Names(tu, inner)
    ensures UriCovers(su, tu) <==> Encloses(outer, inner)
  {
    NamedIsNormalized(su, outer);
    NamedIsNormalized(tu, inner);
    SegmentPrefixMeaning(outer, inner);
  }

  lemma {:induction false} UriPrefix(su: string, tu: string)
    ensures UriCovers(su, tu) <==> UriWithin(su, tu)
  {
    if UriCovers(su, tu) {
      var outer := NormalizedIsNamed(su);
      var inner := NormalizedIsNamed(tu);
      UriAt(su, tu, outer, inner);
    }
    if outer, inner :| Names(su, outer) && Names(tu, inner) && Encloses(outer, inner) {
      UriAt(su, tu, outer, inner);
    }
  }

  /** What stands between the slashes, after the scheme when there is one. */
  function Steps(text: string): seq<string> {
    var at := Find(text, "://");
    Split(if at.Some? && at.value + 3 <= |text| then text[at.value + 3..] else text, '/')
  }

  predicate Traverses(text: string) { "." in Steps(text) || ".." in Steps(text) }

  lemma {:induction false} StrippedSteps(t: string, step: string)
    requires step in Split(t, '/') && step != ""
    ensures step in Split(StripSlash(t), '/')
  {
    if EndsWith(t, "/") {
      assert t == t[..|t| - 1] + ['/'] + "";
      SplitAtSeparator(t[..|t| - 1], "", '/');
    }
  }

  lemma {:induction false} TraversingUri(text: string)
    requires Traverses(text)
    ensures NormalizeUri(text) == None
  {
    if Find(text, "://").Some? {
      AtScheme(text);
      var step :| step in Steps(text) && step in {".", ".."};
      StrippedSteps(text[Find(text, "://").value + 3..], step);
    }
  }

  /** A root or a path that steps through `.` or `..` names no workspace, so nothing covers it and it covers nothing. */
  lemma {:induction false} TraversalIsRefused(uri: string, path: Option<string>, other: Target)
    requires Traverses(uri) || (path.Some? && Traverses(path.value))
    ensures NormalizedWorkspace(uri, path) == None
    ensures !TargetCovers(other, InWorkspace(uri, path)) && !TargetCovers(InWorkspace(uri, path), other)
  {
    if Traverses(uri) {
      TraversingUri(uri);
    } else {
      TraversingUri(path.value);
    }
  }

  // ---- Hosts ----

  /** One or more labels, and not too long a name. */
  ghost predicate IsName(labels: seq<string>) {
    labels != [] && |Join(labels, '.')| <= 253 && forall l :: l in labels ==> IsLabel(l)
  }

  lemma {:induction false} BodyMeans(b: string)
    ensures IsBody(b) <==> exists labels :: IsName(labels) && b == Join(labels, '.')
  {
    JoinSplit(b, '.');
    if IsBody(b) {
      assert IsName(Split(b, '.'));
    }
    if labels :| IsName(labels) && b == Join(labels, '.') {
      SplitJoin(labels, '.');
      assert labels[0] in labels && IsLabel(labels[0]);
    }
  }

  /** A capital letter and its small letter. */
  predicate IsCaseOf(upper: char, lower: char) { 'A' <= upper <= 'Z' && lower as int == upper as int + 32 }

  /** The texts differ at most in the case of ASCII letters. */
  predicate SameText(a: string, b: string) {
    |a| == |b| && forall i :: 0 <= i < |a| ==> a[i] == b[i] || IsCaseOf(a[i], b[i]) || IsCaseOf(b[i], a[i])
  }

  /** The normal form of a text has no capitals, and it tells texts apart by everything except case. */
  lemma {:induction false} LowerMeans(a: string, b: string)
    ensures SameText(a, Lower(a)) && forall c :: c in Lower(a) ==> !('A' <= c <= 'Z')
    ensures Lower(a) == Lower(b) <==> SameText(a, b)
  {
    if Lower(a) == Lower(b) {
      forall i | 0 <= i < |a| ensures a[i] == b[i] || IsCaseOf(a[i], b[i]) || IsCaseOf(b[i], a[i]) {
        assert Lower(a)[i] == Lower(b)[i];
      }
    }
    if SameText(a, b) {
      forall i | 0 <= i < |a| ensures Lower(a)[i] == Lower(b)[i] {
        assert a[i] == b[i] || IsCaseOf(a[i], b[i]) || IsCaseOf(b[i], a[i]);
      }
    }
  }

  /** Neither a rule nor a host means something else in another case. */
  lemma {:induction false} CaseIsIgnored(rule: string, rule': string, host: string, host': string)
    requires SameText(rule, rule') && SameText(host, host')
    ensures Domain(rule) == Domain(rule') && DomainMatches(rule, host) == DomainMatches(rule', host')
  {
    LowerMeans(rule, rule');
    LowerMeans(host, host');
  }

  /** A token is a star, a dotted name, or a dotted name after a dot; case does not matter. */
  lemma {:induction false} DomainMeans(token: string)
    ensures Domain(token).Some? <==>
              || Lower(token) == "*"
              || exists labels :: IsName(labels) && (Lower(token) == Join(labels, '.') || Lower(token) == "." + Join(labels, '.'))
    ensures Domain(token).Some? ==> Domain(token).value == Lower(token)
  {
    var t := Lower(token);
    BodyMeans(t);
    if StartsWith(t, ".") {
      BodyMeans(t[1..]);
      assert t == "." + t[1..];
    }
    if labels :| IsName(labels) && t == "." + Join(labels, '.') {
      assert t[1..] == Join(labels, '.');
      BodyMeans(t[1..]);
    }
    if labels :| IsName(labels) && t == Join(labels, '.') {
      BodyHasNoDot(t);
    }
  }

  lemma {:induction false} BodyHasNoDot(b: string)
    requires IsBody(b)
    ensures !StartsWith(b, ".") && b != "*"
  {
    assert Split(b, '.')[0] in Split(b, '.');
    if b[0] == '*' || b[0] == '.' {
      FirstPart(b);
    }
  }

  lemma {:induction false} FirstPart(b: string)
    requires b != ""
    ensures b[0] == '.' ==> Split(b, '.')[0] == ""
    ensures b[0] != '.' ==> Split(b, '.')[0] != "" && Split(b, '.')[0][0] == b[0]
  {
  }

  /** What a rule admits: a star any host, a name itself, and a name after a dot itself and everything below it. */
  lemma {:induction false} MatchMeans(rule: string, host: string)
    ensures DomainMatches(rule, host) <==>
              && Domain(rule).Some? && Domain(host).Some? && Lower(host) != "*"
              && (|| Lower(rule) == "*" || Lower(host) == Lower(rule)
                  || (exists name :: Lower(rule) == "." + name && (Lower(host) == name || EndsWith(Lower(host), "." + name))))
  {
    var r := Lower(rule);
    if StartsWith(r, ".") {
      assert r == "." + r[1..];
    }
  }

  /** A valid token in normal form, so also any host. */
  predicate IsToken(t: string) { Domain(t) == Some(t) }

  /** Whatever `b` admits, `a` admits. */
  ghost predicate AdmitsAll(a: string, b: string) { forall host :: IsToken(host) && Admits(b, host) ==> Admits(a, host) }

  lemma {:induction false} DigitsAreHosts()
    ensures IsToken("0") && IsToken("1")
  {
    SplitWhole("0", '.');
    SplitWhole("1", '.');
    assert Lower("0") == "0" && Lower("1") == "1";
  }

  /** No rule but the star admits both one-digit hosts. */
  lemma {:induction false} OnlyStarAdmitsAll(rule: string)
    requires rule != ""
    ensures rule == "*" || !Admits(rule, "0") || !Admits(rule, "1")
  {
  }

  /** One rule covers another exactly when it admits every host the other admits. */
  lemma {:induction false} RuleCoverage(rule: string, requested: string)
    requires IsToken(rule) && IsToken(requested)
    ensures RuleCovers(rule, requested) <==> AdmitsAll(rule, requested)
  {
    if RuleCovers(rule, requested) {
      forall host | IsToken(host) && Admits(requested, host) ensures Admits(rule, host) {
        RuleSound(rule, requested, host);
      }
    }
    if AdmitsAll(rule, requested) {
      if requested == "*" {
        DigitsAreHosts();
        assert Admits("*", "0") && Admits("*", "1");
        OnlyStarAdmitsAll(rule);
      } else {
        assert Admits(requested, requested);
        AdmitsItself(rule, requested);
      }
    }
  }

  lemma {:induction false} SuffixIsName(rule: string)
    requires IsToken(rule) && StartsWith(rule, ".")
    ensures rule == "." + rule[1..] && !StartsWith(rule[1..], ".")
  {
    assert rule[0] == '.' && Lower(rule) == rule && rule != "*";
    BodyHasNoDot(rule[1..]);
  }

  lemma {:induction false} AdmitsItself(rule: string, requested: string)
    requires IsToken(rule) && requested != "*" && requested != "" && Admits(rule, requested)
    ensures RuleCovers(rule, requested)
  {
    if StartsWith(requested, ".") && StartsWith(rule, ".") && rule != requested {
      SuffixIsName(rule);
      assert EndsWith(requested, rule);
      assert requested[1..][|requested[1..]| - |rule|..] == requested[|requested| - |rule|..];
    }
  }

  lemma {:induction false} TokenIsFixed(token: string)
    requires Domain(token).Some?
    ensures IsToken(Domain(token).value)
  {
    DomainIsFixed(token);
  }

  /** The token is valid, and whatever it admits some single rule of the list admits; a star needs a star. */
  ghost predicate TokenWithin(allowed: seq<string>, requested: string) {
    && Domain(requested).Some?
    && (Lower(requested) == "*" ==> exists i :: 0 <= i < |allowed| && Lower(allowed[i]) == "*")
    && (Lower(requested) != "*" ==>
          forall host :: IsToken(host) && DomainMatches(requested, host) ==> exists i :: 0 <= i < |allowed| && DomainMatches(allowed[i], host))
  }

  lemma {:induction false} StarOnly(allowed: seq<string>, requested: string)
    requires Lower(requested) == "*"
    ensures DomainCovered(allowed, requested) <==> exists i :: 0 <= i < |allowed| && Lower(allowed[i]) == "*"
  {
  }

  lemma {:induction false} TokenAdmitsItself(requested: string)
    requires Domain(requested).Some? && Lower(requested) != "*"
    ensures DomainMatches(requested, Lower(requested)) && IsToken(Lower(requested))
  {
    TokenIsFixed(requested);
    assert Lower(requested)[|Lower(requested)| - |Lower(requested)|..] == Lower(requested);
  }

  lemma {:induction false} WithinIsCovered(allowed: seq<string>, requested: string)
    requires TokenWithin(allowed, requested) && Lower(requested) != "*"
    ensures DomainCovered(allowed, requested)
  {
    var r := Lower(requested);
    TokenAdmitsItself(requested);
    var i :| 0 <= i < |allowed| && DomainMatches(allowed[i], r);
    TokenIsFixed(allowed[i]);
    AdmitsItself(Domain(allowed[i]).value, r);
  }

  /**
   * A list of rules covers a requested rule exactly when every host the request admits is admitted by
   * the list; a requested star is covered only by a star.
   */
  lemma {:induction false} TokenCoverage(allowed: seq<string>, requested: string)
    ensures DomainCovered(allowed, requested) <==> TokenWithin(allowed, requested)
  {
    if Lower(requested) == "*" {
      StarOnly(allowed, requested);
    } else {
      if DomainCovered(allowed, requested) {
        forall host | IsToken(host) && DomainMatches(requested, host) ensures exists i :: 0 <= i < |allowed| && DomainMatches(allowed[i], host) {
          var i := CoverageIsSound(allowed, requested, host);
        }
      }
      if TokenWithin(allowed, requested) {
        WithinIsCovered(allowed, requested);
      }
    }
  }

  ghost predicate AllWithin(allowed: seq<string>, requested: seq<string>) {
    forall i :: 0 <= i < |requested| ==> TokenWithin(allowed, requested[i])
  }

  /** No egress asked for, or one that is bounded by what is granted; an empty list means anywhere. */
  ghost predicate EgressWithin(grant: Option<seq<string>>, request: Option<seq<string>>) {
    || request.None?
    || (request == Some([]) && grant.Some? && (grant.value == [] || exists i :: 0 <= i < |grant.value| && Lower(grant.value[i]) == "*"))
    || (request.value != [] && grant.Some? && AllWithin(grant.value, request.value))
  }

  lemma {:induction false} AllCovered(allowed: seq<string>, requested: seq<string>)
    ensures (forall i :: 0 <= i < |requested| ==> DomainCovered(allowed, requested[i])) <==> AllWithin(allowed, requested)
  {
    forall i | 0 <= i < |requested| ensures DomainCovered(allowed, requested[i]) <==> TokenWithin(allowed, requested[i]) {
      TokenCoverage(allowed, requested[i]);
    }
    if AllWithin(allowed, requested) {
      forall i | 0 <= i < |requested| ensures DomainCovered(allowed, requested[i]) {
        assert TokenWithin(allowed, requested[i]);
      }
    }
    if forall i :: 0 <= i < |requested| ==> DomainCovered(allowed, requested[i]) {
      forall i | 0 <= i < |requested| ensures TokenWithin(allowed, requested[i]) {
        assert DomainCovered(allowed, requested[i]);
      }
    }
  }

  lemma {:induction false} EgressCoverage(grant: Option<seq<string>>, request: Option<seq<string>>)
    ensures EgressCovers(grant, request) <==> EgressWithin(grant, request)
  {
    if grant.Some? && request.Some? {
      AllCovered(grant.value, request.value);
    }
  }

  // ---- Targets ----

  predicate Permits(max: nat, children: nat) { children <= max }

  /** What it means for a scope to cover a target, kind by kind. */
  ghost predicate Within(scope: Target, target: Target) {
    match (scope, target)
    case (InWorkspace(su, sp), InWorkspace(tu, tp)) => WorkspaceWithin(su, sp, tu, tp)
    case (OnNetwork(allowed), OnNetwork(requested)) => AllWithin(allowed, requested)
    case (OfSecret(su, se), OfSecret(tu, te)) => UriWithin(su, tu) && EgressWithin(se, te)
    case (ConfigChange(a), ConfigChange(b)) => a == b
    case (Children(m), Children(n)) => forall k: nat :: Permits(n, k) ==> Permits(m, k)
    case (NoTarget, NoTarget) => true
    case _ => false
  }

  /** A scope covers a target exactly when everything the target permits, the scope permits. */
  lemma {:induction false} CoverageMeans(scope: Target, target: Target)
    ensures TargetCovers(scope, target) <==> Within(scope, target)
  {
    match (scope, target)
    case (InWorkspace(su, sp), InWorkspace(tu, tp)) => WorkspaceCoverage(su, sp, tu, tp);
    case (OnNetwork(allowed), OnNetwork(requested)) => AllCovered(allowed, requested);
    case (OfSecret(su, se), OfSecret(tu, te)) =>
      UriPrefix(su, tu);
      EgressCoverage(se, te);
    case (Children(m), Children(n)) => assert Permits(n, n);
    case _ =>
  }
}
