/** Splitting and joining at a separator, and the code-point order on text. */
module Text {
  import opened Common

  function Split<T(==)>(s: seq<T>, sep: T): (parts: seq<seq<T>>)
    ensures |parts| >= 1
  {
    if s == [] then [[]]
    else
      var rest := Split(s[1..], sep);
      if s[0] == sep then [[]] + rest else Prefix([s[0]], rest)
  }

  function Join<T>(parts: seq<seq<T>>, sep: T): seq<T> {
    if parts == [] then []
    else if |parts| == 1 then parts[0]
    else parts[0] + [sep] + Join(parts[1..], sep)
  }

  lemma {:induction false} SplitClean<T>(s: seq<T>, sep: T, i: nat)
    requires i < |Split(s, sep)|
    ensures sep !in Split(s, sep)[i]
  {
    if s != [] {
      var rest := Split(s[1..], sep);
      if s[0] == sep {
        if i > 0 { SplitClean(s[1..], sep, i - 1); }
      } else {
        SplitClean(s[1..], sep, i);
      }
    }
  }

  lemma {:induction false} JoinSplit<T>(s: seq<T>, sep: T)
    ensures Join(Split(s, sep), sep) == s
  {
    if s != [] {
      JoinSplit(s[1..], sep);
      var rest := Split(s[1..], sep);
      if s[0] == sep {
        assert ([[]] + rest)[1..] == rest;
      } else {
        assert Prefix([s[0]], rest)[1..] == rest[1..];
        assert s == [s[0]] + s[1..];
      }
    }
  }

  lemma {:induction false} SplitWhole<T>(s: seq<T>, sep: T)
    requires sep !in s
    ensures Split(s, sep) == [s]
  {
    if s != [] {
      SplitWhole(s[1..], sep);
      assert s == [s[0]] + s[1..];
    }
  }

  /** Puts `head` in front of the first part. */
  function Prefix<T>(head: seq<T>, parts: seq<seq<T>>): seq<seq<T>>
    requires parts != []
  {
    [head + parts[0]] + parts[1..]
  }

  lemma {:induction false} PrefixAppend<T>(head: seq<T>, a: seq<seq<T>>, b: seq<seq<T>>)
    requires a != []
    ensures Prefix(head, a + b) == Prefix(head, a) + b
  {
    assert (a + b)[1..] == a[1..] + b;
  }

  lemma {:induction false} SplitAtSeparator<T>(a: seq<T>, b: seq<T>, sep: T)
    ensures Split(a + [sep] + b, sep) == Split(a, sep) + Split(b, sep)
  {
    var s := a + [sep] + b;
    if a == [] {
      assert s[1..] == b;
    } else {
      SplitAtSeparator(a[1..], b, sep);
      assert s[1..] == a[1..] + [sep] + b && s[0] == a[0];
      PrefixAppend([a[0]], Split(a[1..], sep), Split(b, sep));
      Associative([[]], Split(a[1..], sep), Split(b, sep));
    }
  }

  lemma {:induction false} SplitJoin<T>(parts: seq<seq<T>>, sep: T)
    requires parts != []
    requires forall p :: p in parts ==> sep !in p
    ensures Split(Join(parts, sep), sep) == parts
  {
    assert parts[0] in parts;
    SplitWhole(parts[0], sep);
    if |parts| > 1 {
      forall p | p in parts[1..] ensures sep !in p {
        assert p in parts;
      }
      SplitJoin(parts[1..], sep);
      SplitAtSeparator(parts[0], Join(parts[1..], sep), sep);
      assert parts == [parts[0]] + parts[1..];
    } else {
      assert parts == [parts[0]];
    }
  }

  predicate StartsWith<T(==)>(s: seq<T>, prefix: seq<T>) { prefix <= s }

  predicate EndsWith<T(==)>(s: seq<T>, suffix: seq<T>) {
    |suffix| <= |s| && s[|s| - |suffix|..] == suffix
  }

  /** Position of the first occurrence of `needle` in `s`. */
  function Find<T(==)>(s: seq<T>, needle: seq<T>): (r: Option<nat>)
    ensures r.Some? ==> r.value + |needle| <= |s|
  {
    if |needle| > |s| then None
    else if s[..|needle|] == needle then Some(0)
    else if |needle| == |s| then None
    else match Find(s[1..], needle) case None => None case Some(k) => Some(k + 1)
  }

  lemma {:induction false} FindMatches<T>(s: seq<T>, needle: seq<T>)
    requires Find(s, needle).Some?
    ensures s[Find(s, needle).value..][..|needle|] == needle
  {
    if s[..|needle|] != needle {
      FindMatches(s[1..], needle);
      var k := Find(s[1..], needle).value;
      assert s[k + 1..] == s[1..][k..];
    } else {
      assert s[0..] == s;
    }
  }

  lemma {:induction false} FindIsFirst<T>(s: seq<T>, needle: seq<T>, i: nat)
    requires Find(s, needle).Some? && i < Find(s, needle).value
    ensures s[i..][..|needle|] != needle
  {
    if i == 0 {
      assert s[0..] == s;
    } else {
      FindIsFirst(s[1..], needle, i - 1);
      assert s[i..] == s[1..][i - 1..];
    }
  }

  /** The first separator is right after a text that has none. */
  lemma {:induction false} FindSeparator(a: string, b: string, c: char)
    requires c !in a
    ensures Find(a + [c] + b, [c]) == Some(|a|)
  {
    var s := a + [c] + b;
    if a == [] {
      assert s[..1] == [c];
    } else {
      FindSeparator(a[1..], b, c);
      assert s[1..] == a[1..] + [c] + b;
      assert s[..1] == [a[0]];
    }
  }

  lemma {:induction false} FindAfter(a: string, b: string)
    requires ':' !in a
    ensures Find(a + "://" + b, "://") == Some(|a|)
  {
    var s := a + "://" + b;
    if a == [] {
      assert s[..3] == "://";
    } else {
      FindAfter(a[1..], b);
      assert s[1..] == a[1..] + "://" + b;
      assert s[..3][0] == a[0];
    }
  }

  function SplitOnce(s: string, sep: string): Option<(string, string)> {
    match Find(s, sep)
    case None => None
    case Some(i) => Some((s[..i], s[i + |sep|..]))
  }

  lemma {:induction false} SplitOnceAt(a: string, b: string, c: char)
    requires c !in a
    ensures SplitOnce(a + [c] + b, [c]) == Some((a, b))
  {
    FindSeparator(a, b, c);
    var s := a + [c] + b;
    assert s[..|a|] == a && s[|a| + 1..] == b;
  }

  lemma {:induction false} SplitOnceScheme(a: string, b: string)
    requires ':' !in a
    ensures SplitOnce(a + "://" + b, "://") == Some((a, b))
  {
    FindAfter(a, b);
    var s := a + "://" + b;
    assert s[..|a|] == a && s[|a| + 3..] == b;
  }

  /** What comes before the first separator has none. */
  lemma {:induction false} SplitOnceHead(s: string, c: char)
    requires SplitOnce(s, [c]).Some?
    ensures var (a, b) := SplitOnce(s, [c]).value; c !in a && s == a + [c] + b
  {
    var i := Find(s, [c]).value;
    FindMatches(s, [c]);
    assert s[i..][..1] == [s[i]];
    forall k | 0 <= k < i ensures s[k] != c {
      FindIsFirst(s, [c], k);
      assert s[k..][..1] == [s[k]];
    }
  }

  // ---- Characters ----

  /** ASCII letters and digits. */
  predicate IsAlphanumeric(c: char) { 'a' <= c <= 'z' || 'A' <= c <= 'Z' || '0' <= c <= '9' }

  /** Unicode White_Space. */
  predicate IsSpace(c: char) {
    || '\U{0009}' <= c <= '\U{000D}' || c == ' ' || c == '\U{0085}' || c == '\U{00A0}' || c == '\U{1680}'
    || '\U{2000}' <= c <= '\U{200A}' || c == '\U{2028}' || c == '\U{2029}' || c == '\U{202F}' || c == '\U{205F}' || c == '\U{3000}'
  }

  /** Nothing is left of the text after `trim`. */
  predicate Blank(s: string) { forall c :: c in s ==> IsSpace(c) }

  /** Unicode general category Cc. */
  predicate IsControl(c: char) { c <= '\U{001F}' || '\U{007F}' <= c <= '\U{009F}' }

  // ---- Order ----

  /** Strict lexicographic order by code point: SQLite's BINARY collation and Python's `str` order. */
  predicate Below(a: string, b: string) {
    b != [] && (a == [] || a[0] < b[0] || (a[0] == b[0] && Below(a[1..], b[1..])))
  }

  lemma {:induction false} BelowTotal(a: string, b: string)
    ensures a == b || Below(a, b) || Below(b, a)
  {
    if a != [] && b != [] && a[0] == b[0] {
      BelowTotal(a[1..], b[1..]);
      assert a == [a[0]] + a[1..] && b == [b[0]] + b[1..];
    }
  }

  lemma {:induction false} BelowTransitive(a: string, b: string, c: string)
    requires Below(a, b) && Below(b, c)
    ensures Below(a, c)
  {
    if a != [] && a[0] == b[0] == c[0] {
      BelowTransitive(a[1..], b[1..], c[1..]);
    }
  }

  ghost predicate IsLeast(m: string, s: set<string>) {
    m in s && forall x :: x in s && x != m ==> Below(m, x)
  }

  lemma {:induction false} LeastExists(s: set<string>) returns (m: string)
    requires s != {}
    ensures IsLeast(m, s)
  {
    var x :| x in s;
    if s == {x} {
      m := x;
    } else {
      var n := LeastExists(s - {x});
      BelowTotal(x, n);
      if Below(x, n) {
        m := x;
        forall y | y in s && y != m ensures Below(m, y) {
          if y != n { BelowTransitive(x, n, y); }
        }
      } else {
        m := n;
      }
    }
  }

  /** The elements of `s` in ascending order. */
  ghost function Ascending(s: set<string>): (r: seq<string>)
    ensures forall x :: x in r <==> x in s
    ensures forall i, j :: 0 <= i < j < |r| ==> Below(r[i], r[j])
    ensures Distinct(r)
  {
    if s == {} then []
    else
      LeastExists'(s);
      var m :| IsLeast(m, s);
      var rest := Ascending(s - {m});
      assert forall j :: 0 <= j < |rest| ==> rest[j] in s - {m};
      [m] + rest
  }

  lemma {:induction false} LeastExists'(s: set<string>)
    requires s != {}
    ensures exists m :: IsLeast(m, s)
  {
    var m := LeastExists(s);
    assert IsLeast(m, s);
  }
}
