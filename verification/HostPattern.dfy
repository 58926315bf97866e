/**
  The two tests behind the enterprise allow-list for plugin catalogs. Host patterns and
  GitHub scopes are compared as text; what they mean is a statement about domain labels,
  and about owners and repositories.
 */
module HostPattern {
  import opened Text

  // ---- Text helpers, ASCII only ----

  function LowerChar(c: char): char {
    if 'A' <= c <= 'Z' then (c as int + 32) as char else c
  }

  function ToLower(s: string): string {
    seq(|s|, i requires 0 <= i < |s| => LowerChar(s[i]))
  }

  predicate IsSpace(c: char) {
    c == ' ' || c == '\t' || c == '\n' || c == '\r' || c as int == 11 || c as int == 12
  }

  function TrimSpace(s: string): string {
    if s == "" then ""
    else if IsSpace(s[0]) then TrimSpace(s[1..])
    else if IsSpace(s[|s| - 1]) then TrimSpace(s[..|s| - 1])
    else s
  }

  function TrimSlashes(s: string): (r: string)
    ensures r != "" ==> r[0] != '/' && r[|r| - 1] != '/'
  {
    if s == "" then ""
    else if s[0] == '/' then TrimSlashes(s[1..])
    else if s[|s| - 1] == '/' then TrimSlashes(s[..|s| - 1])
    else s
  }

  /** The same letter, whichever of its two cases it is written in. */
  predicate SameLetter(c: char, d: char) {
    || c == d
    || ('A' <= c <= 'Z' && 'a' <= d <= 'z' && c as int - 'A' as int == d as int - 'a' as int)
    || ('A' <= d <= 'Z' && 'a' <= c <= 'z' && d as int - 'A' as int == c as int - 'a' as int)
  }

  /** Lower-casing forgets the case of ASCII letters and nothing else. */
  lemma LowerIffSameLetters(s: string, t: string)
    ensures ToLower(s) == ToLower(t) <==> |s| == |t| && forall i | 0 <= i < |s| :: SameLetter(s[i], t[i])
  {
    if ToLower(s) == ToLower(t) {
      assert |ToLower(s)| == |s| && |ToLower(t)| == |t|;
      forall i | 0 <= i < |s|
        ensures SameLetter(s[i], t[i])
      {
        assert ToLower(s)[i] == ToLower(t)[i];
      }
    }
  }

  const WHITE_SPACE: seq<char> := [' ', '\t', '\n', '\r', 11 as char, 12 as char]

  /** Trimming takes off all white space at both ends and nothing else. */
  lemma {:induction false} TrimSpaceIs(before: string, core: string, after: string)
    requires (forall c | c in before :: c in WHITE_SPACE) && (forall c | c in after :: c in WHITE_SPACE)
    requires core != "" && core[0] !in WHITE_SPACE && core[|core| - 1] !in WHITE_SPACE
    ensures TrimSpace(before + core + after) == core
    decreases |before| + |after|
  {
    var s := before + core + after;
    if before != "" {
      assert s[0] == before[0] && before[0] in before;
      TrimSpaceIs(before[1..], core, after);
      assert s[1..] == before[1..] + core + after;
    } else {
      assert s[0] == core[0];
      if after == "" {
        assert s == core;
      } else {
        var n := |after| - 1;
        assert s[|s| - 1] == after[n] && after[n] in after;
        TrimSpaceIs(before, core, after[..n]);
        assert s[..|s| - 1] == before + core + after[..n];
      }
    }
  }

  // ---- Host patterns as text ----

  function Normal(pattern: string): string {
    ToLower(TrimSpace(pattern))
  }

  predicate NormalHostMatches(pattern: string, host: string) {
    if pattern == host then true
    else if HasPrefix(pattern, "*.") then HasSuffix(host, pattern[1..])
    else HasSuffix(host, "." + pattern)
  }

  predicate HostMatches(pattern: string, host: string) {
    NormalHostMatches(Normal(pattern), ToLower(host))
  }

  // ---- Domain labels ----

  /** `strings.Split(s, ".")`. */
  function Labels(s: string): (r: seq<string>)
    ensures r != []
  {
    if s == "" then [""]
    else
      var rest := Labels(s[1..]);
      if s[0] == '.' then [""] + rest else [[s[0]] + rest[0]] + rest[1..]
  }

  function Join(labels: seq<string>): string
    requires labels != []
  {
    if |labels| == 1 then labels[0] else labels[0] + ("." + Join(labels[1..]))
  }

  predicate IsTail<T(==)>(a: seq<T>, b: seq<T>) {
    |a| <= |b| && b[|b| - |a|..] == a
  }

  predicate IsProperTail<T(==)>(a: seq<T>, b: seq<T>) {
    |a| < |b| && b[|b| - |a|..] == a
  }

  lemma {:induction false} JoinDot(labels: seq<string>)
    requires labels != []
    ensures Join([""] + labels) == "." + Join(labels)
  {
  }

  lemma {:induction false} JoinCons(c: char, labels: seq<string>)
    requires labels != []
    ensures Join([[c] + labels[0]] + labels[1..]) == [c] + Join(labels)
  {
  }

  lemma {:induction false} JoinOfLabels(s: string)
    ensures Join(Labels(s)) == s
  {
    if s == "" {
    } else {
      JoinOfLabels(s[1..]);
      JoinCons(s[0], Labels(s[1..]));
      JoinDot(Labels(s[1..]));
      assert s == [s[0]] + s[1..];
    }
  }

  /** One more character in front either opens a new label or lengthens the first one. */
  function Prepend(c: char, labels: seq<string>): seq<string>
    requires labels != []
  {
    if c == '.' then [""] + labels else [[c] + labels[0]] + labels[1..]
  }

  lemma {:induction false} LabelsCons(c: char, s: string)
    ensures Labels([c] + s) == Prepend(c, Labels(s))
  {
  }

  lemma PrependConcat(c: char, a: seq<string>, b: seq<string>)
    requires a != []
    ensures Prepend(c, a + b) == Prepend(c, a) + b
  {
  }

  lemma {:induction false} LabelsOfDotted(x: string, p: string)
    ensures Labels(x + ("." + p)) == Labels(x) + Labels(p)
  {
    if x == "" {
      assert x + ("." + p) == ['.'] + p;
      LabelsCons('.', p);
    } else {
      var rest := x[1..];
      LabelsOfDotted(rest, p);
      assert x == [x[0]] + rest;
      Assoc([x[0]], rest, "." + p);
      LabelsCons(x[0], rest + ("." + p));
      LabelsCons(x[0], rest);
      PrependConcat(x[0], Labels(rest), Labels(p));
    }
  }

  lemma {:induction false} JoinConcat(a: seq<string>, b: seq<string>)
    requires a != [] && b != []
    ensures Join(a + b) == Join(a) + "." + Join(b)
  {
    if |a| == 1 {
      assert (a + b)[1..] == b;
    } else {
      JoinConcat(a[1..], b);
      assert (a + b)[1..] == a[1..] + b;
    }
  }

  lemma {:induction false} DottedSuffixTail(p: string, host: string)
    requires HasSuffix(host, "." + p)
    ensures IsProperTail(Labels(p), Labels(host))
  {
    var x := host[..|host| - |p| - 1];
    assert host == x + ("." + p);
    LabelsOfDotted(x, p);
  }

  lemma {:induction false} JoinEndsWith(a: seq<string>, b: seq<string>)
    requires a != [] && b != []
    ensures HasSuffix(Join(a + b), "." + Join(b))
  {
    JoinConcat(a, b);
    assert Join(a + b) == Join(a) + ("." + Join(b));
  }

  lemma {:induction false} TailDottedSuffix(p: string, host: string)
    requires IsProperTail(Labels(p), Labels(host))
    ensures HasSuffix(host, "." + p)
  {
    var l, tail := Labels(host), Labels(p);
    var a := l[..|l| - |tail|];
    JoinEndsWith(a, tail);
    assert l == a + tail;
    JoinOfLabels(p);
    JoinOfLabels(host);
  }

  /** Ending in ".p" is having p's labels as a proper tail. */
  lemma {:induction false} DottedSuffixIff(p: string, host: string)
    ensures HasSuffix(host, "." + p) <==> IsProperTail(Labels(p), Labels(host))
  {
    if HasSuffix(host, "." + p) {
      DottedSuffixTail(p, host);
    }
    if IsProperTail(Labels(p), Labels(host)) {
      TailDottedSuffix(p, host);
    }
  }

  lemma {:induction false} EqualIffSameLabels(p: string, host: string)
    ensures p == host <==> Labels(p) == Labels(host)
  {
    JoinOfLabels(p);
    JoinOfLabels(host);
  }

  /**
    A plain pattern lets in exactly the hosts that have its labels as their last labels;
    "*.q" exactly those with q's labels as proper last labels - or the very text "*.q".
   */
  lemma HostMatchesIff(pattern: string, host: string)
    ensures var p, h := Normal(pattern), ToLower(host);
            HostMatches(pattern, host) <==>
              if HasPrefix(p, "*.") then p == h || IsProperTail(Labels(p[2..]), Labels(h)) else IsTail(Labels(p), Labels(h))
  {
    var p, h := Normal(pattern), ToLower(host);
    if HasPrefix(p, "*.") {
      assert p[1..] == "." + p[2..] by {
        assert p[..2][1] == '.';
      }
      DottedSuffixIff(p[2..], h);
    } else {
      DottedSuffixIff(p, h);
      EqualIffSameLabels(p, h);
      assert IsTail(Labels(p), Labels(h)) <==> IsProperTail(Labels(p), Labels(h)) || Labels(p) == Labels(h);
    }
  }

  // ---- GitHub scopes ----

  function TrimStarSuffix(s: string): string {
    if HasSuffix(s, "/*") then s[..|s| - 2] else s
  }

  predicate GitHubScopeMatches(scopeText: string, ownerRepo: string) {
    var scope := TrimSlashes(ToLower(scopeText));
    var target := ToLower(ownerRepo);
    var owner := Cut(target, '/').before;
    if scope == "" then false
    else if scope == "*" then true
    else if HasSuffix(scope, "/*") then owner == TrimStarSuffix(scope)
    else if '/' !in scope then owner == scope
    else scope == target
  }

  /** What a scope text says. */
  datatype Scope = Nobody | Everybody | OwnerScope(owner: string) | RepoScope(owner: string, repo: string)

  function ParseScope(scopeText: string): Scope {
    var scope := TrimSlashes(ToLower(scopeText));
    var c := Cut(scope, '/');
    if scope == "" then Nobody
    else if scope == "*" then Everybody
    else if !c.found || c.after == "*" then OwnerScope(c.before)
    else if '/' in c.after then Nobody
    else RepoScope(c.before, c.after)
  }

  predicate Covers(scope: Scope, owner: string, repo: string) {
    match scope
    case Nobody => false
    case Everybody => true
    case OwnerScope(o) => owner == o
    case RepoScope(o, r) => owner == o && repo == r
  }

  lemma LowerJoin(owner: string, repo: string)
    ensures ToLower(owner + "/" + repo) == ToLower(owner) + "/" + ToLower(repo)
    ensures SlashFree(owner) ==> SlashFree(ToLower(owner))
  {
  }

  lemma ScopeIsTarget(a: string, b: string, o: string, r: string)
    requires SlashFree(a) && SlashFree(o) && SlashFree(r)
    ensures a + "/" + b == o + "/" + r <==> a == o && b == r
  {
    if a + "/" + b == o + "/" + r {
      JoinInjective(a, b, o, r, '/');
    }
  }

  /** A scope ending in a star names an owner only if the star follows the first slash. */
  lemma {:induction false} StarScope(scope: string, o: string)
    requires HasSuffix(scope, "/*") && SlashFree(o)
    ensures Cut(scope, '/').found
    ensures o == TrimStarSuffix(scope) <==> Cut(scope, '/') == Pieces(o, "*", true)
  {
    var x := TrimStarSuffix(scope);
    assert scope == x + "/" + "*";
    assert scope[|x|] == '/';
    if o == x {
      CutOfJoin(o, "*", '/');
    }
    if Cut(scope, '/') == Pieces(o, "*", true) {
      assert scope == o + "/" + "*";
      assert |o| == |x|;
      assert o == scope[..|o|];
    }
  }

  /** What follows the first slash of a scope that ends in slash and star is the star itself or has a slash of its own. */
  lemma {:induction false} StarOrSlash(scope: string)
    requires HasSuffix(scope, "/*") && Cut(scope, '/').found && Cut(scope, '/').after != "*"
    ensures '/' in Cut(scope, '/').after
  {
    var c, x := Cut(scope, '/'), TrimStarSuffix(scope);
    assert scope == x + "/" + "*";
    if SlashFree(x) {
      CutOfJoin(x, "*", '/');
    } else {
      var j :| 0 <= j < |x| && x[j] == '/';
      assert scope[j] == '/' && scope == c.before + "/" + c.after;
      CutNotAfter(scope, '/', j);
      assert scope[|x|] == '/' && scope[|x|] == c.after[|x| - |c.before| - 1];
    }
  }

  lemma {:induction false} PlainSlashScope(scope: string, o: string, r: string)
    requires '/' in scope && SlashFree(o) && SlashFree(r) && !HasSuffix(scope, "/*")
    ensures var c := Cut(scope, '/');
            c.after != "*" && (scope == o + "/" + r <==> '/' !in c.after && o == c.before && r == c.after)
  {
    var c := Cut(scope, '/');
    assert scope[|c.before|..] == "/" + c.after;
    ScopeIsTarget(c.before, c.after, o, r);
  }

  lemma {:induction false} SlashScope(scope: string, o: string, r: string)
    requires '/' in scope && SlashFree(o) && SlashFree(r)
    ensures var c := Cut(scope, '/');
            (if HasSuffix(scope, "/*") then o == TrimStarSuffix(scope) else scope == o + "/" + r) <==>
            if c.after == "*" then o == c.before else '/' !in c.after && o == c.before && r == c.after
  {
    if HasSuffix(scope, "/*") {
      StarScope(scope, o);
      if Cut(scope, '/').after != "*" {
        StarOrSlash(scope);
      }
    } else {
      PlainSlashScope(scope, o, r);
    }
  }

  /** The test on texts is the meaning of the scope. */
  lemma ScopeMatchesIff(scopeText: string, owner: string, repo: string)
    requires SlashFree(owner) && SlashFree(repo)
    ensures GitHubScopeMatches(scopeText, owner + "/" + repo) <==> Covers(ParseScope(scopeText), ToLower(owner), ToLower(repo))
  {
    var scope := TrimSlashes(ToLower(scopeText));
    var o, r := ToLower(owner), ToLower(repo);
    LowerJoin(owner, repo);
    LowerJoin(repo, owner);
    CutOfJoin(o, r, '/');
    if '/' in scope {
      SlashScope(scope, o, r);
    } else if HasSuffix(scope, "/*") {
      StarScope(scope, o);
    }
  }
}
