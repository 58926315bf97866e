/** The string operations of Go's `strings` package that the modelled code relies on. */
module Text {

  datatype Option<+T> = None | Some(value: T)

  predicate SlashFree(s: string) {
    '/' !in s
  }

  /** `strings.Cut(s, sep)` for a one-character separator. */
  datatype Pieces = Pieces(before: string, after: string, found: bool)

  function Cut(s: string, sep: char): (r: Pieces)
    ensures r.found <==> sep in s
    ensures r.found ==> s == r.before + [sep] + r.after
    ensures !r.found ==> r.before == s && r.after == ""
    ensures sep !in r.before
  {
    if s == "" then Pieces("", "", false)
    else if s[0] == sep then Pieces("", s[1..], true)
    else
      var rest := Cut(s[1..], sep);
      if rest.found then Pieces([s[0]] + rest.before, rest.after, true) else Pieces(s, "", false)
  }

  /** A separator that does not occur in the head makes the split unique. */
  lemma JoinInjective(a: string, x: string, b: string, y: string, sep: char)
    requires sep !in a && sep !in b
    requires a + [sep] + x == b + [sep] + y
    ensures a == b && x == y
  {
    var s := a + [sep] + x;
    assert s[|a|] == sep && s[|b|] == sep;
    assert forall i | 0 <= i < |a| :: s[i] == a[i];
    assert forall i | 0 <= i < |b| :: s[i] == b[i];
    assert a == s[..|a|] && b == s[..|a|];
    assert x == s[|a| + 1..] && y == s[|a| + 1..];
  }

  lemma {:induction false} CutOfJoin(a: string, x: string, sep: char)
    requires sep !in a
    ensures Cut(a + [sep] + x, sep) == Pieces(a, x, true)
  {
    var s := a + [sep] + x;
    assert s[|a|] == sep;
    var c := Cut(s, sep);
    JoinInjective(a, x, c.before, c.after, sep);
  }

  lemma {:induction false} CutNotAfter(s: string, sep: char, j: nat)
    requires j < |s| && s[j] == sep
    ensures |Cut(s, sep).before| <= j
  {
    if j == 0 {
    } else {
      CutNotAfter(s[1..], sep, j - 1);
    }
  }

  lemma Assoc<T>(a: seq<T>, b: seq<T>, c: seq<T>)
    ensures (a + b) + c == a + (b + c)
  {
  }

  predicate HasPrefix(s: string, prefix: string) {
    |prefix| <= |s| && s[..|prefix|] == prefix
  }

  predicate HasSuffix(s: string, suffix: string) {
    |suffix| <= |s| && s[|s| - |suffix|..] == suffix
  }
}
